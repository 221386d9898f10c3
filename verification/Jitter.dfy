/**
The per-sender jitter buffer (crates/pickle-audio/src/jitter.rs): wrapping sequence numbers, epochs, overflow trimming
and loss accounting.
*/
module Jitter {
  import opened Common

  type Payload = seq<nat>

  const WRAP: int := 0x1_0000_0000
  const HALF: int := 0x8000_0000

  datatype Stats = Stats(received: nat, late: nat, lost: nat, underruns: nat, overflows: nat)
  datatype Anchor = Anchor(wire: int, extended: int)
  datatype Output = Frame(payload: Payload) | Lost

  datatype Buffer = Buffer(target: nat, max: nat, packets: map<int, Payload>, anchor: Option<Anchor>,
                           next: Option<int>, playing: bool, stats: Stats)

  function Empty(target: nat, max: nat): Buffer {
    var t := if target > 1 then target else 1;
    Buffer(t, if max > t then max else t, map[], None, None, false, Stats(0, 0, 0, 0, 0))
  }

  // ---- Extending wire numbers ------------------------------------------------------------------

  /** A 32-bit difference read as signed. */
  function Signed(d: int): (r: int)
    ensures -HALF <= r < HALF && (r - d) % WRAP == 0
  {
    var m := d % WRAP;
    if m < HALF then m else m - WRAP
  }

  function Extend(anchor: Option<Anchor>, wire: int): int {
    match anchor
    case None => 0
    case Some(a) => a.extended + Signed(wire - a.wire)
  }

  // ---- Operations ---------------------------------------------------------------------------------

  predicate IsOldest(packets: map<int, Payload>, k: int) { k in packets && forall j :: j in packets ==> k <= j }

  lemma {:induction false} Pick<T>(s: set<T>) returns (x: T)
    requires |s| > 0
    ensures x in s
  {
    x :| x in s;
  }

  lemma {:induction false} OldestIn(keys: set<int>) returns (k: int)
    requires |keys| > 0
    ensures k in keys && forall j :: j in keys ==> k <= j
    decreases |keys|
  {
    var x := Pick(keys);
    var rest := keys - {x};
    assert forall j :: j in keys ==> j == x || j in rest;
    k := x;
    if |rest| > 0 {
      var y := OldestIn(rest);
      if y < x { k := y; }
    }
  }

  lemma {:induction false} HasOldest(packets: map<int, Payload>)
    requires packets != map[]
    ensures exists k :: IsOldest(packets, k)
  {
    assert |packets.Keys| == |packets|;
    var k := OldestIn(packets.Keys);
    assert IsOldest(packets, k);
  }

  function Oldest(packets: map<int, Payload>): (k: int)
    requires packets != map[]
    ensures IsOldest(packets, k)
  {
    HasOldest(packets);
    var k :| IsOldest(packets, k);
    k
  }

  function TrimStep(b: Buffer): Buffer
    requires b.packets != map[]
  {
    var oldest := Oldest(b.packets);
    b.(packets := b.packets - {oldest}, stats := b.stats.(overflows := b.stats.overflows + 1),
       next := if b.next.Some? && b.next.value <= oldest then Some(oldest + 1) else b.next)
  }

  /** Drop from the front until the cap is met; the playback position follows. */
  function Trim(b: Buffer): Buffer
    decreases |b.packets|
  {
    if |b.packets| <= b.max then b
    else
      assert |TrimStep(b).packets| == |b.packets| - 1 by { OneFewer(b.packets, Oldest(b.packets)); }
      Trim(TrimStep(b))
  }

  lemma {:induction false} OneFewer<K, V>(m: map<K, V>, k: K)
    requires k in m
    ensures |m - {k}| == |m| - 1
  {
    assert (m - {k}).Keys == m.Keys - {k};
    assert |(m - {k}).Keys| == |m - {k}| && |m.Keys| == |m|;
  }

  function Push(b: Buffer, wire: int, payload: Payload): Buffer { PushAt(b, wire, Extend(b.anchor, wire), payload) }

  /** A push under a given extended number. */
  function PushAt(b: Buffer, wire: int, extended: int, payload: Payload): Buffer {
    var seen := b.(stats := b.stats.(received := b.stats.received + 1), anchor := Some(Anchor(wire, extended)));
    if b.next.Some? && extended < b.next.value then seen.(stats := seen.stats.(late := seen.stats.late + 1))
    else Trim(seen.(packets := b.packets[extended := payload]))
  }

  function Started(b: Buffer): Buffer {
    if b.playing || |b.packets| < b.target || b.packets == map[]
    then b
    else b.(playing := true, next := Some(Oldest(b.packets)))
  }

  function Pop(b: Buffer): (Buffer, Option<Output>) {
    var s := Started(b);
    if !s.playing || s.next.None? then (s, None)
    else if s.next.value in s.packets then
      (s.(packets := s.packets - {s.next.value}, next := Some(s.next.value + 1)), Some(Frame(s.packets[s.next.value])))
    else if s.packets == map[] then
      (s.(stats := s.stats.(underruns := s.stats.underruns + 1), playing := false, next := None), None)
    else (s.(stats := s.stats.(lost := s.stats.lost + 1), next := Some(s.next.value + 1)), Some(Lost))
  }

  function Reset(b: Buffer): Buffer { b.(packets := map[], anchor := None, next := None, playing := false) }

  class JitterBuffer {
    const target: nat
    const max: nat
    var packets: map<int, Payload>
    var anchor: Option<Anchor>
    var next: Option<int>
    var playing: bool
    var stats: Stats

    function Value(): Buffer
      reads this
    {
      Buffer(target, max, packets, anchor, next, playing, stats)
    }

    constructor (target: nat, max: nat)
      ensures Value() == Empty(target, max)
    {
      var least := if target > 1 then target else 1;
      this.target, this.max := least, if max > least then max else least;
      packets, anchor, next, playing, stats := map[], None, None, false, Stats(0, 0, 0, 0, 0);
    }

    method PushPacket(wire: int, payload: Payload)
      modifies this
      ensures Value() == Push(old(Value()), wire, payload)
    {
      hide Extend, Trim;
      stats := stats.(received := stats.received + 1);
      var extended := Extend(anchor, wire);
      anchor := Some(Anchor(wire, extended));
      if next.Some? && extended < next.value {
        stats := stats.(late := stats.late + 1);
        return;
      }
      packets := packets[extended := payload];
      TrimLoop();
    }

    method TrimLoop()
      modifies this
      ensures Value() == Trim(old(Value()))
    {
      while |packets| > max
        invariant Trim(Value()) == Trim(old(Value()))
        decreases |packets|
      {
        ghost var before := Value();
        var oldest := Oldest(packets);
        OneFewer(packets, oldest);
        packets := packets - {oldest};
        stats := stats.(overflows := stats.overflows + 1);
        if next.Some? && next.value <= oldest {
          next := Some(oldest + 1);
        }
        assert Value() == TrimStep(before);
        hide TrimStep;
      }
    }

    method PopSlot() returns (out: Option<Output>)
      modifies this
      ensures (Value(), out) == Pop(old(Value()))
    {
      if !playing {
        if |packets| < target || packets == map[] {
          return None;
        }
        playing := true;
        next := Some(Oldest(packets));
      }
      if next.None? {
        return None;
      }
      var slot := next.value;
      if slot in packets {
        out := Some(Frame(packets[slot]));
        packets := packets - {slot};
        next := Some(slot + 1);
        return;
      }
      if packets == map[] {
        stats := stats.(underruns := stats.underruns + 1);
        playing := false;
        next := None;
        return None;
      }
      stats := stats.(lost := stats.lost + 1);
      next := Some(slot + 1);
      return Some(Lost);
    }

    method ResetNow()
      modifies this
      ensures Value() == Reset(old(Value()))
    {
      packets, anchor, next, playing := map[], None, None, false;
    }
  }

  // ---- The buffer's invariant -----------------------------------------------------------------------

  ghost predicate BufferOk(b: Buffer) {
    && 1 <= b.target <= b.max && |b.packets| <= b.max
    && (b.playing <==> b.next.Some?)
    && (b.next.Some? ==> forall k :: k in b.packets ==> b.next.value <= k)
  }

  lemma {:induction false} TrimOnce(b: Buffer)
    requires |b.packets| == b.max + 1
    ensures Trim(b) == TrimStep(b)
  {
    OneFewer(b.packets, Oldest(b.packets));
  }

  lemma {:induction false} Grows(packets: map<int, Payload>, k: int, p: Payload)
    ensures |packets[k := p]| == if k in packets then |packets| else |packets| + 1
  {
    assert packets[k := p].Keys == packets.Keys + {k};
    assert |packets[k := p]| == |packets[k := p].Keys| && |packets| == |packets.Keys|;
  }

  // ---- Runs, and what they are remembered by --------------------------------------------------------

  datatype Event = Arrives(wire: int, payload: Payload) | Plays | Restarts

  /** One emitted slot: when, which, what was handed out, and the last payload pushed for it in that epoch, if any. */
  datatype Emission = Emission(epoch: nat, slot: int, heard: Option<Payload>, pushed: Option<Payload>)

  /** The buffer beside its history. An epoch lasts until a reset or an underrun. */
  datatype World = World(b: Buffer, epoch: nat, pushed: map<int, Payload>, log: seq<Emission>,
                         played: nat, replaced: nat, discarded: nat)

  function Begin(target: nat, max: nat): World { World(Empty(target, max), 0, map[], [], 0, 0, 0) }

  function Heard(out: Output): Option<Payload> { if out.Frame? then Some(out.payload) else None }

  function Lookup(pushed: map<int, Payload>,
                  slot: int): Option<Payload> { if slot in pushed then Some(pushed[slot]) else None }

  /** The slot a pop would answer for. */
  function Slot(b: Buffer): int { if Started(b).next.Some? then Started(b).next.value else 0 }

  function ArriveAt(w: World, wire: int, k: int, payload: Payload): World {
    var late := w.b.next.Some? && k < w.b.next.value;
    w.(b := PushAt(w.b, wire, k, payload), pushed := w.pushed[k := payload],
       replaced := w.replaced + if !late && k in w.b.packets then 1 else 0)
  }

  function Next(w: World, e: Event): World {
    match e
    case Arrives(wire, payload) => ArriveAt(w, wire, Extend(w.b.anchor, wire), payload)
    case Plays =>
      var (b, out) := Pop(w.b);
      if out.Some? then
        w.(b := b, log := w.log + [Emission(w.epoch, Slot(w.b), Heard(out.value), Lookup(w.pushed, Slot(w.b)))],
           played := w.played + if out.value.Frame? then 1 else 0)
      else if w.b.playing then w.(b := b, epoch := w.epoch + 1, pushed := map[])
      else w.(b := b)
    case Restarts =>
      w.(b := Reset(w.b), epoch := w.epoch + 1, pushed := map[], discarded := w.discarded + |w.b.packets|)
  }

  function Run(w: World, events: seq<Event>): World
    decreases |events|
  {
    if events == [] then w else Run(Next(w, events[0]), events[1..])
  }

  /**
  While playing, a pushed slot is buffered or passed. Before, it is buffered or was trimmed from below a full
  buffer.
  */
  ghost predicate Accounted(w: World, s: int) {
    s in w.b.packets ||
    if w.b.playing then w.b.next.Some? && s < w.b.next.value
    else |w.b.packets| == w.b.max && forall k :: k in w.b.packets ==> s < k
  }

  ghost predicate Remembers(w: World) {
    && (forall k :: k in w.b.packets ==> k in w.pushed && w.pushed[k] == w.b.packets[k])
    && (forall s :: s in w.pushed ==> Accounted(w, s))
  }

  /** No slot of this epoch that was emitted lies ahead. */
  ghost predicate Ordered(w: World) {
    && (forall i :: 0 <= i < |w.log| ==> w.log[i].epoch <= w.epoch)
    && (forall i :: 0 <= i < |w.log| && w.log[i].epoch == w.epoch ==> w.b.next.Some? && w.log[i].slot < w.b.next.value)
    && (forall i, j :: 0 <= i < j < |w.log| && w.log[i].epoch == w.log[j].epoch ==> w.log[i].slot < w.log[j].slot)
  }

  ghost predicate Truthful(log: seq<Emission>) { forall i :: 0 <= i < |log| ==> log[i].heard == log[i].pushed }

  ghost predicate Conserved(w: World) {
    w.b.stats.received == w.b.stats.late + w.b.stats.overflows + w.played + w.replaced + w.discarded + |w.b.packets|
  }

  ghost predicate WorldOk(w: World) {
    BufferOk(w.b) && Remembers(w) && Ordered(w) && Truthful(w.log) && Conserved(w)
  }

  // ---- A packet arrives --------------------------------------------------------------------------------

  predicate IsLate(b: Buffer, k: int) { b.next.Some? && k < b.next.value }

  /** The three things a push can do: count a late packet, keep it, or keep it and let the oldest go. */
  lemma {:induction false} PushShape(b: Buffer, wire: int, payload: Payload)
    requires BufferOk(b)
    ensures var k, b' := Extend(b.anchor, wire), Push(b, wire, payload);
            && b'.target == b.target && b'.max == b.max && b'.playing == b.playing
            && b'.anchor == Some(Anchor(wire, k)) && b'.stats.received == b.stats.received + 1
            && (IsLate(b, k) ==>
                  && b'.packets == b.packets && b'.next == b.next
                  && b'.stats.late == b.stats.late + 1 && b'.stats.overflows == b.stats.overflows)
            && (!IsLate(b, k) ==> b'.stats.late == b.stats.late && Kept(b, b', b.packets[k := payload]))
  {
    var k := Extend(b.anchor, wire);
    Grows(b.packets, k, payload);
    if !IsLate(b, k) && |b.packets[k := payload]| > b.max {
      var full := b.(stats := b.stats.(received := b.stats.received + 1), anchor := Some(Anchor(wire, k)),
                     packets := b.packets[k := payload]);
      TrimOnce(full);
    }
  }

  ghost predicate Kept(b: Buffer, b': Buffer, more: map<int, Payload>) {
    if |more| <= b.max then b'.packets == more && b'.next == b.next && b'.stats.overflows == b.stats.overflows
    else
      && more != map[] && b'.packets == more - {Oldest(more)} && b'.stats.overflows == b.stats.overflows + 1
      && b'.next == if b.next.Some? && b.next.value <= Oldest(more) then Some(Oldest(more) + 1) else b.next
  }

  lemma {:induction false} PushKeepsBuffer(b: Buffer, wire: int, payload: Payload)
    requires BufferOk(b)
    ensures BufferOk(Push(b, wire, payload))
  {
    hide PushAt, Extend;
    PushShape(b, wire, payload);
    var k := Extend(b.anchor, wire);
    var more := b.packets[k := payload];
    Grows(b.packets, k, payload);
    if !IsLate(b, k) && |more| > b.max {
      OneFewer(more, Oldest(more));
    }
  }

  lemma {:induction false} PushConserves(w: World, wire: int, payload: Payload)
    requires BufferOk(w.b) && Conserved(w)
    ensures Conserved(Next(w, Arrives(wire, payload)))
  {
    hide PushAt, Extend;
    PushShape(w.b, wire, payload);
    var k := Extend(w.b.anchor, wire);
    var more := w.b.packets[k := payload];
    Grows(w.b.packets, k, payload);
    if !IsLate(w.b, k) && |more| > w.b.max {
      OneFewer(more, Oldest(more));
    }
  }

  lemma {:induction false} PushAccounts(w: World, wire: int, payload: Payload, s: int)
    requires BufferOk(w.b) && (s in w.pushed ==> Accounted(w, s)) && (s == Extend(w.b.anchor, wire) || s in w.pushed)
    ensures Accounted(Next(w, Arrives(wire, payload)), s)
  {
    hide PushAt, Extend;
    PushShape(w.b, wire, payload);
    var k := Extend(w.b.anchor, wire);
    var more := w.b.packets[k := payload];
    Grows(w.b.packets, k, payload);
    if !IsLate(w.b, k) && |more| > w.b.max {
      OneFewer(more, Oldest(more));
      assert Oldest(more) in more;
    }
  }

  lemma {:induction false} PushRemembers(w: World, wire: int, payload: Payload)
    requires BufferOk(w.b) && Remembers(w)
    ensures Remembers(Next(w, Arrives(wire, payload)))
  {
    var w' := Next(w, Arrives(wire, payload));
    forall s | s in w'.pushed ensures Accounted(w', s) {
      PushAccounts(w, wire, payload, s);
    }
    hide PushAt, Extend, Accounted;
    PushShape(w.b, wire, payload);
  }

  lemma {:induction false} PushKeepsWorld(w: World, wire: int, payload: Payload)
    requires WorldOk(w)
    ensures WorldOk(Next(w, Arrives(wire, payload)))
  {
    PushKeepsBuffer(w.b, wire, payload);
    PushConserves(w, wire, payload);
    PushRemembers(w, wire, payload);
    PushShape(w.b, wire, payload);
    hide PushAt, Extend, Remembers, Conserved, BufferOk, Truthful;
  }

  // ---- A slot is played -------------------------------------------------------------------------------------

  lemma {:induction false} StartKeeps(w: World)
    requires WorldOk(w)
    ensures WorldOk(w.(b := Started(w.b)))
  {
    var w' := w.(b := Started(w.b));
    forall s | s in w.pushed ensures Accounted(w', s) {
      assert Accounted(w, s);
    }
  }

  lemma {:induction false} PopAsStarted(b: Buffer)
    requires BufferOk(b)
    ensures Pop(b) == Pop(Started(b)) && Slot(b) == Slot(Started(b))
    ensures Pop(b).1.Some? ==> Started(b).playing
    ensures Pop(b).1.None? && !b.playing ==> Pop(b).0 == b && Started(b) == b
  {
    if Started(b) != b {
      assert Oldest(b.packets) in b.packets;
    }
  }

  lemma EmitKeepsOrder(w: World, b: Buffer, e: Emission)
    requires Ordered(w) && w.b.next.Some? && e.epoch == w.epoch && e.slot == w.b.next.value
    requires b.next == Some(e.slot + 1)
    ensures Ordered(w.(b := b, log := w.log + [e]))
  {
  }

  lemma {:induction false} PlayingPop(w: World)
    requires WorldOk(w) && w.b.playing
    ensures WorldOk(Next(w, Plays))
  {
    var (b, out) := Pop(w.b);
    var slot := w.b.next.value;
    assert Started(w.b) == w.b && Slot(w.b) == slot;
    var w' := Next(w, Plays);
    if slot in w.b.packets {
      OneFewer(w.b.packets, slot);
    }
    forall s | s in w'.pushed ensures Accounted(w', s) {
      assert Accounted(w, s);
    }
    if out.Some? {
      assert slot in w.pushed ==> Accounted(w, slot);
      EmitKeepsOrder(w, b, w'.log[|w.log|]);
      assert w' == w.(b := b, log := w.log + [w'.log[|w.log|]], played := w'.played);
    }
  }

  lemma {:induction false} PopKeepsWorld(w: World)
    requires WorldOk(w)
    ensures WorldOk(Next(w, Plays))
  {
    PopAsStarted(w.b);
    var w' := w.(b := Started(w.b));
    StartKeeps(w);
    if Started(w.b).playing {
      PlayingPop(w');
      assert Next(w, Plays) == Next(w', Plays);
    }
  }

  lemma ResetKeepsWorld(w: World)
    requires WorldOk(w)
    ensures WorldOk(Next(w, Restarts))
  {
  }

  lemma {:induction false} RunKeepsWorld(w: World, events: seq<Event>)
    requires WorldOk(w)
    ensures WorldOk(Run(w, events))
    decreases |events|
  {
    if events != [] {
      NextKeepsWorld(w, events[0]);
      RunKeepsWorld(Next(w, events[0]), events[1..]);
    }
  }

  lemma {:induction false} NextKeepsWorld(w: World, e: Event)
    requires WorldOk(w)
    ensures WorldOk(Next(w, e))
  {
    match e {
      case Arrives(wire, payload) => PushKeepsWorld(w, wire, payload);
      case Plays => PopKeepsWorld(w);
      case Restarts => ResetKeepsWorld(w);
    }
  }

  /**
  Exactly once, over every run: within an epoch slots come out in strictly increasing order, each answer is the last
  payload pushed for its slot in that epoch, and a slot is reported lost only when none was.
  */
  lemma {:induction false} ExactlyOnce(target: nat, max: nat, events: seq<Event>)
    ensures var log := Run(Begin(target, max), events).log;
            && (forall i, j :: 0 <= i < j < |log| && log[i].epoch == log[j].epoch ==> log[i].slot < log[j].slot)
            && (forall i :: 0 <= i < |log| ==> log[i].heard == log[i].pushed)
  {
    RunKeepsWorld(Begin(target, max), events);
  }

  /** Every packet ever received is late, overflowed, played, replaced, discarded by a reset, or still buffered. */
  lemma {:induction false} EveryPacketAccountedFor(target: nat, max: nat, events: seq<Event>)
    ensures var w := Run(Begin(target, max), events);
            w.b.stats.received ==
            w.b.stats.late + w.b.stats.overflows + w.played + w.replaced + w.discarded + |w.b.packets|
    ensures |Run(Begin(target, max), events).b.packets| <= Empty(target, max).max
  {
    RunKeepsWorld(Begin(target, max), events);
    RunKeepsCaps(Begin(target, max), events);
  }

  lemma {:induction false} RunKeepsCaps(w: World, events: seq<Event>)
    requires WorldOk(w)
    ensures Run(w, events).b.max == w.b.max
    decreases |events|
  {
    if events != [] {
      RunKeepsWorld(w, [events[0]]);
      assert Run(w, [events[0]]) == Run(Next(w, events[0]), []) == Next(w, events[0]);
      if events[0].Arrives? {
        PushShape(w.b, events[0].wire, events[0].payload);
      }
      RunKeepsCaps(Next(w, events[0]), events[1..]);
    }
  }

  // ---- Wraparound ------------------------------------------------------------------------------------------

  /** What the sender meant: packets by their true, unbounded numbers. */
  datatype TrueEvent = Sent(number: int, payload: Payload) | Played

  function Wire(number: int): int { number % WRAP }

  function OnWire(e: TrueEvent): Event {
    match e
    case Sent(t, payload) => Arrives(Wire(t), payload)
    case Played => Plays
  }

  function OnTheWire(events: seq<TrueEvent>): (wires: seq<Event>)
    ensures |wires| == |events|
  {
    seq(|events|, i requires 0 <= i < |events| => OnWire(events[i]))
  }

  /** One step as it would be if true numbers travelled: each packet is filed under its distance from the first. */
  function TrueNext(w: World, first: int, e: TrueEvent): World {
    match e
    case Sent(t, payload) => ArriveAt(w, Wire(t), t - first, payload)
    case Played => Next(w, Plays)
  }

  function TrueRun(w: World, first: int, events: seq<TrueEvent>): World
    decreases |events|
  {
    if events == [] then w else TrueRun(TrueNext(w, first, events[0]), first, events[1..])
  }

  function Latest(last: int, e: TrueEvent): int { if e.Sent? then e.number else last }

  /** Successive packets are less than half the number space apart, starting from `last`. */
  predicate Close(last: int, events: seq<TrueEvent>)
    decreases |events|
  {
    events == [] || (-HALF <= Latest(last, events[0]) - last < HALF && Close(Latest(last, events[0]), events[1..]))
  }

  lemma {:induction false} SignedIsTrue(last: int, t: int)
    requires -HALF <= t - last < HALF
    ensures Signed(t % WRAP - last % WRAP) == t - last
  {
    var d, r := t % WRAP - last % WRAP, Signed(t % WRAP - last % WRAP);
    assert t == WRAP * (t / WRAP) + t % WRAP && last == WRAP * (last / WRAP) + last % WRAP;
    assert (t - last) - d == WRAP * (t / WRAP - last / WRAP);
    assert r - d == WRAP * ((r - d) / WRAP);
    assert (t - last) - r == WRAP * (t / WRAP - last / WRAP - (r - d) / WRAP);
    Multiple((t - last) - r, t / WRAP - last / WRAP - (r - d) / WRAP);
  }

  lemma Multiple(x: int, q: int)
    requires x == WRAP * q && -WRAP < x < WRAP
    ensures x == 0
  {
  }

  lemma {:induction false} ExtendIsTrue(first: int, last: int, t: int)
    requires -HALF <= t - last < HALF
    ensures Extend(Some(Anchor(Wire(last), last - first)), Wire(t)) == t - first
  {
    SignedIsTrue(last, t);
  }

  lemma WireTail(events: seq<TrueEvent>)
    requires events != []
    ensures OnTheWire(events)[1..] == OnTheWire(events[1..])
  {
  }

  lemma PopKeepsAnchor(b: Buffer)
    ensures Pop(b).0.anchor == b.anchor
  {
  }

  lemma {:induction false} TrimKeepsAnchor(b: Buffer)
    ensures Trim(b).anchor == b.anchor
    decreases |b.packets|
  {
    if |b.packets| > b.max {
      OneFewer(b.packets, Oldest(b.packets));
      TrimKeepsAnchor(TrimStep(b));
    }
  }

  lemma {:induction false} PushSetsAnchor(b: Buffer, wire: int, k: int, payload: Payload)
    ensures PushAt(b, wire, k, payload).anchor == Some(Anchor(wire, k))
  {
    var seen := b.(stats := b.stats.(received := b.stats.received + 1), anchor := Some(Anchor(wire, k)));
    TrimKeepsAnchor(seen.(packets := b.packets[k := payload]));
  }

  lemma {:induction false} AnchoredStep(w: World, first: int, last: int, e: TrueEvent)
    requires w.b.anchor == Some(Anchor(Wire(last), last - first)) && -HALF <= Latest(last, e) - last < HALF
    ensures Next(w, OnWire(e)) == TrueNext(w, first, e)
    ensures TrueNext(w, first, e).b.anchor == Some(Anchor(Wire(Latest(last, e)), Latest(last, e) - first))
  {
    hide PushAt, Pop, Extend, Wire, Slot;
    if e.Sent? {
      ExtendIsTrue(first, last, e.number);
      PushSetsAnchor(w.b, Wire(e.number), e.number - first, e.payload);
    } else {
      PopKeepsAnchor(w.b);
    }
  }

  lemma {:induction false} AnchoredRun(w: World, first: int, last: int, events: seq<TrueEvent>)
    requires w.b.anchor == Some(Anchor(Wire(last), last - first)) && Close(last, events)
    ensures Run(w, OnTheWire(events)) == TrueRun(w, first, events)
    decreases |events|
  {
    hide Next, TrueNext, OnWire, Wire, Latest;
    if events != [] {
      WireTail(events);
      AnchoredStep(w, first, last, events[0]);
      AnchoredRun(TrueNext(w, first, events[0]), first, Latest(last, events[0]), events[1..]);
    }
  }

  /**
  Wraparound refinement. From any reset state, as long as successive packets are less than half the number space apart,
  running on wire numbers is running on true ones: across any number of rollovers, playback follows the sender's order.
  */
  lemma {:induction false} WireIsTrue(w: World, first: int, payload: Payload, events: seq<TrueEvent>)
    requires w.b.anchor == None && Close(first, events)
    ensures Run(w, OnTheWire([Sent(first, payload)] + events)) == TrueRun(w, first, [Sent(first, payload)] + events)
  {
    var all := [Sent(first, payload)] + events;
    assert all[1..] == events;
    WireTail(all);
    PushSetsAnchor(w.b, Wire(first), 0, payload);
    AnchoredRun(ArriveAt(w, Wire(first), 0, payload), first, first, events);
  }

  function Pushes(events: seq<Event>): nat
    decreases |events|
  {
    if events == [] then 0 else (if events[0].Arrives? then 1 else 0) + Pushes(events[1..])
  }

  ghost predicate Within(anchor: Option<Anchor>,
                         bound: int) { anchor.Some? ==> -bound <= anchor.value.extended <= bound }

  lemma {:induction false} ExtendedWithin(w: World, events: seq<Event>, before: nat)
    requires if before > 0 then Within(w.b.anchor, HALF * (before - 1)) else w.b.anchor == None
    ensures before + Pushes(events) > 0 ==> Within(Run(w, events).b.anchor, HALF * (before + Pushes(events) - 1))
    ensures before + Pushes(events) == 0 ==> Run(w, events).b.anchor == None
    decreases |events|
  {
    if events != [] {
      var w' := Next(w, events[0]);
      match events[0] {
        case Arrives(wire, payload) =>
          PushSetsAnchor(w.b, wire, Extend(w.b.anchor, wire), payload);
          assert HALF * before == HALF * (before - 1) + HALF;
          ExtendedWithin(w', events[1..], before + 1);
        case Plays =>
          PopKeepsAnchor(w.b);
          ExtendedWithin(w', events[1..], before);
        case Restarts =>
          ExtendedWithin(w', events[1..], before);
      }
    }
  }

  /**
  n pushes keep extended numbers within 2^31 * (n - 1) of zero, so a 64-bit number cannot overflow below 2^32
  pushes.
  */
  lemma {:induction false} ExtendedNeverOverflows(target: nat, max: nat, events: seq<Event>)
    ensures Pushes(events) > 0 ==> Within(Run(Begin(target, max), events).b.anchor, HALF * (Pushes(events) - 1))
    ensures 0 < Pushes(events) < WRAP ==> Within(Run(Begin(target, max), events).b.anchor, 0x7FFF_FFFF_FFFF_FFFF)
  {
    ExtendedWithin(Begin(target, max), events, 0);
    if 0 < Pushes(events) < WRAP {
      assert HALF * (Pushes(events) - 1) <= HALF * (WRAP - 2);
    }
  }

  /** A buffer of one, waiting, whose next packet numbered 0 is filed under 0. */
  ghost predicate Waiting(w: World) {
    && w.b.target == 1 && w.b.max == 1 && w.b.packets == map[] && !w.b.playing && w.b.next == None
    && (w.b.anchor == None || w.b.anchor == Some(Anchor(0, 0)))
  }

  lemma OneIn(w: World, p: Payload)
    requires Waiting(w)
    ensures var w' := Next(w, Arrives(0, p));
            && w'.b == w.b.(packets := map[0 := p], anchor := Some(Anchor(0, 0)), stats := w'.b.stats)
            && w'.pushed == w.pushed[0 := p] && w'.log == w.log && w'.epoch == w.epoch
  {
  }

  lemma {:induction false} OneOut(w: World, p: Payload)
    requires w.b.target == 1 && w.b.packets == map[0 := p] && !w.b.playing && 0 in w.pushed && w.pushed[0] == p
    ensures var w' := Next(w, Plays);
            && w'.b == w.b.(packets := map[], next := Some(1), playing := true)
            && w'.log == w.log + [Emission(w.epoch, 0, Some(p), Some(p))] && w'.epoch == w.epoch
  {
    assert Oldest(w.b.packets) == 0;
    assert w.b.packets - {0} == map[];
  }

  lemma RunsDry(w: World)
    requires w.b.playing && w.b.packets == map[] && w.b.next == Some(1)
    ensures var w' := Next(w, Plays);
            && w'.b == w.b.(playing := false, next := None, stats := w'.b.stats)
            && w'.log == w.log && w'.epoch == w.epoch + 1
  {
  }

  lemma {:induction false} RunFrom(w: World, e: Event, rest: seq<Event>)
    ensures Run(w, [e] + rest) == Run(Next(w, e), rest)
    ensures Run(w, []) == w
  {
    hide Next;
    assert ([e] + rest)[1..] == rest;
  }

  lemma {:induction false} RunOfFive(w: World, a: Event, b: Event, c: Event, d: Event, e: Event)
    ensures Run(w, [a, b, c, d, e]) == Next(Next(Next(Next(Next(w, a), b), c), d), e)
  {
    hide Next, Run;
    assert [a, b, c, d, e] == [a] + ([b] + ([c] + ([d] + ([e] + []))));
    var w1 := Next(w, a);
    var w2 := Next(w1, b);
    var w3 := Next(w2, c);
    var w4 := Next(w3, d);
    RunFrom(w, a, [b] + ([c] + ([d] + ([e] + []))));
    RunFrom(w1, b, [c] + ([d] + ([e] + [])));
    RunFrom(w2, c, [d] + ([e] + []));
    RunFrom(w3, d, [e] + []);
    RunFrom(w4, e, []);
    RunFrom(Next(w4, e), e, []);
  }

  /** Exactly once is a promise per epoch: after an underrun a repeated packet is played again. */
  lemma {:induction false} UnderrunForgets(p: Payload)
    ensures Run(Begin(1, 1), [Arrives(0, p), Plays, Plays, Arrives(0, p), Plays]).log ==
            [Emission(0, 0, Some(p), Some(p)), Emission(1, 0, Some(p), Some(p))]
  {
    var w0 := Begin(1, 1);
    assert Waiting(w0) && w0.log == [] && w0.epoch == 0;
    hide Next, Run, Begin;
    OneIn(w0, p);
    var w1 := Next(w0, Arrives(0, p));
    OneOut(w1, p);
    var w2 := Next(w1, Plays);
    RunsDry(w2);
    var w3 := Next(w2, Plays);
    OneIn(w3, p);
    OneOut(Next(w3, Arrives(0, p)), p);
    RunOfFive(w0, Arrives(0, p), Plays, Plays, Arrives(0, p), Plays);
  }

  // ---- When playing starts, and what is counted --------------------------------------------------------

  /** Until `target` packets are buffered nothing plays; then playing starts with the oldest of them. */
  lemma {:induction false} StartsAtTarget(b: Buffer)
    requires BufferOk(b) && !b.playing
    ensures |b.packets| < b.target ==> Pop(b) == (b, None)
    ensures |b.packets| >= b.target ==>
              exists k ::
                && k in b.packets && (forall j :: j in b.packets ==> k <= j)
                && Pop(b).1 == Some(Frame(b.packets[k])) && Pop(b).0.playing && Pop(b).0.next == Some(k + 1)
  {
    if |b.packets| >= b.target {
      assert b.packets != map[];
      assert IsOldest(b.packets, Oldest(b.packets));
    }
  }

  /** So over any run that brings in fewer packets than that, since nothing was playing, nothing is heard. */
  lemma {:induction false} SilentBelowTarget(w: World, events: seq<Event>)
    requires BufferOk(w.b) && !w.b.playing && |w.b.packets| + Pushes(events) < w.b.target
    requires forall i :: 0 <= i < |events| ==> !events[i].Restarts?
    ensures var r := Run(w, events); r.log == w.log && !r.b.playing && r.epoch == w.epoch
    decreases |events|
  {
    hide Push, Extend;
    if events != [] {
      var next := Next(w, events[0]);
      if events[0].Arrives? {
        var k := Extend(w.b.anchor, events[0].wire);
        PushShape(w.b, events[0].wire, events[0].payload);
        PushKeepsBuffer(w.b, events[0].wire, events[0].payload);
        Grows(w.b.packets, k, events[0].payload);
        ArriveIsPush(w, events[0]);
      } else {
        StartsAtTarget(w.b);
      }
      assert forall i :: 0 <= i < |events[1..]| ==> events[1..][i] == events[i + 1];
      SilentBelowTarget(next, events[1..]);
    }
  }

  lemma ArriveIsPush(w: World, e: Event)
    requires e.Arrives?
    ensures Next(w, e).b == Push(w.b, e.wire, e.payload) && Next(w, e).log == w.log && Next(w, e).epoch == w.epoch
  {
    hide PushAt, Extend;
  }

  function LostIn(log: seq<Emission>): nat
    decreases |log|
  {
    if log == [] then 0 else LostIn(log[..|log| - 1]) + if log[|log| - 1].heard.None? then 1 else 0
  }

  function RestartsIn(events: seq<Event>): nat {
    if events == [] then 0 else (if events[0].Restarts? then 1 else 0) + RestartsIn(events[1..])
  }

  lemma {:induction false} StepCounts(w: World, e: Event)
    requires BufferOk(w.b)
    ensures var next := Next(w, e);
            && next.b.stats.lost - LostIn(next.log) == w.b.stats.lost - LostIn(w.log)
            && next.epoch - next.b.stats.underruns ==
               w.epoch - w.b.stats.underruns + if e.Restarts? then 1 else 0
  {
    match e
    case Arrives(wire, payload) => PushCounts(w.b, wire, payload);
    case Plays =>
      var (b, out) := Pop(w.b);
      if out.Some? {
        var log := Next(w, e).log;
        assert log[..|log| - 1] == w.log;
      }
    case Restarts =>
  }

  lemma {:induction false} PushCounts(b: Buffer, wire: int, payload: Payload)
    ensures var s := Push(b, wire, payload).stats; s.lost == b.stats.lost && s.underruns == b.stats.underruns
  {
    var k := Extend(b.anchor, wire);
    TrimCounts(b.(stats := b.stats.(received := b.stats.received + 1), anchor := Some(Anchor(wire, k)),
                  packets := b.packets[k := payload]));
  }

  lemma {:induction false} TrimCounts(b: Buffer)
    ensures Trim(b).stats.lost == b.stats.lost && Trim(b).stats.underruns == b.stats.underruns
    decreases |b.packets|
  {
    if |b.packets| > b.max {
      OneFewer(b.packets, Oldest(b.packets));
      TrimCounts(TrimStep(b));
    }
  }

  /**
  The counters tell the truth: one loss for each slot answered without a packet, one underrun for each epoch it
  ends.
  */
  lemma {:induction false} CountersAreTrue(target: nat, max: nat, events: seq<Event>)
    ensures var r := Run(Begin(target, max), events);
            r.b.stats.lost == LostIn(r.log) && r.epoch == r.b.stats.underruns + RestartsIn(events)
  {
    CountedFrom(Begin(target, max), events);
  }

  lemma {:induction false} CountedFrom(w: World, events: seq<Event>)
    requires WorldOk(w)
    ensures var r := Run(w, events);
            && r.b.stats.lost - LostIn(r.log) == w.b.stats.lost - LostIn(w.log)
            && r.epoch - r.b.stats.underruns == w.epoch - w.b.stats.underruns + RestartsIn(events)
    decreases |events|
  {
    hide Next, WorldOk, LostIn;
    if events != [] {
      WorldBuffer(w);
      StepCounts(w, events[0]);
      NextKeepsWorld(w, events[0]);
      CountedFrom(Next(w, events[0]), events[1..]);
    }
  }

  lemma WorldBuffer(w: World)
    requires WorldOk(w)
    ensures BufferOk(w.b)
  {
  }
}
