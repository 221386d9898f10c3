/**
The voice gate and the transmit half of capture: what a listener hears of one microphone
(crates/pickle-audio/src/vad.rs, `Capture::process` in crates/pickle-audio/src/engine.rs, the numbering in codec.rs).

A frame's loudness enters as a level, and whether the encoder accepts the frame as a flag.
*/
module Burst {

  /** A level in dBFS as a float gives it: digital silence is minus infinity and a broken frame is not a number. */
  datatype Level = Decibels(value: real) | NegativeInfinity | PositiveInfinity | NotANumber

  predicate AtLeast(a: Level, b: Level) {
    match a
    case NotANumber => false
    case PositiveInfinity => !b.NotANumber?
    case NegativeInfinity => b.NegativeInfinity?
    case Decibels(x) => b.NegativeInfinity? || (b.Decibels? && x >= b.value)
  }

  datatype GateMode = VoiceActivity | PushToTalk | Continuous
  datatype Activity = Silent | BurstStart | Speaking | BurstEnd

  const FRAME_MS: nat := 20

  /** The fewest frames that last this long. */
  function HangoverFrames(ms: nat): (n: nat)
    ensures n * 20 >= ms && (n > 0 ==> (n - 1) * 20 < ms)
  {
    (ms + FRAME_MS - 1) / FRAME_MS
  }

  datatype Gate = Gate(mode: GateMode, openAt: Level, closeAt: Level, hangover: nat, remaining: nat, open: bool)

  /** The hysteresis: an open gate is judged by the lower threshold. */
  predicate WantsOpen(g: Gate, level: Level, held: bool) {
    match g.mode
    case Continuous => true
    case PushToTalk => held
    case VoiceActivity => AtLeast(level, if g.open then g.closeAt else g.openAt)
  }

  function Update(g: Gate, level: Level, held: bool): (Gate, Activity) {
    if WantsOpen(g, level, held) then
      (g.(remaining := g.hangover, open := true), if g.open then Speaking else BurstStart)
    else if !g.open then (g, Silent)
    else if g.remaining > 1 then (g.(remaining := g.remaining - 1), Speaking)
    else (g.(remaining := 0, open := false), BurstEnd)
  }

  function Close(g: Gate): (Gate, Activity) {
    if g.open then (g.(open := false, remaining := 0), BurstEnd) else (g, Silent)
  }

  class VoiceGate {
    var mode: GateMode
    var openAt: Level
    var closeAt: Level
    var hangoverFrames: nat
    var hangoverRemaining: nat
    var open: bool
    var lastLevel: Level

    function Value(): Gate
      reads this
    {
      Gate(mode, openAt, closeAt, hangoverFrames, hangoverRemaining, open)
    }

    /** Closing above opening would make the gate oscillate, so the lower of the two is used. */
    constructor (mode: GateMode, openAt: Level, closeAt: Level, hangoverMs: nat)
      ensures !open && hangoverRemaining == 0 && hangoverFrames == HangoverFrames(hangoverMs)
      ensures this.mode == mode && this.openAt == openAt
      ensures forall level :: AtLeast(level, openAt) ==> AtLeast(level, this.closeAt)
    {
      this.mode, this.openAt := mode, openAt;
      this.closeAt := if closeAt.NotANumber? || AtLeast(closeAt, openAt) then openAt else closeAt;
      hangoverFrames, hangoverRemaining, open := HangoverFrames(hangoverMs), 0, false;
      lastLevel := NegativeInfinity;
    }

    method UpdateFrame(level: Level, held: bool) returns (activity: Activity)
      modifies this
      ensures (Value(), activity) == Update(old(Value()), level, held) && lastLevel == level
    {
      lastLevel := level;
      var wantOpen := match mode {
        case Continuous => true
        case PushToTalk => held
        case VoiceActivity => if open then AtLeast(lastLevel, closeAt) else AtLeast(lastLevel, openAt)
      };
      if wantOpen {
        hangoverRemaining := hangoverFrames;
        if open {
          activity := Speaking;
        } else {
          open := true;
          activity := BurstStart;
        }
      } else if open {
        if hangoverRemaining > 0 {
          hangoverRemaining := hangoverRemaining - 1;
          if hangoverRemaining == 0 {
            open := false;
            activity := BurstEnd;
          } else {
            activity := Speaking;
          }
        } else {
          open := false;
          activity := BurstEnd;
        }
      } else {
        activity := Silent;
      }
    }

    method CloseNow() returns (activity: Activity)
      modifies this
      ensures (Value(), activity) == Close(old(Value())) && lastLevel == old(lastLevel)
    {
      if open {
        open, hangoverRemaining := false, 0;
        activity := BurstEnd;
      } else {
        activity := Silent;
      }
    }
  }

  // ---- Transmitting ---------------------------------------------------------------------------

  const START: nat := 1
  const END: nat := 2
  const WRAP: nat := 0x1_0000_0000

  function Flags(a: Activity): nat { if a == BurstStart then START else if a == BurstEnd then END else 0 }

  datatype Packet = Packet(seqNo: nat, flags: nat)

  /** What the controls and the microphone hold when one frame is processed, and whether it encodes. */
  datatype Tick = Tick(mode: GateMode, muted: bool, held: bool, level: Level, encodes: bool)

  datatype Sender = Sender(gate: Gate, transmitting: bool, nextSeq: nat)

  function Judge(s: Sender, t: Tick): (Gate, Activity) {
    var g := s.gate.(mode := t.mode);
    if !t.muted then Update(g, t.level, t.held)
    else if s.transmitting then Close(g)
    else (g, Silent)
  }

  function Step(s: Sender, t: Tick): (Sender, seq<Packet>) {
    var (g, a) := Judge(s, t);
    if a == Silent then (s.(gate := g, transmitting := false), [])
    else
      var n := if a == BurstStart then 0 else s.nextSeq;
      var on := a != BurstEnd;
      if t.encodes then (Sender(g, on, (n + 1) % WRAP), [Packet(n, Flags(a))]) else (Sender(g, on, n), [])
  }

  /** `Capture::process`, with the gate as the object it is. */
  class Transmitter {
    const gate: VoiceGate
    var transmitting: bool
    var nextSeq: nat

    function Value(): Sender
      reads this, gate
    {
      Sender(gate.Value(), transmitting, nextSeq)
    }

    constructor (gate: VoiceGate)
      ensures this.gate == gate && !transmitting && nextSeq == 0
    {
      this.gate, transmitting, nextSeq := gate, false, 0;
    }

    method Process(t: Tick) returns (sent: seq<Packet>)
      modifies this, gate
      ensures (Value(), sent) == Step(old(Value()), t)
    {
      gate.mode := t.mode;
      var activity := Silent;
      if t.muted {
        if transmitting {
          activity := gate.CloseNow();
        }
      } else {
        activity := gate.UpdateFrame(t.level, t.held);
      }
      if activity == Silent {
        transmitting := false;
        return [];
      }
      if activity == BurstStart {
        nextSeq := 0;
      }
      transmitting := activity != BurstEnd;
      if t.encodes {
        sent := [Packet(nextSeq, Flags(activity))];
        nextSeq := (nextSeq + 1) % WRAP;
      } else {
        sent := [];
      }
    }
  }

  // ---- Whole runs -------------------------------------------------------------------------------

  function RunState(s: Sender, ticks: seq<Tick>): Sender
    decreases |ticks|
  {
    if ticks == [] then s else Step(RunState(s, ticks[..|ticks| - 1]), ticks[|ticks| - 1]).0
  }

  function Sent(s: Sender, ticks: seq<Tick>): seq<Packet>
    decreases |ticks|
  {
    if ticks == [] then []
    else Sent(s, ticks[..|ticks| - 1]) + Step(RunState(s, ticks[..|ticks| - 1]), ticks[|ticks| - 1]).1
  }

  ghost predicate Idle(s: Sender) { !s.gate.open && !s.transmitting }

  ghost predicate AllEncode(ticks: seq<Tick>) { forall i :: 0 <= i < |ticks| ==> ticks[i].encodes }

  /** The transmit flag is the gate's own state, whatever the user does and whether or not frames encode. */
  lemma {:induction false} TransmittingIsOpen(s: Sender, ticks: seq<Tick>)
    requires Idle(s)
    ensures RunState(s, ticks).transmitting == RunState(s, ticks).gate.open
    decreases |ticks|
  {
    if ticks != [] {
      TransmittingIsOpen(s, ticks[..|ticks| - 1]);
    }
  }

  /** Start exactly where nothing came before or a burst just ended, numbered 0, 1, 2, ... from each start. */
  ghost predicate Grammatical(packets: seq<Packet>) {
    forall i :: 0 <= i < |packets| ==> FollowsOn(packets, i)
  }

  ghost predicate FollowsOn(packets: seq<Packet>, i: nat)
    requires i < |packets|
  {
    && packets[i].flags in {0, START, END}
    && (packets[i].flags == START <==> i == 0 || packets[i - 1].flags == END)
    && packets[i].seqNo == if packets[i].flags == START then 0 else (packets[i - 1].seqNo + 1) % WRAP
  }

  lemma {:induction false} GrammarGrows(packets: seq<Packet>, p: Packet)
    requires Grammatical(packets) && FollowsOn(packets + [p], |packets|)
    ensures Grammatical(packets + [p])
  {
    forall i | 0 <= i < |packets + [p]| ensures FollowsOn(packets + [p], i) {
      if i < |packets| {
        assert FollowsOn(packets, i);
      }
    }
  }

  /** The sender agrees with what it last sent. */
  ghost predicate InStep(s: Sender, packets: seq<Packet>) {
    && (s.transmitting <==> packets != [] && packets[|packets| - 1].flags != END)
    && s.transmitting == s.gate.open
    && (s.transmitting ==> s.nextSeq == (packets[|packets| - 1].seqNo + 1) % WRAP)
  }

  lemma {:induction false} StepKeepsGrammar(s: Sender, t: Tick, packets: seq<Packet>)
    requires Grammatical(packets) && InStep(s, packets) && t.encodes
    ensures Grammatical(packets + Step(s, t).1) && InStep(Step(s, t).0, packets + Step(s, t).1)
  {
    var sent := Step(s, t).1;
    if sent == [] {
      assert packets + sent == packets;
    } else {
      GrammarGrows(packets, sent[0]);
    }
  }

  /** Burst grammar over every run: any frames, any muting, keying and mode changes. */
  lemma {:induction false} RunIsGrammatical(s: Sender, ticks: seq<Tick>)
    requires Idle(s) && AllEncode(ticks)
    ensures Grammatical(Sent(s, ticks)) && InStep(RunState(s, ticks), Sent(s, ticks))
    decreases |ticks|
  {
    if ticks != [] {
      var before := ticks[..|ticks| - 1];
      RunIsGrammatical(s, before);
      StepKeepsGrammar(RunState(s, before), ticks[|ticks| - 1], Sent(s, before));
    }
  }

  /** A whole burst: a start, any number of plain frames, an end, as the two flag bits say, numbered from 0. */
  ghost predicate WholeBurst(packets: seq<Packet>) {
    && |packets| >= 2 && packets[0].flags == 1 && packets[|packets| - 1].flags == 2
    && (forall i :: 0 < i < |packets| - 1 ==> packets[i].flags == 0)
    && Numbered(packets)
  }

  ghost predicate UnfinishedBurst(packets: seq<Packet>) {
    && |packets| >= 1 && packets[0].flags == 1
    && (forall i :: 0 < i < |packets| ==> packets[i].flags == 0)
    && Numbered(packets)
  }

  ghost predicate Numbered(packets: seq<Packet>) { forall i :: 0 <= i < |packets| ==> packets[i].seqNo == i % WRAP }

  /** (Start Speaking* End)*, the last burst possibly unfinished. */
  ghost predicate Bursts(packets: seq<Packet>)
    decreases |packets|
  {
    packets == [] || UnfinishedBurst(packets)
    || exists k :: 0 < k <= |packets| && WholeBurst(packets[..k]) && Bursts(packets[k..])
  }

  lemma {:induction false} NumberedFrom(packets: seq<Packet>, i: nat)
    requires Grammatical(packets) && i < |packets| && forall j :: 0 < j <= i ==> packets[j].flags != START
    ensures packets[i].seqNo == i % WRAP
  {
    assert FollowsOn(packets, i);
    if i > 0 {
      NumberedFrom(packets, i - 1);
    }
  }

  lemma {:induction false} FirstEnd(packets: seq<Packet>) returns (k: nat)
    requires Grammatical(packets) && packets != []
    ensures 0 < k <= |packets| && (k < |packets| ==> packets[k - 1].flags == END)
    ensures forall i :: 0 <= i < k - 1 ==> packets[i].flags != END
  {
    k := 1;
    while k < |packets| && packets[k - 1].flags != END
      invariant 0 < k <= |packets| && forall i :: 0 <= i < k - 1 ==> packets[i].flags != END
    {
      k := k + 1;
    }
  }

  lemma {:induction false} RestIsGrammatical(packets: seq<Packet>, k: nat)
    requires Grammatical(packets) && 0 < k <= |packets| && packets[k - 1].flags == END
    ensures Grammatical(packets[k..])
  {
    forall i | 0 <= i < |packets[k..]| ensures FollowsOn(packets[k..], i) {
      assert FollowsOn(packets, k + i);
    }
  }

  /** The local rule is the grammar: every grammatical stream splits into bursts. */
  lemma {:induction false} GrammarIsBursts(packets: seq<Packet>)
    requires Grammatical(packets)
    ensures Bursts(packets)
    decreases |packets|
  {
    if packets != [] {
      var k := FirstEnd(packets);
      forall i | 0 <= i < k ensures (packets[i].flags == START <==> i == 0) && packets[i].flags in {0, START, END} {
        assert FollowsOn(packets, i);
      }
      forall i | 0 <= i < k ensures packets[i].seqNo == i % WRAP {
        NumberedFrom(packets, i);
      }
      if packets[k - 1].flags == END {
        RestIsGrammatical(packets, k);
        GrammarIsBursts(packets[k..]);
        assert WholeBurst(packets[..k]);
      }
    }
  }

  /** What any run sends is bursts, and the last one is unfinished exactly while the sender is transmitting. */
  lemma {:induction false} RunSendsBursts(s: Sender, ticks: seq<Tick>)
    requires Idle(s) && AllEncode(ticks)
    ensures Bursts(Sent(s, ticks))
    ensures RunState(s, ticks).transmitting <==>
              Sent(s, ticks) != [] && Sent(s, ticks)[|Sent(s, ticks)| - 1].flags != END
  {
    RunIsGrammatical(s, ticks);
    GrammarIsBursts(Sent(s, ticks));
  }

  /** However long a mute lasts, it sends at most one frame, which is the end of the burst it cut short. */
  lemma {:induction false} MuteSendsOnlyTheEnd(s: Sender, ticks: seq<Tick>)
    requires s.transmitting == s.gate.open && AllEncode(ticks) && forall i :: 0 <= i < |ticks| ==> ticks[i].muted
    ensures Sent(s, ticks) == if s.transmitting && ticks != [] then [Packet(s.nextSeq, END)] else []
    ensures ticks != [] ==> !RunState(s, ticks).transmitting && !RunState(s, ticks).gate.open
    decreases |ticks|
  {
    if ticks != [] {
      MuteSendsOnlyTheEnd(s, ticks[..|ticks| - 1]);
    }
  }

  // ---- Release -------------------------------------------------------------------------------------

  /** Unmuted, and below the gate for as long as the gate is open. */
  ghost predicate Quiet(g: Gate, t: Tick) {
    !t.muted && t.encodes && !WantsOpen(g.(mode := t.mode, open := true), t.level, t.held)
  }

  function ReleaseFrames(hangover: nat): nat { if hangover > 1 then hangover else 1 }

  function Tail(first: nat, n: nat, release: nat): seq<Packet> {
    seq(if n < release then n else release, i => Packet((first + i) % WRAP, if i == release - 1 then END else 0))
  }

  lemma {:induction false} ReleaseState(s: Sender, ticks: seq<Tick>)
    requires s.gate.open && s.transmitting && s.gate.remaining == s.gate.hangover && s.nextSeq < WRAP
    requires forall i :: 0 <= i < |ticks| ==> Quiet(s.gate, ticks[i])
    requires |ticks| < ReleaseFrames(s.gate.hangover)
    ensures var r := RunState(s, ticks);
            && r.gate == s.gate.(mode := r.gate.mode, remaining := s.gate.hangover - |ticks|) && r.transmitting
            && r.nextSeq == (s.nextSeq + |ticks|) % WRAP
    ensures Sent(s, ticks) == Tail(s.nextSeq, |ticks|, ReleaseFrames(s.gate.hangover))
    decreases |ticks|
  {
    hide AtLeast, Tail;
    if ticks == [] {
      NoTail(s.nextSeq, ReleaseFrames(s.gate.hangover));
    } else {
      var before := ticks[..|ticks| - 1];
      ReleaseState(s, before);
      assert Quiet(s.gate, ticks[|ticks| - 1]);
      NextNumber(s.nextSeq, |before|);
      TailGrows(s.nextSeq, |before|, ReleaseFrames(s.gate.hangover));
    }
  }

  lemma NoTail(first: nat, release: nat)
    ensures Tail(first, 0, release) == []
  {
  }

  lemma TailGrows(first: nat, n: nat, release: nat)
    requires n + 1 < release
    ensures Tail(first, n + 1, release) == Tail(first, n, release) + [Packet((first + n) % WRAP, 0)]
  {
  }

  lemma NextNumber(first: nat, n: nat)
    ensures ((first + n) % WRAP + 1) % WRAP == (first + n + 1) % WRAP
  {
  }

  /** After the last loud frame, exactly max(1, hangover) quiet frames are still sent, the last of them the end. */
  lemma {:induction false} ReleaseLasts(s: Sender, ticks: seq<Tick>)
    requires s.gate.open && s.transmitting && s.gate.remaining == s.gate.hangover && s.nextSeq < WRAP
    requires forall i :: 0 <= i < |ticks| ==> Quiet(s.gate, ticks[i])
    requires forall level :: AtLeast(level, s.gate.openAt) ==> AtLeast(level, s.gate.closeAt)
    requires |ticks| >= ReleaseFrames(s.gate.hangover)
    ensures Sent(s, ticks) == Tail(s.nextSeq, |ticks|, ReleaseFrames(s.gate.hangover))
    ensures var r := RunState(s, ticks);
            !r.gate.open && !r.transmitting && r.gate.openAt == s.gate.openAt && r.gate.closeAt == s.gate.closeAt
    decreases |ticks|
  {
    var before, t := ticks[..|ticks| - 1], ticks[|ticks| - 1];
    var release := ReleaseFrames(s.gate.hangover);
    assert Quiet(s.gate, t);
    if |before| < release {
      ReleaseState(s, before);
      assert Tail(s.nextSeq, |ticks|, release) ==
             Tail(s.nextSeq, |before|, release) + [Packet((s.nextSeq + |before|) % WRAP, END)];
    } else {
      ReleaseLasts(s, before);
    }
  }

  // ---- What opens the gate ----------------------------------------------------------------------------

  ghost predicate AllIn(ticks: seq<Tick>, mode: GateMode) {
    forall i :: 0 <= i < |ticks| ==> ticks[i].mode == mode && !ticks[i].muted && ticks[i].encodes
  }

  /** How many frames ago the key was last held. */
  function Since(ticks: seq<Tick>): int
    decreases |ticks|
  {
    if ticks == [] then -1
    else if ticks[|ticks| - 1].held then 0
    else
      var before := Since(ticks[..|ticks| - 1]);
      if before < 0 then -1 else before + 1
  }

  lemma {:induction false} SinceIs(ticks: seq<Tick>, release: nat)
    ensures 0 <= Since(ticks) <= release <==>
            exists i :: 0 <= i < |ticks| && ticks[i].held && |ticks| - 1 - i <= release
    ensures Since(ticks) < |ticks|
    decreases |ticks|
  {
    if ticks != [] && !ticks[|ticks| - 1].held {
      var before := ticks[..|ticks| - 1];
      if release > 0 {
        SinceIs(before, release - 1);
        if i :| 0 <= i < |ticks| && ticks[i].held && |ticks| - 1 - i <= release {
          assert before[i].held;
        }
        if i :| 0 <= i < |before| && before[i].held && |before| - 1 - i <= release - 1 {
          assert ticks[i].held;
        }
      } else {
        SinceIs(before, 0);
      }
    }
  }

  lemma {:induction false} KeyedState(s: Sender, ticks: seq<Tick>)
    requires Idle(s) && AllIn(ticks, PushToTalk)
    ensures var r, q, release := RunState(s, ticks), Since(ticks), ReleaseFrames(s.gate.hangover);
            && r.gate.hangover == s.gate.hangover && r.transmitting == r.gate.open
            && (r.gate.open <==> 0 <= q < release) && (r.gate.open && q > 0 ==> r.gate.remaining == s.gate.hangover - q)
            && (r.gate.open && q == 0 ==> r.gate.remaining == s.gate.hangover)
    decreases |ticks|
  {
    if ticks != [] {
      KeyedState(s, ticks[..|ticks| - 1]);
    }
  }

  /** With push-to-talk a frame is sent exactly when the key is held or was, at most max(1, hangover) frames ago. */
  lemma {:induction false} PushToTalkSends(s: Sender, ticks: seq<Tick>)
    requires Idle(s) && AllIn(ticks, PushToTalk) && ticks != []
    ensures Sent(s, ticks) != Sent(s, ticks[..|ticks| - 1]) <==>
            exists i ::
              0 <= i < |ticks| && ticks[i].held && |ticks| - 1 - i <= ReleaseFrames(s.gate.hangover)
  {
    var before, t := ticks[..|ticks| - 1], ticks[|ticks| - 1];
    KeyedState(s, before);
    SinceIs(ticks, ReleaseFrames(s.gate.hangover));
    var sent := Step(RunState(s, before), t).1;
    assert |Sent(s, ticks)| == |Sent(s, before)| + |sent|;
  }

  /** An open microphone sends every frame. */
  lemma {:induction false} ContinuousSends(s: Sender, ticks: seq<Tick>)
    requires s.transmitting == s.gate.open && AllIn(ticks, Continuous)
    ensures |Sent(s, ticks)| == |ticks| && (ticks != [] ==> RunState(s, ticks).gate.open)
    ensures RunState(s, ticks).transmitting == RunState(s, ticks).gate.open
    decreases |ticks|
  {
    if ticks != [] {
      ContinuousSends(s, ticks[..|ticks| - 1]);
    }
  }

  lemma {:induction false} GateKeepsThresholds(s: Sender, ticks: seq<Tick>)
    ensures var g := RunState(s, ticks).gate; g.openAt == s.gate.openAt && g.closeAt == s.gate.closeAt
    decreases |ticks|
  {
    if ticks != [] {
      GateKeepsThresholds(s, ticks[..|ticks| - 1]);
    }
  }

  /** With voice activity nothing is sent until a frame reaches the upper threshold. */
  lemma {:induction false} BelowSendsNothing(s: Sender, ticks: seq<Tick>)
    requires Idle(s) && AllIn(ticks, VoiceActivity)
    requires forall i :: 0 <= i < |ticks| ==> !AtLeast(ticks[i].level, s.gate.openAt)
    ensures Sent(s, ticks) == [] && Idle(RunState(s, ticks))
    decreases |ticks|
  {
    hide AtLeast;
    if ticks != [] {
      BelowSendsNothing(s, ticks[..|ticks| - 1]);
      GateKeepsThresholds(s, ticks[..|ticks| - 1]);
    }
  }

  /** One that does opens a burst, and every frame after it is sent that reaches the lower one. */
  lemma {:induction false} LoudSends(s: Sender, ticks: seq<Tick>)
    requires Idle(s) && AllIn(ticks, VoiceActivity) && ticks != [] && AtLeast(ticks[0].level, s.gate.openAt)
    requires forall i :: 0 < i < |ticks| ==> AtLeast(ticks[i].level, s.gate.closeAt)
    ensures |Sent(s, ticks)| == |ticks| && RunState(s, ticks).gate.open && RunState(s, ticks).transmitting
    decreases |ticks|
  {
    hide AtLeast;
    var before := ticks[..|ticks| - 1];
    GateKeepsThresholds(s, before);
    if before != [] {
      LoudSends(s, before);
    } else {
      assert RunState(s, before) == s && Sent(s, before) == [];
    }
  }
}
