/**
Mixing every speaker into one frame (crates/pickle-audio/src/mixer.rs). A decoder is any function of what it has been
given so far, and may fail; samples are exact reals.
*/
module Mixing {
  import opened Common
  import opened Jitter
  import Burst

  type ClientId = nat

  const FRAME: nat := 960
  const IDLE_FRAMES: nat := 100
  const START: nat := 1

  datatype Input = Packet(payload: Payload) | Conceal
  type Decoder = seq<Input> -> Option<seq<real>>

  datatype Voice = Voice(sender: ClientId, seqNo: nat, flags: nat, payload: Payload)
  datatype Stream = Stream(jitter: Buffer, history: seq<Input>, gain: real, muted: bool, speaking: bool, idle: nat)
  type Streams = map<ClientId, Stream>

  function NewStream(): Stream { Stream(Empty(3, 16), [], 1.0, false, false, 0) }

  predicate StartsBurst(flags: nat) { flags % 2 == START }

  // ---- One step of one stream --------------------------------------------------------------------------

  function Received(s: Stream, v: Voice): Stream {
    var b := if StartsBurst(v.flags) then Reset(s.jitter) else s.jitter;
    s.(idle := 0, jitter := Push(b, v.seqNo, v.payload))
  }

  /** Pop a slot, decode or conceal it, and keep count of the silence. */
  function Advance(s: Stream, decode: Decoder): (Stream, Option<seq<real>>) {
    var (b, out) := Pop(s.jitter);
    if out.None? then (s.(jitter := b, speaking := false, idle := s.idle + 1), None)
    else
      var history := s.history + [if out.value.Frame? then Packet(out.value.payload) else Conceal];
      var pcm := decode(history);
      if pcm.None? then (s.(jitter := b, history := history, speaking := false, idle := s.idle + 1), None)
      else (s.(jitter := b, history := history, speaking := true, idle := 0), pcm)
  }

  predicate Finished(s: Stream) { s.idle > IDLE_FRAMES }

  function Advanced(streams: Streams, decode: Decoder): Streams {
    map c | c in streams && !Finished(Advance(streams[c], decode).0) :: Advance(streams[c], decode).0
  }

  function Accepted(streams: Streams, v: Voice, decoderMade: bool): Streams {
    if v.sender in streams then streams[v.sender := Received(streams[v.sender], v)]
    else if decoderMade then streams[v.sender := Received(NewStream(), v)]
    else streams
  }

  // ---- What is heard --------------------------------------------------------------------------------------

  function Clamp(x: real): real { if x < -1.0 then -1.0 else if x > 1.0 then 1.0 else x }

  function SampleOf(pcm: seq<real>, i: nat): real { if i < |pcm| then pcm[i] else 0.0 }

  /** Who is mixed in: decoded, not muted, and nobody deafened. */
  predicate Contributes(streams: Streams, decode: Decoder, deafened: bool, c: ClientId) {
    c in streams && !deafened && !streams[c].muted && Advance(streams[c], decode).1.Some?
  }

  function Share(streams: Streams, decode: Decoder, master: real, c: ClientId, i: nat): real
    requires c in streams && Advance(streams[c], decode).1.Some?
  {
    SampleOf(Advance(streams[c], decode).1.value, i) * (streams[c].gain * master)
  }

  /** The sum of the shares of everyone in `order`, at sample i. */
  function Mix(streams: Streams, decode: Decoder, master: real, order: seq<ClientId>, i: nat): real
    requires forall k :: 0 <= k < |order| ==> order[k] in streams && Advance(streams[order[k]], decode).1.Some?
    decreases |order|
  {
    if order == [] then 0.0
    else Mix(streams, decode, master, order[..|order| - 1], i) + Share(streams, decode, master, order[|order| - 1], i)
  }

  /** Every contributor exactly once. */
  ghost predicate Lists(order: seq<ClientId>, streams: Streams, decode: Decoder, deafened: bool) {
    && (forall k :: 0 <= k < |order| ==> Contributes(streams, decode, deafened, order[k]))
    && (forall c :: Contributes(streams, decode, deafened, c) ==> c in order)
    && (forall j, k :: 0 <= j < k < |order| ==> order[j] != order[k])
  }

  function WithGain(streams: Streams, c: ClientId, gain: real): Streams {
    if c in streams then streams[c := streams[c].(gain := if gain < 0.0 then 0.0 else gain)] else streams
  }

  function WithMute(streams: Streams, c: ClientId, muted: bool): Streams {
    if c in streams then streams[c := streams[c].(muted := muted)] else streams
  }

  // ---- The mixer ----------------------------------------------------------------------------------------------

  class VoiceMixer {
    const decode: Decoder
    var streams: Streams
    var master: real
    var deafened: bool

    constructor (decode: Decoder)
      ensures this.decode == decode && streams == map[] && master == 1.0 && !deafened
    {
      this.decode, streams, master, deafened := decode, map[], 1.0, false;
    }

    function Value(): Mixer
      reads this
    {
      Mixer(streams, master, deafened)
    }

    /** A new speaker needs a decoder, which may not be had; then nothing changes. */
    method Accept(v: Voice, decoderMade: bool) returns (ok: bool)
      modifies this`streams
      ensures streams == Accepted(old(streams), v, decoderMade) && ok == (v.sender in old(streams) || decoderMade)
    {
      var stream := NewStream();
      if v.sender in streams {
        stream := streams[v.sender];
      } else if !decoderMade {
        return false;
      }
      if StartsBurst(v.flags) {
        stream := stream.(jitter := Reset(stream.jitter));
      }
      stream := stream.(idle := 0);
      stream := stream.(jitter := Push(stream.jitter, v.seqNo, v.payload));
      streams := streams[v.sender := stream];
      return true;
    }

    method AddInto(out: array<real>, pcm: seq<real>, gain: real)
      modifies out
      ensures forall i :: 0 <= i < out.Length ==> out[i] == old(out[i]) + SampleOf(pcm, i) * gain
    {
      for i := 0 to out.Length
        invariant forall k :: 0 <= k < i ==> out[k] == old(out[k]) + SampleOf(pcm, k) * gain
        invariant forall k :: i <= k < out.Length ==> out[k] == old(out[k])
      {
        if i < |pcm| {
          out[i] := out[i] + pcm[i] * gain;
        }
      }
    }

    /** Advance one stream and add its share, if it has one. */
    method MixOne(c: ClientId, out: array<real>, ghost was: Streams, ghost order: seq<ClientId>) returns (mixed: bool)
      requires c in streams && c in was && streams[c] == was[c]
      requires forall k :: 0 <= k < |order| ==> order[k] in was && Advance(was[order[k]], decode).1.Some?
      requires forall i :: 0 <= i < out.Length ==> out[i] == Mix(was, decode, master, order, i)
      modifies this`streams, out
      ensures streams == old(streams)[c := Advance(was[c], decode).0] && mixed == Contributes(was, decode, deafened, c)
      ensures mixed ==> forall i :: 0 <= i < out.Length ==> out[i] == Mix(was, decode, master, order + [c], i)
      ensures !mixed ==> forall i :: 0 <= i < out.Length ==> out[i] == Mix(was, decode, master, order, i)
    {
      hide Advance;
      var (next, pcm) := Advance(streams[c], decode);
      streams := streams[c := next];
      mixed := pcm.Some? && !next.muted && !deafened;
      AdvanceKeepsControls(was[c], decode);
      if mixed {
        AddInto(out, pcm.value, next.gain * master);
        forall i | 0 <= i < out.Length ensures out[i] == Mix(was, decode, master, order + [c], i) {
          MixGrows(was, decode, master, order, c, i);
        }
      }
    }

    /** All streams in whatever order the map gives them. */
    method MixAll(out: array<real>) returns (finished: set<ClientId>, contributors: nat, ghost order: seq<ClientId>)
      requires forall i :: 0 <= i < out.Length ==> out[i] == 0.0
      modifies this`streams, out
      ensures Halfway(old(streams), streams, {}, decode) && finished == Done(old(streams), {}, decode)
      ensures Lists(order, old(streams), decode, deafened) && contributors == |order|
      ensures forall i :: 0 <= i < out.Length ==> out[i] == Mix(old(streams), decode, master, order, i)
    {
      hide Advance;
      ghost var was := streams;
      var todo := streams.Keys;
      finished, contributors, order := {}, 0, [];
      while todo != {}
        invariant todo <= was.Keys && Halfway(was, streams, todo, decode) && finished == Done(was, todo, decode)
        invariant ListsBut(order, was, todo, decode, deafened) && contributors == |order|
        invariant forall i :: 0 <= i < out.Length ==> out[i] == Mix(was, decode, master, order, i)
        decreases todo
      {
        var c :| c in todo;
        ghost var before := streams;
        var mixed := MixOne(c, out, was, order);
        HalfwayOn(was, before, streams, todo, decode, c);
        ListsOn(order, was, todo, decode, deafened, c);
        if Finished(streams[c]) {
          finished := finished + {c};
        }
        if mixed {
          contributors := contributors + 1;
          order := order + [c];
        }
        todo := todo - {c};
      }
    }

    /** Twenty milliseconds. Whatever is summed, what comes out is within full scale, and deafened it is silence. */
    method Render(out: array<real>) returns (contributors: nat, ghost order: seq<ClientId>)
      modifies this`streams, out
      ensures out.Length != 960 ==>
                streams == old(streams) && contributors == 0 && forall i :: 0 <= i < out.Length ==> out[i] == 0.0
      ensures out.Length == 960 ==>
                && streams == Advanced(old(streams), decode)
                && Lists(order, old(streams), decode, deafened) && contributors == |order|
                && forall i :: 0 <= i < out.Length ==> out[i] == Clamp(Mix(old(streams), decode, master, order, i))
      ensures forall i :: 0 <= i < out.Length ==> -1.0 <= out[i] <= 1.0
      ensures deafened ==> forall i :: 0 <= i < out.Length ==> out[i] == 0.0
    {
      hide Advance;
      forall i | 0 <= i < out.Length {
        out[i] := 0.0;
      }
      order := [];
      if out.Length != FRAME {
        return 0, order;
      }
      var finished: set<ClientId>;
      finished, contributors, order := MixAll(out);
      ClampAll(out);
      EveryoneDone(old(streams), streams, decode);
      streams := streams - finished;
    }

    method ClampAll(out: array<real>)
      modifies out
      ensures forall i :: 0 <= i < out.Length ==> out[i] == Clamp(old(out[i]))
    {
      forall i | 0 <= i < out.Length {
        out[i] := Clamp(out[i]);
      }
    }

    method SetGain(c: ClientId, gain: real)
      modifies this`streams
      ensures streams == WithGain(old(streams), c, gain)
    {
      if c in streams {
        streams := streams[c := streams[c].(gain := if gain < 0.0 then 0.0 else gain)];
      }
    }

    method SetMaster(gain: real)
      modifies this`master
      ensures master == if gain < 0.0 then 0.0 else gain
    {
      master := if gain < 0.0 then 0.0 else gain;
    }

    method SetDeafened(on: bool)
      modifies this`deafened
      ensures deafened == on
    {
      deafened := on;
    }

    method Remove(c: ClientId)
      modifies this`streams
      ensures streams == old(streams) - {c}
    {
      streams := streams - {c};
    }

    method Clear()
      modifies this`streams
      ensures streams == map[]
    {
      streams := map[];
    }

    method SetMuted(c: ClientId, muted: bool)
      modifies this`streams
      ensures streams == WithMute(old(streams), c, muted)
    {
      if c in streams {
        streams := streams[c := streams[c].(muted := muted)];
      }
    }

    /** Any one of these has the effect `After` gives it. */
    method Take(e: Event)
      modifies this
      ensures Value() == After(old(Value()), decode, e)
    {
      match e
      case Receives(v, decoderMade) =>
        var _ := Accept(v, decoderMade);
      case Renders =>
        var out := new real[FRAME](_ => 0.0);
        var _, _ := Render(out);
      case Removes(c) => Remove(c);
      case Clears => Clear();
      case Gains(c, gain) => SetGain(c, gain);
      case Mutes(c, muted) => SetMuted(c, muted);
      case Masters(gain) => SetMaster(gain);
      case Deafens(on) => SetDeafened(on);
    }

    method TakeAll(events: seq<Event>)
      modifies this
      ensures Value() == AfterAll(old(Value()), decode, events)
    {
      hide After;
      var i := 0;
      while i < |events|
        invariant i <= |events| && AfterAll(Value(), decode, events[i..]) == AfterAll(old(Value()), decode, events)
      {
        Take(events[i]);
        i := i + 1;
      }
    }
  }

  // ---- Runs ---------------------------------------------------------------------------------------------------

  datatype Event =
    | Receives(v: Voice, decoderMade: bool)
    | Renders
    | Removes(client: ClientId)
    | Clears
    | Gains(client: ClientId, gain: real)
    | Mutes(client: ClientId, muted: bool)
    | Masters(gain: real)
    | Deafens(on: bool)

  /** What the listener sets for their own ears. */
  predicate Control(e: Event) { e.Gains? || e.Mutes? || e.Masters? || e.Deafens? }

  datatype Mixer = Mixer(streams: Streams, master: real, deafened: bool)

  function After(m: Mixer, decode: Decoder, e: Event): Mixer {
    match e
    case Receives(v, decoderMade) => m.(streams := Accepted(m.streams, v, decoderMade))
    case Renders => m.(streams := Advanced(m.streams, decode))
    case Removes(c) => m.(streams := m.streams - {c})
    case Clears => m.(streams := map[])
    case Gains(c, gain) => m.(streams := WithGain(m.streams, c, gain))
    case Mutes(c, muted) => m.(streams := WithMute(m.streams, c, muted))
    case Masters(gain) => m.(master := if gain < 0.0 then 0.0 else gain)
    case Deafens(on) => m.(deafened := on)
  }

  function AfterAll(m: Mixer, decode: Decoder, events: seq<Event>): Mixer
    decreases |events|
  {
    if events == [] then m else AfterAll(After(m, decode, events[0]), decode, events[1..])
  }

  /** The run without the listener's own controls. */
  function Project(events: seq<Event>): seq<Event>
    decreases |events|
  {
    if events == [] then [] else (if Control(events[0]) then [] else [events[0]]) + Project(events[1..])
  }

  /**
  Everything about a stream but how loudly it is heard: jitter buffer, decoder history, speaking flag, idle count.
  */
  function HideOne(s: Stream): Stream { s.(gain := 1.0, muted := false) }

  function Hidden(streams: Streams): Streams { map c | c in streams :: HideOne(streams[c]) }

  function Hide(m: Mixer): Mixer { Mixer(Hidden(m.streams), 1.0, false) }

  function SpeakingSet(streams: Streams): set<ClientId> { set c | c in streams && streams[c].speaking }

  lemma AdvanceHides(s: Stream, decode: Decoder)
    ensures HideOne(Advance(s, decode).0) == Advance(HideOne(s), decode).0
  {
  }

  lemma {:induction false} RenderHides(streams: Streams, decode: Decoder)
    ensures Hidden(Advanced(streams, decode)) == Advanced(Hidden(streams), decode)
  {
    forall c | c in streams ensures HideOne(Advance(streams[c], decode).0) == Advance(Hidden(streams)[c], decode).0 {
      AdvanceHides(streams[c], decode);
    }
    hide Advance;
  }

  lemma {:induction false} AcceptHides(streams: Streams, v: Voice, decoderMade: bool)
    ensures Hidden(Accepted(streams, v, decoderMade)) == Accepted(Hidden(streams), v, decoderMade)
  {
    hide Push;
  }

  lemma {:induction false} StepHides(m: Mixer, decode: Decoder, e: Event)
    ensures Hide(After(m, decode, e)) == if Control(e) then Hide(m) else After(Hide(m), decode, e)
  {
    hide Advanced, Accepted;
    match e
    case Receives(v, decoderMade) => AcceptHides(m.streams, v, decoderMade);
    case Renders => RenderHides(m.streams, decode);
    case Removes(c) => assert Hidden(m.streams - {c}) == Hidden(m.streams) - {c};
    case _ => assert Hidden(After(m, decode, e).streams) == if e.Clears? then map[] else Hidden(m.streams);
  }

  lemma {:induction false} RunHides(m: Mixer, decode: Decoder, events: seq<Event>)
    ensures Hide(AfterAll(m, decode, events)) == AfterAll(Hide(m), decode, Project(events))
    decreases |events|
  {
    if events != [] {
      StepHides(m, decode, events[0]);
      RunHides(After(m, decode, events[0]), decode, events[1..]);
      hide After, Hide, Control;
      if !Control(events[0]) {
        assert ([events[0]] + Project(events[1..]))[1..] == Project(events[1..]);
      } else {
        assert [] + Project(events[1..]) == Project(events[1..]);
      }
    }
  }

  /**
  Non-interference: two mixers given the same packets, renders and removals, whatever each listener does with deafen,
  mute, gain and master gain, hold identical jitter buffers, decoder histories, idle counts and speaking sets
  throughout.
  */
  lemma {:induction false} ControlsDoNotInterfere(m: Mixer, m': Mixer, decode: Decoder, events: seq<Event>,
                                                  events': seq<Event>)
    requires Hidden(m.streams) == Hidden(m'.streams) && Project(events) == Project(events')
    ensures Hidden(AfterAll(m, decode, events).streams) == Hidden(AfterAll(m', decode, events').streams)
    ensures SpeakingSet(AfterAll(m, decode, events).streams) == SpeakingSet(AfterAll(m', decode, events').streams)
  {
    RunHides(m, decode, events);
    RunHides(m', decode, events');
    SpeakingIsHidden(AfterAll(m, decode, events).streams);
    SpeakingIsHidden(AfterAll(m', decode, events').streams);
  }

  lemma SpeakingIsHidden(streams: Streams)
    ensures SpeakingSet(Hidden(streams)) == SpeakingSet(streams)
  {
  }

  // ---- Facts the mixer uses ---------------------------------------------------------------------------------------

  lemma AdvanceKeepsControls(s: Stream, decode: Decoder)
    ensures Advance(s, decode).0.gain == s.gain && Advance(s, decode).0.muted == s.muted
  {
  }

  lemma {:induction false} MixGrows(streams: Streams, decode: Decoder, master: real, order: seq<ClientId>,
                                    c: ClientId, i: nat)
    requires forall k :: 0 <= k < |order| ==> order[k] in streams && Advance(streams[order[k]], decode).1.Some?
    requires c in streams && Advance(streams[c], decode).1.Some?
    ensures Mix(streams, decode, master, order + [c], i) ==
            Mix(streams, decode, master, order, i) + Share(streams, decode, master, c, i)
  {
    hide Advance;
    assert (order + [c])[..|order|] == order;
  }

  /** Streams still to do are as they were; the others have advanced. */
  ghost predicate Halfway(was: Streams, now: Streams, todo: set<ClientId>, decode: Decoder) {
    now.Keys == was.Keys && forall c :: c in was ==> now[c] == if c in todo then was[c] else Advance(was[c], decode).0
  }

  ghost function Done(was: Streams, todo: set<ClientId>, decode: Decoder): set<ClientId> {
    set c | c in was && c !in todo && Finished(Advance(was[c], decode).0)
  }

  ghost predicate ListsBut(order: seq<ClientId>, streams: Streams, todo: set<ClientId>, decode: Decoder,
                           deafened: bool) {
    && (forall k :: 0 <= k < |order| ==> Contributes(streams, decode, deafened, order[k]) && order[k] !in todo)
    && (forall c :: Contributes(streams, decode, deafened, c) && c !in todo ==> c in order)
    && (forall j, k :: 0 <= j < k < |order| ==> order[j] != order[k])
  }

  lemma {:induction false} HalfwayOn(was: Streams, before: Streams, now: Streams, todo: set<ClientId>,
                                     decode: Decoder, c: ClientId)
    requires Halfway(was, before, todo, decode) && c in todo && c in was
    requires now == before[c := Advance(was[c], decode).0]
    ensures Halfway(was, now, todo - {c}, decode)
    ensures Done(was, todo - {c}, decode) == Done(was, todo, decode) + if Finished(now[c]) then {c} else {}
  {
    hide Advance;
  }

  lemma {:induction false} ListsOn(order: seq<ClientId>, streams: Streams, todo: set<ClientId>, decode: Decoder,
                                   deafened: bool, c: ClientId)
    requires ListsBut(order, streams, todo, decode, deafened) && c in todo
    ensures ListsBut(if Contributes(streams, decode, deafened, c) then order + [c] else order, streams, todo - {c},
                     decode, deafened)
  {
    hide Advance, Contributes;
  }

  lemma {:induction false} EveryoneDone(was: Streams, now: Streams, decode: Decoder)
    requires Halfway(was, now, {}, decode)
    ensures now - Done(was, {}, decode) == Advanced(was, decode)
  {
    hide Advance;
  }

  // ---- What one speaker adds ----------------------------------------------------------------------------------

  ghost predicate Heard(order: seq<ClientId>, streams: Streams, decode: Decoder) {
    && (forall k :: 0 <= k < |order| ==> order[k] in streams && Advance(streams[order[k]], decode).1.Some?)
    && (forall j, k :: 0 <= j < k < |order| ==> order[j] != order[k])
  }

  lemma {:induction false} WithoutOne(streams: Streams, decode: Decoder, order: seq<ClientId>, k: nat)
    requires Heard(order, streams, decode) && k < |order|
    ensures var rest := order[..k] + order[k + 1..];
            && Heard(rest, streams, decode) && order[k] !in rest
            && forall c :: c in order <==> c in rest || c == order[k]
  {
    hide Advance;
    var rest := order[..k] + order[k + 1..];
    forall i | 0 <= i < |rest| ensures rest[i] == order[if i < k then i else i + 1] {
    }
    forall c | c in order ensures c in rest || c == order[k] {
      var i :| 0 <= i < |order| && order[i] == c;
      if i != k {
        assert rest[if i < k then i else i - 1] == c;
      }
    }
  }

  /** One share can be taken out from anywhere. */
  lemma {:induction false} MixTakes(streams: Streams, decode: Decoder, master: real, order: seq<ClientId>, k: nat,
                                    i: nat)
    requires Heard(order, streams, decode) && k < |order|
    ensures Heard(order[..k] + order[k + 1..], streams, decode)
    ensures Mix(streams, decode, master, order, i) ==
            Mix(streams, decode, master, order[..k] + order[k + 1..], i) + Share(streams, decode, master, order[k], i)
    decreases |order|
  {
    hide Advance;
    WithoutOne(streams, decode, order, k);
    var last := |order| - 1;
    if k == last {
      assert order[..k] + order[k + 1..] == order[..last];
    } else {
      MixTakes(streams, decode, master, order[..last], k, i);
      assert order[..last][..k] + order[..last][k + 1..] == (order[..k] + order[k + 1..])[..last - 1];
    }
  }

  /** The sum does not depend on the order. */
  lemma {:induction false} MixPermutes(streams: Streams, decode: Decoder, master: real, a: seq<ClientId>,
                                       b: seq<ClientId>, i: nat)
    requires Heard(a, streams, decode) && Heard(b, streams, decode) && forall c :: c in a <==> c in b
    ensures Mix(streams, decode, master, a, i) == Mix(streams, decode, master, b, i)
    decreases |a|
  {
    hide Advance;
    if a != [] {
      var last := |a| - 1;
      assert a[last] in b;
      var k :| 0 <= k < |b| && b[k] == a[last];
      WithoutOne(streams, decode, a, last);
      WithoutOne(streams, decode, b, k);
      assert a[..last] + a[last + 1..] == a[..last];
      MixTakes(streams, decode, master, b, k, i);
      MixPermutes(streams, decode, master, a[..last], b[..k] + b[k + 1..], i);
    } else {
      forall k | 0 <= k < |b| ensures b[k] in a {
        assert b[k] in b;
      }
    }
  }

  lemma {:induction false} MixSame(streams: Streams, streams': Streams, decode: Decoder, master: real,
                                   order: seq<ClientId>, i: nat)
    requires Heard(order, streams, decode)
    requires forall k :: 0 <= k < |order| ==> order[k] in streams' && streams'[order[k]] == streams[order[k]]
    ensures Heard(order, streams', decode)
    ensures Mix(streams, decode, master, order, i) == Mix(streams', decode, master, order, i)
    decreases |order|
  {
    hide Advance;
    if order != [] {
      MixSame(streams, streams', decode, master, order[..|order| - 1], i);
    }
  }

  /**
  A speaker who is muted, or has nothing to play, might as well not be there; any other adds exactly their share,
  whoever else speaks and in whatever order they are summed.
  */
  lemma {:induction false} SpeakerAdds(streams: Streams, decode: Decoder, master: real, c: ClientId,
                                       order: seq<ClientId>, others: seq<ClientId>, i: nat)
    requires c in streams && Lists(order, streams, decode, false) && Lists(others, streams - {c}, decode, false)
    ensures Mix(streams, decode, master, order, i) ==
            Mix(streams - {c}, decode, master, others, i) +
            if streams[c].muted || Advance(streams[c], decode).1.None? then 0.0
            else SampleOf(Advance(streams[c], decode).1.value, i) * (streams[c].gain * master)
  {
    hide Advance;
    MixSame(streams - {c}, streams, decode, master, others, i);
    forall d | d != c
      ensures Contributes(streams, decode, false, d) <==> Contributes(streams - {c}, decode, false, d)
    {
    }
    if Contributes(streams, decode, false, c) {
      var k :| 0 <= k < |order| && order[k] == c;
      MixTakes(streams, decode, master, order, k, i);
      WithoutOne(streams, decode, order, k);
      MixPermutes(streams, decode, master, order[..k] + order[k + 1..], others, i);
    } else {
      MixPermutes(streams, decode, master, order, others, i);
    }
  }

  /** A gain, never below nothing, is what that speaker's samples are multiplied by, and nobody else's. */
  lemma {:induction false} GainScales(streams: Streams, decode: Decoder, master: real, c: ClientId, gain: real,
                                      d: ClientId, i: nat)
    requires d in streams && Advance(streams[d], decode).1.Some?
    ensures var louder := WithGain(streams, c, gain);
            && d in louder && Advance(louder[d], decode).1 == Advance(streams[d], decode).1
            && Share(louder, decode, master, d, i) ==
               SampleOf(Advance(streams[d], decode).1.value, i) *
               ((if d != c then streams[d].gain else if gain < 0.0 then 0.0 else gain) * master)
  {
    GainKeepsSound(streams[d], decode, gain);
    GainKeepsSound(streams[d], decode, 0.0);
    hide Advance;
  }

  lemma GainKeepsSound(s: Stream, decode: Decoder, gain: real)
    ensures Advance(s.(gain := gain), decode).1 == Advance(s, decode).1
  {
  }

  /** Muting takes exactly that speaker out of what is heard, and unmuting lets them back in. */
  lemma {:induction false} MuteSilences(streams: Streams, decode: Decoder, c: ClientId, muted: bool, d: ClientId)
    requires d in streams
    ensures Contributes(WithMute(streams, c, muted), decode, false, d) <==>
            Advance(streams[d], decode).1.Some? && !(if d == c then muted else streams[d].muted)
  {
    MuteKeepsSound(streams[d], decode, muted);
    hide Advance;
  }

  lemma MuteKeepsSound(s: Stream, decode: Decoder, muted: bool)
    ensures Advance(s.(muted := muted), decode).1 == Advance(s, decode).1
  {
  }

  /** Full scale is the nearest a sample outside it can come. */
  lemma ClampIsNearest(x: real, y: real)
    requires -1.0 <= y <= 1.0
    ensures -1.0 <= Clamp(x) <= 1.0
    ensures (if Clamp(x) > x then Clamp(x) - x else x - Clamp(x)) <= if y > x then y - x else x - y
  {
  }

  // ---- One stream over time -----------------------------------------------------------------------------------

  datatype Turn = Gets(v: Voice) | Gives

  function Turned(s: Stream, decode: Decoder, turns: seq<Turn>): Stream
    decreases |turns|
  {
    if turns == [] then s
    else
      var before := Turned(s, decode, turns[..|turns| - 1]);
      match turns[|turns| - 1]
      case Gets(v) => Received(before, v)
      case Gives => Advance(before, decode).0
  }

  /** What a jitter buffer alone makes of the same turns: a burst's start, its flags odd, resets it first. */
  function Buffered(b: Buffer, turns: seq<Turn>): (Buffer, seq<Input>)
    decreases |turns|
  {
    if turns == [] then (b, [])
    else
      var (before, heard) := Buffered(b, turns[..|turns| - 1]);
      match turns[|turns| - 1]
      case Gets(v) => (Push(if v.flags % 2 == 1 then Reset(before) else before, v.seqNo, v.payload), heard)
      case Gives =>
        match Pop(before).1
        case None => (Pop(before).0, heard)
        case Some(Frame(payload)) => (Pop(before).0, heard + [Packet(payload)])
        case Some(Lost) => (Pop(before).0, heard + [Conceal])
  }

  /**
  A speaker's stream is a jitter buffer followed by its decoder: the decoder is fed everything the buffer hands out,
  once and in order, with each loss concealed, whatever else happens to the stream.
  */
  lemma {:induction false} StreamIsBuffer(s: Stream, decode: Decoder, turns: seq<Turn>)
    ensures var now, (b, heard) := Turned(s, decode, turns), Buffered(s.jitter, turns);
            now.jitter == b && now.history == s.history + heard && now.gain == s.gain && now.muted == s.muted
    decreases |turns|
  {
    hide Push, Pop, Reset;
    if turns == [] {
      assert s.history + [] == s.history;
    } else {
      StreamIsBuffer(s, decode, turns[..|turns| - 1]);
      var heard := Buffered(s.jitter, turns[..|turns| - 1]).1;
      assert forall x: Input :: s.history + (heard + [x]) == s.history + heard + [x];
    }
  }

  /** Of a burst as it is sent, the first packet resets the receiver and no other does. */
  lemma {:induction false} BurstResetsOnce(burst: seq<Burst.Packet>, i: nat)
    requires (Burst.WholeBurst(burst) || Burst.UnfinishedBurst(burst)) && i < |burst|
    ensures StartsBurst(burst[i].flags) <==> i == 0
  {
    if 0 < i < |burst| - 1 {
      assert burst[i].flags == 0;
    }
  }

  /**
  It speaks in a slot exactly when something was decoded in it, and it is idle for as long as nothing was or came.
  */
  lemma {:induction false} IdleCounts(s: Stream, decode: Decoder, turns: seq<Turn>, n: nat)
    requires n <= |turns| && forall i :: n <= i < |turns| ==> turns[i].Gives?
    requires forall i :: n <= i < |turns| ==> Advance(Turned(s, decode, turns[..i]), decode).1.None?
    ensures Turned(s, decode, turns).idle == Turned(s, decode, turns[..n]).idle + |turns| - n
    ensures n < |turns| ==> !Turned(s, decode, turns).speaking
    decreases |turns|
  {
    if n < |turns| {
      var before := turns[..|turns| - 1];
      assert forall i :: 0 <= i <= |before| ==> before[..i] == turns[..i];
      assert Advance(Turned(s, decode, before), decode).1.None?;
      IdleCounts(s, decode, before, n);
      SilentAdvance(Turned(s, decode, before), decode);
    } else {
      assert turns[..n] == turns;
    }
  }

  lemma SilentAdvance(s: Stream, decode: Decoder)
    ensures var (next, pcm) := Advance(s, decode);
            if pcm.Some? then next.speaking && next.idle == 0 else !next.speaking && next.idle == s.idle + 1
    ensures Received(s, Voice(0, 0, 0, [])).idle == 0
  {
  }

  /** A stream leaves with the render that makes it idle for more than a hundred slots, and with no other. */
  lemma {:induction false} IdleLeaves(streams: Streams, decode: Decoder, c: ClientId)
    requires c in streams
    ensures c in Advanced(streams, decode) <==>
            Advance(streams[c], decode).1.Some? || streams[c].idle < 100
    ensures c in Advanced(streams, decode) ==> Advanced(streams, decode)[c] == Turned(streams[c], decode, [Gives])
  {
    SilentAdvance(streams[c], decode);
    assert [Gives][..0] == [];
    hide Advance;
  }
}
