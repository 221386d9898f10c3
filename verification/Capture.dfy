/**
The capture path: interleaved device samples in, 20 ms frames out, however the driver slices its callbacks
(`Capture` and `CaptureStage` in crates/pickle-audio/src/engine.rs).
*/
module Capturing {
  import opened Burst
  import opened Resampling

  const SAMPLE_RATE: nat := 48000
  const FRAME: nat := 960
  const CAPTURE_CHUNK: nat := 256

  // ---- Chunking ------------------------------------------------------------------------------------

  function Chunks(s: seq<real>): (frames: seq<seq<real>>)
    ensures |frames| == |s| / FRAME && forall i :: 0 <= i < |frames| ==> |frames[i]| == FRAME
    decreases |s|
  {
    if |s| < FRAME then [] else [s[..FRAME]] + Chunks(s[FRAME..])
  }

  /** What is left over once whole frames are taken. */
  function Rest(s: seq<real>): (r: seq<real>)
    ensures |r| < FRAME
    decreases |s|
  {
    if |s| < FRAME then s else Rest(s[FRAME..])
  }

  lemma {:induction false} ChunksAppend(s: seq<real>, more: seq<real>)
    ensures Chunks(s + more) == Chunks(s) + Chunks(Rest(s) + more)
    ensures Rest(s + more) == Rest(Rest(s) + more)
    decreases |s|
  {
    if |s| >= FRAME {
      assert (s + more)[..FRAME] == s[..FRAME] && (s + more)[FRAME..] == s[FRAME..] + more;
      ChunksAppend(s[FRAME..], more);
    }
  }

  /** Nothing is lost and nothing reordered: the frames and the remainder are the stream. */
  lemma {:induction false} ChunksAreAll(s: seq<real>)
    ensures Flat(Chunks(s)) + Rest(s) == s
    decreases |s|
  {
    if |s| >= FRAME {
      ChunksAreAll(s[FRAME..]);
      var tail := Chunks(s[FRAME..]);
      assert Chunks(s)[1..] == tail;
      assert s == s[..FRAME] + s[FRAME..];
    }
  }

  /** Frame i is the 960 samples from 960 * i on. */
  lemma {:induction false} ChunkAt(s: seq<real>, i: nat)
    ensures i < |Chunks(s)| <==> 960 * (i + 1) <= |s|
    ensures i < |Chunks(s)| ==> Chunks(s)[i] == s[960 * i..960 * (i + 1)]
    decreases i
  {
    if |s| >= FRAME && i > 0 {
      ChunkAt(s[FRAME..], i - 1);
    }
  }

  function Flat(parts: seq<seq<real>>): seq<real>
    decreases |parts|
  {
    if parts == [] then [] else parts[0] + Flat(parts[1..])
  }

  // ---- What surrounds a frame when it is processed -----------------------------------------------------

  /** Loudness of a frame, and what the controls held and the encoder said when frame n was processed. */
  datatype Environment = Environment(level: seq<real> -> Level, mode: nat -> GateMode, muted: nat -> bool,
                                     held: nat -> bool, encodes: nat -> bool)

  function TickFor(env: Environment, n: nat, frame: seq<real>): Tick {
    Tick(env.mode(n), env.muted(n), env.held(n), env.level(frame), env.encodes(n))
  }

  function Ticks(env: Environment, frames: seq<seq<real>>): (ticks: seq<Tick>)
    ensures |ticks| == |frames|
  {
    seq(|frames|, i requires 0 <= i < |frames| => TickFor(env, i, frames[i]))
  }

  lemma TicksGrow(env: Environment, frames: seq<seq<real>>, frame: seq<real>)
    ensures Ticks(env, frames + [frame]) == Ticks(env, frames) + [TickFor(env, |frames|, frame)]
  {
  }

  lemma {:induction false} SentGrows(s: Sender, ticks: seq<Tick>, t: Tick)
    ensures RunState(s, ticks + [t]) == Step(RunState(s, ticks), t).0
    ensures Sent(s, ticks + [t]) == Sent(s, ticks) + Step(RunState(s, ticks), t).1
  {
    hide Step;
    assert (ticks + [t])[..|ticks|] == ticks;
  }

  lemma TicksPrefix(env: Environment, frames: seq<seq<real>>, n: nat)
    requires n <= |frames|
    ensures Ticks(env, frames[..n]) == Ticks(env, frames)[..n]
  {
  }

  /** With push-to-talk a frame is sent exactly when the key is held as it, or one not long before it, is processed. */
  lemma {:induction false} KeyedFramesAreSent(s: Sender, env: Environment, frames: seq<seq<real>>, n: nat)
    requires Idle(s) && n < |frames|
    requires forall i :: 0 <= i <= n ==> env.mode(i) == PushToTalk && !env.muted(i) && env.encodes(i)
    ensures Sent(s, Ticks(env, frames[..n + 1])) != Sent(s, Ticks(env, frames[..n])) <==>
            exists i: nat :: i <= n && env.held(i) && n - i <= ReleaseFrames(s.gate.hangover)
  {
    hide Sent, ReleaseFrames;
    var ticks := Ticks(env, frames[..n + 1]);
    TicksPrefix(env, frames[..n + 1], n);
    assert frames[..n + 1][..n] == frames[..n];
    PushToTalkSends(s, ticks);
    assert forall i: nat :: i <= n ==> ticks[i].held == env.held(i);
  }

  /** A frame processed while muted leaves nothing being sent, and one that does not encode is not sent. */
  lemma {:induction false} LostFrames(s: Sender, env: Environment, frames: seq<seq<real>>, n: nat)
    requires n < |frames|
    ensures env.muted(n) ==> !RunState(s, Ticks(env, frames[..n + 1])).transmitting
    ensures !env.encodes(n) ==> Sent(s, Ticks(env, frames[..n + 1])) == Sent(s, Ticks(env, frames[..n]))
  {
    var ticks := Ticks(env, frames[..n + 1]);
    TicksPrefix(env, frames[..n + 1], n);
    assert frames[..n + 1][..n] == frames[..n];
    assert Sent(s, ticks) == Sent(s, ticks[..n]) + Step(RunState(s, ticks[..n]), ticks[n]).1;
  }

  /** With voice activity frames are sent from the first that is loud enough for as long as they stay so. */
  lemma {:induction false} LoudFramesAreSent(s: Sender, env: Environment, frames: seq<seq<real>>)
    requires Idle(s) && frames != [] && AtLeast(env.level(frames[0]), s.gate.openAt)
    requires forall i :: 0 <= i < |frames| ==> env.mode(i) == VoiceActivity && !env.muted(i) && env.encodes(i)
    requires forall i :: 0 < i < |frames| ==> AtLeast(env.level(frames[i]), s.gate.closeAt)
    ensures |Sent(s, Ticks(env, frames))| == |frames|
  {
    hide Sent, AtLeast;
    LoudSends(s, Ticks(env, frames));
  }

  // ---- Capture --------------------------------------------------------------------------------------------

  class Capture {
    const env: Environment
    const maxPush: nat
    const sender: Transmitter
    var pending: seq<real>
    /** Frames processed so far, which is what the surroundings are indexed by. */
    var count: nat

    /** Every sample pushed, every frame processed, every packet sent, and the most `pending` ever held. */
    ghost const start: Sender
    ghost var fed: seq<real>
    ghost var frames: seq<seq<real>>
    ghost var sent: seq<Packet>
    ghost var peak: nat

    /** The transmitter stands where processing these frames one by one leaves it. */
    ghost predicate Running()
      reads this, sender, sender.gate
    {
      && count == |frames|
      && sender.Value() == RunState(start, Ticks(env, frames)) && sent == Sent(start, Ticks(env, frames))
    }

    ghost predicate Valid()
      reads this, sender, sender.gate
    {
      frames == Chunks(fed) && pending == Rest(fed) && peak <= FRAME + maxPush && Running()
    }

    constructor (maxPush: nat, env: Environment, sender: Transmitter)
      ensures Valid() && fed == [] && this.maxPush == maxPush && this.env == env && this.sender == sender
      ensures start == sender.Value()
    {
      this.maxPush, this.env, this.sender, pending, count := maxPush, env, sender, [], 0;
      start, fed, frames, sent, peak := sender.Value(), [], [], [], 0;
    }

    method Process(frame: seq<real>)
      requires Running()
      modifies this`count, this`frames, this`sent, sender, sender.gate
      ensures Running() && frames == old(frames) + [frame]
    {
      hide RunState, Sent, Ticks, Step, TickFor;
      TicksGrow(env, frames, frame);
      SentGrows(start, Ticks(env, frames), TickFor(env, count, frame));
      var packets := sender.Process(TickFor(env, count, frame));
      count := count + 1;
      sent := sent + packets;
      frames := frames + [frame];
    }

    method EmitFrames()
      requires Running()
      modifies this`pending, this`count, this`frames, this`sent, sender, sender.gate
      ensures Running() && frames == old(frames) + Chunks(old(pending)) && pending == Rest(old(pending))
    {
      hide Chunks, Rest, RunState, Sent, Ticks;
      while |pending| >= FRAME
        invariant Running() && frames + Chunks(pending) == old(frames) + Chunks(old(pending))
        invariant Rest(pending) == Rest(old(pending))
        decreases |pending|
      {
        FirstChunk(pending);
        var frame := pending[..FRAME];
        assert frames + Chunks(pending) == (frames + [frame]) + Chunks(pending[FRAME..]);
        pending := pending[FRAME..];
        Process(frame);
      }
      NoChunk(pending);
      assert frames + [] == frames;
    }

    /** At most one incomplete frame is left behind, so a push never takes `pending` beyond its capacity. */
    method Push(samples: seq<real>)
      requires Valid() && |samples| <= maxPush
      modifies this`pending, this`count, this`fed, this`frames, this`sent, this`peak, sender, sender.gate
      ensures Valid() && fed == old(fed) + samples
    {
      hide Chunks, Rest, RunState, Sent, Ticks;
      ChunksAppend(fed, samples);
      pending := pending + samples;
      fed := fed + samples;
      peak := if |pending| > peak then |pending| else peak;
      EmitFrames();
    }
  }

  lemma FirstChunk(s: seq<real>)
    requires |s| >= FRAME
    ensures Chunks(s) == [s[..FRAME]] + Chunks(s[FRAME..]) && Rest(s) == Rest(s[FRAME..])
  {
  }

  lemma NoChunk(s: seq<real>)
    requires |s| < FRAME
    ensures Chunks(s) == [] && Rest(s) == s
  {
  }

  // ---- Downmixing ---------------------------------------------------------------------------------------------

  function Total(frame: seq<real>): real
    decreases |frame|
  {
    if frame == [] then 0.0 else Total(frame[..|frame| - 1]) + frame[|frame| - 1]
  }

  function Mean(frame: seq<real>): real
    requires frame != []
  {
    Total(frame) / |frame| as real
  }

  lemma {:induction false} TotalIsLinear(x: seq<real>, y: seq<real>, z: seq<real>, a: real)
    requires |x| == |y| == |z| && forall i :: 0 <= i < |x| ==> z[i] == a * x[i] + y[i]
    ensures Total(z) == a * Total(x) + Total(y)
    decreases |x|
  {
    if x != [] {
      var n := |x| - 1;
      TotalIsLinear(x[..n], y[..n], z[..n], a);
      Doubled(a, Total(x[..n]), x[n]);
    }
  }

  lemma Doubled(a: real, x: real, y: real)
    ensures a * (x + y) == a * x + a * y
  {
  }

  lemma {:induction false} TotalOfOne(frame: seq<real>, k: nat, n: nat)
    requires k < |frame| && frame[k] == 1.0 && forall i :: 0 <= i < |frame| && i != k ==> frame[i] == 0.0
    requires n <= |frame|
    ensures Total(frame[..n]) == if k < n then 1.0 else 0.0
  {
    if n > 0 {
      TotalOfOne(frame, k, n - 1);
      assert frame[..n][..n - 1] == frame[..n - 1];
    }
  }

  /** An average: linear, and every channel of the frame counts for the same share of it. */
  lemma {:induction false} MeanWeighsAlike(frame: seq<real>, k: nat)
    requires k < |frame| && frame[k] == 1.0 && forall i :: 0 <= i < |frame| && i != k ==> frame[i] == 0.0
    ensures Mean(frame) * |frame| as real == 1.0
  {
    TotalOfOne(frame, k, |frame|);
    assert frame[..|frame|] == frame;
    Divided(1.0, |frame| as real);
  }

  lemma Divided(x: real, n: real)
    requires n != 0.0
    ensures x / n * n == x
  {
  }

  lemma {:induction false} MeanIsLinear(x: seq<real>, y: seq<real>, z: seq<real>, a: real)
    requires |x| == |y| == |z| > 0 && forall i :: 0 <= i < |x| ==> z[i] == a * x[i] + y[i]
    ensures Mean(z) == a * Mean(x) + Mean(y)
  {
    TotalIsLinear(x, y, z, a);
    SharedOut(a, Total(x), Total(y), |x| as real);
  }

  lemma {:induction false} SharedOut(a: real, x: real, y: real, n: real)
    requires n != 0.0
    ensures (a * x + y) / n == a * (x / n) + y / n
  {
    var p, q := x / n, y / n;
    Divided(x, n);
    Divided(y, n);
    Quotient(a * p + q, n, a * x + y);
  }

  lemma Quotient(r: real, n: real, x: real)
    requires n != 0.0 && r * n == x
    ensures x / n == r
  {
  }

  /** Sample k of the downmix is the average of channel frame k, the last one as long as it is. */
  lemma {:induction false} DownmixAt(data: seq<real>, channels: nat, k: nat)
    requires channels > 0 && k * channels < |data|
    ensures var end := if (k + 1) * channels < |data| then (k + 1) * channels else |data|;
            k * channels < end && k < |Downmix(data, channels)| &&
            Downmix(data, channels)[k] == Mean(data[k * channels..end])
    decreases k
  {
    hide Mean;
    OneMore(k + 1, channels);
    if k == 0 {
      if |data| <= channels {
        assert data[0..|data|] == data;
      }
    } else {
      OneMore(k, channels);
      var rest := data[channels..];
      assert |rest| == |data| - channels && (k - 1) * channels == k * channels - channels;
      DownmixAt(rest, channels, k - 1);
      var end := if (k + 1) * channels < |data| then (k + 1) * channels else |data|;
      assert rest[(k - 1) * channels..end - channels] == data[k * channels..end];
      FirstFrame(data, channels);
    }
  }

  /** One sample per channel frame; a short last frame is averaged over what it has. */
  function Downmix(data: seq<real>, channels: nat): (mono: seq<real>)
    requires channels > 0
    decreases |data|
  {
    if data == [] then []
    else if |data| <= channels then [Mean(data)]
    else [Mean(data[..channels])] + Downmix(data[channels..], channels)
  }

  lemma {:induction false} DownmixJoins(a: seq<real>, b: seq<real>, channels: nat, k: nat)
    requires channels > 0 && |a| == k * channels
    ensures Downmix(a + b, channels) == Downmix(a, channels) + Downmix(b, channels)
    ensures |Downmix(a, channels)| == k
    decreases k
  {
    if k == 0 {
      assert a + b == b;
    } else {
      hide Downmix, Mean;
      OneMore(k, channels);
      DownmixJoins(a[channels..], b, channels, k - 1);
      FirstFrame(a, channels);
      FirstFrame(a + b, channels);
      assert (a + b)[..channels] == a[..channels] && (a + b)[channels..] == a[channels..] + b;
    }
  }

  lemma OneMore(k: nat, n: nat)
    requires k > 0
    ensures k * n == n + (k - 1) * n && k * n >= n
  {
  }

  lemma {:induction false} FirstFrame(a: seq<real>, channels: nat)
    requires channels > 0 && |a| >= channels
    ensures Downmix(a, channels) == [Mean(a[..channels])] + Downmix(a[channels..], channels)
  {
    if |a| == channels {
      assert a[..channels] == a && a[channels..] == [];
    }
  }

  lemma {:induction false} DownmixShort(data: seq<real>, channels: nat, k: nat)
    requires channels > 0 && |data| <= k * channels
    ensures |Downmix(data, channels)| <= k
    decreases k
  {
    if data != [] {
      assert k > 0;
      OneMore(k, channels);
      if |data| > channels {
        DownmixShort(data[channels..], channels, k - 1);
      }
    }
  }

  // ---- The device side ------------------------------------------------------------------------------------------

  /** What the resampler, if there is one, makes of the downmixed stream. */
  function Stream(p: Params, heard: seq<real>, made: nat): seq<real>
    requires ParamsOk(p)
  {
    Outputs(p, heard, 0, made)
  }

  class CaptureStage {
    const capture: Capture
    const resampler: Resampler?
    const mono: array<real>
    const converted: array<real>

    /** The downmix of everything the driver has handed over. */
    ghost var heard: seq<real>

    ghost function Parts(): set<object> {
      {this, capture, capture.sender, capture.sender.gate, mono, converted} +
      (if resampler == null then {} else {resampler, resampler.buf})
    }

    ghost predicate Fits() {
      && mono.Length == CAPTURE_CHUNK && mono != converted
      && (resampler == null ==> CAPTURE_CHUNK <= capture.maxPush)
      && (resampler != null ==>
            && resampler.maxFeed == CAPTURE_CHUNK && resampler.buf != mono && resampler.buf != converted
            && 0 < converted.Length <= capture.maxPush)
    }

    /** Caught up: everything heard has been converted as far as it can be, and all of that is with `capture`. */
    ghost predicate Valid()
      reads Parts()
    {
      && Fits() && capture.Valid()
      && (resampler == null ==> capture.fed == heard)
      && (resampler != null ==>
            && resampler.Valid() && ParamsOk(resampler.p) && resampler.Drained() && resampler.input == heard
            && capture.fed == Stream(resampler.p, heard, resampler.made))
    }

    /** A converter only for a device that is not already at 48 kHz and has a rate at all. */
    constructor (kernel: seq<real>, deviceRate: nat, env: Environment, sender: Transmitter)
      requires |kernel| == KERNEL_LENGTH && kernel[KERNEL_LENGTH - 2] == 0.0 && kernel[KERNEL_LENGTH - 1] == 0.0
      ensures Valid() && heard == [] && fresh(Parts() - {sender, sender.gate})
      ensures resampler == null <==> deviceRate == 48000 || deviceRate == 0
      ensures resampler != null ==> resampler.p == ParamsFor(kernel, deviceRate, 48000)
      ensures capture.env == env && capture.start == sender.Value()
    {
      var maker: Resampler? := null;
      var room := 0;
      if deviceRate != SAMPLE_RATE && deviceRate != 0 {
        maker := new Resampler(kernel, deviceRate, SAMPLE_RATE, CAPTURE_CHUNK);
        maker.StateParams();
        room := MaxOutputFor(maker.p, CAPTURE_CHUNK);
      }
      capture := new Capture(if room > CAPTURE_CHUNK then room else CAPTURE_CHUNK, env, sender);
      resampler := maker;
      mono := new real[CAPTURE_CHUNK](_ => 0.0);
      converted := new real[room](_ => 0.0);
      heard := [];
    }

    method DownmixBlock(block: seq<real>, channels: nat) returns (filled: nat)
      requires channels > 0 && |block| <= CAPTURE_CHUNK * channels && mono.Length == CAPTURE_CHUNK
      modifies mono
      ensures filled <= CAPTURE_CHUNK && mono[..filled] == Downmix(block, channels)
    {
      DownmixShort(block, channels, CAPTURE_CHUNK);
      hide Mean, Downmix;
      filled := 0;
      var at := 0;
      assert block[0..] == block && mono[..0] == [];
      while at < |block|
        invariant at <= |block| && filled <= CAPTURE_CHUNK
        invariant mono[..filled] + Downmix(block[at..], channels) == Downmix(block, channels)
        decreases |block| - at
      {
        var end := if at + channels < |block| then at + channels else |block|;
        NextFrame(block, channels, at, end);
        assert filled < |mono[..filled] + Downmix(block[at..], channels)|;
        ghost var before := mono[..filled];
        Assoc(before, [Mean(block[at..end])], Downmix(block[end..], channels));
        mono[filled] := Mean(block[at..end]);
        assert mono[..filled + 1] == before + [Mean(block[at..end])];
        filled, at := filled + 1, end;
      }
      NothingLeft(block, channels);
      assert mono[..filled] + [] == mono[..filled];
    }

    /** Pull until nothing more comes, handing each piece on. */
    method PullAll()
      requires resampler != null && Fits() && resampler.Valid() && ParamsOk(resampler.p) && capture.Valid()
      requires capture.fed == Stream(resampler.p, resampler.input, resampler.made)
      modifies Parts() - {this, mono}
      ensures resampler.Valid() && resampler.Drained() && resampler.input == old(resampler.input) && capture.Valid()
      ensures capture.fed == Stream(resampler.p, resampler.input, resampler.made)
    {
      var more := true;
      while more
        invariant resampler.Valid() && capture.Valid() && resampler.input == old(resampler.input)
        invariant capture.fed == Stream(resampler.p, resampler.input, resampler.made)
        invariant !more ==> resampler.Drained()
        decreases more, Ceiling(resampler.p, |resampler.input|) - resampler.made
      {
        more := PullSome();
      }
    }

    method PullSome() returns (some: bool)
      requires resampler != null && Fits() && resampler.Valid() && ParamsOk(resampler.p) && capture.Valid()
      requires capture.fed == Stream(resampler.p, resampler.input, resampler.made)
      modifies Parts() - {this, mono}
      ensures resampler.Valid() && resampler.input == old(resampler.input) && capture.Valid()
      ensures capture.fed == Stream(resampler.p, resampler.input, resampler.made)
      ensures if some
              then old(resampler.made) < resampler.made <= Ceiling(resampler.p, |resampler.input|)
              else resampler.Drained()
    {
      hide State, Chunks, Rest, RunState, Sent, Ticks, OneShot, Ceiling;
      var made := resampler.Pull(converted);
      some := made > 0;
      if some {
        OutputsJoin(resampler.p, resampler.input, 0, old(resampler.made), resampler.made);
        capture.Push(converted[..made]);
        resampler.LastDetermined();
        BelowCeiling(resampler.p, |resampler.input|, resampler.made - 1);
      }
    }

    /** One feed and everything it determines. From a caught-up state the feed takes the lot. */
    method FeedSome(samples: seq<real>) returns (taken: nat)
      requires resampler != null && Valid() && |samples| <= CAPTURE_CHUNK
      modifies Parts() - {mono}
      ensures Valid() && taken == |samples| && heard == old(heard) + samples
    {
      hide Stream, ParamsOk, State, Determined, Chunks, Rest, RunState, Sent, Ticks;
      resampler.LastDetermined();
      taken := resampler.Feed(samples);
      StreamLater(resampler.p, heard, samples[..taken], resampler.made);
      heard := resampler.input;
      PullAll();
    }

    method FeedAll(samples: seq<real>)
      requires resampler != null && Valid() && |samples| <= CAPTURE_CHUNK
      modifies Parts() - {mono}
      ensures Valid() && heard == old(heard) + samples
    {
      hide Stream, ParamsOk, State, Determined, Chunks, Rest, RunState, Sent, Ticks;
      var fed := 0;
      while fed < |samples|
        invariant fed <= |samples| && Valid() && heard == old(heard) + samples[..fed]
      {
        var taken := FeedSome(samples[fed..]);
        if taken == 0 {
          break;
        }
        assert samples[..fed] + samples[fed..] == samples[..fed + taken];
        fed := fed + taken;
      }
      assert samples[..|samples|] == samples;
    }

    /** One callback. However long it is, and whatever its size does to the blocks, all of it is heard in order. */
    method Push(data: seq<real>, channels: nat)
      requires Valid()
      modifies Parts()
      ensures Valid() && heard == if channels == 0 then old(heard) else old(heard) + Downmix(data, channels)
    {
      if channels == 0 {
        return;
      }
      hide Stream, ParamsOk, State, Determined, Chunks, Rest, RunState, Sent, Ticks, Downmix;
      var at := 0;
      assert data[0..] == data;
      while at < |data|
        invariant at <= |data| && Valid()
        invariant heard + Downmix(data[at..], channels) == old(heard) + Downmix(data, channels)
      {
        var end := if at + CAPTURE_CHUNK * channels < |data| then at + CAPTURE_CHUNK * channels else |data|;
        NextBlock(data, channels, at, end);
        Assoc(heard, Downmix(data[at..end], channels), Downmix(data[end..], channels));
        PushBlock(data[at..end], channels);
        at := end;
      }
      NothingLeft(data, channels);
      assert heard + [] == heard;
    }

    method PushBlock(block: seq<real>, channels: nat)
      requires Valid() && channels > 0 && |block| <= CAPTURE_CHUNK * channels
      modifies Parts()
      ensures Valid() && heard == old(heard) + Downmix(block, channels)
    {
      hide Stream, ParamsOk, State, Determined, Chunks, Rest, RunState, Sent, Ticks, Downmix;
      var filled := DownmixBlock(block, channels);
      if resampler == null {
        capture.Push(mono[..filled]);
        heard := heard + mono[..filled];
      } else {
        FeedAll(mono[..filled]);
      }
    }

    /**
    Slicing independence: any split of a stream into callbacks of whole channel frames gives `process` exactly the
    960-sample chunks of the downmixed, and if needed converted, stream, and the converter is as far along as it can be.
    */
    method PushEach(callbacks: seq<seq<real>>, channels: nat)
      requires Valid() && channels > 0 && heard == []
      requires forall i :: 0 <= i < |callbacks| ==> |callbacks[i]| % channels == 0
      modifies Parts()
      ensures Valid() && heard == Downmix(Flat(callbacks), channels)
      ensures resampler == null ==> capture.frames == Chunks(Downmix(Flat(callbacks), channels))
      ensures resampler != null ==>
                && ParamsOk(resampler.p) && Exact(resampler.p, |heard|, resampler.made)
                && capture.frames == Chunks(Stream(resampler.p, Downmix(Flat(callbacks), channels), resampler.made))
      ensures capture.sent == Sent(capture.start, Ticks(capture.env, capture.frames))
      ensures capture.peak <= FRAME + capture.maxPush
    {
      hide Stream, ParamsOk, State, Determined, Chunks, Rest, RunState, Sent, Ticks, Downmix;
      NothingYet(callbacks, channels);
      for i := 0 to |callbacks|
        invariant Valid() && heard == Downmix(Flat(callbacks[..i]), channels)
      {
        FlatGrows(callbacks, i, channels);
        Push(callbacks[i], channels);
      }
      assert callbacks[..|callbacks|] == callbacks;
      if resampler != null {
        resampler.LastDetermined();
        PositiveStep(resampler.p);
        DrainedIsExact(resampler.p, |heard|, resampler.made);
      }
    }
  }

  lemma Assoc<T>(a: seq<T>, b: seq<T>, c: seq<T>)
    ensures (a + b) + c == a + (b + c)
  {
  }

  lemma NothingYet(callbacks: seq<seq<real>>, channels: nat)
    requires channels > 0
    ensures Downmix(Flat(callbacks[..0]), channels) == []
  {
  }

  lemma {:induction false} FlatJoins(a: seq<seq<real>>, b: seq<seq<real>>)
    ensures Flat(a + b) == Flat(a) + Flat(b)
    decreases |a|
  {
    if a == [] {
      assert a + b == b;
    } else {
      assert (a + b)[1..] == a[1..] + b;
      FlatJoins(a[1..], b);
    }
  }

  lemma {:induction false} FlatWhole(parts: seq<seq<real>>, channels: nat) returns (k: nat)
    requires channels > 0 && forall i :: 0 <= i < |parts| ==> |parts[i]| % channels == 0
    ensures |Flat(parts)| == k * channels
    decreases |parts|
  {
    if parts == [] {
      k := 0;
    } else {
      var rest := FlatWhole(parts[1..], channels);
      k := |parts[0]| / channels + rest;
      Distribute(|parts[0]| / channels, rest, channels);
    }
  }

  lemma Distribute(a: int, b: int, n: int)
    ensures (a + b) * n == a * n + b * n
  {
  }

  lemma {:induction false} FlatGrows(callbacks: seq<seq<real>>, i: nat, channels: nat)
    requires channels > 0 && i < |callbacks| && forall j :: 0 <= j < |callbacks| ==> |callbacks[j]| % channels == 0
    ensures Downmix(Flat(callbacks[..i + 1]), channels) ==
            Downmix(Flat(callbacks[..i]), channels) + Downmix(callbacks[i], channels)
  {
    hide Downmix;
    assert callbacks[..i + 1] == callbacks[..i] + [callbacks[i]];
    FlatJoins(callbacks[..i], [callbacks[i]]);
    assert Flat([callbacks[i]]) == callbacks[i] by {
      assert [callbacks[i]][1..] == [] && callbacks[i] + [] == callbacks[i];
    }
    var k := FlatWhole(callbacks[..i], channels);
    DownmixJoins(Flat(callbacks[..i]), callbacks[i], channels, k);
  }

  lemma {:induction false} NextBlock(data: seq<real>, channels: nat, at: nat, end: nat)
    requires channels > 0 && at < |data|
    requires end == if at + CAPTURE_CHUNK * channels < |data| then at + CAPTURE_CHUNK * channels else |data|
    ensures at < end && end - at <= CAPTURE_CHUNK * channels
    ensures Downmix(data[at..], channels) == Downmix(data[at..end], channels) + Downmix(data[end..], channels)
  {
    hide Downmix;
    assert data[at..] == data[at..end] + data[end..];
    if end < |data| {
      DownmixJoins(data[at..end], data[end..], channels, CAPTURE_CHUNK);
    } else {
      NothingLeft(data, channels);
      assert data[at..end] + [] == data[at..end];
    }
  }

  lemma NothingLeft(data: seq<real>, channels: nat)
    requires channels > 0
    ensures Downmix(data[|data|..], channels) == []
  {
  }

  lemma {:induction false} StreamLater(p: Params, before: seq<real>, more: seq<real>, made: nat)
    requires ParamsOk(p) && (made > 0 ==> Determined(p, |before|, made - 1))
    ensures Stream(p, before + more, made) == Stream(p, before, made)
  {
    OutputsLater(p, before, more, 0, made);
  }

  lemma {:induction false} NextFrame(block: seq<real>, channels: nat, at: nat, end: nat)
    requires channels > 0 && at < |block| && end == if at + channels < |block| then at + channels else |block|
    ensures Downmix(block[at..], channels) == [Mean(block[at..end])] + Downmix(block[end..], channels)
  {
    hide Mean;
    var rest := block[at..];
    if at + channels < |block| {
      assert rest[..channels] == block[at..end] && rest[channels..] == block[end..];
    } else {
      assert rest == block[at..end] && block[end..] == [];
    }
  }
}
