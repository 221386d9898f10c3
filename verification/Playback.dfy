/**
The playback path: mixer frames in, device samples out, one at a time and never running dry
(`Playback` in crates/pickle-audio/src/engine.rs). The mixer is any source of 960-sample frames.
*/
module Playing {
  import opened Resampling

  const SAMPLE_RATE: nat := 48000
  const FRAME: nat := 960
  const MAX_REFILL_ROUNDS: nat := 8

  type Source = f: nat -> seq<real> | forall n :: |f(n)| == FRAME witness (_ => seq(FRAME, _ => 0.0))

  /** The first n mixer frames end to end. */
  function Rendered(source: Source, n: nat): (s: seq<real>)
    ensures |s| == FRAME * n
  {
    if n == 0 then [] else Rendered(source, n - 1) + source(n - 1)
  }

  // ---- Which rates can starve -----------------------------------------------------------------------

  /** Two rounds are enough exactly from 1778 Hz up, and the eight there are exactly from 254 Hz up. */
  lemma {:induction false} RatesThatSuffice(kernel: seq<real>, rate: nat)
    requires rate > 0
    ensures ParamsFor(kernel, SAMPLE_RATE, rate).halfWidth < FRAME as real <==> rate >= 1778
    ensures ParamsFor(kernel, SAMPLE_RATE, rate).halfWidth < (7 * FRAME) as real <==> rate >= 254
  {
    var p := ParamsFor(kernel, SAMPLE_RATE, rate);
    if SAMPLE_RATE > rate {
      Threshold(p.step, rate as real, 27.0, 1777.0, rate >= 1778);
      Threshold(p.step, rate as real, 189.0, 253.0, rate >= 254);
    }
  }

  lemma {:induction false} Threshold(step: real, rate: real, bound: real, last: real, fast: bool)
    requires step * rate == 48000.0 && bound > 0.0 && last > 0.0
    requires last * bound < 48000.0 && (last + 1.0) * bound > 48000.0
    requires if fast then rate >= last + 1.0 else 0.0 < rate <= last
    ensures step < bound <==> fast
  {
    if fast {
      StepBelow(step, rate, bound, last + 1.0);
    } else {
      StepAbove(step, rate, bound, last);
    }
  }

  lemma {:induction false} StepBelow(step: real, rate: real, bound: real, least: real)
    requires step * rate < least * bound && 0.0 < least <= rate && bound > 0.0
    ensures step < bound
  {
    Scaled(bound, least, rate);
    Larger(rate, bound, step);
  }

  lemma {:induction false} StepAbove(step: real, rate: real, bound: real, most: real)
    requires step * rate > most * bound && 0.0 < rate <= most && bound > 0.0
    ensures step > bound
  {
    Scaled(bound, rate, most);
    Larger(rate, step, bound);
  }

  /** Where the next output is after draining: a step past the last determined one, or at the very start. */
  lemma {:induction false} OneFrameIsEnough(p: Params, arrived: nat, made: nat, n: nat)
    requires ParamsOk(p) && p.step <= p.halfWidth && p.halfWidth < n as real
    requires made > 0 ==> Determined(p, arrived, made - 1)
    ensures Determined(p, arrived + n, made)
  {
    if made > 0 {
      AtNext(p, made - 1);
    } else {
      AtNext(p, 0);
    }
    hide At;
  }

  lemma {:induction false} StepBelowWidth(kernel: seq<real>, rate: nat)
    requires rate > 0
    ensures var p := ParamsFor(kernel, SAMPLE_RATE, rate); p.step <= p.halfWidth
  {
    var p := ParamsFor(kernel, SAMPLE_RATE, rate);
    if SAMPLE_RATE <= rate {
      NotLarger(rate as real, p.step, 1.0);
    }
  }

  // ---- The player -------------------------------------------------------------------------------------

  class Playback {
    const source: Source
    const resampler: Resampler?
    const ready: array<real>
    var filled: nat
    var position: nat
    var rendered: nat

    /** Everything handed out, and whether the silent fallback ever had to stand in. */
    ghost var handed: seq<real>
    ghost var starved: bool

    ghost function Parts(): set<object> {
      {this, ready} + if resampler == null then {} else {resampler, resampler.buf}
    }

    /** The samples made so far: the mixer's own, or their conversion. */
    ghost function Made(): seq<real>
      reads this, if resampler == null then {} else {resampler}
      requires resampler != null ==> ParamsOk(resampler.p)
    {
      if resampler == null then Rendered(source, rendered) else Outputs(resampler.p, resampler.input, 0, resampler.made)
    }

    ghost predicate Fits()
      reads Parts()
    {
      && ready.Length > 0 && (resampler == null ==> ready.Length == FRAME)
      && (resampler != null ==>
            && resampler.Valid() && ParamsOk(resampler.p) && resampler.maxFeed == FRAME && resampler.buf != ready
            && resampler.p.step <= resampler.p.halfWidth && resampler.input == Rendered(source, rendered))
    }

    /** The next sample would be the fallback's: nothing is ready, and seven more frames determine no output. */
    ghost predicate WillStarve()
      reads this, if resampler == null then {} else {resampler}
    {
      position >= filled && resampler != null && !Determined(resampler.p, |resampler.input| + FRAME * 7, resampler.made)
    }

    ghost predicate Valid()
      reads Parts()
    {
      Fits() && position <= filled <= ready.Length && (!starved ==> handed + ready[position..filled] == Made())
    }

    constructor (kernel: seq<real>, rate: nat, source: Source)
      requires |kernel| == KERNEL_LENGTH && kernel[KERNEL_LENGTH - 2] == 0.0 && kernel[KERNEL_LENGTH - 1] == 0.0
      ensures Valid() && !starved && handed == [] && fresh(Parts()) && rendered == 0 && this.source == source
      ensures position == filled && (resampler != null ==> resampler.input == [])
      ensures resampler == null <==> rate == 48000 || rate == 0
      ensures resampler != null ==> resampler.p == ParamsFor(kernel, 48000, rate) && resampler.made == 0
    {
      var maker: Resampler? := null;
      var room := FRAME;
      if rate != SAMPLE_RATE && rate != 0 {
        maker := new Resampler(kernel, SAMPLE_RATE, rate, FRAME);
        StepBelowWidth(kernel, rate);
        maker.StateParams();
        room := MaxOutputFor(maker.p, FRAME);
      }
      this.source := source;
      resampler := maker;
      ready := new real[room](_ => 0.0);
      filled, position, rendered := 0, 0, 0;
      handed, starved := [], false;
      new;
      hide State, ParamsOk, OneShot;
      assert ready[0..0] == [];
    }

    /** Render one frame and feed all of it; a drained converter takes it whole. */
    method FeedFrame()
      requires resampler != null && Fits() && resampler.Drained()
      modifies this`rendered, resampler, resampler.buf
      ensures Fits() && rendered == old(rendered) + 1 && resampler.made == old(resampler.made)
      ensures resampler.input == old(resampler.input) + source(old(rendered))
      ensures Outputs(resampler.p, resampler.input, 0, resampler.made) ==
              old(Outputs(resampler.p, resampler.input, 0, resampler.made))
    {
      hide State, ParamsOk, OneShot, Determined;
      var frame := source(rendered);
      rendered := rendered + 1;
      resampler.LastDetermined();
      ghost var before := resampler.input;
      var fed := 0;
      while fed < |frame|
        invariant fed == 0 || fed == |frame|
        invariant resampler.Valid() && resampler.input == before + frame[..fed] && (fed == 0 ==> resampler.Drained())
        invariant resampler.made == old(resampler.made) && rendered == old(rendered) + 1
      {
        var taken := resampler.Feed(frame[fed..]);
        if taken == 0 {
          break;
        }
        assert before + frame[..0] == before && frame[0..][..taken] == frame[..taken];
        fed := fed + taken;
      }
      assert frame[..|frame|] == frame;
      OutputsLater(resampler.p, before, frame, 0, resampler.made);
    }

    /** Pull into `ready`; what comes carries on from what was made before. */
    method PullReady() returns (made: nat)
      requires resampler != null && Fits()
      modifies resampler`pos, resampler`made, ready
      ensures Fits() && made <= ready.Length && (made > 0 <==> !old(resampler.Drained()))
      ensures resampler.made == old(resampler.made) + made
      ensures Outputs(resampler.p, resampler.input, 0, resampler.made) ==
              old(Outputs(resampler.p, resampler.input, 0, resampler.made)) + ready[..made]
    {
      hide State, ParamsOk, OneShot, Determined;
      made := resampler.Pull(ready);
      OutputsJoin(resampler.p, resampler.input, 0, old(resampler.made), resampler.made);
    }

    /**
    Render and convert until there is something to hand out. Silence stands in exactly when seven more frames would not
    have determined the next output; otherwise the samples carry on from those handed out before.
    */
    method RefillConverted() returns (ghost fallback: bool)
      requires resampler != null && Fits()
      modifies Parts()
      ensures Fits() && 0 < filled <= ready.Length && handed == old(handed) && starved == old(starved)
      ensures position == old(position)
      ensures fallback <==> !Determined(resampler.p, old(|resampler.input|) + FRAME * 7, old(resampler.made))
      ensures !fallback ==> Made() == old(Made()) + ready[..filled]
      ensures Determined(resampler.p, old(|resampler.input|) + FRAME, old(resampler.made)) ==>
                rendered <= old(rendered) + 1
    {
      hide State, ParamsOk, OneShot, Outputs;
      for r := 0 to MAX_REFILL_ROUNDS
        invariant Fits() && handed == old(handed) && starved == old(starved) && position == old(position)
        invariant rendered == old(rendered) + r && resampler.made == old(resampler.made)
        invariant |resampler.input| == old(|resampler.input|) + FRAME * r && Made() == old(Made())
        invariant r > 0 ==> !Determined(resampler.p, old(|resampler.input|) + FRAME * (r - 1), resampler.made)
      {
        var made := PullReady();
        if made > 0 {
          filled := made;
          return false;
        }
        FeedFrame();
      }
      forall i | 0 <= i < ready.Length {
        ready[i] := 0.0;
      }
      filled := ready.Length;
      fallback := true;
    }

    method Refill() returns (ghost fallback: bool)
      requires Fits()
      modifies Parts()
      ensures Fits() && 0 < filled <= ready.Length && handed == old(handed) && starved == old(starved)
      ensures position == old(position)
      ensures resampler == null ==> !fallback && rendered == old(rendered) + 1
      ensures resampler != null ==>
                && (fallback <==> !Determined(resampler.p, old(|resampler.input|) + FRAME * 7, old(resampler.made)))
                && (Determined(resampler.p, old(|resampler.input|) + FRAME, old(resampler.made)) ==>
                      rendered <= old(rendered) + 1)
      ensures !fallback ==> Made() == old(Made()) + ready[..filled]
    {
      hide State, ParamsOk, OneShot, Outputs, Determined;
      if resampler != null {
        fallback := RefillConverted();
      } else {
        var frame := source(rendered);
        rendered := rendered + 1;
        forall i | 0 <= i < ready.Length {
          ready[i] := frame[i];
        }
        assert ready[..] == frame;
        filled := ready.Length;
        fallback := false;
      }
    }

    lemma {:induction false} ReachIsEnough()
      requires resampler != null && Fits()
      ensures resampler.p.halfWidth < (7 * FRAME) as real ==>
                Determined(resampler.p, |resampler.input| + FRAME * 7, resampler.made)
      ensures resampler.p.halfWidth < FRAME as real ==>
                Determined(resampler.p, |resampler.input| + FRAME, resampler.made)
    {
      hide State, ParamsOk, Determined;
      resampler.LastDetermined();
      if resampler.p.halfWidth < (7 * FRAME) as real {
        OneFrameIsEnough(resampler.p, |resampler.input|, resampler.made, 7 * FRAME);
      }
      if resampler.p.halfWidth < FRAME as real {
        OneFrameIsEnough(resampler.p, |resampler.input|, resampler.made, FRAME);
      }
    }

    /** Make sure there is a sample to hand out. */
    method Provide()
      requires Valid()
      modifies Parts()
      ensures Valid() && position < filled && handed == old(handed)
      ensures starved == (old(starved) || old(WillStarve()))
      ensures (resampler != null ==> resampler.p.halfWidth < (7 * FRAME) as real) ==> starved == old(starved)
      ensures (resampler != null ==> resampler.p.halfWidth < FRAME as real) ==> rendered <= old(rendered) + 1
    {
      hide State, ParamsOk, OneShot, Outputs, Determined;
      if position >= filled {
        if resampler != null {
          ReachIsEnough();
        }
        assert ready[position..filled] == [] && handed + [] == handed;
        ghost var fallback := Refill();
        starved := starved || fallback;
        position := 0;
        assert ready[0..filled] == ready[..filled];
      }
    }

    /**
    The next sample. The samples handed out are the conversion of the mixer's frames in order unless the fallback stands
    in, which it does only for a kernel that reaches over seven frames; and a reach below one frame costs at most one
    frame per call.
    */
    method NextSample() returns (sample: real)
      requires Valid()
      modifies Parts()
      ensures Valid() && handed == old(handed) + [sample]
      ensures starved == (old(starved) || old(WillStarve()))
      ensures (resampler != null ==> resampler.p.halfWidth < (7 * FRAME) as real) ==> starved == old(starved)
      ensures (resampler != null ==> resampler.p.halfWidth < FRAME as real) ==> rendered <= old(rendered) + 1
    {
      hide State, ParamsOk, OneShot, Outputs, Determined;
      Provide();
      sample := ready[position];
      assert ready[position..filled] == [sample] + ready[position + 1..filled];
      assert handed + ready[position..filled] == (handed + [sample]) + ready[position + 1..filled];
      handed := handed + [sample];
      position := position + 1;
    }
  }

  // ---- A whole stream ------------------------------------------------------------------------------------

  lemma {:induction false} RenderedAt(source: Source, m: nat, i: nat)
    requires i < FRAME * m
    ensures Rendered(source, m)[i] == source(i / FRAME)[i % FRAME]
    decreases m
  {
    if i < FRAME * (m - 1) {
      RenderedAt(source, m - 1, i);
    } else {
      assert i / FRAME == m - 1 && i % FRAME == i - FRAME * (m - 1);
    }
  }

  lemma {:induction false} RenderedGrows(source: Source, m: nat, k: nat)
    requires m <= k
    ensures Rendered(source, k) == Rendered(source, m) + Rendered(source, k)[FRAME * m..]
    decreases k
  {
    if m < k {
      RenderedGrows(source, m, k - 1);
    }
  }

  /** An output determined by m frames and by k frames is the same from either. */
  lemma {:induction false} AnyEnoughFrames(p: Params, source: Source, m: nat, k: nat, i: nat)
    requires ParamsOk(p) && Determined(p, FRAME * m, i) && Determined(p, FRAME * k, i)
    ensures OneShot(p, Rendered(source, m), i) == OneShot(p, Rendered(source, k), i)
  {
    hide ParamsOk, OneShot, Determined, Rendered;
    var less, more := if m <= k then m else k, if m <= k then k else m;
    RenderedGrows(source, less, more);
    LaterInputIsIrrelevant(p, Rendered(source, less), Rendered(source, more)[FRAME * less..], i);
  }

  /** Sample i is output i of the conversion of the mixer's frames, however many more of them there are. */
  ghost predicate ConvertedAt(p: Params, source: Source, samples: seq<real>, frames: nat, i: nat)
    requires ParamsOk(p) && i < |samples|
  {
    && Determined(p, FRAME * frames, i)
    && forall m: nat :: Determined(p, FRAME * m, i) ==> samples[i] == OneShot(p, Rendered(source, m), i)
  }

  lemma {:induction false} HandedIsConverted(p: Params, source: Source, samples: seq<real>, frames: nat, made: nat,
                                             i: nat)
    requires ParamsOk(p) && i < |samples| && samples <= Outputs(p, Rendered(source, frames), 0, made)
    requires made > 0 ==> Determined(p, FRAME * frames, made - 1)
    ensures ConvertedAt(p, source, samples, frames, i)
  {
    PositiveStep(p);
    hide ParamsOk, OneShot, At, Rendered;
    AtGrows(p, i, made - 1);
    forall m: nat | Determined(p, FRAME * m, i) ensures samples[i] == OneShot(p, Rendered(source, m), i) {
      AnyEnoughFrames(p, source, m, frames, i);
    }
  }

  /**
  A device that takes n samples. Without conversion they are the mixer's frames end to end. With it, at 254 Hz or more,
  sample i is output i of the conversion of those frames, and the frames rendered determine it. The silent fallback
  stands in exactly when a sample is taken at less than 254 Hz.
  */
  method Play(kernel: seq<real>, rate: nat, source: Source, n: nat)
    returns (samples: seq<real>, ghost frames: nat, ghost starved: bool)
    requires |kernel| == KERNEL_LENGTH && kernel[KERNEL_LENGTH - 2] == 0.0 && kernel[KERNEL_LENGTH - 1] == 0.0
    ensures |samples| == n
    ensures starved <==> n > 0 && 0 < rate < 254
    ensures rate == 0 || rate == SAMPLE_RATE ==>
              n <= FRAME * frames && forall i :: 0 <= i < n ==> samples[i] == source(i / FRAME)[i % FRAME]
    ensures rate > 0 ==> ParamsOk(ParamsFor(kernel, SAMPLE_RATE, rate))
    ensures rate >= 254 && rate != SAMPLE_RATE ==>
              forall i :: 0 <= i < n ==> ConvertedAt(ParamsFor(kernel, SAMPLE_RATE, rate), source, samples, frames, i)
    ensures rate >= 1778 ==> frames <= n
  {
    var p := new Playback(kernel, rate, source);
    samples := [];
    if rate > 0 {
      RatesThatSuffice(kernel, rate);
      ParamsForOk(kernel, SAMPLE_RATE, rate);
    }
    if 0 < rate < 254 {
      SlowRatesStarve(kernel, rate);
    }
    hide State, ParamsOk, OneShot, Outputs, Determined, ParamsFor, ConvertedAt;
    for i := 0 to n
      invariant p.Valid() && fresh(p.Parts()) && |samples| == i && p.handed == samples
      invariant i == 0 ==> (p.WillStarve() <==> 0 < rate < 254)
      invariant p.starved <==> i > 0 && 0 < rate < 254
      invariant rate >= 1778 || rate == 0 ==> p.rendered <= i
    {
      var sample := p.NextSample();
      samples := samples + [sample];
    }
    frames, starved := p.rendered, p.starved;
    if !p.starved {
      HandedOut(p, samples);
    }
  }

  lemma {:induction false} ParamsForOk(kernel: seq<real>, inRate: nat, outRate: nat)
    requires inRate > 0 && outRate > 0
    requires |kernel| == KERNEL_LENGTH && kernel[KERNEL_LENGTH - 2] == 0.0 && kernel[KERNEL_LENGTH - 1] == 0.0
    ensures ParamsOk(ParamsFor(kernel, inRate, outRate))
  {
  }

  lemma {:induction false} HandedOut(p: Playback, samples: seq<real>)
    requires p.Valid() && p.handed == samples && !p.starved
    ensures p.resampler == null ==>
              && |samples| <= FRAME * p.rendered
              && forall i :: 0 <= i < |samples| ==> samples[i] == p.source(i / FRAME)[i % FRAME]
    ensures p.resampler != null ==>
              forall i :: 0 <= i < |samples| ==> ConvertedAt(p.resampler.p, p.source, samples, p.rendered, i)
  {
    hide State, ParamsOk, OneShot, Outputs, Determined, ConvertedAt;
    if p.resampler == null {
      forall i | 0 <= i < |samples| ensures samples[i] == p.source(i / FRAME)[i % FRAME] {
        RenderedAt(p.source, p.rendered, i);
      }
    } else {
      p.resampler.LastDetermined();
      forall i | 0 <= i < |samples| ensures ConvertedAt(p.resampler.p, p.source, samples, p.rendered, i) {
        HandedIsConverted(p.resampler.p, p.source, samples, p.rendered, p.resampler.made, i);
      }
    }
  }

  /** Below 254 Hz the first refill does fall back: no output is determined by the seven frames it renders in time. */
  lemma {:induction false} SlowRatesStarve(kernel: seq<real>, rate: nat)
    requires 0 < rate < 254
    ensures !Determined(ParamsFor(kernel, SAMPLE_RATE, rate), FRAME * 7, 0)
  {
    RatesThatSuffice(kernel, rate);
    AtNext(ParamsFor(kernel, SAMPLE_RATE, rate), 0);
    hide At;
  }
}
