/**
Streaming rate conversion against a one-shot convolution (crates/pickle-audio/src/resample.rs).

Samples, rates and positions are exact reals. The kernel table is any table of the right length that ends in two
zeros, which is all the stream logic relies on.
*/
module Resampling {

  // ---- The conversion, as mathematics ------------------------------------------------------

  const HALF_ZEROS: nat := 32
  const DENSITY: nat := 512
  const KERNEL_LENGTH: nat := HALF_ZEROS * DENSITY + 2
  const CUTOFF: real := 0.9

  function CeilOf(x: real): (n: int)
    ensures n as real >= x && (n - 1) as real < x
  {
    -((-x).Floor)
  }

  function Abs(x: real): real { if x < 0.0 then -x else x }

  /** What stays fixed over a stream's life. */
  datatype Params = Params(kernel: seq<real>, fc: real, halfWidth: real, step: real)

  ghost predicate ParamsOk(p: Params) {
    && |p.kernel| == KERNEL_LENGTH && p.kernel[KERNEL_LENGTH - 2] == 0.0 && p.kernel[KERNEL_LENGTH - 1] == 0.0
    && p.step > 0.0 && p.fc > 0.0 && p.halfWidth > 0.0
    && p.halfWidth * p.fc == HALF_ZEROS as real
  }

  function ParamsFor(kernel: seq<real>, inRate: nat, outRate: nat): (p: Params)
    requires inRate > 0 && outRate > 0
    ensures p.step * outRate as real == inRate as real && p.step > 0.0
    ensures p.halfWidth == if inRate <= outRate then 320.0 / 9.0 else 320.0 / 9.0 * p.step
    ensures p.fc > 0.0 && p.halfWidth > 0.0 && p.halfWidth * p.fc == 32.0
  {
    var step := inRate as real / outRate as real;
    var fc := if 1.0 / step < 1.0 then CUTOFF * (1.0 / step) else CUTOFF;
    RateFacts(inRate as real, outRate as real, step, fc);
    Params(kernel, fc, HALF_ZEROS as real / fc, step)
  }

  lemma {:induction false} RateFacts(a: real, b: real, step: real, fc: real)
    requires a >= 1.0 && b >= 1.0 && step == a / b
    requires fc == if 1.0 / step < 1.0 then 0.9 * (1.0 / step) else 0.9
    ensures step > 0.0 && step * b == a && fc > 0.0
    ensures (1.0 / step < 1.0) == (a > b)
    ensures 32.0 / fc == if a <= b then 320.0 / 9.0 else 320.0 / 9.0 * step
    ensures 32.0 / fc > 0.0 && 32.0 / fc * fc == 32.0
  {
    assert step * b == a;
    assert 1.0 / step * step == 1.0;
    if a > b {
      Larger(b, step, 1.0);
      assert fc * step == 0.9;
      Quotient(32.0, fc, 320.0 / 9.0 * step);
    } else {
      NotLarger(b, step, 1.0);
    }
  }

  lemma Larger(b: real, x: real, y: real)
    requires b > 0.0 && x * b > y * b
    ensures x > y
  {
  }

  lemma NotLarger(b: real, x: real, y: real)
    requires b > 0.0 && x * b <= y * b
    ensures x <= y
  {
  }

  lemma Quotient(a: real, b: real, c: real)
    requires b != 0.0 && c * b == a
    ensures a / b == c
  {
  }

  /** The windowed sinc looked up at a distance of `tau` input samples, between two entries of its table. */
  function Tap(p: Params, tau: real): (t: real)
    requires ParamsOk(p) && tau >= 0.0
    ensures tau >= p.halfWidth ==> t == 0.0
  {
    var index := Place(p, tau);
    var whole := index.Floor;
    BeyondTable(p, tau);
    if whole + 1 >= |p.kernel| then 0.0
    else Between(p.kernel[whole], p.kernel[whole + 1], index - whole as real)
  }

  /** Where a distance falls in the table. */
  function Place(p: Params, tau: real): real { tau * p.fc * DENSITY as real }

  /** The point a fraction f of the way from one value to another. */
  function Between(low: real, high: real, f: real): real { low + (high - low) * f }

  lemma {:induction false} BeyondTable(p: Params, tau: real)
    requires ParamsOk(p) && tau >= 0.0
    ensures Place(p, tau) >= 0.0
    ensures tau >= p.halfWidth ==> Place(p, tau).Floor >= KERNEL_LENGTH - 2
  {
    assert tau * p.fc >= 0.0;
    if tau >= p.halfWidth {
      Scaled(p.fc, p.halfWidth, tau);
    }
  }

  lemma Scaled(k: real, x: real, y: real)
    requires k >= 0.0 && x <= y
    ensures x * k <= y * k
  {
  }

  /** The sum of x[k] * Tap(|centre - k|) over lo <= k < hi. */
  function Sum(p: Params, x: seq<real>, centre: real, lo: int, hi: int): real
    requires ParamsOk(p) && 0 <= lo && hi <= |x|
    decreases hi - lo
  {
    if lo >= hi then 0.0 else Sum(p, x, centre, lo, hi - 1) + x[hi - 1] * Tap(p, Abs(centre - (hi - 1) as real))
  }

  /** Where output n falls in the input. */
  function At(p: Params, n: nat): real { n as real * p.step }

  lemma {:induction false} AtNext(p: Params, n: nat)
    ensures At(p, n + 1) == At(p, n) + p.step && At(p, 0) == 0.0
  {
    assert (n + 1) as real == n as real + 1.0;
  }

  /** Output n of the whole stream at once: the convolution of all the input, centred at n steps. */
  function OneShot(p: Params, x: seq<real>, n: nat): real
    requires ParamsOk(p)
  {
    Sum(p, x, At(p, n), 0, |x|) * p.fc
  }

  /** Output n needs no input that has not arrived. */
  predicate Determined(p: Params, arrived: nat, n: nat) {
    At(p, n) + p.halfWidth < arrived as real
  }

  // ---- Facts about the sum -------------------------------------------------------------------

  lemma {:induction false} SumSplits(p: Params, x: seq<real>, centre: real, lo: int, mid: int, hi: int)
    requires ParamsOk(p) && 0 <= lo <= mid <= hi <= |x|
    ensures Sum(p, x, centre, lo, hi) == Sum(p, x, centre, lo, mid) + Sum(p, x, centre, mid, hi)
    decreases hi - mid
  {
    if mid < hi {
      SumSplits(p, x, centre, lo, mid, hi - 1);
    }
  }

  lemma {:induction false} SumOutOfReach(p: Params, x: seq<real>, centre: real, lo: int, hi: int)
    requires ParamsOk(p) && 0 <= lo && hi <= |x|
    requires (hi - 1) as real <= centre - p.halfWidth || lo as real >= centre + p.halfWidth
    ensures Sum(p, x, centre, lo, hi) == 0.0
    decreases hi - lo
  {
    if lo < hi {
      SumOutOfReach(p, x, centre, lo, hi - 1);
      assert Abs(centre - (hi - 1) as real) >= p.halfWidth;
    }
  }

  lemma {:induction false} SumSameInput(p: Params, x: seq<real>, y: seq<real>, centre: real, lo: int, hi: int)
    requires ParamsOk(p) && 0 <= lo && hi <= |x| && hi <= |y|
    requires forall k: int :: lo <= k < hi ==> x[k] == y[k]
    ensures Sum(p, x, centre, lo, hi) == Sum(p, y, centre, lo, hi)
    decreases hi - lo
  {
    if lo < hi {
      SumSameInput(p, x, y, centre, lo, hi - 1);
    }
  }

  /** Only the taps inside the kernel's support count. */
  lemma {:induction false} SumWindow(p: Params, x: seq<real>, centre: real, first: int, last: int)
    requires ParamsOk(p) && 0 <= first <= last + 1 <= |x|
    requires first == 0 || (first - 1) as real <= centre - p.halfWidth
    requires (last + 1) as real >= centre + p.halfWidth
    ensures Sum(p, x, centre, 0, |x|) == Sum(p, x, centre, first, last + 1)
  {
    SumSplits(p, x, centre, 0, first, |x|);
    SumSplits(p, x, centre, first, last + 1, |x|);
    if first > 0 {
      SumOutOfReach(p, x, centre, 0, first);
    }
    SumOutOfReach(p, x, centre, last + 1, |x|);
  }

  /** Once an output is determined, whatever arrives later cannot change it. */
  lemma {:induction false} LaterInputIsIrrelevant(p: Params, x: seq<real>, more: seq<real>, n: nat)
    requires ParamsOk(p) && Determined(p, |x|, n)
    ensures OneShot(p, x + more, n) == OneShot(p, x, n)
  {
    hide Tap, ParamsOk, Sum, At;
    var y, centre := x + more, At(p, n);
    SumSplits(p, y, centre, 0, |x|, |y|);
    SumSameInput(p, x, y, centre, 0, |x|);
    SumOutOfReach(p, y, centre, |x|, |y|);
  }

  // ---- What the table says -----------------------------------------------------------------------

  lemma {:induction false} TapIs(p: Params, tau: real, j: nat, f: real)
    requires ParamsOk(p) && tau >= 0.0 && 0.0 <= f < 1.0 && Place(p, tau) == j as real + f
    ensures Tap(p, tau) == if j + 1 >= KERNEL_LENGTH then 0.0 else Between(p.kernel[j], p.kernel[j + 1], f)
  {
    hide Between, Place;
    BeyondTable(p, tau);
    assert Place(p, tau).Floor == j;
  }

  lemma PlaceIs(p: Params, tau: real)
    ensures Place(p, tau) == tau * p.fc * 512.0
  {
  }

  /** On an entry of the table the kernel is that entry. */
  lemma {:induction false} TapAtKnot(p: Params, tau: real, j: nat)
    requires ParamsOk(p) && tau >= 0.0 && j < KERNEL_LENGTH && tau * p.fc * 512.0 == j as real
    ensures Tap(p, tau) == p.kernel[j]
  {
    hide Tap;
    PlaceIs(p, tau);
    TapIs(p, tau, j, 0.0);
    if j + 1 < KERNEL_LENGTH {
      Mixed(p.kernel[j], p.kernel[j + 1], 0.0);
    }
  }

  /** Between two entries it runs straight from the one to the other. */
  lemma {:induction false} TapBetween(p: Params, tau: real, j: nat, f: real)
    requires ParamsOk(p) && tau >= 0.0 && j + 1 < KERNEL_LENGTH && 0.0 <= f < 1.0
    requires tau * p.fc * 512.0 == j as real + f
    ensures Tap(p, tau) == (1.0 - f) * p.kernel[j] + f * p.kernel[j + 1]
  {
    hide Tap;
    PlaceIs(p, tau);
    TapIs(p, tau, j, f);
    Mixed(p.kernel[j], p.kernel[j + 1], f);
  }

  lemma Mixed(a: real, b: real, f: real)
    ensures Between(a, b, f) == (1.0 - f) * a + f * b
  {
  }

  /** A single 1 among zeros, as far as the sum goes. */
  lemma {:induction false} SumOfImpulse(p: Params, x: seq<real>, centre: real, hi: nat, k: nat)
    requires ParamsOk(p) && hi <= |x| && k < |x| && x[k] == 1.0
    requires forall i :: 0 <= i < |x| && i != k ==> x[i] == 0.0
    ensures Sum(p, x, centre, 0, hi) == if k < hi then Tap(p, Abs(centre - k as real)) else 0.0
  {
    hide Tap, ParamsOk;
    if hi > 0 {
      SumOfImpulse(p, x, centre, hi - 1, k);
    }
  }

  /** The response to a single 1: the table, read at its distance from the output, straight between entries. */
  lemma {:induction false} ImpulseResponse(p: Params, x: seq<real>, k: nat, n: nat, j: nat, f: real)
    requires ParamsOk(p) && k < |x| && x[k] == 1.0 && forall i :: 0 <= i < |x| && i != k ==> x[i] == 0.0
    requires j + 1 < KERNEL_LENGTH && 0.0 <= f < 1.0
    requires Abs(n as real * p.step - k as real) * p.fc * 512.0 == j as real + f
    ensures OneShot(p, x, n) == ((1.0 - f) * p.kernel[j] + f * p.kernel[j + 1]) * p.fc
  {
    hide Tap, Sum, ParamsOk, Abs;
    var tau := Distance(p, n, k);
    SumOfImpulse(p, x, At(p, n), |x|, k);
    TapBetween(p, tau, j, f);
  }

  lemma Distance(p: Params, n: nat, k: nat) returns (tau: real)
    ensures tau == Abs(At(p, n) - k as real) == Abs(n as real * p.step - k as real) && tau >= 0.0
  {
    tau := Abs(At(p, n) - k as real);
  }

  /** Every other input is so many impulses: the conversion is linear. */
  lemma {:induction false} SumIsLinear(p: Params, x: seq<real>, y: seq<real>, z: seq<real>, a: real, centre: real,
                                       hi: nat)
    requires ParamsOk(p) && hi <= |x| == |y| == |z|
    requires forall i :: 0 <= i < |x| ==> z[i] == a * x[i] + y[i]
    ensures Sum(p, z, centre, 0, hi) == a * Sum(p, x, centre, 0, hi) + Sum(p, y, centre, 0, hi)
  {
    hide Tap, ParamsOk;
    if hi > 0 {
      SumIsLinear(p, x, y, z, a, centre, hi - 1);
      Spread(a, x[hi - 1], y[hi - 1], Tap(p, Abs(centre - (hi - 1) as real)), Sum(p, x, centre, 0, hi - 1));
    }
  }

  lemma Spread(a: real, x: real, y: real, t: real, s: real)
    ensures (a * x + y) * t == a * (x * t) + y * t && a * (s + x * t) == a * s + a * (x * t)
  {
  }

  lemma {:induction false} ConversionIsLinear(p: Params, x: seq<real>, y: seq<real>, z: seq<real>, a: real, n: nat)
    requires ParamsOk(p) && |x| == |y| == |z| && forall i :: 0 <= i < |x| ==> z[i] == a * x[i] + y[i]
    ensures OneShot(p, z, n) == a * OneShot(p, x, n) + OneShot(p, y, n)
  {
    hide Tap, Sum, ParamsOk;
    SumIsLinear(p, x, y, z, a, At(p, n), |x|);
    Spread(a, Sum(p, x, At(p, n), 0, |x|), Sum(p, y, At(p, n), 0, |x|), p.fc, 0.0);
  }

  /** Outputs lo to hi of the whole stream at once. */
  function Outputs(p: Params, x: seq<real>, lo: nat, hi: nat): (ys: seq<real>)
    requires ParamsOk(p) && lo <= hi
    ensures |ys| == hi - lo && forall i :: 0 <= i < hi - lo ==> ys[i] == OneShot(p, x, lo + i)
  {
    seq(hi - lo, i requires 0 <= i < hi - lo => OneShot(p, x, lo + i))
  }

  lemma OutputsStart(p: Params, x: seq<real>, lo: nat)
    requires ParamsOk(p)
    ensures Outputs(p, x, lo, lo) == []
  {
  }

  lemma {:induction false} OutputsSnoc(p: Params, x: seq<real>, lo: nat, hi: nat)
    requires ParamsOk(p) && lo <= hi
    ensures Outputs(p, x, lo, hi + 1) == Outputs(p, x, lo, hi) + [OneShot(p, x, hi)]
  {
    hide ParamsOk, OneShot;
  }

  lemma {:induction false} OutputsJoin(p: Params, x: seq<real>, lo: nat, mid: nat, hi: nat)
    requires ParamsOk(p) && lo <= mid <= hi
    ensures Outputs(p, x, lo, mid) + Outputs(p, x, mid, hi) == Outputs(p, x, lo, hi)
  {
    hide ParamsOk, OneShot;
  }

  lemma {:induction false} OutputsLater(p: Params, x: seq<real>, more: seq<real>, lo: nat, hi: nat)
    requires ParamsOk(p) && lo <= hi && (hi > 0 ==> Determined(p, |x|, hi - 1))
    ensures Outputs(p, x + more, lo, hi) == Outputs(p, x, lo, hi)
  {
    assert p.step > 0.0;
    hide OneShot, At, ParamsOk;
    var ys, zs := Outputs(p, x + more, lo, hi), Outputs(p, x, lo, hi);
    forall i | 0 <= i < hi - lo ensures ys[i] == zs[i] {
      AtGrows(p, lo + i, hi - 1);
      LaterInputIsIrrelevant(p, x, more, lo + i);
    }
  }

  // ---- Counting ---------------------------------------------------------------------------------

  lemma {:induction false} AtGrows(p: Params, j: nat, k: nat)
    requires p.step > 0.0 && j <= k
    ensures At(p, j) <= At(p, k) && At(p, 0) == 0.0
  {
    Scaled(p.step, j as real, k as real);
  }

  /** `made` is exactly the number of outputs that are determined: none missing, none early, no drift. */
  ghost predicate Exact(p: Params, arrived: nat, made: nat) {
    forall k: nat :: k < made <==> Determined(p, arrived, k)
  }

  lemma {:induction false} DrainedIsExact(p: Params, arrived: nat, made: nat)
    requires p.step > 0.0 && !Determined(p, arrived, made) && (made > 0 ==> Determined(p, arrived, made - 1))
    ensures Exact(p, arrived, made)
  {
    hide At;
    forall k: nat ensures k < made <==> Determined(p, arrived, k) {
      if k < made {
        AtGrows(p, k, made - 1);
      } else {
        AtGrows(p, made, k);
      }
    }
  }

  function MaxOutputFor(p: Params, n: nat): (most: nat)
    requires p.step > 0.0
    ensures most >= 2
  {
    assert n as real / p.step >= 0.0 by { NotLarger(p.step, 0.0, n as real / p.step); }
    CeilOf(n as real / p.step) + 2
  }

  /** A number no output determined so far can have. */
  function Ceiling(p: Params, arrived: nat): (n: int)
    requires p.step > 0.0
  {
    CeilOf(arrived as real / p.step)
  }

  lemma {:induction false} BelowCeiling(p: Params, arrived: nat, n: nat)
    requires ParamsOk(p) && Determined(p, arrived, n)
    ensures n < Ceiling(p, arrived)
  {
    var ratio := arrived as real / p.step;
    assert ratio * p.step == arrived as real;
    assert n as real * p.step < ratio * p.step;
    Larger(p.step, ratio, n as real);
  }

  lemma {:induction false} DueExists(p: Params, arrived: nat, k: nat)
    requires ParamsOk(p) && (k > 0 ==> Determined(p, arrived, k - 1))
    ensures exists n: nat :: Exact(p, arrived, n)
    decreases Ceiling(p, arrived) - k
  {
    if Determined(p, arrived, k) {
      BelowCeiling(p, arrived, k);
      DueExists(p, arrived, k + 1);
    } else {
      DrainedIsExact(p, arrived, k);
    }
  }

  /** How many outputs the input so far determines. */
  ghost function Due(p: Params, arrived: nat): (n: nat)
    requires ParamsOk(p)
    ensures Exact(p, arrived, n)
  {
    DueExists(p, arrived, 0);
    var n: nat :| Exact(p, arrived, n);
    n
  }

  /** Everything made is due; nothing more can be pulled exactly when everything due is made. */
  lemma {:induction false} DueIs(p: Params, arrived: nat, made: nat)
    requires ParamsOk(p) && (made > 0 ==> Determined(p, arrived, made - 1))
    ensures made <= Due(p, arrived)
    ensures made == Due(p, arrived) <==> !Determined(p, arrived, made)
  {
    hide ParamsOk, Determined;
    var n := Due(p, arrived);
    if made > 0 {
      var k: nat := made - 1;
      assert k < n <==> Determined(p, arrived, k);
    }
    assert made < n <==> Determined(p, arrived, made);
  }

  /** From one drained state to the next, n input samples cannot make more than the sizing function says. */
  lemma {:induction false} OutputIsBounded(p: Params, arrived: nat, made: nat, n: nat, made': nat)
    requires p.step > 0.0 && !Determined(p, arrived, made) && made <= made'
    requires made' > made ==> Determined(p, arrived + n, made' - 1)
    ensures made' - made < MaxOutputFor(p, n)
  {
    var ratio := n as real / p.step;
    assert ratio * p.step == n as real;
    if made' > made {
      var gap := made' - 1 - made;
      assert (made' - 1) as real == made as real + gap as real;
      assert (made' - 1) as real * p.step == made as real * p.step + gap as real * p.step;
      assert gap as real * p.step < ratio * p.step;
      Larger(p.step, ratio, gap as real);
    } else {
      NotLarger(p.step, 0.0, ratio);
    }
  }

  // ---- The stream ------------------------------------------------------------------------------------

  /**
  `contents` is the input from `base` on; the next output, number `made`, falls `pos` samples into it; the front is cut
  only where the kernel no longer reaches; and everything made so far was determined by what had arrived.
  */
  ghost predicate State(p: Params, contents: seq<real>, pos: real, input: seq<real>, base: nat, made: nat) {
    && ParamsOk(p)
    && base + |contents| == |input| && contents == input[base..]
    && pos + base as real == At(p, made)
    && (base > 0 ==> pos >= p.halfWidth)
    && (made > 0 ==> Determined(p, |input|, made - 1))
  }

  lemma {:induction false} StateStarts(p: Params)
    requires ParamsOk(p)
    ensures State(p, [], 0.0, [], 0, 0) && !Determined(p, 0, 0)
  {
    AtNext(p, 0);
  }

  lemma {:induction false} StateCompacts(p: Params, contents: seq<real>, pos: real, input: seq<real>, base: nat,
                                         made: nat, drop: nat)
    requires State(p, contents, pos, input, base, made)
    requires drop <= |contents| && drop as real <= pos - p.halfWidth
    ensures State(p, contents[drop..], pos - drop as real, input, base + drop, made)
  {
    hide ParamsOk, At, Determined;
  }

  /** Whole samples that may go, no more than there are. */
  function Droppable(stale: real, len: nat): (drop: nat)
    requires stale >= 1.0
    ensures drop <= len && drop as real <= stale && (drop == len || stale - drop as real < 1.0)
  {
    if stale.Floor < len then stale.Floor else len
  }

  /** A drained buffer, compacted, holds less than the kernel's full reach. */
  lemma {:induction false} DrainedIsShort(p: Params, contents: seq<real>, pos: real, input: seq<real>, base: nat,
                                          made: nat)
    requires State(p, contents, pos, input, base, made) && !Determined(p, |input|, made)
    requires contents == [] || pos - p.halfWidth < 1.0
    ensures |contents| as real < 2.0 * p.halfWidth + 1.0
  {
    hide At;
  }

  lemma {:induction false} StateFeeds(p: Params, contents: seq<real>, pos: real, input: seq<real>, base: nat,
                                      made: nat, more: seq<real>)
    requires State(p, contents, pos, input, base, made)
    ensures State(p, contents + more, pos, input + more, base, made)
  {
    hide ParamsOk, At;
    assert (input + more)[base..] == input[base..] + more;
  }

  /** More than `n` samples beyond the kernel's reach around output `made` have arrived. */
  ghost predicate Ahead(p: Params, arrived: nat, made: nat, n: nat) {
    At(p, made) + p.halfWidth + n as real < arrived as real
  }

  lemma {:induction false} FullIsAhead(p: Params, contents: seq<real>, pos: real, input: seq<real>, base: nat,
                                       made: nat, n: nat)
    requires State(p, contents, pos, input, base, made) && pos - p.halfWidth < 1.0
    requires |contents| as real >= n as real + 2.0 * p.halfWidth + 1.0
    ensures Ahead(p, |input|, made, n)
  {
    hide ParamsOk, At, Determined;
  }

  lemma {:induction false} StateReady(p: Params, contents: seq<real>, pos: real, input: seq<real>, base: nat, made: nat)
    requires State(p, contents, pos, input, base, made)
    ensures Determined(p, |input|, made) <==> pos + p.halfWidth < |contents| as real
  {
    hide ParamsOk, At;
  }

  lemma {:induction false} StateSteps(p: Params, contents: seq<real>, pos: real, input: seq<real>, base: nat, made: nat)
    requires State(p, contents, pos, input, base, made) && Determined(p, |input|, made)
    ensures State(p, contents, pos + p.step, input, base, made + 1)
  {
    AtNext(p, made);
    assert p.step > 0.0;
    hide ParamsOk, At, Determined;
  }

  lemma {:induction false} WindowBounds(pos: real, hw: real, len: nat, first: int, last: int)
    requires pos >= 0.0 && hw > 0.0 && pos + hw < len as real
    requires first == (if CeilOf(pos - hw) < 0 then 0 else CeilOf(pos - hw)) && last == (pos + hw).Floor
    ensures 0 <= first <= last + 1 <= len && (last + 1) as real >= pos + hw
    ensures first == 0 || (first - 1) as real <= pos - hw
    ensures pos >= hw ==> (first - 1) as real <= pos - hw
  {
    hide CeilOf;
  }

  lemma {:induction false} PositionIsAhead(p: Params, contents: seq<real>, pos: real, input: seq<real>, base: nat,
                                           made: nat)
    requires State(p, contents, pos, input, base, made)
    ensures pos >= 0.0 && p.halfWidth > 0.0
  {
    hide At, Determined;
    AtGrows(p, 0, made);
  }

  /** The window the loop visits: within the buffer, cut short at the left only where the stream itself starts. */
  lemma {:induction false} WindowFits(p: Params, contents: seq<real>, pos: real, input: seq<real>, base: nat,
                                      made: nat, first: int, last: int)
    requires State(p, contents, pos, input, base, made) && Determined(p, |input|, made)
    requires first == (if CeilOf(pos - p.halfWidth) < 0 then 0 else CeilOf(pos - p.halfWidth))
    requires last == (pos + p.halfWidth).Floor
    ensures 0 <= first <= last + 1 <= |contents|
    ensures Sum(p, input, At(p, made), 0, |input|) == Sum(p, input, At(p, made), base + first, base + last + 1)
  {
    hide ParamsOk, Sum, Tap, CeilOf, At, Determined;
    PositionIsAhead(p, contents, pos, input, base, made);
    StateReady(p, contents, pos, input, base, made);
    WindowBounds(pos, p.halfWidth, |contents|, first, last);
    SumWindow(p, input, At(p, made), base + first, base + last);
  }

  class Resampler {
    const p: Params
    const maxFeed: nat
    const buf: array<real>
    var len: nat
    /** The centre of the next output's window, counted from the start of the buffer. */
    var pos: real

    /** Everything accepted so far, how much of it has been dropped from the front, and how many outputs were made. */
    ghost var input: seq<real>
    ghost var base: nat
    ghost var made: nat

    ghost predicate Valid()
      reads this, buf
    {
      && buf.Length as real >= maxFeed as real + 2.0 * p.halfWidth + 1.0
      && len <= buf.Length && State(p, buf[..len], pos, input, base, made)
    }

    /** Nothing more can be pulled until more is fed. */
    ghost predicate Drained()
      reads this
    {
      !Determined(p, |input|, made)
    }

    constructor (kernel: seq<real>, inRate: nat, outRate: nat, maxFeed: nat)
      requires inRate > 0 && outRate > 0 && maxFeed > 0
      requires |kernel| == KERNEL_LENGTH && kernel[KERNEL_LENGTH - 2] == 0.0 && kernel[KERNEL_LENGTH - 1] == 0.0
      ensures Valid() && Drained() && fresh(buf)
      ensures p == ParamsFor(kernel, inRate, outRate) && this.maxFeed == maxFeed && input == [] && made == 0
    {
      var params := ParamsFor(kernel, inRate, outRate);
      p, this.maxFeed := params, maxFeed;
      buf := new real[maxFeed + 2 * CeilOf(params.halfWidth) + CeilOf(params.step) + 8](_ => 0.0);
      len, pos := 0, 0.0;
      input, base, made := [], 0, 0;
      StateStarts(params);
      new;
      hide State, Determined;
      assert buf[..0] == [];
    }

    /** `copy_within`. */
    method Slide(drop: nat)
      requires drop <= len <= buf.Length
      modifies buf
      ensures buf[..len - drop] == old(buf[..len])[drop..]
    {
      forall i | 0 <= i < len - drop {
        buf[i] := buf[i + drop];
      }
    }

    method DropFront(drop: nat)
      requires Valid() && drop <= len && drop as real <= pos - p.halfWidth
      modifies this`len, this`pos, this`base, buf
      ensures Valid() && len == old(len) - drop && pos == old(pos) - drop as real
    {
      hide State;
      StateCompacts(p, buf[..len], pos, input, base, made, drop);
      Slide(drop);
      len, pos, base := len - drop, pos - drop as real, base + drop;
    }

    /** Make room: samples behind every window still to come are discarded and what is left moves down to index 0. */
    method Compact()
      requires Valid()
      modifies this`len, this`pos, this`base, buf
      ensures Valid()
      ensures Drained() ==> len as real < 2.0 * p.halfWidth + 1.0
      ensures len == 0 || pos - p.halfWidth < 1.0
    {
      hide State, Determined, Droppable;
      var stale := pos - p.halfWidth;
      if stale >= 1.0 {
        DropFront(Droppable(stale, len));
      }
      assert |buf[..len]| == len;
      if Drained() {
        DrainedIsShort(p, buf[..len], pos, input, base, made);
      }
    }

    /** How many samples the next feed will accept. */
    method Space() returns (n: nat)
      requires Valid()
      modifies this`len, this`pos, this`base, buf
      ensures Valid() && n == buf.Length - len
      ensures Drained() ==> n >= maxFeed
    {
      hide State, Determined;
      Compact();
      n := buf.Length - len;
    }

    /**
    Take what fits. From a drained state, `maxFeed` samples always fit; otherwise what is refused lies more than
    `maxFeed` beyond the kernel's reach around the next output.
    */
    method Feed(samples: seq<real>) returns (taken: nat)
      requires Valid()
      modifies this`len, this`pos, this`base, this`input, buf
      ensures Valid() && taken <= |samples| && input == old(input) + samples[..taken]
      ensures taken < |samples| ==> len == buf.Length
      ensures old(Drained()) ==> taken >= Min(|samples|, maxFeed)
      ensures taken < |samples| && !old(Drained()) ==> Ahead(p, |input|, made, maxFeed)
    {
      hide State, Determined, Ahead;
      Compact();
      taken := if |samples| < buf.Length - len then |samples| else buf.Length - len;
      ghost var live := buf[..len];
      forall i | 0 <= i < taken {
        buf[len + i] := samples[i];
      }
      assert buf[..len + taken] == live + samples[..taken];
      StateFeeds(p, live, pos, input, base, made, samples[..taken]);
      StateReady(p, live, pos, input, base, made);
      PositionIsAhead(p, live, pos, input, base, made);
      len := len + taken;
      input := input + samples[..taken];
      if taken < |samples| && !old(Drained()) {
        FullIsAhead(p, buf[..len], pos, input, base, made, maxFeed);
      }
    }

    /** The tap loop, over the part of the input the buffer still holds. */
    method Convolve(first: nat, last: int, ghost centre: real) returns (acc: real)
      requires ParamsOk(p) && first <= last + 1 <= len <= buf.Length
      requires base + len == |input| && buf[..len] == input[base..] && pos + base as real == centre
      ensures acc == Sum(p, input, centre, base + first, base + last + 1)
    {
      hide ParamsOk, Tap;
      acc := 0.0;
      var n := first;
      while n <= last
        invariant first <= n <= last + 1
        invariant acc == Sum(p, input, centre, base + first, base + n)
      {
        assert buf[n] == buf[..len][n] == input[base + n];
        assert pos - n as real == centre - (base + n) as real;
        acc := acc + buf[n] * Tap(p, Abs(pos - n as real));
        n := n + 1;
      }
    }

    /** Convolve the kernel with the buffer around `pos`: what is left in the buffer gives the one-shot answer. */
    method SampleAt() returns (y: real)
      requires Valid() && Determined(p, |input|, made)
      ensures y == OneShot(p, input, made)
    {
      hide Tap, Sum, ParamsOk, Determined, CeilOf, At;
      var first := CeilOf(pos - p.halfWidth);
      if first < 0 {
        first := 0;
      }
      var last := (pos + p.halfWidth).Floor;
      WindowFits(p, buf[..len], pos, input, base, made, first, last);
      if last > len - 1 {
        last := len - 1;
      }
      var acc := Convolve(first, last, At(p, made));
      y := acc * p.fc;
    }

    /** One output, if it is determined. */
    method PullOne() returns (y: real)
      requires Valid() && Determined(p, |input|, made)
      modifies this`pos, this`made
      ensures Valid() && made == old(made) + 1 && ParamsOk(p) && y == OneShot(p, input, old(made))
    {
      StateParams();
      hide State, Determined, ParamsOk, OneShot;
      y := SampleAt();
      StateSteps(p, buf[..len], pos, input, base, made);
      pos, made := pos + p.step, made + 1;
    }

    /** Write as many outputs as are available. */
    method Pull(out: array<real>) returns (written: nat)
      requires Valid() && out != buf
      modifies this`pos, this`made, out
      ensures Valid() && written <= out.Length && made == old(made) + written
      ensures written < out.Length ==> Drained()
      ensures ParamsOk(p) && out[..written] == Outputs(p, input, old(made), made)
      ensures forall i :: written <= i < out.Length ==> out[i] == old(out[i])
      ensures written > 0 <==> out.Length > 0 && !old(Drained())
    {
      StateParams();
      StateReady(p, buf[..len], pos, input, base, made);
      hide State, ParamsOk, OneShot, Outputs, Determined;
      written := 0;
      OutputsStart(p, input, made);
      while written < out.Length
        invariant Valid() && written <= out.Length && made == old(made) + written
        invariant out[..written] == Outputs(p, input, old(made), made)
        invariant out[written..] == old(out[..])[written..]
        invariant written > 0 ==> !old(Drained())
        invariant written == 0 ==> pos == old(pos)
      {
        StateReady(p, buf[..len], pos, input, base, made);
        if pos + p.halfWidth >= len as real {
          break;
        }
        OutputsSnoc(p, input, old(made), made);
        var y := PullOne();
        ghost var before := out[..];
        out[written] := y;
        assert out[..written + 1] == before[..written] + [y];
        assert out[written + 1..] == before[written + 1..] == before[written..][1..];
        written := written + 1;
      }
      assert forall i :: written <= i < out.Length ==> out[i] == out[written..][i - written];
    }

    lemma StateParams()
      requires Valid()
      ensures ParamsOk(p)
    {
    }

    lemma LastDetermined()
      requires Valid()
      ensures made > 0 ==> Determined(p, |input|, made - 1)
    {
    }

    /** Back to a silent, empty state. */
    method Reset()
      requires Valid()
      modifies this`len, this`pos, this`input, this`base, this`made, buf
      ensures Valid() && Drained() && input == [] && made == 0
    {
      StateParams();
      StateStarts(p);
      hide State, Determined, ParamsOk;
      forall i | 0 <= i < buf.Length {
        buf[i] := 0.0;
      }
      len, pos := 0, 0.0;
      input, base, made := [], 0, 0;
      assert buf[..0] == [];
    }
  }

  // ---- Any slicing ------------------------------------------------------------------------------------------

  /**
  From a drained state: a feed of up to `maxFeed` samples is taken whole, and one pull into an array sized by
  `MaxOutputFor` leaves the converter drained with room to spare.
  */
  method Exchange(r: Resampler, samples: seq<real>, out: array<real>) returns (written: nat)
    requires r.Valid() && r.Drained() && |samples| <= r.maxFeed && ParamsOk(r.p)
    requires out != r.buf && out.Length >= MaxOutputFor(r.p, |samples|)
    modifies r, r.buf, out
    ensures r.Valid() && r.Drained() && r.input == old(r.input) + samples
    ensures written < out.Length && r.made == old(r.made) + written
    ensures out[..written] == Outputs(r.p, r.input, old(r.made), r.made)
  {
    hide State, Determined, ParamsOk, Outputs, MaxOutputFor;
    PositiveStep(r.p);
    var taken := r.Feed(samples);
    assert samples[..taken] == samples;
    written := r.Pull(out);
    r.LastDetermined();
    OutputIsBounded(r.p, old(|r.input|), old(r.made), |samples|, r.made);
  }

  lemma {:induction false} PositiveStep(p: Params)
    requires ParamsOk(p)
    ensures p.step > 0.0
  {
  }

  datatype Call = FeedCall(samples: seq<real>) | PullCall(room: nat)

  function Min(a: nat, b: nat): nat { if a < b then a else b }

  function Front<T>(s: seq<T>): seq<T>
    requires s != []
  {
    s[..|s| - 1]
  }

  function Last<T>(s: seq<T>): T
    requires s != []
  {
    s[|s| - 1]
  }

  /** What a run of calls with these answers took in: of each feed, the samples it accepted. */
  function Fed(calls: seq<Call>, answers: seq<nat>): seq<real>
    requires |answers| == |calls|
    decreases |calls|
  {
    if calls == [] then []
    else
      var before := Fed(Front(calls), Front(answers));
      match Last(calls)
      case FeedCall(samples) => before + samples[..Min(Last(answers), |samples|)]
      case PullCall(_) => before
  }

  /** How many outputs it gave. */
  function Pulled(calls: seq<Call>, answers: seq<nat>): nat
    requires |answers| == |calls|
    decreases |calls|
  {
    if calls == [] then 0
    else Pulled(Front(calls), Front(answers)) + if Last(calls).PullCall? then Last(answers) else 0
  }

  /**
  The answer to one call after so much input and so many outputs. A pull gives what is due, as far as there is room. A
  feed takes at least `maxFeed` samples, or everything, when nothing is due; otherwise what it refuses lies far ahead.
  */
  ghost predicate Answers(p: Params, maxFeed: nat, arrived: nat, made: nat, call: Call, answer: nat)
    requires ParamsOk(p)
  {
    match call
    case PullCall(room) => made <= Due(p, arrived) && answer == Min(room, Due(p, arrived) - made)
    case FeedCall(samples) =>
      && answer <= |samples|
      && (made == Due(p, arrived) ==> answer >= Min(|samples|, maxFeed))
      && (made != Due(p, arrived) && answer < |samples| ==> Ahead(p, arrived + answer, made, maxFeed))
  }

  ghost predicate AllAnswered(p: Params, maxFeed: nat, calls: seq<Call>, answers: seq<nat>)
    requires ParamsOk(p) && |answers| == |calls|
    decreases |calls|
  {
    calls == [] ||
    (var before, given := Front(calls), Front(answers);
     && AllAnswered(p, maxFeed, before, given)
     && Answers(p, maxFeed, |Fed(before, given)|, Pulled(before, given), Last(calls), Last(answers)))
  }

  lemma {:induction false} OneMoreAnswer(p: Params, maxFeed: nat, calls: seq<Call>, answers: seq<nat>, i: nat,
                                         answer: nat)
    requires ParamsOk(p) && i < |calls| && |answers| == i && AllAnswered(p, maxFeed, calls[..i], answers)
    requires Answers(p, maxFeed, |Fed(calls[..i], answers)|, Pulled(calls[..i], answers), calls[i], answer)
    ensures AllAnswered(p, maxFeed, calls[..i + 1], answers + [answer])
    ensures Fed(calls[..i + 1], answers + [answer]) ==
            Fed(calls[..i], answers) + if calls[i].FeedCall? then calls[i].samples[..answer] else []
    ensures Pulled(calls[..i + 1], answers + [answer]) ==
            Pulled(calls[..i], answers) + if calls[i].PullCall? then answer else 0
  {
    var more, given := calls[..i + 1], answers + [answer];
    hide ParamsOk, Due, Ahead;
    assert Front(more) == calls[..i] && Last(more) == calls[i] && Front(given) == answers && Last(given) == answer;
  }

  /** Everything that was offered. */
  function Offered(calls: seq<Call>): seq<real>
    decreases |calls|
  {
    if calls == [] then []
    else Offered(Front(calls)) + if Last(calls).FeedCall? then Last(calls).samples else []
  }

  /** Each feed of at most `maxFeed` samples comes when nothing is due. */
  ghost predicate Considerate(p: Params, maxFeed: nat, calls: seq<Call>, answers: seq<nat>)
    requires ParamsOk(p) && |answers| == |calls|
    decreases |calls|
  {
    calls == [] ||
    (var before, given := Front(calls), Front(answers);
     && Considerate(p, maxFeed, before, given)
     && (Last(calls).FeedCall? ==>
           |Last(calls).samples| <= maxFeed && Pulled(before, given) == Due(p, |Fed(before, given)|)))
  }

  /** A caller that drains before it feeds loses nothing: what was taken in is everything offered. */
  lemma {:induction false} NothingRefused(p: Params, maxFeed: nat, calls: seq<Call>, answers: seq<nat>)
    requires ParamsOk(p) && |answers| == |calls| && AllAnswered(p, maxFeed, calls, answers)
    requires Considerate(p, maxFeed, calls, answers)
    ensures Fed(calls, answers) == Offered(calls)
    decreases |calls|
  {
    hide ParamsOk, Due, Ahead;
    if calls != [] {
      NothingRefused(p, maxFeed, Front(calls), Front(answers));
      if Last(calls).FeedCall? {
        assert Last(calls).samples[..Last(answers)] == Last(calls).samples;
      }
    }
  }

  lemma {:induction false} PullIsAnswer(p: Params, maxFeed: nat, arrived: nat, made: nat, room: nat, written: nat)
    requires ParamsOk(p) && written <= room && (made > 0 ==> Determined(p, arrived, made - 1))
    requires made + written > 0 ==> Determined(p, arrived, made + written - 1)
    requires written < room ==> !Determined(p, arrived, made + written)
    ensures Answers(p, maxFeed, arrived, made, PullCall(room), written)
  {
    hide ParamsOk, Determined, Due;
    DueIs(p, arrived, made);
    DueIs(p, arrived, made + written);
  }

  lemma {:induction false} FeedIsAnswer(p: Params, maxFeed: nat, arrived: nat, made: nat, samples: seq<real>,
                                        taken: nat)
    requires ParamsOk(p) && taken <= |samples| && (made > 0 ==> Determined(p, arrived, made - 1))
    requires !Determined(p, arrived, made) ==> taken >= Min(|samples|, maxFeed)
    requires taken < |samples| && Determined(p, arrived, made) ==> Ahead(p, arrived + taken, made, maxFeed)
    ensures Answers(p, maxFeed, arrived, made, FeedCall(samples), taken)
  {
    hide ParamsOk, Determined, Due, Ahead;
    DueIs(p, arrived, made);
  }

  method Answer(r: Resampler, call: Call) returns (answer: nat, piece: seq<real>)
    requires r.Valid() && ParamsOk(r.p)
    modifies r, r.buf
    ensures r.Valid() && Answers(r.p, r.maxFeed, old(|r.input|), old(r.made), call, answer)
    ensures call.FeedCall? ==> answer <= |call.samples| && piece == []
    ensures r.input == old(r.input) + if call.FeedCall? then call.samples[..answer] else []
    ensures r.made == old(r.made) + if call.PullCall? then answer else 0
    ensures Outputs(r.p, r.input, 0, r.made) == old(Outputs(r.p, r.input, 0, r.made)) + piece
  {
    hide State, Determined, ParamsOk, OneShot, Outputs, Answers, Ahead;
    r.LastDetermined();
    ghost var before, made := r.input, r.made;
    match call
    case FeedCall(samples) =>
      answer := r.Feed(samples);
      piece := [];
      FeedIsAnswer(r.p, r.maxFeed, |before|, made, samples, answer);
      OutputsLater(r.p, before, samples[..answer], 0, made);
      assert Outputs(r.p, before, 0, made) + [] == Outputs(r.p, before, 0, made);
    case PullCall(room) =>
      var out := new real[room];
      answer := r.Pull(out);
      piece := out[..answer];
      r.LastDetermined();
      PullIsAnswer(r.p, r.maxFeed, |before|, made, room, answer);
      OutputsJoin(r.p, before, 0, made, r.made);
      assert before + [] == before;
  }

  /**
  Feeds and pulls in any order and of any size. Each call is answered as it must be, the outputs are the one-shot
  convolution of everything taken in, centred at 0, 1, 2, ... steps, and there are as many as were pulled.
  */
  method Drive(r: Resampler, calls: seq<Call>) returns (outputs: seq<real>, answers: seq<nat>)
    requires r.Valid() && r.input == [] && r.made == 0
    modifies r, r.buf
    ensures r.Valid() && ParamsOk(r.p) && |answers| == |calls| && AllAnswered(r.p, r.maxFeed, calls, answers)
    ensures outputs == Outputs(r.p, Fed(calls, answers), 0, Pulled(calls, answers))
    ensures r.input == Fed(calls, answers) && r.made == Pulled(calls, answers)
    ensures r.made <= Due(r.p, |r.input|) && (r.made == Due(r.p, |r.input|) <==> r.Drained())
    ensures Considerate(r.p, r.maxFeed, calls, answers) ==> outputs == Outputs(r.p, Offered(calls), 0, |outputs|)
  {
    outputs, answers := [], [];
    r.StateParams();
    hide State, Determined, ParamsOk, OneShot, Answers, Due;
    assert calls[..0] == [];
    for i := 0 to |calls|
      invariant r.Valid() && ParamsOk(r.p) && |answers| == i && AllAnswered(r.p, r.maxFeed, calls[..i], answers)
      invariant r.input == Fed(calls[..i], answers) && r.made == Pulled(calls[..i], answers)
      invariant outputs == Outputs(r.p, r.input, 0, r.made)
    {
      hide AllAnswered, Fed, Pulled, Outputs;
      var answer, piece := Answer(r, calls[i]);
      OneMoreAnswer(r.p, r.maxFeed, calls, answers, i, answer);
      outputs, answers := outputs + piece, answers + [answer];
    }
    assert calls[..|calls|] == calls;
    r.LastDetermined();
    DueIs(r.p, |r.input|, r.made);
    if Considerate(r.p, r.maxFeed, calls, answers) {
      NothingRefused(r.p, r.maxFeed, calls, answers);
    }
  }
}
