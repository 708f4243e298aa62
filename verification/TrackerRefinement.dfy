/** What every tracker computes, stated over the whole stream of sightings since
    its last clear instead of over its incremental fields. */
module TrackerRefinement {
  import opened Types
  import opened SlidingWindow
  import opened RealArithmetic

  /** One frame: whether the target was detected, two further placement bits, and
      the observed position (meaningful when detected). */
  datatype Sighting = Sighting(detected: bool, first: bool, second: bool, u: real, v: real)

  datatype Windows = Windows(stableWindow: int, secondWindow: int, minHits: int, alpha: real)

  /** The incremental fields shared by the trackers. */
  datatype Fields = Fields(
    hits: seq<bool>,
    first: seq<bool>,
    second: seq<bool>,
    lost: nat,
    visible: bool,
    stable: bool,
    smoothed: bool,
    u: real,
    v: real)

  const CLEARED := Fields([], [], [], 0, false, false, false, 0.0, 0.0)

  function Advance(w: Windows, f: Fields, x: Sighting): Fields {
    var hits := Push(f.hits, x.detected, w.stableWindow);
    Fields(hits,
           Push(f.first, x.first, w.stableWindow),
           Push(f.second, x.second, w.secondWindow),
           if x.detected then 0 else f.lost + 1,
           x.detected,
           Count(hits) >= Max(1, w.minHits),
           f.smoothed || x.detected,
           if !x.detected then f.u else if f.smoothed then Smooth(f.u, x.u, w.alpha) else x.u,
           if !x.detected then f.v else if f.smoothed then Smooth(f.v, x.v, w.alpha) else x.v)
  }

  function DetectedBits(since: seq<Sighting>): seq<bool> {
    seq(|since|, i requires 0 <= i < |since| => since[i].detected)
  }

  function FirstBits(since: seq<Sighting>): seq<bool> {
    seq(|since|, i requires 0 <= i < |since| => since[i].first)
  }

  function SecondBits(since: seq<Sighting>): seq<bool> {
    seq(|since|, i requires 0 <= i < |since| => since[i].second)
  }

  ghost predicate BoundsU(since: seq<Sighting>, low: real, high: real) {
    forall i :: 0 <= i < |since| && since[i].detected ==> low <= since[i].u <= high
  }

  ghost predicate BoundsV(since: seq<Sighting>, low: real, high: real) {
    forall i :: 0 <= i < |since| && since[i].detected ==> low <= since[i].v <= high
  }

  /** The histories are the last bits of the stream, `lost` is its trailing run of
      misses, and `stable` counts hits in the window. */
  ghost predicate Histories(w: Windows, f: Fields, since: seq<Sighting>) {
    && f.hits == LastN(DetectedBits(since), Max(1, w.stableWindow))
    && f.first == LastN(FirstBits(since), Max(1, w.stableWindow))
    && f.second == LastN(SecondBits(since), Max(1, w.secondWindow))
    && f.lost == TrailingMisses(DetectedBits(since))
    && f.visible == (|since| > 0 && since[|since| - 1].detected)
    && f.stable == (Count(LastN(DetectedBits(since), Max(1, w.stableWindow))) >= Max(1, w.minHits))
  }

  // ----- Smoothing in closed form -----

  /** The positions observed since the clear, oldest first. */
  function Us(since: seq<Sighting>): seq<real> {
    if since == [] then []
    else Us(since[..|since| - 1]) + if since[|since| - 1].detected then [since[|since| - 1].u] else []
  }

  function Vs(since: seq<Sighting>): seq<real> {
    if since == [] then []
    else Vs(since[..|since| - 1]) + if since[|since| - 1].detected then [since[|since| - 1].v] else []
  }

  function Power(x: real, n: nat): real { if n == 0 then 1.0 else x * Power(x, n - 1) }

  /** How much the k-th of n positions counts: the newest one by the fraction `a`, each
      older one less by the factor 1 - a, the oldest one with all that remains. */
  function WeightOf(a: real, n: nat, k: nat): real
    requires k < n
  {
    if k == 0 then Power(1.0 - a, n - 1) else a * Power(1.0 - a, n - 1 - k)
  }

  function Share(weight: real, x: real): real { weight * x }

  /** The first of n positions, weighted. */
  function Weigh(xs: seq<real>, a: real, n: nat): real
    requires |xs| <= n
  {
    if xs == [] then 0.0 else Weigh(xs[..|xs| - 1], a, n) + Share(WeightOf(a, n, |xs| - 1), xs[|xs| - 1])
  }

  function Fraction(alpha: real): real { if alpha < 0.0 then 0.0 else if alpha > 1.0 then 1.0 else alpha }

  /** The exponentially weighted mean of what was observed. */
  function Mean(xs: seq<real>, alpha: real): real { Weigh(xs, Fraction(alpha), |xs|) }

  ghost predicate Scaled(b: real, x': real, x: real) { x' == b * x }

  lemma WeightShrinks(a: real, n: nat, k: nat)
    requires k < n
    ensures Scaled(1.0 - a, WeightOf(a, n + 1, k), WeightOf(a, n, k))
  {
    var b, m := 1.0 - a, if k == 0 then n - 1 else n - 1 - k;
    assert Power(b, m + 1) == b * Power(b, m);
    Reorder(a, b, Power(b, m));
  }

  lemma Reorder(a: real, b: real, q: real)
    ensures a * (b * q) == b * (a * q)
  {
  }

  lemma ScaledAdd(b: real, p': real, p: real, w': real, w: real, x: real)
    requires Scaled(b, p', p) && Scaled(b, w', w)
    ensures Scaled(b, p' + Share(w', x), p + Share(w, x))
  {
    assert (b * w) * x == b * (w * x);
  }

  lemma ZeroScaled(b: real)
    ensures Scaled(b, 0.0, 0.0)
  {
  }

  /** One more position makes all older ones count less. */
  lemma {:induction false} WeighShrinks(xs: seq<real>, a: real, n: nat)
    requires |xs| <= n
    ensures Scaled(1.0 - a, Weigh(xs, a, n + 1), Weigh(xs, a, n))
  {
    hide WeightOf, Scaled, Share;
    if xs == [] {
      ZeroScaled(1.0 - a);
    } else {
      WeighShrinks(xs[..|xs| - 1], a, n);
      WeightShrinks(a, n, |xs| - 1);
      ScaledAdd(1.0 - a, Weigh(xs[..|xs| - 1], a, n + 1), Weigh(xs[..|xs| - 1], a, n),
                WeightOf(a, n + 1, |xs| - 1), WeightOf(a, n, |xs| - 1), xs[|xs| - 1]);
    }
  }

  lemma MeanMoves(xs: seq<real>, x: real, alpha: real)
    requires xs != []
    ensures Mean(xs + [x], alpha) == Smooth(Mean(xs, alpha), x, alpha)
  {
    var a, n := Fraction(alpha), |xs|;
    assert (xs + [x])[..n] == xs;
    WeighShrinks(xs, a, n);
    assert WeightOf(a, n + 1, n) == a;
  }

  lemma MeanOfOne(x: real, alpha: real)
    ensures Mean([x], alpha) == x
  {
    var a := Fraction(alpha);
    assert [x][..0] == [];
    assert Weigh([x], a, 1) == Weigh([], a, 1) + Share(WeightOf(a, 1, 0), x);
  }

  /** All n positions together count as one, and none counts negatively. */
  lemma {:induction false} WeightsSumToOne(n: nat, alpha: real)
    requires n > 0
    ensures Mean(seq(n, _ => 1.0), alpha) == 1.0
    ensures forall k :: 0 <= k < n ==> WeightOf(Fraction(alpha), n, k) >= 0.0
  {
    var ones := seq(n, _ => 1.0);
    if n == 1 {
      assert ones == [1.0];
      MeanOfOne(1.0, alpha);
    } else {
      WeightsSumToOne(n - 1, alpha);
      assert ones == seq(n - 1, _ => 1.0) + [1.0];
      MeanMoves(seq(n - 1, _ => 1.0), 1.0, alpha);
    }
    forall k | 0 <= k < n
      ensures WeightOf(Fraction(alpha), n, k) >= 0.0
    {
      PowerNonNegative(1.0 - Fraction(alpha), if k == 0 then n - 1 else n - 1 - k);
    }
  }

  lemma {:induction false} PowerNonNegative(x: real, n: nat)
    requires x >= 0.0
    ensures Power(x, n) >= 0.0
  {
    if n > 0 { PowerNonNegative(x, n - 1); }
  }

  /** The smoothed position is the weighted mean of what was observed since the clear. */
  ghost predicate Weighed(w: Windows, f: Fields, since: seq<Sighting>) {
    && (f.smoothed <==> Us(since) != []) && (f.smoothed <==> Vs(since) != [])
    && (f.smoothed ==> f.u == Mean(Us(since), w.alpha) && f.v == Mean(Vs(since), w.alpha))
  }

  lemma WeighedStep(w: Windows, f: Fields, since: seq<Sighting>, x: Sighting)
    requires Weighed(w, f, since)
    ensures Weighed(w, Advance(w, f, x), since + [x])
  {
    hide Push, Count, Mean, Smooth;
    assert (since + [x])[..|since|] == since;
    if x.detected {
      if f.smoothed {
        MeanMoves(Us(since), x.u, w.alpha);
        MeanMoves(Vs(since), x.v, w.alpha);
      } else {
        MeanOfOne(x.u, w.alpha);
        MeanOfOne(x.v, w.alpha);
        assert Us(since + [x]) == [x.u] && Vs(since + [x]) == [x.v];
      }
    } else {
      assert Us(since + [x]) == Us(since) && Vs(since + [x]) == Vs(since);
    }
  }

  // ----- The refinement -----

  /** ... and the smoothed position lies in every interval that holds all positions
      observed since the clear, being their weighted mean. */
  ghost predicate Refines(w: Windows, f: Fields, since: seq<Sighting>) {
    && Histories(w, f, since) && Weighed(w, f, since)
    && f.smoothed == (exists i :: 0 <= i < |since| && since[i].detected)
    && (f.smoothed ==>
          && (forall low, high :: BoundsU(since, low, high) ==> low <= f.u <= high)
          && (forall low, high :: BoundsV(since, low, high) ==> low <= f.v <= high))
  }

  lemma ClearedRefines(w: Windows)
    ensures Refines(w, CLEARED, [])
  {
  }

  lemma BitsAppend(since: seq<Sighting>, x: Sighting)
    ensures DetectedBits(since + [x]) == DetectedBits(since) + [x.detected]
    ensures FirstBits(since + [x]) == FirstBits(since) + [x.first]
    ensures SecondBits(since + [x]) == SecondBits(since) + [x.second]
  {
  }

  lemma HullStepU(w: Windows, f: Fields, since: seq<Sighting>, x: Sighting, low: real, high: real)
    requires Refines(w, f, since) && BoundsU(since + [x], low, high) && Advance(w, f, x).smoothed
    ensures low <= Advance(w, f, x).u <= high
  {
    hide Histories, Weighed, Push, Count, TrailingMisses, Smooth, BoundsV;
    assert forall i :: 0 <= i < |since| ==> (since + [x])[i] == since[i];
    assert BoundsU(since, low, high);
    assert (since + [x])[|since|] == x;
    if x.detected && f.smoothed {
      SmoothInHull(f.u, x.u, w.alpha, low, high);
    }
  }

  lemma HullStepV(w: Windows, f: Fields, since: seq<Sighting>, x: Sighting, low: real, high: real)
    requires Refines(w, f, since) && BoundsV(since + [x], low, high) && Advance(w, f, x).smoothed
    ensures low <= Advance(w, f, x).v <= high
  {
    hide Histories, Weighed, Push, Count, TrailingMisses, Smooth, BoundsU;
    assert forall i :: 0 <= i < |since| ==> (since + [x])[i] == since[i];
    assert BoundsV(since, low, high);
    assert (since + [x])[|since|] == x;
    if x.detected && f.smoothed {
      SmoothInHull(f.v, x.v, w.alpha, low, high);
    }
  }

  lemma SmoothedStep(w: Windows, f: Fields, since: seq<Sighting>, x: Sighting)
    requires Refines(w, f, since)
    ensures Advance(w, f, x).smoothed == (exists i :: 0 <= i < |since + [x]| && (since + [x])[i].detected)
  {
    hide Histories, Weighed, Push, Count, TrailingMisses, Smooth, BoundsU, BoundsV;
    var all := since + [x];
    assert forall i :: 0 <= i < |since| ==> all[i] == since[i];
    assert all[|since|] == x;
    if f.smoothed {
      var i :| 0 <= i < |since| && since[i].detected;
      assert all[i].detected;
    }
  }

  lemma HistoriesStep(w: Windows, f: Fields, since: seq<Sighting>, x: Sighting)
    requires Histories(w, f, since)
    ensures Histories(w, Advance(w, f, x), since + [x])
  {
    hide Smooth, LastN, Count, DetectedBits, FirstBits, SecondBits, Push, Max;
    BitsAppend(since, x);
    PushLastN(DetectedBits(since), x.detected, w.stableWindow);
    PushLastN(FirstBits(since), x.first, w.stableWindow);
    PushLastN(SecondBits(since), x.second, w.secondWindow);
    assert (DetectedBits(since) + [x.detected])[..|DetectedBits(since)|] == DetectedBits(since);
    assert (since + [x])[|since|] == x;
  }

  /** One more sighting keeps the refinement. */
  lemma AdvanceRefines(w: Windows, f: Fields, since: seq<Sighting>, x: Sighting)
    requires Refines(w, f, since)
    ensures Refines(w, Advance(w, f, x), since + [x])
  {
    hide Histories, Weighed, Advance, BoundsU, BoundsV;
    HistoriesStep(w, f, since, x);
    WeighedStep(w, f, since, x);
    SmoothedStep(w, f, since, x);
    var f' := Advance(w, f, x);
    forall low, high | f'.smoothed && BoundsU(since + [x], low, high)
      ensures low <= f'.u <= high
    {
      HullStepU(w, f, since, x, low, high);
    }
    forall low, high | f'.smoothed && BoundsV(since + [x], low, high)
      ensures low <= f'.v <= high
    {
      HullStepV(w, f, since, x, low, high);
    }
  }

  // ----- Evidence -----

  /** At least `hits` of the last `window` frames. */
  predicate Often(bits: seq<bool>, window: int, hits: int) { Count(LastN(bits, Max(1, window))) >= Max(1, hits) }

  /** There have been `frames` frames, and all of the last ones missed. */
  ghost predicate Missing(bits: seq<bool>, frames: int) {
    var n := Max(1, frames);
    n <= |bits| && forall k :: |bits| - n <= k < |bits| ==> !bits[k]
  }

  lemma MissingIff(bits: seq<bool>, frames: int)
    ensures TrailingMisses(bits) >= Max(1, frames) <==> Missing(bits, frames)
  {
    TrailingMissesMeaning(bits);
  }

  // ----- Pixels -----

  /** The normalised coordinate of a pixel: its share of the image, cut off at the edges. */
  predicate Normalises(x: real, pixel: real, size: int) {
    && (pixel <= 0.0 ==> x == 0.0) && (pixel >= size as real ==> x == 1.0)
    && (0.0 <= pixel <= size as real ==> x * size as real == pixel)
  }

  lemma ClampNormalises(pixel: real, size: int)
    requires size > 1
    ensures Normalises(Clamp(pixel / Denom(size as real), 0.0, 1.0), pixel, size)
  {
    var n := size as real;
    QuotientIs(pixel, n);
    if pixel <= 0.0 { QuotientMonotone(pixel, 0.0, n); }
    if pixel >= n { QuotientMonotone(n, pixel, n); }
    if 0.0 <= pixel <= n {
      QuotientMonotone(0.0, pixel, n);
      QuotientMonotone(pixel, n, n);
    }
  }

  lemma QuotientIs(pixel: real, n: real)
    requires n > 0.0
    ensures pixel / n * n == pixel && 0.0 / n == 0.0 && n / n == 1.0
  {
  }

  /** Comparing a normalised pixel is comparing the pixel. */
  lemma QuotientCompares(pixel: real, size: int, bound: real)
    requires size > 1
    ensures pixel / Denom(size as real) <= bound <==> pixel <= bound * size as real
    ensures pixel / Denom(size as real) >= bound <==> pixel >= bound * size as real
  {
    var n := size as real;
    QuotientIs(pixel, n);
    QuotientIs(bound * n, n);
    assert bound * n / n == bound;
    if pixel <= bound * n { QuotientMonotone(pixel, bound * n, n); }
    if pixel >= bound * n { QuotientMonotone(bound * n, pixel, n); }
    if pixel / n <= bound { ProductMonotone(n, pixel / n, bound); }
    if pixel / n >= bound { ProductMonotone(n, bound, pixel / n); }
  }
}
