/** The point-to-point line decision and the accumulator that averages the line
    guides seen during one long walk. */
module LineP2p {
  import opened Types
  import opened CruiseSelector
  import opened RealArithmetic

  // ----- The direct selector -----

  datatype Steering = Steering(offsetGain: real, headingGain: real, deadband: real)

  function Score(steering: Steering, guide: LineGuide): real {
    steering.offsetGain * guide.offset + steering.headingGain * guide.headingRad
  }

  function Steer(steering: Steering, guide: LineGuide): CruiseDecision {
    SelectCruiseDecision(true, guide.valid, Score(steering, guide), steering.deadband)
  }

  // ----- Weighted averages of guides -----

  datatype Sample = Sample(nowSec: real, guide: LineGuide)

  datatype Window = Window(start: real, end: real)

  predicate Contains(w: Window, time: real) { w.start <= time <= w.end }

  /** From 40% of the estimated motion to its end. */
  function MotionWindow(beginSec: real, nowSec: real, remainingSec: real): Window {
    var end := MaxReal(beginSec, nowSec);
    Window(beginSec + 0.4 * (end - beginSec + MaxReal(0.0, remainingSec)), end)
  }

  /** How much a sample counts: all the same, or rising from 1 to 3 over a window. */
  datatype Weighting = Even | Rising(window: Window)

  function Weight(k: Weighting, time: real): real {
    match k
    case Even => 1.0
    case Rising(w) =>
      var span := MaxReal(0.0, w.end - w.start);
      1.0 + 2.0 * if span > EPSILON then Clamp((time - w.start) / span, 0.0, 1.0) else 1.0
  }

  datatype Part = OffsetPart | HeadingPart | CurvaturePart | ConfidencePart | ScorePart(steering: Steering)

  function PartOf(part: Part, guide: LineGuide): real {
    match part
    case OffsetPart => guide.offset
    case HeadingPart => guide.headingRad
    case CurvaturePart => guide.curvatureRad
    case ConfidencePart => guide.confidence
    case ScorePart(steering) => Score(steering, guide)
  }

  function InWindow(samples: seq<Sample>, w: Window): seq<Sample> {
    if samples == [] then []
    else InWindow(samples[..|samples| - 1], w) + (if Contains(w, samples[|samples| - 1].nowSec) then [samples[|samples| - 1]] else [])
  }

  function TimesIn(times: seq<real>, w: Window): nat {
    if times == [] then 0 else TimesIn(times[..|times| - 1], w) + if Contains(w, times[|times| - 1]) then 1 else 0
  }

  function Curved(samples: seq<Sample>): seq<Sample> {
    if samples == [] then []
    else Curved(samples[..|samples| - 1]) + (if samples[|samples| - 1].guide.curvatureValid then [samples[|samples| - 1]] else [])
  }

  function Term(k: Weighting, part: Part, x: Sample): real { Weight(k, x.nowSec) * PartOf(part, x.guide) }

  function Total(samples: seq<Sample>, k: Weighting): real {
    if samples == [] then 0.0 else Total(samples[..|samples| - 1], k) + Weight(k, samples[|samples| - 1].nowSec)
  }

  function Sum(samples: seq<Sample>, k: Weighting, part: Part): real {
    if samples == [] then 0.0
    else Sum(samples[..|samples| - 1], k, part) + Term(k, part, samples[|samples| - 1])
  }

  /** The weighted average of the samples; the curvature of the curved ones only. */
  function Average(samples: seq<Sample>, k: Weighting): Option<LineGuide> {
    var total, curved := Total(samples, k), Curved(samples);
    if total > 0.0 then
      var bends := Total(curved, k) > 0.0;
      Some(LineGuide(Sum(samples, k, OffsetPart) / total,
                     Sum(samples, k, HeadingPart) / total,
                     if bends then Sum(curved, k, CurvaturePart) / Total(curved, k) else 0.0,
                     Sum(samples, k, ConfidencePart) / total,
                     true,
                     bends))
    else None
  }

  // ----- The accumulator -----

  datatype WindowStats = WindowStats(
    actionId: ActionId,
    totalFrames: nat,
    validFrames: nat,
    windowFrames: nat,
    usedFrames: nat,
    estimatedMotionSec: real,
    windowStartSec: real,
    windowEndSec: real,
    remainingSec: real)

  datatype Accumulator = Accumulator(
    actionId: ActionId,
    beginSec: real,
    samples: seq<Sample>,
    frameTimes: seq<real>,
    lastStats: Option<WindowStats>)

  const EMPTY := Accumulator(0, 0.0, [], [], None)

  predicate ActiveFor(a: Accumulator, id: ActionId) { id != 0 && a.actionId == id }

  function BeginFor(id: ActionId, nowSec: real): Accumulator { Accumulator(id, nowSec, [], [], None) }

  function AddFrame(a: Accumulator, id: ActionId, nowSec: real, guide: LineGuide): Accumulator {
    if !ActiveFor(a, id) then a
    else a.(frameTimes := a.frameTimes + [nowSec],
            samples := if guide.valid then a.samples + [Sample(nowSec, guide)] else a.samples)
  }

  function StatsOf(a: Accumulator, nowSec: real, remainingSec: real): WindowStats {
    var w, remaining := MotionWindow(a.beginSec, nowSec, remainingSec), MaxReal(0.0, remainingSec);
    WindowStats(a.actionId, |a.frameTimes|, |a.samples|, TimesIn(a.frameTimes, w), |InWindow(a.samples, w)|,
                w.end - a.beginSec + remaining, w.start, w.end, remaining)
  }

  function Cleared(a: Accumulator): Accumulator { a.(actionId := 0, beginSec := 0.0, samples := [], frameTimes := []) }

  function FinishState(a: Accumulator, id: ActionId, nowSec: real, remainingSec: real): Accumulator {
    if !ActiveFor(a, id) then a.(lastStats := None)
    else Cleared(a).(lastStats := Some(StatsOf(a, nowSec, remainingSec)))
  }

  /** What the frames from 40% of the motion on say about the line. */
  function FinishGuide(a: Accumulator, id: ActionId, nowSec: real, remainingSec: real): Option<LineGuide> {
    var w := MotionWindow(a.beginSec, nowSec, remainingSec);
    if !ActiveFor(a, id) then None else Average(InWindow(a.samples, w), Rising(w))
  }

  function FinishAllGuide(a: Accumulator, id: ActionId): Option<LineGuide> {
    if !ActiveFor(a, id) then None else Average(a.samples, Even)
  }

  class LineGuideAccumulator {
    var actionId: ActionId
    var beginSec: real
    var samples: seq<Sample>
    var frameTimes: seq<real>
    var lastStats: Option<WindowStats>

    function View(): Accumulator
      reads this
    {
      Accumulator(actionId, beginSec, samples, frameTimes, lastStats)
    }

    constructor ()
      ensures View() == EMPTY
    {
      actionId, beginSec, samples, frameTimes, lastStats := 0, 0.0, [], [], None;
    }

    method Begin(id: ActionId, nowSec: real)
      modifies this
      ensures View() == BeginFor(id, nowSec)
    {
      actionId, beginSec, samples, frameTimes, lastStats := id, nowSec, [], [], None;
    }

    predicate IsActiveFor(id: ActionId)
      reads this
    {
      id != 0 && actionId == id
    }

    method Add(id: ActionId, nowSec: real, guide: LineGuide)
      modifies `frameTimes, `samples
      ensures View() == AddFrame(old(View()), id, nowSec, guide)
    {
      if !IsActiveFor(id) { return; }
      frameTimes := frameTimes + [nowSec];
      if guide.valid { samples := samples + [Sample(nowSec, guide)]; }
    }

    method CountFrames(w: Window) returns (frames: nat)
      ensures frames == TimesIn(frameTimes, w)
    {
      frames := 0;
      for i := 0 to |frameTimes|
        invariant frames == TimesIn(frameTimes[..i], w)
      {
        assert frameTimes[..i + 1][..i] == frameTimes[..i];
        if frameTimes[i] >= w.start && frameTimes[i] <= w.end { frames := frames + 1; }
      }
      assert frameTimes[..|frameTimes|] == frameTimes;
    }

    method Finish(id: ActionId, nowSec: real, estimatedRemainingSec: real) returns (guide: Option<LineGuide>)
      modifies this
      ensures View() == FinishState(old(View()), id, nowSec, estimatedRemainingSec)
      ensures guide == FinishGuide(old(View()), id, nowSec, estimatedRemainingSec)
    {
      if !IsActiveFor(id) {
        lastStats := None;
        return None;
      }
      var end := MaxReal(beginSec, nowSec);
      var remaining := MaxReal(0.0, estimatedRemainingSec);
      var motion := end - beginSec + remaining;
      var w := Window(beginSec + 0.4 * motion, end);
      var frames := CountFrames(w);
      var used: nat;
      used, guide := AverageWindow(samples, w);
      lastStats := Some(WindowStats(id, |frameTimes|, |samples|, frames, used, motion, w.start, w.end, remaining));
      Reset();
    }

    method FinishAll(id: ActionId) returns (guide: Option<LineGuide>)
      modifies this
      ensures View() == Cleared(old(View()))
      ensures guide == FinishAllGuide(old(View()), id)
    {
      if !IsActiveFor(id) || |samples| == 0 {
        Reset();
        return None;
      }
      guide := AverageAll(samples);
      Reset();
    }

    method Reset()
      modifies `actionId, `beginSec, `samples, `frameTimes
      ensures View() == Cleared(old(View()))
    {
      actionId, beginSec, samples, frameTimes := 0, 0.0, [], [];
    }
  }

  lemma InWindowAppend(samples: seq<Sample>, i: nat, w: Window)
    requires i < |samples|
    ensures InWindow(samples[..i + 1], w)
         == if Contains(w, samples[i].nowSec) then InWindow(samples[..i], w) + [samples[i]] else InWindow(samples[..i], w)
  {
    assert samples[..i + 1][..i] == samples[..i];
  }

  lemma SumAppend(samples: seq<Sample>, x: Sample, k: Weighting, part: Part)
    ensures Sum(samples + [x], k, part) == Sum(samples, k, part) + Term(k, part, x)
    ensures Total(samples + [x], k) == Total(samples, k) + Weight(k, x.nowSec)
    ensures Curved(samples + [x]) == if x.guide.curvatureValid then Curved(samples) + [x] else Curved(samples)
  {
    hide Term, Weight;
    assert (samples + [x])[..|samples|] == samples;
  }

  /** The running sums of one averaging loop. */
  datatype Sums = Sums(offset: real, heading: real, curvature: real, curvatureWeight: real, confidence: real, weight: real)

  ghost predicate SumsOf(s: Sums, used: seq<Sample>, k: Weighting) {
    && s.offset == Sum(used, k, OffsetPart)
    && s.heading == Sum(used, k, HeadingPart)
    && s.curvature == Sum(Curved(used), k, CurvaturePart)
    && s.curvatureWeight == Total(Curved(used), k)
    && s.confidence == Sum(used, k, ConfidencePart)
    && s.weight == Total(used, k)
  }

  /** One sample enters the sums. */
  method AddToSums(s: Sums, ghost used: seq<Sample>, x: Sample, weight: real, ghost k: Weighting) returns (s': Sums)
    requires SumsOf(s, used, k) && weight == Weight(k, x.nowSec)
    ensures SumsOf(s', used + [x], k)
  {
    hide Sum, Total, Curved, Weight;
    SumAppend(used, x, k, OffsetPart);
    SumAppend(used, x, k, HeadingPart);
    SumAppend(used, x, k, ConfidencePart);
    SumAppend(Curved(used), x, k, CurvaturePart);
    s' := s.(offset := s.offset + weight * x.guide.offset,
             heading := s.heading + weight * x.guide.headingRad,
             confidence := s.confidence + weight * x.guide.confidence,
             weight := s.weight + weight);
    if x.guide.curvatureValid {
      s' := s'.(curvature := s.curvature + weight * x.guide.curvatureRad, curvatureWeight := s.curvatureWeight + weight);
    }
  }

  method GuideOf(s: Sums, ghost used: seq<Sample>, ghost k: Weighting) returns (guide: Option<LineGuide>)
    requires SumsOf(s, used, k)
    ensures guide == Average(used, k)
  {
    if s.weight <= 0.0 { return None; }
    var result := INVALID_GUIDE.(offset := s.offset / s.weight, headingRad := s.heading / s.weight);
    if s.curvatureWeight > 0.0 {
      result := result.(curvatureRad := s.curvature / s.curvatureWeight, curvatureValid := true);
    }
    guide := Some(result.(confidence := s.confidence / s.weight, valid := true));
  }

  /** Averages the samples that lie in the window, later ones counting more. */
  method AverageWindow(samples: seq<Sample>, w: Window) returns (used: nat, guide: Option<LineGuide>)
    ensures used == |InWindow(samples, w)|
    ensures guide == Average(InWindow(samples, w), Rising(w))
  {
    var span := MaxReal(0.0, w.end - w.start);
    var sums := Sums(0.0, 0.0, 0.0, 0.0, 0.0, 0.0);
    used := 0;
    for i := 0 to |samples|
      invariant used == |InWindow(samples[..i], w)|
      invariant SumsOf(sums, InWindow(samples[..i], w), Rising(w))
    {
      InWindowAppend(samples, i, w);
      var sample := samples[i];
      if w.start <= sample.nowSec && sample.nowSec <= w.end {
        used := used + 1;
        var phase := if span > EPSILON then Clamp((sample.nowSec - w.start) / span, 0.0, 1.0) else 1.0;
        sums := AddToSums(sums, InWindow(samples[..i], w), sample, 1.0 + 2.0 * phase, Rising(w));
      }
    }
    assert samples[..|samples|] == samples;
    guide := GuideOf(sums, InWindow(samples, w), Rising(w));
  }

  /** Averages all samples, each counting the same. */
  method AverageAll(samples: seq<Sample>) returns (guide: Option<LineGuide>)
    ensures guide == Average(samples, Even)
  {
    var sums := Sums(0.0, 0.0, 0.0, 0.0, 0.0, 0.0);
    for i := 0 to |samples|
      invariant SumsOf(sums, samples[..i], Even)
    {
      assert samples[..i + 1] == samples[..i] + [samples[i]];
      sums := AddToSums(sums, samples[..i], samples[i], 1.0, Even);
    }
    assert samples[..|samples|] == samples;
    guide := GuideOf(sums, samples, Even);
  }

  // ----- What the averages mean -----

  /** Every weight is between 1 and 3, and later samples never count less. */
  lemma WeightsRise(k: Weighting, earlier: real, later: real)
    requires earlier <= later
    ensures 1.0 <= Weight(k, earlier) <= Weight(k, later) <= 3.0
  {
    if k.Rising? {
      var span := MaxReal(0.0, k.window.end - k.window.start);
      if span > EPSILON {
        QuotientMonotone(earlier - k.window.start, later - k.window.start, span);
      }
    }
  }

  /** In a window of positive length the weight rises evenly from 1 at its start to 3 at
      its end; in one without length every sample counts 3. */
  lemma WeightIsLinear(w: Window, time: real)
    requires Contains(w, time)
    ensures var length := w.end - w.start;
            if length > EPSILON then (Weight(Rising(w), time) - 1.0) * length == 2.0 * (time - w.start)
            else Weight(Rising(w), time) == 3.0
  {
    var span, x := w.end - w.start, time - w.start;
    if span > EPSILON {
      QuotientMonotone(0.0, x, span);
      QuotientMonotone(x, span, span);
      QuotientTimes(x, span);
      QuotientTimes(0.0, span);
      var phase := x / span;
      assert Weight(Rising(w), time) == 1.0 + 2.0 * phase;
      hide Weight;
      assert (1.0 + 2.0 * phase - 1.0) * span == 2.0 * (phase * span);
    }
  }

  lemma QuotientTimes(x: real, y: real)
    requires y > 0.0
    ensures x / y * y == x && y / y == 1.0
  {
  }

  /** The motion is estimated to last from its begin to the end of its remaining time; the
      window leaves out the first two fifths of it and ends with the present frame. */
  lemma WindowLeavesOutStart(beginSec: real, nowSec: real, remainingSec: real)
    requires beginSec <= nowSec && remainingSec >= 0.0
    ensures var w := MotionWindow(beginSec, nowSec, remainingSec);
            w.end == nowSec && 5.0 * (w.start - beginSec) == 2.0 * (nowSec + remainingSec - beginSec)
    ensures forall earlier: real, less: real :: earlier < beginSec && less < 0.0 ==>
              MotionWindow(beginSec, earlier, less) == Window(beginSec, beginSec)
  {
  }

  lemma {:induction false} TotalPositive(samples: seq<Sample>, k: Weighting)
    ensures Total(samples, k) >= |samples| as real
  {
    if samples != [] {
      TotalPositive(samples[..|samples| - 1], k);
      WeightsRise(k, samples[|samples| - 1].nowSec, samples[|samples| - 1].nowSec);
    }
  }

  lemma {:induction false} InWindowMeaning(samples: seq<Sample>, w: Window)
    ensures forall x :: x in InWindow(samples, w) <==> x in samples && Contains(w, x.nowSec)
    ensures |InWindow(samples, w)| <= |samples|
  {
    if samples != [] {
      InWindowMeaning(samples[..|samples| - 1], w);
      assert samples == samples[..|samples| - 1] + [samples[|samples| - 1]];
    }
  }

  lemma AverageExists(samples: seq<Sample>, k: Weighting)
    ensures Average(samples, k).Some? <==> samples != []
  {
    TotalPositive(samples, k);
  }

  ghost predicate Bounded(samples: seq<Sample>, part: Part, low: real, high: real) {
    forall x :: x in samples ==> low <= PartOf(part, x.guide) <= high
  }

  /** The sum is between the multiples of the bounds. */
  ghost predicate Between(total: real, sum: real, low: real, high: real) { total * low <= sum <= total * high }

  lemma BetweenAdd(total: real, sum: real, low: real, high: real, k: Weighting, part: Part, x: Sample)
    requires Between(total, sum, low, high) && low <= PartOf(part, x.guide) <= high
    ensures Between(total + Weight(k, x.nowSec), sum + Term(k, part, x), low, high)
  {
    WeightsRise(k, x.nowSec, x.nowSec);
    hide PartOf, Weight;
    var weight, value := Weight(k, x.nowSec), PartOf(part, x.guide);
    ProductMonotone(weight, low, value);
    ProductMonotone(weight, value, high);
    assert (total + weight) * low == total * low + weight * low;
    assert (total + weight) * high == total * high + weight * high;
  }

  lemma {:induction false} SumBounded(samples: seq<Sample>, k: Weighting, part: Part, low: real, high: real)
    requires Bounded(samples, part, low, high)
    ensures Between(Total(samples, k), Sum(samples, k, part), low, high)
  {
    if samples != [] {
      var init, x := samples[..|samples| - 1], samples[|samples| - 1];
      assert forall y :: y in init ==> y in samples;
      SumBounded(init, k, part, low, high);
      hide PartOf, Weight, Term, Between;
      BetweenAdd(Total(init, k), Sum(init, k, part), low, high, k, part, x);
    }
  }

  lemma QuotientBetween(low: real, sum: real, high: real, total: real)
    requires total > 0.0 && Between(total, sum, low, high)
    ensures low <= sum / total <= high
  {
    QuotientMonotone(total * low, sum, total);
    QuotientMonotone(sum, total * high, total);
    assert total * low / total == low && total * high / total == high;
  }

  /** The mean of any part lies between any common bounds of the samples. */
  lemma MeanInHull(samples: seq<Sample>, k: Weighting, part: Part, low: real, high: real)
    requires samples != [] && Bounded(samples, part, low, high)
    ensures Total(samples, k) > 0.0 && low <= Sum(samples, k, part) / Total(samples, k) <= high
  {
    TotalPositive(samples, k);
    SumBounded(samples, k, part, low, high);
    hide Total, Sum, Between;
    QuotientBetween(low, Sum(samples, k, part), high, Total(samples, k));
  }

  /** Offset, heading and confidence of an average never leave what was averaged. */
  lemma AverageInHull(samples: seq<Sample>, k: Weighting, part: Part, low: real, high: real)
    requires samples != [] && part in {OffsetPart, HeadingPart, ConfidencePart} && Bounded(samples, part, low, high)
    ensures Average(samples, k).Some? && low <= PartOf(part, Average(samples, k).value) <= high
  {
    MeanInHull(samples, k, part, low, high);
  }

  lemma {:induction false} CurvedMeaning(samples: seq<Sample>)
    ensures forall x :: x in Curved(samples) <==> x in samples && x.guide.curvatureValid
  {
    if samples != [] {
      CurvedMeaning(samples[..|samples| - 1]);
      assert samples == samples[..|samples| - 1] + [samples[|samples| - 1]];
    }
  }

  /** The average has a curvature exactly when some sample has one, and it lies in
      the hull of the curvatures that are valid. */
  lemma AverageCurvature(samples: seq<Sample>, k: Weighting, low: real, high: real)
    requires samples != []
    requires forall x :: x in samples && x.guide.curvatureValid ==> low <= x.guide.curvatureRad <= high
    ensures Average(samples, k).Some?
    ensures var g := Average(samples, k).value;
            && (g.curvatureValid <==> exists x :: x in samples && x.guide.curvatureValid)
            && (g.curvatureValid ==> low <= g.curvatureRad <= high)
  {
    CurvedMeaning(samples);
    TotalPositive(samples, k);
    if Curved(samples) != [] {
      assert Curved(samples)[0] in Curved(samples);
      MeanInHull(Curved(samples), k, CurvaturePart, low, high);
    }
  }

  ghost predicate Linear(steering: Steering, score: real, offset: real, heading: real) {
    score == steering.offsetGain * offset + steering.headingGain * heading
  }

  lemma LinearTerm(steering: Steering, k: Weighting, x: Sample)
    ensures Linear(steering, Term(k, ScorePart(steering), x), Term(k, OffsetPart, x), Term(k, HeadingPart, x))
  {
    hide Weight;
    var a, b, w, o, h := steering.offsetGain, steering.headingGain, Weight(k, x.nowSec), x.guide.offset, x.guide.headingRad;
    assert w * (a * o + b * h) == a * (w * o) + b * (w * h);
  }

  lemma LinearAdd(steering: Steering, s: real, o: real, h: real, s': real, o': real, h': real)
    requires Linear(steering, s, o, h) && Linear(steering, s', o', h')
    ensures Linear(steering, s + s', o + o', h + h')
  {
    assert steering.offsetGain * (o + o') == steering.offsetGain * o + steering.offsetGain * o';
    assert steering.headingGain * (h + h') == steering.headingGain * h + steering.headingGain * h';
  }

  lemma LinearQuotient(steering: Steering, s: real, o: real, h: real, t: real)
    requires t > 0.0 && Linear(steering, s, o, h)
    ensures Linear(steering, s / t, o / t, h / t)
  {
    var a, b, x, y := steering.offsetGain, steering.headingGain, o / t, h / t;
    assert o == x * t && h == y * t;
    assert a * o + b * h == (a * x + b * y) * t;
  }

  /** The sum of scores is the score of the sums. */
  lemma {:induction false} ScoreIsLinear(samples: seq<Sample>, k: Weighting, steering: Steering)
    ensures Linear(steering, Sum(samples, k, ScorePart(steering)), Sum(samples, k, OffsetPart), Sum(samples, k, HeadingPart))
  {
    if samples != [] {
      var init, x := samples[..|samples| - 1], samples[|samples| - 1];
      ScoreIsLinear(init, k, steering);
      hide Weight, Term, Linear;
      LinearTerm(steering, k, x);
      LinearAdd(steering, Sum(init, k, ScorePart(steering)), Sum(init, k, OffsetPart), Sum(init, k, HeadingPart),
                Term(k, ScorePart(steering), x), Term(k, OffsetPart, x), Term(k, HeadingPart, x));
    }
  }

  /** A sample whose part is the least (or, with `most`, the greatest) of all. */
  lemma {:induction false} Extreme(samples: seq<Sample>, part: Part, most: bool) returns (e: Sample)
    requires samples != []
    ensures e in samples
    ensures forall x :: x in samples ==>
              if most then PartOf(part, x.guide) <= PartOf(part, e.guide) else PartOf(part, e.guide) <= PartOf(part, x.guide)
  {
    hide PartOf;
    e := samples[|samples| - 1];
    if |samples| > 1 {
      var init := samples[..|samples| - 1];
      var other := Extreme(init, part, most);
      assert samples == init + [e];
      if (PartOf(part, other.guide) < PartOf(part, e.guide)) != most { e := other; }
    }
  }

  lemma ScoreOfAverage(samples: seq<Sample>, k: Weighting, steering: Steering)
    requires samples != []
    ensures Total(samples, k) > 0.0 && Average(samples, k).Some?
    ensures Score(steering, Average(samples, k).value) == Sum(samples, k, ScorePart(steering)) / Total(samples, k)
  {
    TotalPositive(samples, k);
    ScoreIsLinear(samples, k, steering);
    hide Sum, Total;
    LinearQuotient(steering, Sum(samples, k, ScorePart(steering)), Sum(samples, k, OffsetPart), Sum(samples, k, HeadingPart),
                   Total(samples, k));
  }

  /** If every averaged guide alone selects the same direction, so does the average. */
  lemma AverageKeepsDirection(samples: seq<Sample>, k: Weighting, steering: Steering, direction: CruiseDirection)
    requires samples != [] && forall x :: x in samples ==> x.guide.valid && Steer(steering, x.guide).direction == direction
    ensures Average(samples, k).Some? && Steer(steering, Average(samples, k).value).direction == direction
  {
    var part := ScorePart(steering);
    var least := Extreme(samples, part, false);
    var most := Extreme(samples, part, true);
    MeanInHull(samples, k, part, PartOf(part, least.guide), PartOf(part, most.guide));
    ScoreOfAverage(samples, k, steering);
    hide Sum, Total, Score;
    DirectionIsConvex(Score(steering, least.guide), Score(steering, Average(samples, k).value), Score(steering, most.guide),
                      steering.deadband, direction);
  }

  // ----- The frames of one action -----

  datatype Frame = Frame(nowSec: real, guide: LineGuide)

  /** The accumulator after Begin and one Add per frame. */
  function Collect(id: ActionId, beginSec: real, frames: seq<Frame>): Accumulator {
    if frames == [] then BeginFor(id, beginSec)
    else AddFrame(Collect(id, beginSec, frames[..|frames| - 1]), id, frames[|frames| - 1].nowSec, frames[|frames| - 1].guide)
  }

  ghost predicate Usable(frames: seq<Frame>, w: Window, k: nat)
    requires k < |frames|
  {
    frames[k].guide.valid && Contains(w, frames[k].nowSec)
  }

  /** The sample that frame k leaves behind, if it is valid. */
  function SampleOf(f: Frame): Sample { Sample(f.nowSec, f.guide) }

  ghost predicate Collected(samples: seq<Sample>, frames: seq<Frame>) {
    && (forall k :: 0 <= k < |frames| && frames[k].guide.valid ==> SampleOf(frames[k]) in samples)
    && (forall x :: x in samples ==> exists k :: 0 <= k < |frames| && frames[k].guide.valid && x == SampleOf(frames[k]))
  }

  lemma CollectedAppend(samples: seq<Sample>, frames: seq<Frame>, f: Frame)
    requires Collected(samples, frames)
    ensures Collected(if f.guide.valid then samples + [SampleOf(f)] else samples, frames + [f])
  {
    var all, samples' := frames + [f], if f.guide.valid then samples + [SampleOf(f)] else samples;
    assert all[|frames|] == f;
    assert forall k :: 0 <= k < |frames| ==> all[k] == frames[k];
    forall x | x in samples'
      ensures exists k :: 0 <= k < |all| && all[k].guide.valid && x == SampleOf(all[k])
    {
      if x in samples {
        var k :| 0 <= k < |frames| && frames[k].guide.valid && x == SampleOf(frames[k]);
        assert all[k] == frames[k];
      } else {
        assert x == SampleOf(all[|frames|]);
      }
    }
  }

  lemma {:induction false} CollectMeaning(id: ActionId, beginSec: real, frames: seq<Frame>, w: Window)
    requires id != 0
    ensures var a := Collect(id, beginSec, frames);
            && a.actionId == id && a.beginSec == beginSec
            && |a.frameTimes| == |frames| && |a.samples| <= |frames|
            && |InWindow(a.samples, w)| <= TimesIn(a.frameTimes, w) <= |frames|
            && Collected(a.samples, frames)
  {
    if frames != [] {
      var init, f := frames[..|frames| - 1], frames[|frames| - 1];
      CollectMeaning(id, beginSec, init, w);
      var a := Collect(id, beginSec, init);
      assert (a.frameTimes + [f.nowSec])[..|a.frameTimes|] == a.frameTimes;
      assert (a.samples + [SampleOf(f)])[..|a.samples|] == a.samples;
      CollectedAppend(a.samples, init, f);
      assert init + [f] == frames;
      hide Collected;
    }
  }

  /** What is averaged are the valid frames in the window, no more and no less. */
  lemma UsedFrames(id: ActionId, beginSec: real, frames: seq<Frame>, w: Window)
    requires id != 0
    ensures var used := InWindow(Collect(id, beginSec, frames).samples, w);
            && (forall k :: 0 <= k < |frames| && Usable(frames, w, k) ==> SampleOf(frames[k]) in used)
            && (forall x :: x in used ==> exists k :: 0 <= k < |frames| && Usable(frames, w, k) && x == SampleOf(frames[k]))
  {
    var a := Collect(id, beginSec, frames);
    CollectMeaning(id, beginSec, frames, w);
    InWindowMeaning(a.samples, w);
    hide Collect, InWindow, TimesIn, Contains;
    forall x | x in InWindow(a.samples, w)
      ensures exists k :: 0 <= k < |frames| && Usable(frames, w, k) && x == SampleOf(frames[k])
    {
      var k :| 0 <= k < |frames| && frames[k].guide.valid && x == SampleOf(frames[k]);
      assert Usable(frames, w, k);
    }
  }

  /** Finish yields a guide exactly when some valid frame lies between 40% of the
      estimated motion and its end. */
  lemma FinishYieldsIff(id: ActionId, beginSec: real, frames: seq<Frame>, nowSec: real, remainingSec: real)
    requires id != 0
    ensures var w := MotionWindow(beginSec, nowSec, remainingSec);
            FinishGuide(Collect(id, beginSec, frames), id, nowSec, remainingSec).Some?
            <==> exists k :: 0 <= k < |frames| && Usable(frames, w, k)
  {
    var w, a := MotionWindow(beginSec, nowSec, remainingSec), Collect(id, beginSec, frames);
    CollectMeaning(id, beginSec, frames, w);
    UsedFrames(id, beginSec, frames, w);
    hide MotionWindow, Collect, InWindow, TimesIn, Average, Usable;
    var used := InWindow(a.samples, w);
    AverageExists(used, Rising(w));
    if used != [] { assert used[0] in used; }
  }

  /** The published counts: what is used is valid and in the window. */
  lemma StatsOrdered(id: ActionId, beginSec: real, frames: seq<Frame>, nowSec: real, remainingSec: real)
    requires id != 0
    ensures var s := StatsOf(Collect(id, beginSec, frames), nowSec, remainingSec);
            && s.totalFrames == |frames|
            && s.usedFrames <= s.windowFrames <= s.totalFrames
            && s.usedFrames <= s.validFrames <= s.totalFrames
  {
    var w := MotionWindow(beginSec, nowSec, remainingSec);
    CollectMeaning(id, beginSec, frames, w);
    InWindowMeaning(Collect(id, beginSec, frames).samples, w);
  }

  /** The frames in the window. */
  ghost function FramesIn(times: seq<real>, w: Window): set<nat> {
    set k: nat | k < |times| && w.start <= times[k] <= w.end
  }

  lemma {:induction false} TimesCounted(times: seq<real>, w: Window)
    ensures TimesIn(times, w) == |FramesIn(times, w)|
  {
    if times == [] {
      assert FramesIn(times, w) == {};
    } else {
      var init, k: nat := times[..|times| - 1], |times| - 1;
      TimesCounted(init, w);
      if w.start <= times[k] <= w.end {
        assert FramesIn(times, w) == FramesIn(init, w) + {k};
      } else {
        assert FramesIn(times, w) == FramesIn(init, w);
      }
    }
  }

  /** The published window: how long the motion is estimated to last, where its window
      lies, and how many frames are in it. */
  lemma StatsMeaning(a: Accumulator, nowSec: real, remainingSec: real)
    ensures var s := StatsOf(a, nowSec, remainingSec);
            var elapsed := if nowSec < a.beginSec then 0.0 else nowSec - a.beginSec;
            && s.actionId == a.actionId && s.remainingSec == (if remainingSec < 0.0 then 0.0 else remainingSec)
            && s.estimatedMotionSec == elapsed + s.remainingSec
            && s.windowStartSec == a.beginSec + 0.4 * s.estimatedMotionSec && s.windowEndSec == a.beginSec + elapsed
            && s.windowFrames == |FramesIn(a.frameTimes, Window(s.windowStartSec, s.windowEndSec))|
  {
    TimesCounted(a.frameTimes, MotionWindow(a.beginSec, nowSec, remainingSec));
  }

  /** Only the action that was begun is watched: frames of any other one change nothing,
      and no other one can be finished. */
  lemma OthersAreIgnored(a: Accumulator, id: ActionId, nowSec: real, guide: LineGuide, remainingSec: real)
    requires id == 0 || id != a.actionId
    ensures AddFrame(a, id, nowSec, guide) == a
    ensures FinishGuide(a, id, nowSec, remainingSec).None? && FinishAllGuide(a, id).None?
    ensures FinishState(a, id, nowSec, remainingSec) == a.(lastStats := None)
  {
  }

  /** Finishing the action that is watched, or dropping it, leaves nothing to be averaged
      again; the counts of the last one finished stay readable. */
  lemma FinishEmpties(a: Accumulator, nowSec: real, remainingSec: real)
    ensures Cleared(a) == Accumulator(0, 0.0, [], [], a.lastStats)
    ensures a.actionId != 0 ==>
              && FinishState(a, a.actionId, nowSec, remainingSec)
                 == Accumulator(0, 0.0, [], [], Some(StatsOf(a, nowSec, remainingSec)))
              && FinishAllGuide(a, a.actionId) == Average(a.samples, Even)
  {
    hide StatsOf, Average;
  }

  /** What Finish makes of the frames lies in the hull of the usable ones. */
  lemma FinishInHull(id: ActionId, beginSec: real, frames: seq<Frame>, nowSec: real, remainingSec: real,
                     part: Part, low: real, high: real)
    requires id != 0 && part in {OffsetPart, HeadingPart, ConfidencePart}
    requires var w := MotionWindow(beginSec, nowSec, remainingSec);
             forall k :: 0 <= k < |frames| && Usable(frames, w, k) ==> low <= PartOf(part, frames[k].guide) <= high
    ensures var guide := FinishGuide(Collect(id, beginSec, frames), id, nowSec, remainingSec);
            guide.Some? ==> low <= PartOf(part, guide.value) <= high
  {
    var w, a := MotionWindow(beginSec, nowSec, remainingSec), Collect(id, beginSec, frames);
    CollectMeaning(id, beginSec, frames, w);
    UsedFrames(id, beginSec, frames, w);
    hide MotionWindow, Collect, InWindow, TimesIn, Average, PartOf, Usable;
    var used := InWindow(a.samples, w);
    AverageExists(used, Rising(w));
    if used != [] { AverageInHull(used, Rising(w), part, low, high); }
  }

  /** When every usable frame alone selects the same direction, so does the guide
      that Finish makes of them. */
  lemma FinishKeepsDirection(id: ActionId, beginSec: real, frames: seq<Frame>, nowSec: real, remainingSec: real,
                             steering: Steering, direction: CruiseDirection)
    requires id != 0
    requires var w := MotionWindow(beginSec, nowSec, remainingSec);
             forall k :: 0 <= k < |frames| && Usable(frames, w, k) ==> Steer(steering, frames[k].guide).direction == direction
    ensures var guide := FinishGuide(Collect(id, beginSec, frames), id, nowSec, remainingSec);
            guide.Some? ==> Steer(steering, guide.value).direction == direction
  {
    var w, a := MotionWindow(beginSec, nowSec, remainingSec), Collect(id, beginSec, frames);
    CollectMeaning(id, beginSec, frames, w);
    UsedFrames(id, beginSec, frames, w);
    var used := InWindow(a.samples, w);
    AverageExists(used, Rising(w));
    if used != [] {
      forall x | x in used
        ensures x.guide.valid && Steer(steering, x.guide).direction == direction
      {
        var k :| 0 <= k < |frames| && Usable(frames, w, k) && x == SampleOf(frames[k]);
      }
      hide MotionWindow, Collect, InWindow, TimesIn, Average, Steer;
      AverageKeepsDirection(used, Rising(w), steering, direction);
    }
  }
}
