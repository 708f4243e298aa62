/** The line guide computed from a cloud of line centers: clamp, sort from near to
    far, keep the nearest ones, fit, and normalise. */
module LineFeatures {
  import opened Types
  import opened RealArithmetic
  import opened LineFit

  /** The transcendental functions are arbitrary. */
  datatype Config = Config(
    maxCenters: int,
    guideMinPoints: int,
    imageCenterU: real,
    curveMinPoints: int,
    curveMinVSpanPx: real,
    curveLocalFitPoints: int,
    guideFitRmseFullScalePx: real,
    atan: real -> real,
    sqrt: real -> real,
    wrapAngle: real -> real)

  datatype Features = Features(visible: nat, guide: LineGuide)

  const NO_FEATURES := Features(0, INVALID_GUIDE)

  // ----- Order of the points -----

  /** From near (large v) to far, and from left to right within a row. */
  predicate InOrder(a: Point2, b: Point2) { a.v > b.v || (a.v == b.v && a.u <= b.u) }

  ghost predicate IsSorted(s: seq<Point2>) { forall i, j :: 0 <= i < j < |s| ==> InOrder(s[i], s[j]) }

  function Insert(s: seq<Point2>, p: Point2): (r: seq<Point2>)
    ensures multiset(r) == multiset(s) + multiset{p}
  {
    if s == [] then [p]
    else if InOrder(p, s[0]) then [p] + s
    else
      assert s == [s[0]] + s[1..];
      [s[0]] + Insert(s[1..], p)
  }

  lemma {:induction false} InsertSorted(s: seq<Point2>, p: Point2)
    requires IsSorted(s)
    ensures IsSorted(Insert(s, p))
  {
    if s != [] && !InOrder(p, s[0]) {
      var rest, r := s[1..], Insert(s[1..], p);
      InsertSorted(rest, p);
      forall k | 0 <= k < |r|
        ensures InOrder(s[0], r[k])
      {
        assert r[k] in multiset(r);
        assert r[k] == p || r[k] in rest;
      }
    }
  }

  function SortPoints(s: seq<Point2>): (r: seq<Point2>)
    ensures multiset(r) == multiset(s)
  {
    if s == [] then []
    else
      assert s == [s[0]] + s[1..];
      Insert(SortPoints(s[1..]), s[0])
  }

  lemma {:induction false} SortPointsSorted(s: seq<Point2>)
    ensures IsSorted(SortPoints(s))
  {
    if s != [] {
      SortPointsSorted(s[1..]);
      InsertSorted(SortPoints(s[1..]), s[0]);
    }
  }

  /** There is only one sorted arrangement of the same points, so it does not matter
      which algorithm sorts them. */
  lemma {:induction false} SortedIsUnique(s: seq<Point2>, t: seq<Point2>)
    requires IsSorted(s) && IsSorted(t) && multiset(s) == multiset(t)
    ensures s == t
  {
    hide IsSorted;
    SameLength(s, t);
    if s != [] {
      FirstIsShared(s, t);
      TailOf(s);
      TailOf(t);
      SortedIsUnique(s[1..], t[1..]);
      SameCons(s, t);
    }
  }

  lemma SameLength(s: seq<Point2>, t: seq<Point2>)
    requires multiset(s) == multiset(t)
    ensures |s| == |t|
  {
    assert |multiset(s)| == |multiset(t)|;
  }

  lemma SameCons(s: seq<Point2>, t: seq<Point2>)
    requires s != [] && t != [] && s[0] == t[0] && s[1..] == t[1..]
    ensures s == t
  {
    assert s == [s[0]] + s[1..] && t == [t[0]] + t[1..];
  }

  lemma FirstIsShared(s: seq<Point2>, t: seq<Point2>)
    requires s != [] && t != [] && IsSorted(s) && IsSorted(t) && multiset(s) == multiset(t)
    ensures s[0] == t[0]
  {
    assert s[0] in multiset(t) && t[0] in multiset(s);
    var i :| 0 <= i < |t| && t[i] == s[0];
    var j :| 0 <= j < |s| && s[j] == t[0];
  }

  lemma TailOf(s: seq<Point2>)
    requires s != [] && IsSorted(s)
    ensures multiset(s[1..]) == multiset(s) - multiset{s[0]} && IsSorted(s[1..])
  {
    assert s == [s[0]] + s[1..];
  }

  // ----- The guide -----

  function Ratio(amount: real, full: real): real
    requires full > 0.0
  {
    amount / full
  }

  function Share(amount: real, full: real): real
    requires full > 0.0
  {
    Clamp(Ratio(amount, full), 0.0, 1.0)
  }

  function Trust(enough: real, spread: real, close: real): real {
    Clamp(Product(Product(enough, spread), close), 0.0, 1.0)
  }

  function Confidence(points: seq<Point2>, local: nat, desired: nat, fit: Fit, config: Config): real
    requires 0 < local <= |points| && local <= desired
  {
    var rmse := config.sqrt(SquaredError(points[..local], fit.a, fit.b) / local as real);
    Trust(Share(local as real, desired as real),
          Share(points[0].v - points[local - 1].v, MaxReal(1.0, config.curveMinVSpanPx)),
          1.0 - Share(rmse, MaxReal(1.0, config.guideFitRmseFullScalePx)))
  }

  function FarFit(points: seq<Point2>, local: nat, config: Config): Fit
    requires 0 < local <= |points|
  {
    if |points| >= config.curveMinPoints && points[0].v - points[|points| - 1].v >= config.curveMinVSpanPx
    then FitOf(points[|points| - local..])
    else NO_FIT
  }

  function DesiredPoints(config: Config): int { Max(config.guideMinPoints, config.curveLocalFitPoints) }

  function LocalPoints(points: seq<Point2>, config: Config): int {
    if DesiredPoints(config) < |points| then DesiredPoints(config) else |points|
  }

  /** Where the fit crosses a row. */
  function Column(fit: Fit, v: real): real { fit.a * v + fit.b }

  function Offset(column: real, cx: real, denom: real): real
    requires denom > 0.0
  {
    (column - cx) / denom
  }

  function GuideOf(points: seq<Point2>, cx: real, denom: real, config: Config): LineGuide
    requires denom > 0.0
  {
    if config.guideMinPoints < 3 || |points| < config.guideMinPoints then INVALID_GUIDE
    else
      var local := LocalPoints(points, config);
      var near, far := FitOf(points[..local]), FarFit(points, local, config);
      if !near.valid then INVALID_GUIDE
      else
        var meanV := Mean(SumV(points[..local]), local);
        var heading := -config.atan(near.a);
        LineGuide(Offset(Column(near, meanV), cx, denom),
                  heading,
                  if far.valid then config.wrapAngle(-config.atan(far.a) - heading) else 0.0,
                  Confidence(points, local, DesiredPoints(config), near, config),
                  true,
                  far.valid)
  }

  function ClampPoint(p: Point2, width: int, height: int): Point2 {
    Point2(Clamp(p.u, 0.0, width as real - 1.0), Clamp(p.v, 0.0, height as real - 1.0))
  }

  function ClampPoints(input: seq<Point2>, width: int, height: int): seq<Point2> {
    seq(|input|, i requires 0 <= i < |input| => ClampPoint(input[i], width, height))
  }

  function Nearest(points: seq<Point2>, config: Config): seq<Point2> {
    if |points| <= Max(1, config.maxCenters) then points else points[..Max(1, config.maxCenters)]
  }

  function CenterOf(config: Config, width: int): real {
    if config.imageCenterU >= 0.0 then config.imageCenterU else 0.5 * width as real
  }

  function HalfWidth(width: int): (r: real)
    ensures r >= 1.0
  {
    MaxReal(0.5 * width as real, 1.0)
  }

  function FeaturesOf(input: seq<Point2>, width: int, height: int, config: Config): Features {
    if width <= 1 || height <= 1 then NO_FEATURES
    else
      var points := Nearest(SortPoints(ClampPoints(input, width, height)), config);
      if points == [] then NO_FEATURES
      else Features(|points|, GuideOf(points, CenterOf(config, width), HalfWidth(width), config))
  }

  // ----- The computation -----

  method ComputeConfidence(points: seq<Point2>, local: nat, desired: nat, fit: Fit, config: Config) returns (confidence: real)
    requires 0 < local <= |points| && local <= desired && fit.valid
    ensures confidence == Confidence(points, local, desired, fit, config)
  {
    var pointConfidence := Share(local as real, desired as real);
    var vSpan := points[0].v - points[local - 1].v;
    var spanConfidence := Share(vSpan, MaxReal(1.0, config.curveMinVSpanPx));
    var meanSquared := MeanSquaredError(points, 0, local, fit);
    assert points[0..local] == points[..local];
    var fitConfidence := 1.0 - Share(config.sqrt(meanSquared), MaxReal(1.0, config.guideFitRmseFullScalePx));
    confidence := Trust(pointConfidence, spanConfidence, fitConfidence);
  }

  method ComputeFarFit(points: seq<Point2>, local: nat, config: Config) returns (far: Fit)
    requires 0 < local <= |points|
    ensures far == FarFit(points, local, config)
  {
    var vSpan := points[0].v - points[|points| - 1].v;
    far := NO_FIT;
    if |points| >= config.curveMinPoints && vSpan >= config.curveMinVSpanPx {
      far := FitLine(points, |points| - local, |points|);
      assert points[|points| - local..|points|] == points[|points| - local..];
    }
  }

  method ComputeLineGuide(points: seq<Point2>, cx: real, denom: real, config: Config) returns (guide: LineGuide)
    requires denom > 0.0
    ensures guide == GuideOf(points, cx, denom, config)
  {
    hide Confidence, FarFit, FitOf, SumV;
    guide := INVALID_GUIDE;
    if config.guideMinPoints < 3 || |points| < config.guideMinPoints { return; }
    var desired := Max(config.guideMinPoints, config.curveLocalFitPoints);
    var local := if desired < |points| then desired else |points|;
    assert points[0..local] == points[..local];
    var near := FitLine(points, 0, local);
    if !near.valid { return; }
    var referenceV := MeanV(points, 0, local);
    var referenceU := near.a * referenceV + near.b;
    guide := guide.(offset := (referenceU - cx) / denom, headingRad := -config.atan(near.a), valid := true);
    var far := ComputeFarFit(points, local, config);
    if far.valid {
      guide := guide.(curvatureRad := config.wrapAngle(-config.atan(far.a) - guide.headingRad), curvatureValid := true);
    }
    var confidence := ComputeConfidence(points, local, desired, near, config);
    guide := guide.(confidence := confidence);
  }

  method ComputeLineFeatures(input: seq<Point2>, width: int, height: int, config: Config) returns (features: Features)
    ensures features == FeaturesOf(input, width, height, config)
  {
    hide GuideOf;
    if width <= 1 || height <= 1 { return NO_FEATURES; }
    var points := [];
    for i := 0 to |input|
      invariant |points| == i && points == ClampPoints(input, width, height)[..i]
    {
      points := points + [Point2(Clamp(input[i].u, 0.0, width as real - 1.0), Clamp(input[i].v, 0.0, height as real - 1.0))];
    }
    assert points == ClampPoints(input, width, height);
    points := SortPoints(points);
    if |points| > Max(1, config.maxCenters) { points := points[..Max(1, config.maxCenters)]; }
    if |points| == 0 { return NO_FEATURES; }
    var guide := ComputeLineGuide(points, CenterOf(config, width), HalfWidth(width), config);
    features := Features(|points|, guide);
  }

  // ----- Input order does not matter -----

  lemma ClampConcat(a: seq<Point2>, b: seq<Point2>, width: int, height: int)
    ensures ClampPoints(a + b, width, height) == ClampPoints(a, width, height) + ClampPoints(b, width, height)
  {
  }

  lemma ClampTakeOut(s: seq<Point2>, k: nat, width: int, height: int)
    requires k < |s|
    ensures multiset(s) == multiset(s[..k] + s[k + 1..]) + multiset{s[k]}
    ensures multiset(ClampPoints(s, width, height))
         == multiset(ClampPoints(s[..k] + s[k + 1..], width, height)) + multiset{ClampPoint(s[k], width, height)}
  {
    hide ClampPoint;
    var a, p, b := s[..k], s[k], s[k + 1..];
    assert s == a + ([p] + b);
    ClampConcat(a, [p] + b, width, height);
    ClampConcat([p], b, width, height);
    ClampConcat(a, b, width, height);
    assert ClampPoints([p], width, height) == [ClampPoint(p, width, height)];
  }

  /** Clamping the same points in another order gives the same points. */
  lemma {:induction false} ClampKeepsMultiset(input: seq<Point2>, other: seq<Point2>, width: int, height: int)
    requires multiset(input) == multiset(other)
    ensures multiset(ClampPoints(input, width, height)) == multiset(ClampPoints(other, width, height))
    decreases |input|
  {
    hide ClampPoints, ClampPoint;
    assert |input| == |multiset(input)| == |multiset(other)| == |other|;
    if input == [] {
      assert other == [];
    } else {
      var p := input[0];
      assert p in multiset(other);
      var k :| 0 <= k < |other| && other[k] == p;
      ClampTakeOut(input, 0, width, height);
      ClampTakeOut(other, k, width, height);
      var rest, rest' := input[..0] + input[1..], other[..k] + other[k + 1..];
      assert multiset(rest) == multiset(input) - multiset{p};
      assert multiset(rest') == multiset(other) - multiset{p};
      ClampKeepsMultiset(rest, rest', width, height);
    }
  }

  /** The features depend on which points were seen, not on their order. */
  lemma FeaturesIgnoreOrder(input: seq<Point2>, other: seq<Point2>, width: int, height: int, config: Config)
    requires multiset(input) == multiset(other)
    ensures FeaturesOf(input, width, height, config) == FeaturesOf(other, width, height, config)
  {
    ClampKeepsMultiset(input, other, width, height);
    SortPointsSorted(ClampPoints(input, width, height));
    SortPointsSorted(ClampPoints(other, width, height));
    SortedIsUnique(SortPoints(ClampPoints(input, width, height)), SortPoints(ClampPoints(other, width, height)));
    hide GuideOf, Nearest;
  }

  // ----- The offset -----

  ghost predicate InImage(points: seq<Point2>, width: int) {
    forall k :: 0 <= k < |points| ==> 0.0 <= points[k].u <= width as real - 1.0
  }

  lemma {:induction false} SumUBounded(s: seq<Point2>, high: real)
    requires forall k :: 0 <= k < |s| ==> 0.0 <= s[k].u <= high
    ensures 0.0 <= SumU(s) <= |s| as real * high
  {
    if s != [] {
      SumUBounded(s[..|s| - 1], high);
      assert |s| as real * high == (|s| - 1) as real * high + high;
    }
  }

  lemma MeanBetween(sum: real, n: nat, high: real)
    requires n > 0 && 0.0 <= sum <= n as real * high
    ensures 0.0 <= Mean(sum, n) <= high
  {
    var d := n as real;
    QuotientMonotone(0.0, sum, d);
    QuotientMonotone(sum, d * high, d);
    assert d * high / d == high;
  }

  /** The mean column of points in the image is in the image. */
  lemma MeanColumnInImage(s: seq<Point2>, width: int)
    requires s != [] && InImage(s, width)
    ensures 0.0 <= Mean(SumU(s), |s|) <= width as real - 1.0
  {
    SumUBounded(s, width as real - 1.0);
    hide SumU, Mean;
    MeanBetween(SumU(s), |s|, width as real - 1.0);
  }

  /** The offset of a valid guide is that of the mean column of its near points,
      whatever the slope of the fit, and that column lies in the image. */
  lemma OffsetIsMeanColumn(points: seq<Point2>, width: int, cx: real, denom: real, config: Config)
    requires denom > 0.0 && InImage(points, width) && GuideOf(points, cx, denom, config).valid
    ensures var local := LocalPoints(points, config);
            && 0 < local <= |points|
            && var mean := Mean(SumU(points[..local]), local);
               GuideOf(points, cx, denom, config).offset == Offset(mean, cx, denom) && 0.0 <= mean <= width as real - 1.0
  {
    var near := points[..LocalPoints(points, config)];
    FitThroughMean(near);
    assert Column(FitOf(near), Mean(SumV(near), |near|)) == Mean(SumU(near), |near|);
    MeanColumnInImage(near, width);
    hide Confidence, FarFit, FitOf, SumV, SumU, Mean, Column, Offset;
  }

  lemma FeaturesInImage(input: seq<Point2>, width: int, height: int, config: Config)
    requires width > 1 && height > 1
    ensures InImage(Nearest(SortPoints(ClampPoints(input, width, height)), config), width)
  {
    var clamped := ClampPoints(input, width, height);
    var sorted := SortPoints(clamped);
    forall k | 0 <= k < |sorted|
      ensures 0.0 <= sorted[k].u <= width as real - 1.0
    {
      assert sorted[k] in multiset(sorted);
      assert sorted[k] in clamped;
    }
  }

  /** The points a guide is made of. */
  function GuidePoints(input: seq<Point2>, width: int, height: int, config: Config): seq<Point2> {
    Nearest(SortPoints(ClampPoints(input, width, height)), config)
  }

  /** The published offset: mean column of the near points, a point of the image,
      against the image center, over half the width. */
  lemma PublishedOffset(input: seq<Point2>, width: int, height: int, config: Config)
    requires FeaturesOf(input, width, height, config).guide.valid
    ensures var points := GuidePoints(input, width, height, config);
            var local := LocalPoints(points, config);
            && 0 < local <= |points|
            && var mean := Mean(SumU(points[..local]), local);
               && FeaturesOf(input, width, height, config).guide.offset == Offset(mean, CenterOf(config, width), HalfWidth(width))
               && 0.0 <= mean <= width as real - 1.0
  {
    FeaturesInImage(input, width, height, config);
    hide GuideOf, SumU, SortPoints, ClampPoints, Nearest, Mean, Offset, CenterOf;
    OffsetIsMeanColumn(GuidePoints(input, width, height, config), width, CenterOf(config, width), HalfWidth(width), config);
  }

  /** The image center of the configuration if it has one, and the middle otherwise. */
  function Centre(config: Config, width: int): real {
    if config.imageCenterU < 0.0 then width as real / 2.0 else config.imageCenterU
  }

  /** In half image widths the offset is how far the near points are right of the center. */
  lemma OffsetIsToTheRight(input: seq<Point2>, width: int, height: int, config: Config)
    requires FeaturesOf(input, width, height, config).guide.valid
    ensures var points := GuidePoints(input, width, height, config);
            var local := LocalPoints(points, config);
            && 0 < local <= |points|
            && FeaturesOf(input, width, height, config).guide.offset * (width as real / 2.0)
               == Mean(SumU(points[..local]), local) - Centre(config, width)
  {
    hide FeaturesOf, SumU, Mean, GuidePoints, LocalPoints;
    PublishedOffset(input, width, height, config);
    ValidIsWide(input, width, height, config);
    var points := GuidePoints(input, width, height, config);
    var local := LocalPoints(points, config);
    OffsetTimes(Mean(SumU(points[..local]), local), CenterOf(config, width), HalfWidth(width));
    assert HalfWidth(width) == width as real / 2.0 && CenterOf(config, width) == Centre(config, width);
  }

  lemma ValidIsWide(input: seq<Point2>, width: int, height: int, config: Config)
    requires FeaturesOf(input, width, height, config).guide.valid
    ensures width > 1 && height > 1
  {
    hide GuideOf, SortPoints, ClampPoints, Nearest;
  }

  lemma OffsetTimes(column: real, cx: real, denom: real)
    requires denom > 0.0
    ensures Offset(column, cx, denom) * denom == column - cx
  {
  }

  // ----- The points and the directions of a guide -----

  /** The guide is made of the nearest points: at most the configured number, from near
      to far, and no point left out is nearer. */
  lemma NearestPoints(input: seq<Point2>, width: int, height: int, config: Config) returns (rest: seq<Point2>)
    ensures var points := GuidePoints(input, width, height, config);
            && multiset(points + rest) == multiset(ClampPoints(input, width, height))
            && |points| == (if |input| < Max(1, config.maxCenters) then |input| else Max(1, config.maxCenters))
            && (forall i, j :: 0 <= i < j < |points| ==> points[i].v >= points[j].v)
            && (forall p, q :: p in points && q in rest ==> p.v >= q.v)
  {
    var all := SortPoints(ClampPoints(input, width, height));
    SortPointsSorted(ClampPoints(input, width, height));
    SortKeepsLength(ClampPoints(input, width, height));
    hide SortPoints, ClampPoint;
    var n := if |all| <= Max(1, config.maxCenters) then |all| else Max(1, config.maxCenters);
    rest := all[n..];
    assert all[..n] + rest == all;
    CutInOrder(all, n);
    hide IsSorted;
  }

  /** Before a cut of sorted points everything is in order, and nearer than what follows. */
  lemma CutInOrder(all: seq<Point2>, n: nat)
    requires n <= |all| && IsSorted(all)
    ensures forall i, j :: 0 <= i < j < n ==> all[..n][i].v >= all[..n][j].v
    ensures forall p, q :: p in all[..n] && q in all[n..] ==> p.v >= q.v
  {
    forall p, q | p in all[..n] && q in all[n..]
      ensures p.v >= q.v
    {
      var i :| 0 <= i < n && all[i] == p;
      var j :| 0 <= j < |all| - n && all[n..][j] == q;
      assert InOrder(all[i], all[n + j]);
    }
  }

  lemma SortKeepsLength(s: seq<Point2>)
    ensures |SortPoints(s)| == |s|
  {
    assert |multiset(SortPoints(s))| == |multiset(s)|;
  }

  /** Heading and curvature of a valid guide: the heading is the negative angle of the
      line that fits the near points best, and the curvature, if there are points far
      enough, how much that angle differs from the one of the far points. */
  lemma PublishedHeading(input: seq<Point2>, width: int, height: int, config: Config)
    requires FeaturesOf(input, width, height, config).guide.valid
    ensures var guide, points := FeaturesOf(input, width, height, config).guide, GuidePoints(input, width, height, config);
            var local := LocalPoints(points, config);
            && 0 < local <= |points|
            && local == (if Max(config.guideMinPoints, config.curveLocalFitPoints) < |points|
                         then Max(config.guideMinPoints, config.curveLocalFitPoints) else |points|)
            && 3 <= config.guideMinPoints <= |points|
            && var near, far := FitOf(points[..local]), FitOf(points[|points| - local..]);
               && near.valid && guide.headingRad == -config.atan(near.a)
               && (guide.curvatureValid
                   <==> && |points| >= config.curveMinPoints && points[0].v - points[|points| - 1].v >= config.curveMinVSpanPx
                        && far.valid)
               && guide.curvatureRad == (if guide.curvatureValid then config.wrapAngle(config.atan(near.a) - config.atan(far.a)) else 0.0)
               && 0.0 <= guide.confidence <= 1.0
  {
    hide FitOf, SortPoints, ClampPoints, Nearest, SumV, Mean, Column, SquaredError;
    var points := GuidePoints(input, width, height, config);
    assert points != [];
    var guide := FeaturesOf(input, width, height, config).guide;
    assert guide == GuideOf(points, CenterOf(config, width), HalfWidth(width), config);
  }

  /** A guide is valid exactly when the image is wide enough, there are enough points, and
      the rows of the near ones are spread; and how many points count is always told. */
  lemma ValidIff(input: seq<Point2>, width: int, height: int, config: Config)
    ensures var points, features := GuidePoints(input, width, height, config), FeaturesOf(input, width, height, config);
            var many := if Max(config.guideMinPoints, config.curveLocalFitPoints) < |points|
                        then Max(config.guideMinPoints, config.curveLocalFitPoints) else |points|;
            && features.visible == (if width > 1 && height > 1 then |points| else 0)
            && (features.guide.valid
                <==> && width > 1 && height > 1 && config.guideMinPoints >= 3 && |points| >= config.guideMinPoints
                     && 0 <= many && FitOf(points[..many]).valid)
            && (!features.guide.valid ==> features.guide == INVALID_GUIDE)
  {
    hide FitOf, SortPoints, ClampPoints, Nearest, SumV, Mean, Column, Confidence, FarFit;
  }

  /** A point of the image stays where it is, and any other one moves to the nearest border. */
  lemma ClampPointMeaning(p: Point2, width: int, height: int)
    requires width > 1 && height > 1
    ensures var c := ClampPoint(p, width, height);
            && c.u == (if p.u < 0.0 then 0.0 else if p.u > (width - 1) as real then (width - 1) as real else p.u)
            && c.v == (if p.v < 0.0 then 0.0 else if p.v > (height - 1) as real then (height - 1) as real else p.v)
  {
  }

  // ----- Confidence -----

  /** Which share of `full` this is, from none to all. */
  predicate IsShare(share: real, amount: real, full: real) {
    && (amount <= 0.0 ==> share == 0.0)
    && (amount >= full ==> share == 1.0)
    && (0.0 <= amount <= full ==> share * full == amount)
  }

  lemma RatioTimes(amount: real, full: real)
    requires full > 0.0
    ensures Ratio(amount, full) * full == amount
  {
  }

  lemma RatioSign(amount: real, full: real)
    requires full > 0.0
    ensures amount <= 0.0 ==> Ratio(amount, full) <= 0.0
    ensures amount >= full ==> Ratio(amount, full) >= 1.0
    ensures 0.0 <= amount <= full ==> 0.0 <= Ratio(amount, full) <= 1.0
  {
    var r := Ratio(amount, full);
    RatioTimes(amount, full);
    hide Ratio;
    if r > 0.0 { PositiveProduct(r, full); }
    if r < 0.0 { PositiveProduct(-r, full); assert (-r) * full == -(r * full); }
    if r > 1.0 { PositiveProduct(r - 1.0, full); assert (r - 1.0) * full == r * full - full; }
    if r < 1.0 { PositiveProduct(1.0 - r, full); assert (1.0 - r) * full == full - r * full; }
  }

  lemma ShareMeaning(amount: real, full: real)
    requires full > 0.0
    ensures IsShare(Share(amount, full), amount, full) && 0.0 <= Share(amount, full) <= 1.0
  {
    RatioSign(amount, full);
    RatioTimes(amount, full);
    hide Ratio;
  }

  lemma ProductOfShares(a: real, b: real)
    requires 0.0 <= a <= 1.0 && 0.0 <= b <= 1.0
    ensures 0.0 <= Product(a, b) <= 1.0
  {
    PartsOf(a, b);
    ProductIsNonNegative(a, b);
    ProductIsNonNegative(a, 1.0 - b);
    hide Product;
  }

  lemma PartsOf(a: real, b: real)
    ensures Product(a, b) + Product(a, 1.0 - b) == a
  {
    assert a * (1.0 - b) == a - a * b;
  }

  lemma ZeroProduct(x: real, y: real)
    requires x == 0.0 || y == 0.0
    ensures Product(x, y) == 0.0
  {
  }

  lemma ProductIsNonNegative(x: real, y: real)
    requires x >= 0.0 && y >= 0.0
    ensures Product(x, y) >= 0.0
  {
    hide Product;
    if x == 0.0 || y == 0.0 { ZeroProduct(x, y); } else { PositiveProduct(x, y); }
  }

  /** The confidence is a product of three shares: the points found of those wanted, the
      rows they span of those wanted, and what the error of the fit leaves of its scale. */
  lemma ConfidenceMeaning(points: seq<Point2>, local: nat, desired: nat, fit: Fit, config: Config)
    returns (enough: real, spread: real, rough: real)
    requires 0 < local <= |points| && local <= desired
    ensures Confidence(points, local, desired, fit, config) == Product(Product(enough, spread), 1.0 - rough)
    ensures IsShare(enough, local as real, desired as real)
    ensures IsShare(spread, points[0].v - points[local - 1].v, if config.curveMinVSpanPx < 1.0 then 1.0 else config.curveMinVSpanPx)
    ensures IsShare(rough, config.sqrt(SquaredError(points[..local], fit.a, fit.b) / local as real),
                    if config.guideFitRmseFullScalePx < 1.0 then 1.0 else config.guideFitRmseFullScalePx)
  {
    hide SquaredError, IsShare, Share, Product;
    var rmse := config.sqrt(SquaredError(points[..local], fit.a, fit.b) / local as real);
    var rows, scale := MaxReal(1.0, config.curveMinVSpanPx), MaxReal(1.0, config.guideFitRmseFullScalePx);
    enough := Share(local as real, desired as real);
    spread := Share(points[0].v - points[local - 1].v, rows);
    rough := Share(rmse, scale);
    ShareMeaning(local as real, desired as real);
    ShareMeaning(points[0].v - points[local - 1].v, rows);
    ShareMeaning(rmse, scale);
    ProductOfShares(enough, spread);
    ProductOfShares(Product(enough, spread), 1.0 - rough);
  }
}
