/** The straight-line fit u = a*v + b through a slice of image points, and why it
    is the least-squares line. */
module LineFit {
  import opened Types

  datatype Fit = Fit(valid: bool, a: real, b: real)

  const NO_FIT := Fit(false, 0.0, 0.0)

  // ----- Sums over points -----

  function Product(x: real, y: real): real { x * y }

  function Square(x: real): real { x * x }

  function SumV(s: seq<Point2>): real { if s == [] then 0.0 else SumV(s[..|s| - 1]) + s[|s| - 1].v }

  function SumU(s: seq<Point2>): real { if s == [] then 0.0 else SumU(s[..|s| - 1]) + s[|s| - 1].u }

  /** Sum of (v - m) * (v - m). */
  function Variance(s: seq<Point2>, m: real): real {
    if s == [] then 0.0 else Variance(s[..|s| - 1], m) + Square(s[|s| - 1].v - m)
  }

  /** Sum of (v - m) * (u - k). */
  function Covariance(s: seq<Point2>, m: real, k: real): real {
    if s == [] then 0.0 else Covariance(s[..|s| - 1], m, k) + Product(s[|s| - 1].v - m, s[|s| - 1].u - k)
  }

  function Residual(p: Point2, a: real, b: real): real { p.u - (a * p.v + b) }

  function ResidualSum(s: seq<Point2>, a: real, b: real): real {
    if s == [] then 0.0 else ResidualSum(s[..|s| - 1], a, b) + Residual(s[|s| - 1], a, b)
  }

  function SquaredError(s: seq<Point2>, a: real, b: real): real {
    if s == [] then 0.0
    else SquaredError(s[..|s| - 1], a, b) + Square(Residual(s[|s| - 1], a, b))
  }

  function Mean(sum: real, n: nat): real
    requires n > 0
  {
    sum / n as real
  }

  predicate Fits(s: seq<Point2>) { |s| >= 2 && Variance(s, Mean(SumV(s), |s|)) > EPSILON }

  function FitOf(s: seq<Point2>): Fit {
    if !Fits(s) then NO_FIT
    else
      var v, u := Mean(SumV(s), |s|), Mean(SumU(s), |s|);
      var a := Covariance(s, v, u) / Variance(s, v);
      Fit(true, a, u - a * v)
  }

  // ----- The loops -----

  lemma SliceStep(points: seq<Point2>, begin: nat, index: nat)
    requires begin <= index < |points|
    ensures points[begin..index + 1] == points[begin..index] + [points[index]]
    ensures points[begin..index + 1][..index - begin] == points[begin..index]
  {
  }

  method SumPoints(points: seq<Point2>, begin: nat, end: nat) returns (sumV: real, sumU: real)
    requires begin <= end <= |points|
    ensures sumV == SumV(points[begin..end]) && sumU == SumU(points[begin..end])
  {
    sumV, sumU := 0.0, 0.0;
    for index := begin to end
      invariant sumV == SumV(points[begin..index]) && sumU == SumU(points[begin..index])
    {
      SliceStep(points, begin, index);
      sumV := sumV + points[index].v;
      sumU := sumU + points[index].u;
    }
  }

  method Deviations(points: seq<Point2>, begin: nat, end: nat, meanV: real, meanU: real) returns (varV: real, covVU: real)
    requires begin <= end <= |points|
    ensures varV == Variance(points[begin..end], meanV) && covVU == Covariance(points[begin..end], meanV, meanU)
  {
    hide Square, Product;
    varV, covVU := 0.0, 0.0;
    for index := begin to end
      invariant varV == Variance(points[begin..index], meanV)
      invariant covVU == Covariance(points[begin..index], meanV, meanU)
    {
      SliceStep(points, begin, index);
      var dv := points[index].v - meanV;
      varV := varV + Square(dv);
      covVU := covVU + Product(dv, points[index].u - meanU);
    }
  }

  method FitLine(points: seq<Point2>, begin: nat, end: nat) returns (fit: Fit)
    ensures fit == if begin <= end <= |points| then FitOf(points[begin..end]) else NO_FIT
  {
    hide Variance, Covariance, SumV, SumU;
    if end <= begin + 1 || end > |points| { return NO_FIT; }
    var sumV, sumU := SumPoints(points, begin, end);
    var meanV := sumV / (end - begin) as real;
    var meanU := sumU / (end - begin) as real;
    var varV, covVU := Deviations(points, begin, end, meanV, meanU);
    VarianceNonNegative(points[begin..end], meanV);
    if AbsReal(varV) <= EPSILON { return NO_FIT; }
    var a := covVU / varV;
    fit := Fit(true, a, meanU - a * meanV);
  }

  method MeanV(points: seq<Point2>, begin: nat, end: nat) returns (mean: real)
    ensures mean == if begin < end <= |points| then Mean(SumV(points[begin..end]), end - begin) else 0.0
  {
    if end <= begin || end > |points| { return 0.0; }
    var sum, sumU := SumPoints(points, begin, end);
    mean := sum / (end - begin) as real;
  }

  /** The mean squared residual; its root is the published fit error. */
  method MeanSquaredError(points: seq<Point2>, begin: nat, end: nat, fit: Fit) returns (error: real)
    ensures error == if fit.valid && begin < end <= |points|
                     then SquaredError(points[begin..end], fit.a, fit.b) / (end - begin) as real else 0.0
  {
    hide Residual, Square;
    if !fit.valid || end <= begin || end > |points| { return 0.0; }
    error := 0.0;
    for index := begin to end
      invariant error == SquaredError(points[begin..index], fit.a, fit.b)
    {
      SliceStep(points, begin, index);
      error := error + Square(Residual(points[index], fit.a, fit.b));
    }
    error := error / (end - begin) as real;
  }

  // ----- Moments -----

  lemma PositiveProduct(x: real, y: real)
    requires x > 0.0 && y > 0.0
    ensures Product(x, y) > 0.0
  {
  }

  lemma ProductIsSquare(x: real, y: real)
    requires x == y
    ensures Product(x, y) == Square(x)
  {
  }

  lemma SquareOfNegation(x: real, y: real)
    requires x + y == 0.0
    ensures Square(x) == Square(y)
  {
    assert x == -y;
    assert x * x == x * -y;
    assert x * -y == -y * x;
    assert y * x == y * -y;
  }

  lemma SquareNonNegative(x: real)
    ensures Square(x) >= 0.0
    ensures Square(x) == 0.0 ==> x == 0.0
  {
    assert x == 0.0 ==> Square(x) == 0.0;
    hide Square, Product;
    var size := if x >= 0.0 then x else -x;
    if size > 0.0 {
      PositiveProduct(size, size);
      ProductIsSquare(size, size);
      if x < 0.0 { SquareOfNegation(x, size); }
    }
  }

  lemma {:induction false} VarianceNonNegative(s: seq<Point2>, m: real)
    ensures Variance(s, m) >= 0.0
  {
    if s != [] {
      VarianceNonNegative(s[..|s| - 1], m);
      SquareNonNegative(s[|s| - 1].v - m);
      hide Square;
    }
  }

  /** Raw second moments. */
  function SumVV(s: seq<Point2>): real { if s == [] then 0.0 else SumVV(s[..|s| - 1]) + Square(s[|s| - 1].v) }

  function SumVU(s: seq<Point2>): real { if s == [] then 0.0 else SumVU(s[..|s| - 1]) + Product(s[|s| - 1].v, s[|s| - 1].u) }

  ghost predicate VarianceForm(n: real, variance: real, sv: real, svv: real, m: real) {
    variance == svv - 2.0 * (m * sv) + n * (m * m)
  }

  lemma VarianceTerm(n: real, variance: real, sv: real, svv: real, m: real, v: real)
    requires VarianceForm(n, variance, sv, svv, m)
    ensures VarianceForm(n + 1.0, variance + Square(v - m), sv + v, svv + Square(v), m)
  {
    assert (v - m) * (v - m) == v * v - 2.0 * (m * v) + m * m;
    assert m * (sv + v) == m * sv + m * v;
    assert (n + 1.0) * (m * m) == n * (m * m) + m * m;
  }

  lemma {:induction false} VarianceExpands(s: seq<Point2>, m: real)
    ensures VarianceForm(|s| as real, Variance(s, m), SumV(s), SumVV(s), m)
  {
    if s != [] {
      var init, v := s[..|s| - 1], s[|s| - 1].v;
      VarianceExpands(init, m);
      hide VarianceForm, Square;
      VarianceTerm(|init| as real, Variance(init, m), SumV(init), SumVV(init), m, v);
      assert |init| as real + 1.0 == |s| as real;
    }
  }

  ghost predicate CovarianceForm(n: real, covariance: real, sv: real, su: real, svu: real, m: real, k: real) {
    covariance == svu - k * sv - m * su + n * (m * k)
  }

  lemma CovarianceTerm(n: real, covariance: real, sv: real, su: real, svu: real, m: real, k: real, p: Point2)
    requires CovarianceForm(n, covariance, sv, su, svu, m, k)
    ensures CovarianceForm(n + 1.0, covariance + Product(p.v - m, p.u - k), sv + p.v, su + p.u, svu + Product(p.v, p.u), m, k)
  {
    assert (p.v - m) * (p.u - k) == p.v * p.u - k * p.v - m * p.u + m * k;
    assert k * (sv + p.v) == k * sv + k * p.v;
    assert m * (su + p.u) == m * su + m * p.u;
    assert (n + 1.0) * (m * k) == n * (m * k) + m * k;
  }

  lemma {:induction false} CovarianceExpands(s: seq<Point2>, m: real, k: real)
    ensures CovarianceForm(|s| as real, Covariance(s, m, k), SumV(s), SumU(s), SumVU(s), m, k)
  {
    if s != [] {
      var init, p := s[..|s| - 1], s[|s| - 1];
      CovarianceExpands(init, m, k);
      hide CovarianceForm, Product;
      CovarianceTerm(|init| as real, Covariance(init, m, k), SumV(init), SumU(init), SumVU(init), m, k, p);
      assert |init| as real + 1.0 == |s| as real;
    }
  }

  ghost predicate ResidualForm(n: real, residual: real, sv: real, su: real, a: real, b: real) {
    residual == su - a * sv - n * b
  }

  lemma ResidualTerm(n: real, residual: real, sv: real, su: real, a: real, b: real, p: Point2)
    requires ResidualForm(n, residual, sv, su, a, b)
    ensures ResidualForm(n + 1.0, residual + Residual(p, a, b), sv + p.v, su + p.u, a, b)
  {
    assert a * (sv + p.v) == a * sv + a * p.v;
    assert (n + 1.0) * b == n * b + b;
  }

  lemma {:induction false} ResidualExpands(s: seq<Point2>, a: real, b: real)
    ensures ResidualForm(|s| as real, ResidualSum(s, a, b), SumV(s), SumU(s), a, b)
  {
    if s != [] {
      var init, p := s[..|s| - 1], s[|s| - 1];
      ResidualExpands(init, a, b);
      hide ResidualForm, Residual;
      ResidualTerm(|init| as real, ResidualSum(init, a, b), SumV(init), SumU(init), a, b, p);
      assert |init| as real + 1.0 == |s| as real;
    }
  }

  // ----- The normal equations -----

  /** Both normal equations of the least-squares problem. */
  ghost predicate Normal(n: real, sv: real, su: real, svv: real, svu: real, a: real, b: real) {
    su == a * sv + n * b && svu == a * svv + b * sv
  }

  /** The slope and intercept in terms of the means v and u. */
  ghost predicate Parts(n: real, sv: real, su: real, v: real, u: real, variance: real, covariance: real, a: real, b: real) {
    sv == n * v && su == n * u && a * variance == covariance && b == u - a * v
  }

  lemma NormalFromMeans(n: real, sv: real, su: real, svv: real, svu: real, v: real, u: real,
                        variance: real, covariance: real, a: real, b: real)
    requires Parts(n, sv, su, v, u, variance, covariance, a, b)
    requires VarianceForm(n, variance, sv, svv, v) && CovarianceForm(n, covariance, sv, su, svu, v, u)
    ensures Normal(n, sv, su, svv, svu, a, b)
  {
    assert a * sv == n * (a * v);
    assert n * (u - a * v) == n * u - n * (a * v);
    assert variance == svv - n * (v * v) by {
      assert v * sv == n * (v * v);
    }
    assert covariance == svu - n * (v * u) by {
      assert u * sv == n * (v * u) && v * su == n * (v * u);
    }
    assert a * (svv - n * (v * v)) == a * svv - n * (a * (v * v));
    assert (u - a * v) * (n * v) == n * (v * u) - n * (a * (v * v));
  }

  lemma QuotientTimes(x: real, y: real)
    requires y != 0.0
    ensures x / y * y == x
  {
  }

  ghost predicate IsNormal(s: seq<Point2>, fit: Fit) {
    Normal(|s| as real, SumV(s), SumU(s), SumVV(s), SumVU(s), fit.a, fit.b)
  }

  lemma FitParts(s: seq<Point2>)
    requires FitOf(s).valid
    ensures |s| > 0
    ensures var v, u := Mean(SumV(s), |s|), Mean(SumU(s), |s|);
            Parts(|s| as real, SumV(s), SumU(s), v, u, Variance(s, v), Covariance(s, v, u), FitOf(s).a, FitOf(s).b)
  {
    hide SumV, SumU, Variance, Covariance;
    var v, u := Mean(SumV(s), |s|), Mean(SumU(s), |s|);
    QuotientTimes(SumV(s), |s| as real);
    QuotientTimes(SumU(s), |s| as real);
    QuotientTimes(Covariance(s, v, u), Variance(s, v));
  }

  lemma FitIsNormal(s: seq<Point2>)
    requires FitOf(s).valid
    ensures IsNormal(s, FitOf(s))
  {
    FitParts(s);
    var n, v, u := |s| as real, Mean(SumV(s), |s|), Mean(SumU(s), |s|);
    VarianceExpands(s, v);
    CovarianceExpands(s, v, u);
    hide FitOf, Mean, Parts, VarianceForm, CovarianceForm, SumV, SumU, SumVV, SumVU, Variance, Covariance, Normal;
    NormalFromMeans(n, SumV(s), SumU(s), SumVV(s), SumVU(s), v, u, Variance(s, v), Covariance(s, v, u), FitOf(s).a, FitOf(s).b);
  }

  /** The residuals of the fit sum to zero. */
  lemma ResidualsCancel(s: seq<Point2>)
    requires FitOf(s).valid
    ensures ResidualSum(s, FitOf(s).a, FitOf(s).b) == 0.0
  {
    FitIsNormal(s);
    ResidualExpands(s, FitOf(s).a, FitOf(s).b);
    hide FitOf, SumV, SumU, ResidualSum, SumVV, SumVU;
  }

  // ----- Optimality -----

  function Line(p: real, q: real, v: real): real { p * v + q }

  /** Sum of (p*v + q)^2: how far two lines lie apart over the points. */
  function Spread(s: seq<Point2>, p: real, q: real): real {
    if s == [] then 0.0 else Spread(s[..|s| - 1], p, q) + Square(Line(p, q, s[|s| - 1].v))
  }

  lemma {:induction false} SpreadNonNegative(s: seq<Point2>, p: real, q: real)
    ensures Spread(s, p, q) >= 0.0
    ensures Spread(s, p, q) == 0.0 ==> forall k :: 0 <= k < |s| ==> Line(p, q, s[k].v) == 0.0
  {
    if s != [] {
      SpreadNonNegative(s[..|s| - 1], p, q);
      SquareNonNegative(Line(p, q, s[|s| - 1].v));
      hide Square, Line;
    }
  }

  /** Sum of residual * (p*v + q). */
  function Cross(s: seq<Point2>, a: real, b: real, p: real, q: real): real {
    if s == [] then 0.0
    else Cross(s[..|s| - 1], a, b, p, q) + Product(Residual(s[|s| - 1], a, b), Line(p, q, s[|s| - 1].v))
  }

  lemma ErrorTerm(x: Point2, a: real, b: real, p: real, q: real)
    ensures Square(Residual(x, a - p, b - q))
         == Square(Residual(x, a, b)) + 2.0 * Product(Residual(x, a, b), Line(p, q, x.v)) + Square(Line(p, q, x.v))
  {
    assert (a - p) * x.v == a * x.v - p * x.v;
    var r, d := Residual(x, a, b), Line(p, q, x.v);
    assert Residual(x, a - p, b - q) == r + d;
    assert (r + d) * (r + d) == r * r + 2.0 * (r * d) + d * d;
  }

  /** Another line's error is this line's error, plus twice the cross sum, plus the
      distance between the lines. */
  lemma {:induction false} ErrorSplits(s: seq<Point2>, a: real, b: real, p: real, q: real)
    ensures SquaredError(s, a - p, b - q) == SquaredError(s, a, b) + 2.0 * Cross(s, a, b, p, q) + Spread(s, p, q)
  {
    if s != [] {
      ErrorSplits(s[..|s| - 1], a, b, p, q);
      ErrorTerm(s[|s| - 1], a, b, p, q);
      hide Residual, Square, Product, Line;
    }
  }

  ghost predicate CrossForm(n: real, cross: real, sv: real, su: real, svv: real, svu: real, a: real, b: real, p: real, q: real) {
    cross == p * (svu - a * svv - b * sv) + q * (su - a * sv - n * b)
  }

  lemma CrossTerm(n: real, cross: real, sv: real, su: real, svv: real, svu: real, a: real, b: real, p: real, q: real, x: Point2)
    requires CrossForm(n, cross, sv, su, svv, svu, a, b, p, q)
    ensures CrossForm(n + 1.0, cross + Product(Residual(x, a, b), Line(p, q, x.v)), sv + x.v, su + x.u,
                      svv + Square(x.v), svu + Product(x.v, x.u), a, b, p, q)
  {
    var v, u := x.v, x.u;
    var r := u - (a * v + b);
    assert r * (p * v + q) == p * (r * v) + q * r;
    assert r * v == v * u - a * (v * v) - b * v;
    assert a * (svv + v * v) == a * svv + a * (v * v);
    assert b * (sv + v) == b * sv + b * v && a * (sv + v) == a * sv + a * v;
    assert (n + 1.0) * b == n * b + b;
    var f, g := svu - a * svv - b * sv, su - a * sv - n * b;
    assert p * (f + r * v) == p * f + p * (r * v);
    assert q * (g + r) == q * g + q * r;
  }

  lemma {:induction false} CrossExpands(s: seq<Point2>, a: real, b: real, p: real, q: real)
    ensures CrossForm(|s| as real, Cross(s, a, b, p, q), SumV(s), SumU(s), SumVV(s), SumVU(s), a, b, p, q)
  {
    if s != [] {
      var init, x := s[..|s| - 1], s[|s| - 1];
      CrossExpands(init, a, b, p, q);
      hide CrossForm, Residual, Square, Product, Line;
      CrossTerm(|init| as real, Cross(init, a, b, p, q), SumV(init), SumU(init), SumVV(init), SumVU(init), a, b, p, q, x);
      assert |init| as real + 1.0 == |s| as real;
    }
  }

  lemma NormalCancelsCross(n: real, cross: real, sv: real, su: real, svv: real, svu: real, a: real, b: real, p: real, q: real)
    requires CrossForm(n, cross, sv, su, svv, svu, a, b, p, q) && Normal(n, sv, su, svv, svu, a, b)
    ensures cross == 0.0
  {
    assert svu - a * svv - b * sv == 0.0 && su - a * sv - n * b == 0.0;
  }

  /** Moving away from the fit by (p, q) costs exactly the spread of that move. */
  lemma ErrorAround(s: seq<Point2>, p: real, q: real)
    requires FitOf(s).valid
    ensures var fit := FitOf(s); SquaredError(s, fit.a - p, fit.b - q) == SquaredError(s, fit.a, fit.b) + Spread(s, p, q)
  {
    var fit := FitOf(s);
    FitIsNormal(s);
    CrossExpands(s, fit.a, fit.b, p, q);
    ErrorSplits(s, fit.a, fit.b, p, q);
    hide FitOf, CrossForm, Normal, SquaredError, Spread, Cross, SumV, SumU, SumVV, SumVU;
    NormalCancelsCross(|s| as real, Cross(s, fit.a, fit.b, p, q), SumV(s), SumU(s), SumVV(s), SumVU(s), fit.a, fit.b, p, q);
  }

  lemma {:induction false} FlatVariance(s: seq<Point2>, v: real)
    requires forall k :: 0 <= k < |s| ==> s[k].v == v
    ensures Variance(s, v) == 0.0 && SumV(s) == |s| as real * v
  {
    if s != [] {
      FlatVariance(s[..|s| - 1], v);
      assert |s| as real * v == (|s| - 1) as real * v + v;
    }
  }

  /** No line fits better, over all lines, and no other line fits as well. */
  lemma LeastSquares(s: seq<Point2>, a: real, b: real)
    requires FitOf(s).valid
    ensures SquaredError(s, FitOf(s).a, FitOf(s).b) <= SquaredError(s, a, b)
    ensures SquaredError(s, FitOf(s).a, FitOf(s).b) == SquaredError(s, a, b) ==> a == FitOf(s).a && b == FitOf(s).b
  {
    var fit := FitOf(s);
    var p, q := fit.a - a, fit.b - b;
    ErrorAround(s, p, q);
    SpreadNonNegative(s, p, q);
    assert fit.a - p == a && fit.b - q == b;
    if Spread(s, p, q) == 0.0 {
      OneLine(s, p, q);
    }
    hide FitOf, SquaredError, Spread;
  }

  /** Only the zero line vanishes on points that are not all in one row. */
  lemma OneLine(s: seq<Point2>, p: real, q: real)
    requires Fits(s) && forall k :: 0 <= k < |s| ==> Line(p, q, s[k].v) == 0.0
    ensures p == 0.0 && q == 0.0
  {
    assert Line(p, q, s[0].v) == 0.0;
    if p != 0.0 {
      var v := s[0].v;
      forall k | 0 <= k < |s|
        ensures s[k].v == v
      {
        SameRoot(p, q, v, s[k].v);
      }
      FlatVariance(s, v);
      MeanOfFlat(SumV(s), |s|, v);
      assert false;
    }
  }

  lemma MeanOfFlat(sum: real, n: nat, v: real)
    requires n > 0 && sum == n as real * v
    ensures Mean(sum, n) == v
  {
  }

  lemma SameRoot(p: real, q: real, x: real, y: real)
    requires p != 0.0 && Line(p, q, x) == 0.0 && Line(p, q, y) == 0.0
    ensures x == y
  {
    assert p * (x - y) == p * x - p * y == 0.0;
  }

  /** At the mean row the fit passes through the mean column, whatever its slope. */
  lemma FitThroughMean(s: seq<Point2>)
    requires FitOf(s).valid
    ensures FitOf(s).a * Mean(SumV(s), |s|) + FitOf(s).b == Mean(SumU(s), |s|)
  {
  }

  /** Points on one line are fit by that line, without any error. */
  lemma ExactLineIsFound(s: seq<Point2>, a: real, b: real)
    requires FitOf(s).valid && forall k :: 0 <= k < |s| ==> s[k].u == a * s[k].v + b
    ensures FitOf(s) == Fit(true, a, b) && SquaredError(s, a, b) == 0.0
  {
    forall k | 0 <= k < |s|
      ensures Residual(s[k], a, b) == 0.0
    {
    }
    hide Residual, FitOf;
    NoError(s, a, b);
    ErrorNonNegative(s, FitOf(s).a, FitOf(s).b);
    LeastSquares(s, a, b);
    hide SquaredError;
  }

  lemma {:induction false} NoError(s: seq<Point2>, a: real, b: real)
    requires forall k :: 0 <= k < |s| ==> Residual(s[k], a, b) == 0.0
    ensures SquaredError(s, a, b) == 0.0
  {
    if s != [] { NoError(s[..|s| - 1], a, b); }
  }

  lemma {:induction false} ErrorNonNegative(s: seq<Point2>, a: real, b: real)
    ensures SquaredError(s, a, b) >= 0.0
  {
    if s != [] {
      ErrorNonNegative(s[..|s| - 1], a, b);
      SquareNonNegative(Residual(s[|s| - 1], a, b));
      hide Square, Residual;
    }
  }

  /** Two points are enough, if their rows are apart. */
  lemma TwoPointsFit(p: Point2, q: Point2)
    ensures FitOf([p, q]).valid <==> Square(p.v - q.v) > 0.000000002
  {
    var two, m := [p, q], (p.v + q.v) / 2.0;
    assert two[..|two| - 1] == [p] && [p][..0] == [];
    assert SumV([p]) == p.v && Variance([p], m) == Square(p.v - m);
    assert SumV(two) == p.v + q.v && Variance(two, m) == Square(p.v - m) + Square(q.v - m);
    MiddleDeviations(p.v, q.v);
    hide Square, SumV, Variance;
  }

  lemma MiddleDeviations(x: real, y: real)
    ensures var m := (x + y) / 2.0; Square(x - m) + Square(y - m) == Square(x - y) / 2.0
  {
    var m := (x + y) / 2.0;
    var h := (x - y) / 2.0;
    assert x - m == h && y - m == -h && x - y == 2.0 * h;
    assert (2.0 * h) * (2.0 * h) == 4.0 * (h * h);
    assert (-h) * (-h) == h * h;
  }
}
