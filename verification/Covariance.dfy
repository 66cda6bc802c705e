/** The sample covariance matrix, the variance of a portfolio under it, its contributions, and the square root used for volatility. */
module Covariance {
  import opened Exact
  import opened Options

  type Vector = seq<real>

  // ---------- vectors ----------

  function Sum(v: Vector): real {
    if |v| == 0 then 0.0 else Sum(v[..|v| - 1]) + v[|v| - 1]
  }

  /** Componentwise products. */
  function Products(u: Vector, v: Vector): (r: Vector)
    requires |u| == |v|
    ensures |r| == |u| && forall i :: 0 <= i < |r| ==> r[i] == Times(u[i], v[i])
  {
    seq(|u|, i requires 0 <= i < |u| => Times(u[i], v[i]))
  }

  function Dot(u: Vector, v: Vector): real
    requires |u| == |v|
  {
    Sum(Products(u, v))
  }

  function Scale(k: real, v: Vector): (r: Vector)
    ensures |r| == |v| && forall i :: 0 <= i < |r| ==> r[i] == Times(k, v[i])
  {
    seq(|v|, i requires 0 <= i < |v| => Times(k, v[i]))
  }

  function Add(u: Vector, v: Vector): (r: Vector)
    requires |u| == |v|
    ensures |r| == |u| && forall i :: 0 <= i < |r| ==> r[i] == u[i] + v[i]
  {
    seq(|u|, i requires 0 <= i < |u| => u[i] + v[i])
  }

  lemma {:induction false} SumScaled(u: Vector, v: Vector, k: real)
    requires |u| == |v| && forall i :: 0 <= i < |u| ==> u[i] == Times(k, v[i])
    ensures Sum(u) == Times(k, Sum(v))
  {
    hide Times;
    if |u| == 0 {
      TimesLaws(k, 0.0, 0.0);
    } else {
      var n := |u| - 1;
      SumScaled(u[..n], v[..n], k);
      TimesLaws(k, Sum(v[..n]), v[n]);
    }
  }

  lemma {:induction false} SumAdded(u: Vector, v: Vector, w: Vector)
    requires |u| == |v| == |w| && forall i :: 0 <= i < |u| ==> w[i] == u[i] + v[i]
    ensures Sum(w) == Sum(u) + Sum(v)
  {
    if |u| > 0 {
      var n := |u| - 1;
      SumAdded(u[..n], v[..n], w[..n]);
    }
  }

  lemma DotSymmetric(u: Vector, v: Vector)
    requires |u| == |v|
    ensures Dot(u, v) == Dot(v, u)
  {
    hide Times;
    forall i | 0 <= i < |u| ensures Times(u[i], v[i]) == Times(v[i], u[i]) {
      TimesLaws(u[i], v[i], 0.0);
    }
    assert Products(u, v) == Products(v, u);
  }

  /** The product with a scaled or added vector. */
  lemma DotLinear(u: Vector, v: Vector, w: Vector, k: real)
    requires |u| == |v| == |w|
    ensures Dot(u, Add(Scale(k, v), w)) == Times(k, Dot(u, v)) + Dot(u, w)
  {
    hide Times, Sum;
    var scaled := Scale(k, v);
    forall i | 0 <= i < |u| ensures Times(u[i], scaled[i] + w[i]) == Times(u[i], scaled[i]) + Times(u[i], w[i])
      && Times(u[i], scaled[i]) == Times(k, Times(u[i], v[i]))
    {
      TimesLaws(u[i], scaled[i], w[i]);
      TimesLaws(u[i], k, v[i]);
      TimesLaws(k, u[i], v[i]);
      TimesLaws(u[i], k, 0.0);
    }
    SumAdded(Products(u, scaled), Products(u, w), Products(u, Add(scaled, w)));
    SumScaled(Products(u, scaled), Products(u, v), k);
  }

  lemma {:induction false} SquaresNotNegative(v: Vector)
    ensures Dot(v, v) >= 0.0
  {
    if |v| > 0 {
      var n := |v| - 1;
      SquaresNotNegative(v[..n]);
      assert Products(v, v)[..n] == Products(v[..n], v[..n]);
      Scaled(v[n], v[n]);
    }
  }

  // ---------- the matrix ----------

  datatype Problem = TooFewSamples | LengthMismatch

  function Mean(v: Vector): real
    requires |v| > 0
  {
    Sum(v) / (|v| as real)
  }

  function Centred(v: Vector): (r: Vector)
    requires |v| > 0
    ensures |r| == |v|
  {
    seq(|v|, i requires 0 <= i < |v| => v[i] - Mean(v))
  }

  predicate Aligned(series: seq<Vector>) {
    forall i :: 0 <= i < |series| ==> |series[i]| == |series[0]|
  }

  /** The sample covariance of two series. */
  function Cov(u: Vector, v: Vector): real
    requires |u| == |v| >= 2
  {
    Dot(Centred(u), Centred(v)) / ((|u| - 1) as real)
  }

  /** The mean of each series, and the matrix filled entry by entry. */
  method SampleCovarianceMatrix(series: seq<Vector>) returns (result: Result<array2<real>, Problem>)
    ensures series == [] ==> result.Ok? && result.value.Length0 == result.value.Length1 == 0
    ensures series != [] && |series[0]| < 2 ==> result == Err(TooFewSamples)
    ensures series != [] && |series[0]| >= 2 && !Aligned(series) ==> result == Err(LengthMismatch)
    ensures series != [] && |series[0]| >= 2 && Aligned(series) ==>
              result.Ok? && fresh(result.value) && result.value.Length0 == result.value.Length1 == |series|
              && forall l, r :: 0 <= l < |series| && 0 <= r < |series| ==> result.value[l, r] == Cov(series[l], series[r])
  {
    hide Mean, Sum, Times;
    var count := |series|;
    var matrix := new real[count, count]((l, r) => 0.0);
    if count == 0 {
      return Ok(matrix);
    }
    var samples := |series[0]|;
    if samples < 2 {
      return Err(TooFewSamples);
    }
    if exists i :: 0 <= i < |series| && |series[i]| != samples {
      return Err(LengthMismatch);
    }
    var means: Vector := [];
    for n := 0 to count
      invariant |means| == n && forall i :: 0 <= i < n ==> means[i] == Mean(series[i])
    {
      var mean := MeanOf(series[n]);
      means := means + [mean];
    }
    for left := 0 to count
      invariant forall l, r :: 0 <= l < left && 0 <= r < count ==> matrix[l, r] == Cov(series[l], series[r])
    {
      for right := 0 to count
        invariant forall l, r :: 0 <= l < left && 0 <= r < count ==> matrix[l, r] == Cov(series[l], series[r])
        invariant forall r :: 0 <= r < right ==> matrix[left, r] == Cov(series[left], series[r])
      {
        var sum := CentredDot(series[left], means[left], series[right], means[right]);
        matrix[left, right] := sum / ((samples - 1) as real);
      }
    }
    result := Ok(matrix);
  }

  method MeanOf(v: Vector) returns (mean: real)
    requires |v| > 0
    ensures mean == Mean(v)
  {
    var sum := 0.0;
    for n := 0 to |v|
      invariant sum == Sum(v[..n])
    {
      assert v[..n + 1][..n] == v[..n];
      sum := sum + v[n];
    }
    assert v[..|v|] == v;
    mean := sum / (|v| as real);
  }

  /** The fold over the samples of two series. */
  method CentredDot(u: Vector, meanU: real, v: Vector, meanV: real) returns (sum: real)
    requires |u| == |v| > 0 && meanU == Mean(u) && meanV == Mean(v)
    ensures sum == Dot(Centred(u), Centred(v))
  {
    hide Mean, Times;
    sum := 0.0;
    ghost var p := Products(Centred(u), Centred(v));
    for n := 0 to |u|
      invariant sum == Sum(p[..n])
    {
      assert p[..n + 1][..n] == p[..n];
      sum := sum + Times(u[n] - meanU, v[n] - meanV);
    }
    assert p[..|u|] == p;
  }

  /** The matrix is symmetric. */
  lemma CovSymmetric(u: Vector, v: Vector)
    requires |u| == |v| >= 2
    ensures Cov(u, v) == Cov(v, u)
  {
    hide Dot, Mean;
    DotSymmetric(Centred(u), Centred(v));
  }

  // ---------- the portfolio ----------

  /** A row of the matrix times the weights. */
  function Row(series: seq<Vector>, u: Vector): (r: Vector)
    requires |u| >= 2 && forall i :: 0 <= i < |series| ==> |series[i]| == |u|
    ensures |r| == |series| && forall i :: 0 <= i < |r| ==> r[i] == Cov(u, series[i])
  {
    seq(|series|, i requires 0 <= i < |series| => Cov(u, series[i]))
  }

  predicate Sampled(series: seq<Vector>, n: nat) {
    n >= 2 && forall i :: 0 <= i < |series| ==> |series[i]| == n
  }

  /** The matrix times the weights. */
  function SigmaWeight(series: seq<Vector>, w: Vector, n: nat): (r: Vector)
    requires Sampled(series, n) && |w| == |series|
    ensures |r| == |series| && forall i :: 0 <= i < |r| ==> r[i] == Dot(Row(series, series[i]), w)
  {
    seq(|series|, i requires 0 <= i < |series| => Dot(Row(series, series[i]), w))
  }

  /** The variance of the weighted portfolio. */
  function Variance(series: seq<Vector>, w: Vector, n: nat): real
    requires Sampled(series, n) && |w| == |series|
  {
    Dot(w, SigmaWeight(series, w, n))
  }

  function Zeros(n: nat): (r: Vector)
    ensures |r| == n && forall i :: 0 <= i < n ==> r[i] == 0.0
  {
    seq(n, _ => 0.0)
  }

  /** The weighted sum of the centred series: the portfolio's own centred returns. */
  function Combined(series: seq<Vector>, w: Vector, n: nat): (r: Vector)
    requires Sampled(series, n) && |w| == |series|
    ensures |r| == n
  {
    if |series| == 0 then Zeros(n)
    else
      var k := |series| - 1;
      Add(Scale(w[k], Centred(series[k])), Combined(series[..k], w[..k], n))
  }

  /** Products of one vector with each centred series. */
  function Each(series: seq<Vector>, u: Vector): (r: Vector)
    requires |u| >= 2 && Sampled(series, |u|)
    ensures |r| == |series| && forall i :: 0 <= i < |r| ==> r[i] == Dot(u, Centred(series[i]))
  {
    seq(|series|, i requires 0 <= i < |series| => Dot(u, Centred(series[i])))
  }

  lemma {:induction false} DotZeros(u: Vector)
    ensures Dot(u, Zeros(|u|)) == 0.0
  {
    if |u| > 0 {
      var n := |u| - 1;
      DotZeros(u[..n]);
      assert Products(u, Zeros(n + 1))[..n] == Products(u[..n], Zeros(n));
    }
  }

  /** The product with a combination is the combination of the products. */
  lemma {:induction false} DotCombined(series: seq<Vector>, w: Vector, u: Vector)
    requires |u| >= 2 && Sampled(series, |u|) && |w| == |series|
    ensures Dot(u, Combined(series, w, |u|)) == Dot(w, Each(series, u))
  {
    if |series| == 0 {
      DotZeros(u);
    } else {
      hide Dot, Centred, Times;
      var k := |series| - 1;
      DotCombined(series[..k], w[..k], u);
      DotLinear(u, Centred(series[k]), Combined(series[..k], w[..k], |u|), w[k]);
      DotSnoc(w, Each(series, u));
      assert Each(series, u)[..k] == Each(series[..k], u);
    }
  }

  lemma DotSnoc(u: Vector, v: Vector)
    requires |u| == |v| > 0
    ensures Dot(u, v) == Times(u[|u| - 1], v[|v| - 1]) + Dot(u[..|u| - 1], v[..|v| - 1])
  {
    var n := |u| - 1;
    assert Products(u, v)[..n] == Products(u[..n], v[..n]);
  }

  /** Dividing every component divides the product. */
  lemma {:induction false} DotDivided(u: Vector, v: Vector, d: Vector, k: real)
    requires |u| == |v| == |d| && k > 0.0 && forall i :: 0 <= i < |v| ==> d[i] == v[i] / k
    ensures Dot(u, d) == Dot(u, v) / k
  {
    if |u| > 0 {
      var n := |u| - 1;
      DotDivided(u[..n], v[..n], d[..n], k);
      DotSnoc(u, v);
      DotSnoc(u, d);
      DivideOut(u[n], v[n], Dot(u[..n], v[..n]), k);
    }
  }

  lemma DivideOut(a: real, b: real, c: real, k: real)
    requires k > 0.0
    ensures Times(a, b / k) + c / k == (Times(a, b) + c) / k
  {
    Divided(b, k);
    var q := b / k;
    assert a * b == (a * q) * k;
    Divided(a * b, k);
    Quotient(a * b, k, a * q);
  }

  /** The variance is the mean square of the portfolio's centred returns: it is never negative, for any weights and any series. */
  lemma VarianceIsMeanSquare(series: seq<Vector>, w: Vector, n: nat)
    requires Sampled(series, n) && |w| == |series|
    ensures var y := Combined(series, w, n);
            Variance(series, w, n) == Dot(y, y) / ((n - 1) as real) >= 0.0
  {
    hide Dot, Centred, Times;
    var y, k := Combined(series, w, n), (n - 1) as real;
    var each := Each(series, y);
    forall i | 0 <= i < |series| ensures SigmaWeight(series, w, n)[i] == each[i] / k {
      RowTimesWeights(series, w, n, i);
    }
    DotDivided(w, each, SigmaWeight(series, w, n), k);
    DotCombined(series, w, y);
    SquaresNotNegative(y);
    NotNegative(Dot(y, y), k);
  }

  lemma NotNegative(a: real, k: real)
    requires a >= 0.0 && k > 0.0
    ensures a / k >= 0.0
  {
  }

  lemma RowTimesWeights(series: seq<Vector>, w: Vector, n: nat, i: nat)
    requires Sampled(series, n) && |w| == |series| && i < |series|
    ensures SigmaWeight(series, w, n)[i] == Each(series, Combined(series, w, n))[i] / ((n - 1) as real)
  {
    hide Dot, Centred, Times;
    var k, c := (n - 1) as real, Centred(series[i]);
    DotCombined(series, w, c);
    DotSymmetric(c, Combined(series, w, n));
    DotSymmetric(w, Each(series, c));
    DotSymmetric(w, Row(series, series[i]));
    CovAsEach(series, n, i);
    DotDivided(w, Each(series, c), Row(series, series[i]), k);
  }

  lemma CovAsEach(series: seq<Vector>, n: nat, i: nat)
    requires Sampled(series, n) && i < |series|
    ensures forall j :: 0 <= j < |series| ==> Row(series, series[i])[j] == Each(series, Centred(series[i]))[j] / ((n - 1) as real)
  {
    hide Dot, Centred;
  }

  /** What each holding contributes to the volatility. */
  function Contribution(w: Vector, sigma: Vector, volatility: real): (r: Vector)
    requires |w| == |sigma| && volatility > 0.0
    ensures |r| == |w|
  {
    seq(|w|, i requires 0 <= i < |w| => Times(w[i], sigma[i]) / volatility)
  }

  /** The contributions add up: times the volatility their sum is the variance. */
  lemma ContributionsReconcile(series: seq<Vector>, w: Vector, n: nat, volatility: real)
    requires Sampled(series, n) && |w| == |series| && volatility > 0.0
    ensures Times(volatility, Sum(Contribution(w, SigmaWeight(series, w, n), volatility))) == Variance(series, w, n)
  {
    hide Times, SigmaWeight, Sum;
    var sigma := SigmaWeight(series, w, n);
    var parts, products := Contribution(w, sigma, volatility), Products(w, sigma);
    forall i | 0 <= i < |w| ensures products[i] == Times(volatility, parts[i]) {
      QuotientTimes(products[i], volatility);
    }
    SumScaled(products, parts, volatility);
  }

  // ---------- the square root ----------

  function NewtonStep(value: real, estimate: real): real
    requires estimate > 0.0
  {
    (estimate + value / estimate) / 2.0
  }

  /** One step lands at or above the root, at or below an estimate that was there already, and leaves at most a quarter of its residual. */
  lemma NewtonFacts(value: real, estimate: real)
    requires value > 0.0 && estimate > 0.0
    ensures var next := NewtonStep(value, estimate);
            && next > 0.0 && next * next >= value
            && (estimate * estimate >= value ==> next <= estimate && 4.0 * (next * next - value) <= estimate * estimate - value)
            && (next == estimate ==> estimate * estimate == value)
  {
    var q, next := value / estimate, NewtonStep(value, estimate);
    Divided(value, estimate);
    NewtonAlgebra(value, estimate, q, next);
  }

  lemma NewtonAlgebra(value: real, e: real, q: real, next: real)
    requires value > 0.0 && e > 0.0 && q * e == value && next == (e + q) / 2.0
    ensures next > 0.0 && next * next >= value
    ensures e * e >= value ==> next <= e && 4.0 * (next * next - value) <= e * e - value
    ensures next == e ==> e * e == value
  {
    if q <= 0.0 {
      Scaled(q, e);
      assert false;
    }
    Squares(e, q, next, value);
    if e * e >= value {
      Smaller(e, q, value);
      Gap(e, q);
    }
  }

  lemma Squares(e: real, q: real, next: real, value: real)
    requires q * e == value && next == (e + q) / 2.0
    ensures 4.0 * (next * next - value) == (e - q) * (e - q) >= 0.0
  {
    Scaled(e - q, e - q);
    assert 4.0 * (next * next) == (e + q) * (e + q);
    assert (e + q) * (e + q) == e * e + 2.0 * (q * e) + q * q;
    assert (e - q) * (e - q) == e * e - 2.0 * (q * e) + q * q;
  }

  lemma Smaller(e: real, q: real, value: real)
    requires e > 0.0 && q * e == value && e * e >= value
    ensures q <= e
  {
    if q > e {
      Positive(q - e, e);
      Distribute(e, q, e);
      assert false;
    }
  }

  lemma Gap(e: real, q: real)
    requires 0.0 < q <= e
    ensures (e - q) * (e - q) <= e * e - q * e
  {
    Scaled(q, e - q);
    assert e * e - q * e - (e - q) * (e - q) == q * (e - q);
  }

  function Pow4(n: nat): real {
    if n == 0 then 1.0 else 4.0 * Pow4(n - 1)
  }

  function FirstEstimate(value: real): real {
    if value > 1.0 then value / 2.0 else 1.0
  }

  function Residual(value: real, estimate: real): real {
    estimate * estimate - value
  }

  /** The Newton iteration: the result is never below the root, and its residual is at most a `4^63`-th of the one after the first step. */
  method DecimalSqrt(value: real) returns (estimate: real)
    ensures value <= 0.0 ==> estimate == 0.0
    ensures value > 0.0 ==> estimate > 0.0 && FirstEstimate(value) > 0.0
    ensures value > 0.0 ==> 0.0 <= Residual(value, estimate)
    ensures value > 0.0 ==> Times(Pow4(63), Residual(value, estimate)) <= Residual(value, NewtonStep(value, FirstEstimate(value)))
  {
    if value <= 0.0 {
      return 0.0;
    }
    hide Pow4, Times, Residual;
    estimate := FirstEstimate(value);
    ghost var first := Residual(value, NewtonStep(value, estimate));
    var n := 0;
    while n < 64
      invariant n <= 64 && estimate > 0.0
      invariant n == 0 ==> estimate == FirstEstimate(value)
      invariant n > 0 ==> Residual(value, estimate) >= 0.0 && Times(Pow4(n - 1), Residual(value, estimate)) <= first
    {
      var next := NewtonStep(value, estimate);
      StepShrinks(value, estimate, n, first);
      if next == estimate {
        Exactly(value, estimate, first);
        break;
      }
      estimate := next;
      n := n + 1;
    }
  }

  lemma StepShrinks(value: real, e: real, n: nat, first: real)
    requires value > 0.0 && e > 0.0
    requires n == 0 ==> first == Residual(value, NewtonStep(value, e))
    requires n > 0 ==> Residual(value, e) >= 0.0 && Times(Pow4(n - 1), Residual(value, e)) <= first
    ensures NewtonStep(value, e) > 0.0 && Residual(value, NewtonStep(value, e)) >= 0.0
    ensures Times(Pow4(n), Residual(value, NewtonStep(value, e))) <= first
    ensures NewtonStep(value, e) == e ==> Residual(value, e) == 0.0
    ensures first >= 0.0
  {
    NewtonFacts(value, e);
    hide NewtonStep, Times;
    var r, s := Residual(value, e), Residual(value, NewtonStep(value, e));
    Pow4Positive(n);
    TimesLaws(Pow4(n), s, 0.0);
    if n == 0 {
      TimesLaws(s, 1.0, 0.0);
      TimesLaws(1.0, s, 0.0);
    } else {
      hide Residual;
      Pow4Positive(n - 1);
      TimesGrows(4.0 * s, r, Pow4(n - 1));
      QuarterOut(Pow4(n - 1), s);
      TimesLaws(r, Pow4(n - 1), 0.0);
      TimesGrows(0.0, r, Pow4(n - 1));
      TimesLaws(Pow4(n - 1), 0.0, 0.0);
      TimesLaws(0.0, Pow4(n - 1), 0.0);
    }
  }

  lemma QuarterOut(p: real, s: real)
    ensures Times(4.0 * p, s) == Times(4.0 * s, p)
  {
  }

  lemma {:induction false} Pow4Positive(n: nat)
    ensures Pow4(n) > 0.0
  {
    if n > 0 {
      Pow4Positive(n - 1);
    }
  }

  lemma Exactly(value: real, e: real, first: real)
    requires Residual(value, e) == 0.0 && first >= 0.0
    ensures Times(Pow4(63), Residual(value, e)) <= first
  {
    hide Pow4, Residual;
  }
}
