/** What the indicators of src/ta/indicators.py compute at each index, and the laws they obey. */
module IndicatorSpecs {
  import opened Prelude
  import opened Reals
  import opened CandleMerge

  type Series = seq<Option<real>>

  datatype Result<+T> = Ok(value: T) | ValueError | ArithmeticError | IndexError

  /** `[None] * n`. */
  function Blank(n: nat): Series {
    seq(n, i => None)
  }

  function Closes(cs: seq<Candle>): (v: seq<real>)
    ensures |v| == |cs|
  {
    seq(|cs|, i requires 0 <= i < |cs| => cs[i].close)
  }

  // ---------------------------------------------------------------- the two smoothings

  function Seed(v: seq<real>, p: nat): real
    requires 1 <= p <= |v|
  {
    Sum(v[..p]) / p as real
  }

  function EmaStep(prev: real, x: real, p: nat): real {
    (x - prev) * (2.0 / (p + 1) as real) + prev
  }

  function WilderStep(prev: real, x: real, p: nat): real
    requires p >= 1
  {
    (prev * (p - 1) as real + x) / p as real
  }

  /** Exponential smoothing seeded with the mean of the first `p` values. */
  function EmaAt(v: seq<real>, p: nat, j: nat): real
    requires 1 <= p && p - 1 <= j < |v|
  {
    if j == p - 1 then Seed(v, p) else EmaStep(EmaAt(v, p, j - 1), v[j], p)
  }

  /** Wilder's smoothing, seeded in the same way. */
  function WilderAt(v: seq<real>, p: nat, j: nat): real
    requires 1 <= p && p - 1 <= j < |v|
  {
    if j == p - 1 then Seed(v, p) else WilderStep(WilderAt(v, p, j - 1), v[j], p)
  }

  /** Neither smoothing looks ahead. */
  lemma {:induction false} SmoothingPrefix(v: seq<real>, p: nat, k: nat, j: nat)
    requires 1 <= p && p - 1 <= j < k <= |v|
    ensures EmaAt(v[..k], p, j) == EmaAt(v, p, j) && WilderAt(v[..k], p, j) == WilderAt(v, p, j)
  {
    hide EmaStep, WilderStep;
    if j == p - 1 {
      assert v[..k][..p] == v[..p];
    } else {
      SmoothingPrefix(v, p, k, j - 1);
    }
  }

  lemma {:induction false} SumBetween(s: seq<real>, lo: real, hi: real)
    requires forall i :: 0 <= i < |s| ==> lo <= s[i] <= hi
    ensures lo * |s| as real <= Sum(s) <= hi * |s| as real
  {
    if s != [] {
      var n := |s| - 1;
      SumBetween(s[..n], lo, hi);
      Distribute(lo, n as real, 1.0);
      Distribute(hi, n as real, 1.0);
    }
  }

  lemma SeedBetween(v: seq<real>, p: nat, lo: real, hi: real)
    requires 1 <= p <= |v| && forall i :: 0 <= i < p ==> lo <= v[i] <= hi
    ensures lo <= Seed(v, p) <= hi
  {
    SumBetween(v[..p], lo, hi);
    QuotientBetween(Sum(v[..p]), p as real, lo, hi);
  }

  /** Both stay between the least and the greatest of the values they have seen. */
  lemma {:induction false} SmoothingBetween(v: seq<real>, p: nat, j: nat, lo: real, hi: real)
    requires 1 <= p && p - 1 <= j < |v| && forall i :: 0 <= i <= j ==> lo <= v[i] <= hi
    ensures lo <= EmaAt(v, p, j) <= hi && lo <= WilderAt(v, p, j) <= hi
  {
    hide Seed, EmaStep, WilderStep;
    if j == p - 1 {
      SeedBetween(v, p, lo, hi);
    } else {
      SmoothingBetween(v, p, j - 1, lo, hi);
      EmaStepBetween(EmaAt(v, p, j - 1), v[j], p, lo, hi);
      WilderStepBetween(WilderAt(v, p, j - 1), v[j], p, lo, hi);
    }
  }

  lemma EmaStepBetween(prev: real, x: real, p: nat, lo: real, hi: real)
    requires p >= 1 && lo <= x <= hi && lo <= prev <= hi
    ensures lo <= EmaStep(prev, x, p) <= hi
  {
    BlendBetween(prev, x - prev, 2.0 / (p + 1) as real, lo, hi);
  }

  /** Moving a fraction `m` of the way from `prev` to `prev + d`. */
  lemma BlendBetween(prev: real, d: real, m: real, lo: real, hi: real)
    requires 0.0 <= m <= 1.0 && lo <= prev <= hi && lo <= prev + d <= hi
    ensures lo <= d * m + prev <= hi
  {
    var step := d * m;
    Shrink(d, m, step);
  }

  lemma Shrink(d: real, m: real, step: real)
    requires 0.0 <= m <= 1.0 && step == d * m
    ensures d >= 0.0 ==> 0.0 <= step <= d
    ensures d <= 0.0 ==> d <= step <= 0.0
  {
    if d >= 0.0 {
      Scale(0.0, m, 1.0, d);
    } else {
      Scale(0.0, m, 1.0, -d);
      assert step == -(m * -d);
    }
  }

  lemma WilderStepBetween(prev: real, x: real, p: nat, lo: real, hi: real)
    requires p >= 1 && lo <= x <= hi && lo <= prev <= hi
    ensures lo <= WilderStep(prev, x, p) <= hi
  {
    hide WilderStep, Mean;
    WeightedBetween(lo, hi, prev, x, (p - 1) as real, 1.0);
    WilderStepIsMean(prev, x, p);
  }

  lemma WilderStepIsMean(prev: real, x: real, p: nat)
    requires p >= 1
    ensures WilderStep(prev, x, p) == Mean(prev, (p - 1) as real, x, 1.0)
  {
    assert p as real == (p - 1) as real + 1.0;
  }

  function Lin(a: real, x: real, b: real): real {
    a * x + b
  }

  /** `a * v + b`, value by value. */
  function Affine(v: seq<real>, a: real, b: real): seq<real> {
    seq(|v|, i requires 0 <= i < |v| => Lin(a, v[i], b))
  }

  lemma AffinePrefix(v: seq<real>, a: real, b: real, n: nat)
    requires n <= |v|
    ensures Affine(v, a, b)[..n] == Affine(v[..n], a, b)
  {
    hide Lin;
  }

  lemma {:induction false} SumAffine(v: seq<real>, a: real, b: real)
    ensures Sum(Affine(v, a, b)) == a * Sum(v) + b * |v| as real
  {
    if v != [] {
      var n := |v| - 1;
      SumAffine(v[..n], a, b);
      AffinePrefix(v, a, b, n);
      Distribute(a, Sum(v[..n]), v[n]);
      Distribute(b, n as real, 1.0);
    }
  }

  lemma SeedAffine(v: seq<real>, p: nat, a: real, b: real)
    requires 1 <= p <= |v|
    ensures Seed(Affine(v, a, b), p) == Lin(a, Seed(v, p), b)
  {
    SumAffine(v[..p], a, b);
    AffinePrefix(v, a, b, p);
    MeanAffine(Sum(v[..p]), p as real, a, b);
  }

  /** Both smoothings commute with every affine change of scale. */
  lemma {:induction false} SmoothingAffine(v: seq<real>, p: nat, j: nat, a: real, b: real)
    requires 1 <= p && p - 1 <= j < |v|
    ensures EmaAt(Affine(v, a, b), p, j) == Lin(a, EmaAt(v, p, j), b)
    ensures WilderAt(Affine(v, a, b), p, j) == Lin(a, WilderAt(v, p, j), b)
  {
    hide Seed, EmaStep, WilderStep, Lin;
    if j == p - 1 {
      SeedAffine(v, p, a, b);
    } else {
      SmoothingAffine(v, p, j - 1, a, b);
      EmaStepAffine(EmaAt(v, p, j - 1), v[j], p, a, b);
      WilderStepAffine(WilderAt(v, p, j - 1), v[j], p, a, b);
    }
  }

  lemma MeanAffine(sum: real, n: real, a: real, b: real)
    requires n != 0.0
    ensures (a * sum + b * n) / n == a * (sum / n) + b
  {
    var q := sum / n;
    assert q * n == sum;
    assert a * sum == a * q * n;
    assert a * sum + b * n == (a * q + b) * n;
    Cancel(a * q + b, n);
  }

  lemma EmaStepAffine(prev: real, x: real, p: nat, a: real, b: real)
    ensures EmaStep(Lin(a, prev, b), Lin(a, x, b), p) == Lin(a, EmaStep(prev, x, p), b)
  {
    var m := 2.0 / (p + 1) as real;
    assert (a * x + b) - (a * prev + b) == a * (x - prev);
    Associate(a, x - prev, m);
    Distribute(a, (x - prev) * m, prev);
  }

  lemma Associate(a: real, x: real, m: real)
    ensures a * x * m == a * (x * m)
  {
  }

  lemma WilderStepAffine(prev: real, x: real, p: nat, a: real, b: real)
    requires p >= 1
    ensures WilderStep(Lin(a, prev, b), Lin(a, x, b), p) == Lin(a, WilderStep(prev, x, p), b)
  {
    var n := (p - 1) as real;
    Distribute(n, a * prev, b);
    Associate(a, prev, n);
    Distribute(a, prev * n, x);
    Distribute(b, n, 1.0);
    assert (a * prev + b) * n + (a * x + b) == a * (prev * n + x) + b * (n + 1.0);
    MeanAffine(prev * n + x, p as real, a, b);
  }

  // ---------------------------------------------------------------- the weights

  /** What is left of a unit weight after `n` steps of multiplier `m`. */
  function Decay(m: real, n: nat): real {
    if n == 0 then 1.0 else Decay(m, n - 1) * (1.0 - m)
  }

  /** A value that entered with weight `m` and has faded to the fraction `d`. */
  function Term(m: real, d: real, x: real): real {
    m * d * x
  }

  /** The values from index `p` up to `n`, each weighted by its age at index `j`. */
  function Weighted(v: seq<real>, p: nat, j: nat, m: real, n: nat): real
    requires p <= n <= j + 1 && n <= |v|
  {
    if n == p then 0.0 else Weighted(v, p, j, m, n - 1) + Term(m, Decay(m, j - (n - 1)), v[n - 1])
  }

  /** The seed and the values since, with geometrically fading weights. */
  function Faded(v: seq<real>, p: nat, j: nat, m: real): real
    requires 1 <= p && p - 1 <= j < |v|
  {
    Decay(m, j + 1 - p) * Seed(v, p) + Weighted(v, p, j, m, j + 1)
  }

  /** One more value fades the past and enters with weight `m`. */
  function Blend(prev: real, m: real, x: real): real {
    prev * (1.0 - m) + m * x
  }

  lemma TermFades(m: real, d: real, x: real, f: real, d': real)
    requires d' == d * f
    ensures Term(m, d', x) == Term(m, d, x) * f
  {
    Associate(m, d, f);
    Associate(m * d, f, x);
    Associate(m * d, x, f);
  }

  lemma DistributeRight(x: real, y: real, f: real)
    ensures (x + y) * f == x * f + y * f
  {
  }

  lemma {:induction false} WeightedFades(v: seq<real>, p: nat, j: nat, m: real, n: nat)
    requires 1 <= j && p <= n <= j && n <= |v|
    ensures Weighted(v, p, j, m, n) == Weighted(v, p, j - 1, m, n) * (1.0 - m)
  {
    hide Term, Decay;
    if n > p {
      var f, d, x := 1.0 - m, Decay(m, j - 1 - (n - 1)), v[n - 1];
      var w, t := Weighted(v, p, j - 1, m, n - 1), Term(m, d, x);
      WeightedFades(v, p, j, m, n - 1);
      DecayStep(m, j - (n - 1));
      TermFades(m, d, x, f, Decay(m, j - (n - 1)));
      DistributeRight(w, t, f);
    } else {
      assert Weighted(v, p, j, m, n) == 0.0 && Weighted(v, p, j - 1, m, n) == 0.0;
    }
  }

  lemma DecayStep(m: real, n: nat)
    ensures Decay(m, 0) == 1.0
    ensures n > 0 ==> Decay(m, n) == Decay(m, n - 1) * (1.0 - m)
  {
  }

  lemma FadedStep(v: seq<real>, p: nat, j: nat, m: real)
    requires 1 <= p <= j < |v|
    ensures Faded(v, p, j, m) == Blend(Faded(v, p, j - 1, m), m, v[j])
  {
    hide Decay, Seed, Term;
    var f, d, w := 1.0 - m, Decay(m, j - p), Weighted(v, p, j - 1, m, j);
    WeightedFades(v, p, j, m, j);
    DecayStep(m, j + 1 - p);
    FreshTerm(m, v[j]);
    assert Weighted(v, p, j, m, j + 1) == w * f + m * v[j];
    FadeAlgebra(d, f, Seed(v, p), w, m * v[j]);
  }

  lemma FreshTerm(m: real, x: real)
    ensures Term(m, Decay(m, 0), x) == m * x
  {
  }

  lemma FadeAlgebra(d: real, f: real, seed: real, w: real, entry: real)
    ensures d * f * seed + (w * f + entry) == (d * seed + w) * f + entry
  {
    Associate(d, f, seed);
    Associate(d, seed, f);
    DistributeRight(d * seed, w, f);
  }

  lemma FadedSeed(v: seq<real>, p: nat, m: real)
    requires 1 <= p <= |v|
    ensures Faded(v, p, p - 1, m) == Seed(v, p)
  {
    hide Seed;
    assert Decay(m, 0) == 1.0;
  }

  lemma EmaStepBlends(prev: real, x: real, p: nat)
    ensures EmaStep(prev, x, p) == Blend(prev, 2.0 / (p + 1) as real, x)
  {
    var m := 2.0 / (p + 1) as real;
    Distribute(m, x, -prev);
    Distribute(prev, 1.0, -m);
  }

  lemma WilderStepBlends(prev: real, x: real, p: nat)
    requires p >= 1
    ensures WilderStep(prev, x, p) == Blend(prev, 1.0 / p as real, x)
  {
    var n, m := p as real, 1.0 / p as real;
    assert m * n == 1.0;
    BlendScaled(prev, m, x, n);
    Cancel(Blend(prev, m, x), n);
  }

  lemma BlendScaled(prev: real, m: real, x: real, n: real)
    requires m * n == 1.0
    ensures Blend(prev, m, x) * n == prev * (n - 1.0) + x
  {
    Distribute(prev, 1.0, -m);
    DistributeRight(prev * (1.0 - m), m * x, n);
    Associate(prev, m, n);
    Associate(m, x, n);
    Associate(m, n, x);
  }

  /** The closed form of both smoothings: the mean of the first `p` values fading geometrically, and every
      later value entering with weight 2 / (p + 1) or 1 / p and fading at the same rate. */
  lemma {:induction false} SmoothingIsFaded(v: seq<real>, p: nat, j: nat)
    requires 1 <= p && p - 1 <= j < |v|
    ensures EmaAt(v, p, j) == Faded(v, p, j, 2.0 / (p + 1) as real)
    ensures WilderAt(v, p, j) == Faded(v, p, j, 1.0 / p as real)
  {
    hide Seed, EmaStep, WilderStep, Faded, Blend;
    if j == p - 1 {
      FadedSeed(v, p, 2.0 / (p + 1) as real);
      FadedSeed(v, p, 1.0 / p as real);
    } else {
      SmoothingIsFaded(v, p, j - 1);
      FadedStep(v, p, j, 2.0 / (p + 1) as real);
      FadedStep(v, p, j, 1.0 / p as real);
      EmaStepBlends(EmaAt(v, p, j - 1), v[j], p);
      WilderStepBlends(WilderAt(v, p, j - 1), v[j], p);
    }
  }
}
