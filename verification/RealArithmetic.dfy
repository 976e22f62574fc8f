/** Facts about products and quotients of reals that the solver does not find inside larger proofs. */
module Reals {

  lemma Distribute(x: real, m: real, n: real)
    ensures x * (m + n) == x * m + x * n
  {
  }

  function Times(n: nat, x: real): real {
    n as real * x
  }

  lemma TimesNext(n: nat, x: real)
    ensures Times(n + 1, x) == Times(n, x) + x && Times(0, x) == 0.0
  {
    Distribute(x, n as real, 1.0);
  }

  lemma TimesOne(n: nat)
    ensures Times(n, 1.0) == n as real
  {
  }

  lemma TimesMonotone(n: nat, m: nat, x: real)
    requires n <= m && x >= 0.0
    ensures 0.0 <= Times(n, x) <= Times(m, x)
  {
  }

  lemma Scale(lo: real, x: real, hi: real, n: real)
    requires n >= 0.0 && (n > 0.0 ==> lo <= x <= hi)
    ensures lo * n <= x * n <= hi * n
  {
    if n == 0.0 {
      assert lo * n == 0.0 && x * n == 0.0 && hi * n == 0.0;
    } else {
      assert (x - lo) * n >= 0.0 && (hi - x) * n >= 0.0;
    }
  }

  lemma QuotientBetween(x: real, n: real, lo: real, hi: real)
    requires n > 0.0 && lo * n <= x <= hi * n
    ensures lo <= x / n <= hi
  {
    assert x / n * n == x;
  }

  lemma LowerSum(lo: real, x: real, y: real, m: real, n: real)
    requires lo * m <= x * m && lo * n <= y * n
    ensures lo * (m + n) <= x * m + y * n
  {
    Distribute(lo, m, n);
  }

  lemma UpperSum(hi: real, x: real, y: real, m: real, n: real)
    requires x * m <= hi * m && y * n <= hi * n
    ensures x * m + y * n <= hi * (m + n)
  {
    Distribute(hi, m, n);
  }

  function Mean(x: real, m: real, y: real, n: real): real
    requires m + n != 0.0
  {
    (x * m + y * n) / (m + n)
  }

  /** A weighted mean lies between the bounds of the values that carry weight. */
  lemma WeightedBetween(lo: real, hi: real, x: real, y: real, m: real, n: real)
    requires m >= 0.0 && n >= 0.0 && m + n > 0.0
    requires (m > 0.0 ==> lo <= x <= hi) && (n > 0.0 ==> lo <= y <= hi)
    ensures lo <= Mean(x, m, y, n) <= hi
  {
    hide Mean;
    Scale(lo, x, hi, m);
    Scale(lo, y, hi, n);
    LowerSum(lo, x, y, m, n);
    UpperSum(hi, x, y, m, n);
    MeanBetween(lo, hi, x, y, m, n);
  }

  lemma MeanBetween(lo: real, hi: real, x: real, y: real, m: real, n: real)
    requires m + n > 0.0 && lo * (m + n) <= x * m + y * n <= hi * (m + n)
    ensures lo <= Mean(x, m, y, n) <= hi
  {
    var total, weight := x * m + y * n, m + n;
    QuotientBetween(total, weight, lo, hi);
    assert Mean(x, m, y, n) == total / weight;
  }

  lemma ZeroProduct(a: real, b: real)
    ensures a * b == 0.0 <==> a == 0.0 || b == 0.0
  {
  }

  lemma Cancel(x: real, n: real)
    ensures n != 0.0 ==> x * n / n == x
    ensures n == 0.0 ==> x * n == 0.0
  {
  }
}
