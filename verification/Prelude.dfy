/** Small shared vocabulary: optional values, extrema, and sums over sequences and finite maps. */
module Prelude {
  import Reals

  datatype Option<+T> = None | Some(value: T)

  /** How far a clock moves before its next reading: it never runs backwards. */
  type Delay = d: real | 0.0 <= d

  /** An instant in whole microseconds, the resolution of the timestamps that are written down. */
  function Micros(t: real): int {
    (t * 1000000.0).Floor
  }

  /** `argument or default`: a missing argument and a zero both select the default. */
  function OrDefault<T(==)>(argument: Option<T>, zero: T, default: T): T {
    if argument.Some? && argument.value != zero then argument.value else default
  }

  function MaxInt(a: int, b: int): int {
    if a < b then b else a
  }

  function MinInt(a: int, b: int): int {
    if a < b then a else b
  }

  function MaxReal(a: real, b: real): real {
    if a < b then b else a
  }

  function Abs(a: real): real {
    if a < 0.0 then -a else a
  }

  /** A property of every moment up to `n` that each step keeps exactly when it meets a condition: it holds
      throughout if and only if it holds at first and every step meets the condition. */
  lemma {:induction false} StepwiseIff(n: nat, holds: nat -> bool, meets: nat -> bool)
    requires forall k: nat :: k < n && holds(k) ==> (holds(k + 1) <==> meets(k))
    ensures (forall k: nat :: k <= n ==> holds(k)) <==> holds(0) && forall k: nat :: k < n ==> meets(k)
  {
    if n > 0 {
      StepwiseIff(n - 1, holds, meets);
      assert (forall k: nat :: k <= n ==> holds(k)) <==> (forall k: nat :: k <= n - 1 ==> holds(k)) && holds(n);
      assert (forall k: nat :: k < n ==> meets(k)) <==> (forall k: nat :: k < n - 1 ==> meets(k)) && meets(n - 1);
      if forall k: nat :: k <= n - 1 ==> holds(k) {
        assert holds(n - 1) && (holds(n - 1 + 1) <==> meets(n - 1));
      }
    }
  }

  /** Sum of a sequence, added up from the left as the source's loops do. */
  function Sum(s: seq<real>): real {
    if s == [] then 0.0 else Sum(s[..|s| - 1]) + s[|s| - 1]
  }

  /** Appends the suffix one element at a time: the law behind every accumulating loop. */
  lemma SumSnoc(s: seq<real>, i: nat)
    requires i < |s|
    ensures Sum(s[..i + 1]) == Sum(s[..i]) + s[i]
  {
    assert s[..i + 1][..i] == s[..i];
  }

  /** The sum of `f` over the values of a finite map; the order of the keys does not matter. */
  ghost function Total<K, V>(m: map<K, V>, f: V -> real): real
    decreases |m|
  {
    if m == map[] then 0.0 else
      var k := Pick(m);
      f(m[k]) + Total(m - {k}, f)
  }

  ghost function Pick<K, V>(m: map<K, V>): (k: K)
    requires m != map[]
    ensures k in m
  {
    var k :| k in m;
    k
  }

  /** Any key may be taken out of the sum first. */
  lemma {:induction false} TotalSplit<K, V>(m: map<K, V>, f: V -> real, k: K)
    requires k in m
    ensures Total(m, f) == f(m[k]) + Total(m - {k}, f)
    decreases |m|
  {
    var j := Pick(m);
    if j != k {
      TotalSplit(m - {j}, f, k);
      TotalSplit(m - {k}, f, j);
      assert m - {j} - {k} == m - {k} - {j};
    }
  }

  /** Adding or overwriting one key. */
  lemma TotalUpdate<K, V>(m: map<K, V>, f: V -> real, k: K, v: V)
    ensures Total(m[k := v], f) == Total(m - {k}, f) + f(v)
    ensures k in m ==> Total(m[k := v], f) == Total(m, f) - f(m[k]) + f(v)
    ensures k !in m ==> Total(m[k := v], f) == Total(m, f) + f(v)
  {
    TotalSplit(m[k := v], f, k);
    assert m[k := v] - {k} == m - {k};
    if k in m {
      TotalSplit(m, f, k);
    } else {
      assert m - {k} == m;
    }
  }

  lemma OneFewer<K, V>(m: map<K, V>, k: K)
    requires k in m
    ensures |m - {k}| == |m| - 1
  {
    assert (m - {k}).Keys == m.Keys - {k};
  }

  /** A sum of values none above `cap` is at most `cap` per key. */
  lemma {:induction false} TotalAtMost<K, V>(m: map<K, V>, f: V -> real, cap: real)
    requires forall k :: k in m ==> f(m[k]) <= cap
    ensures Total(m, f) <= Reals.Times(|m|, cap)
    decreases |m|
  {
    hide Reals.Times;
    Reals.TimesNext(0, cap);
    if m != map[] {
      var k := Pick(m);
      OneFewer(m, k);
      TotalAtMost(m - {k}, f, cap);
      Reals.TimesNext(|m - {k}|, cap);
    }
  }

  /** A map with fewer keys and smaller values has the smaller sum. */
  lemma {:induction false} TotalBelow<K, V>(a: map<K, V>, f: V -> real, b: map<K, V>, g: V -> real)
    requires a.Keys <= b.Keys && forall k :: k in a ==> f(a[k]) <= g(b[k])
    requires forall k :: k in b ==> g(b[k]) >= 0.0
    ensures Total(a, f) <= Total(b, g)
    decreases |b|
  {
    if b == map[] {
      assert a == map[];
    } else {
      var k := Pick(b);
      TotalBelow(a - {k}, f, b - {k}, g);
      if k in a {
        TotalSplit(a, f, k);
      } else {
        assert a - {k} == a;
      }
    }
  }

  /** How many keys there are is a sum of ones. */
  lemma {:induction false} TotalOnes<K, V>(m: map<K, V>, f: V -> real)
    requires forall k :: k in m ==> f(m[k]) == 1.0
    ensures Total(m, f) == |m| as real
    decreases |m|
  {
    if m != map[] {
      var k := Pick(m);
      OneFewer(m, k);
      TotalOnes(m - {k}, f);
    }
  }

  lemma {:induction false} TotalZero<K, V>(m: map<K, V>, f: V -> real)
    requires forall k :: k in m ==> f(m[k]) == 0.0
    ensures Total(m, f) == 0.0
    decreases |m|
  {
    if m != map[] {
      TotalZero(m - {Pick(m)}, f);
    }
  }
}
