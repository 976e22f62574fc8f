/** Each indicator of src/ta/indicators.py as a series aligned with its candles, and the laws of the series. */
module IndicatorSeries {
  import opened Prelude
  import opened Reals
  import opened CandleMerge
  import opened IndicatorSpecs

  // ---------------------------------------------------------------- the series

  function SmaSeries(v: seq<real>, p: nat): Series
    requires p >= 1
  {
    seq(|v|, i requires 0 <= i < |v| => if i < p - 1 then None else Some(Sum(v[i + 1 - p..i + 1]) / p as real))
  }

  function EmaSeries(v: seq<real>, p: nat): Series
    requires p >= 1
  {
    seq(|v|, i requires 0 <= i < |v| => if i < p - 1 then None else Some(EmaAt(v, p, i)))
  }

  /** The gains (`up`) or losses between neighbouring closes. */
  function Moves(v: seq<real>, up: bool): (m: seq<real>)
    requires v != []
    ensures |m| == |v| - 1
  {
    seq(|v| - 1, i requires 0 <= i < |v| - 1 =>
      MaxReal(if up then v[i + 1] - v[i] else v[i] - v[i + 1], 0.0))
  }

  function RsiOf(avgGain: real, avgLoss: real): real
    requires avgLoss == 0.0 || 1.0 + avgGain / avgLoss != 0.0
  {
    if avgLoss == 0.0 then 100.0 else 100.0 - 100.0 / (1.0 + avgGain / avgLoss)
  }

  /** Smoothed gain or loss at close `i`. */
  function AvgMove(v: seq<real>, p: nat, i: nat, up: bool): real
    requires 1 <= p <= i < |v|
  {
    WilderAt(Moves(v, up), p, i - 1)
  }

  function RsiAt(v: seq<real>, p: nat, i: nat): real
    requires 1 <= p <= i < |v|
  {
    AvgMoveNotNegative(v, p, i);
    RatioDefined(AvgMove(v, p, i, true), AvgMove(v, p, i, false));
    RsiOf(AvgMove(v, p, i, true), AvgMove(v, p, i, false))
  }

  function RsiSeries(v: seq<real>, p: nat): Series
    requires p >= 1
  {
    seq(|v|, i requires 0 <= i < |v| => if i < p then None else Some(RsiAt(v, p, i)))
  }

  function TrueRange(prev: Candle, c: Candle): real {
    MaxReal(MaxReal(c.high - c.low, Abs(c.high - prev.close)), Abs(c.low - prev.close))
  }

  function TrueRanges(cs: seq<Candle>): (t: seq<real>)
    requires cs != []
    ensures |t| == |cs| - 1
  {
    seq(|cs| - 1, i requires 0 <= i < |cs| - 1 => TrueRange(cs[i], cs[i + 1]))
  }

  function AtrSeries(cs: seq<Candle>, p: nat): Series
    requires p >= 1
  {
    seq(|cs|, i requires 0 <= i < |cs| => if i < p then None else Some(WilderAt(TrueRanges(cs), p, i - 1)))
  }

  function Typical(c: Candle): real {
    (c.high + c.low + c.close) / 3.0
  }

  function Volume(cs: seq<Candle>): int {
    if cs == [] then 0 else Volume(cs[..|cs| - 1]) + cs[|cs| - 1].volume
  }

  function Turnover(cs: seq<Candle>): real {
    if cs == [] then 0.0
    else Turnover(cs[..|cs| - 1]) + Typical(cs[|cs| - 1]) * cs[|cs| - 1].volume as real
  }

  function VwapOf(cs: seq<Candle>): Option<real> {
    if Volume(cs) == 0 then None else Some(Turnover(cs) / Volume(cs) as real)
  }

  function VwapSeries(cs: seq<Candle>): Series {
    seq(|cs|, i requires 0 <= i < |cs| => VwapOf(cs[..i + 1]))
  }

  datatype Macd = Macd(line: real, signal: real, histogram: real)

  /** The first index at which both averages exist. */
  function Warmup(fast: nat, slow: nat): int {
    MaxInt(fast, slow) - 1
  }

  /** The MACD line from its first valid index on. */
  function MacdLine(v: seq<real>, fast: nat, slow: nat): (m: seq<real>)
    requires fast >= 1 && slow >= 1
    ensures |m| == MaxInt(0, |v| - Warmup(fast, slow))
  {
    seq(MaxInt(0, |v| - Warmup(fast, slow)), j requires 0 <= j < |v| - Warmup(fast, slow) =>
      EmaAt(v, fast, Warmup(fast, slow) + j) - EmaAt(v, slow, Warmup(fast, slow) + j))
  }

  function MacdAt(v: seq<real>, fast: nat, slow: nat, signal: nat, i: nat): Macd
    requires fast >= 1 && slow >= 1 && signal >= 1 && Warmup(fast, slow) + signal - 1 <= i < |v|
  {
    var line, j := MacdLine(v, fast, slow), i - Warmup(fast, slow);
    var s := EmaAt(line, signal, j);
    Macd(line[j], s, line[j] - s)
  }

  function MacdSeries(v: seq<real>, fast: nat, slow: nat, signal: nat): seq<Option<Macd>>
    requires fast >= 1 && slow >= 1 && signal >= 1
  {
    seq(|v|, i requires 0 <= i < |v| =>
      if i < Warmup(fast, slow) + signal - 1 then None else Some(MacdAt(v, fast, slow, signal, i)))
  }

  // ---------------------------------------------------------------- RSI

  lemma AvgMoveNotNegative(v: seq<real>, p: nat, i: nat)
    requires 1 <= p <= i < |v|
    ensures AvgMove(v, p, i, true) >= 0.0 && AvgMove(v, p, i, false) >= 0.0
  {
    WilderNotNegative(Moves(v, true), p, i - 1);
    WilderNotNegative(Moves(v, false), p, i - 1);
  }

  lemma {:induction false} WilderNotNegative(v: seq<real>, p: nat, j: nat)
    requires 1 <= p && p - 1 <= j < |v| && forall i :: 0 <= i < |v| ==> v[i] >= 0.0
    ensures WilderAt(v, p, j) >= 0.0
  {
    if j == p - 1 {
      SumNotNegative(v[..p]);
    } else {
      WilderNotNegative(v, p, j - 1);
      Scale(0.0, WilderAt(v, p, j - 1), WilderAt(v, p, j - 1), (p - 1) as real);
    }
  }

  lemma {:induction false} SumNotNegative(s: seq<real>)
    requires forall i :: 0 <= i < |s| ==> s[i] >= 0.0
    ensures Sum(s) >= 0.0
  {
    if s != [] {
      SumNotNegative(s[..|s| - 1]);
    }
  }

  lemma RatioDefined(g: real, l: real)
    requires g >= 0.0 && l >= 0.0
    ensures l == 0.0 || 1.0 + g / l >= 1.0
  {
  }

  /** 100 - 100 / (1 + g / l) is 100 g / (g + l). */
  lemma RsiIsShare(g: real, l: real)
    requires g >= 0.0 && l >= 0.0 && g + l > 0.0
    ensures l == 0.0 || 1.0 + g / l != 0.0
    ensures RsiOf(g, l) == 100.0 * (g / (g + l))
  {
    if l > 0.0 {
      var k, n := 1.0 + g / l, g + l;
      assert g / l * l == g;
      Distribute(l, 1.0, g / l);
      assert k * l == n;
      var share := l / n;
      assert share * n == l;
      InverseShare(share, k, l, n);
      QuotientUnique(100.0, k, 100.0 * share);
      SharesAddUp(g, l, n);
    }
  }

  lemma InverseShare(t: real, k: real, l: real, n: real)
    requires k * l == n && t * n == l && l > 0.0
    ensures t * k == 1.0
  {
    Associate(t, k, l);
    assert t * k * l == 1.0 * l;
    Cancel(t * k, l);
    Cancel(1.0, l);
  }

  lemma QuotientUnique(x: real, n: real, q: real)
    requires n != 0.0 && q * n == x
    ensures x / n == q
  {
    Cancel(q, n);
  }

  lemma SharesAddUp(g: real, l: real, n: real)
    requires n == g + l && n > 0.0
    ensures g / n + l / n == 1.0
  {
  }

  /** RSI stays on its scale. */
  lemma RsiWithin(v: seq<real>, p: nat, i: nat)
    requires 1 <= p <= i < |v|
    ensures 0.0 <= RsiAt(v, p, i) <= 100.0
  {
    hide AvgMove;
    AvgMoveNotNegative(v, p, i);
    var g, l := AvgMove(v, p, i, true), AvgMove(v, p, i, false);
    if g + l > 0.0 {
      RsiIsShare(g, l);
      QuotientBetween(g, g + l, 0.0, 1.0);
    }
  }

  lemma MovesAffine(v: seq<real>, a: real, b: real, up: bool)
    requires v != [] && a > 0.0
    ensures Moves(Affine(v, a, b), up) == Affine(Moves(v, up), a, 0.0)
  {
    hide Lin, MaxReal;
    forall i | 0 <= i < |v| - 1 ensures Moves(Affine(v, a, b), up)[i] == Affine(Moves(v, up), a, 0.0)[i] {
      assert Affine(v, a, b)[i] == Lin(a, v[i], b) && Affine(v, a, b)[i + 1] == Lin(a, v[i + 1], b);
      MoveAffine(v[i], v[i + 1], a, b);
    }
    assert |Moves(Affine(v, a, b), up)| == |Affine(Moves(v, up), a, 0.0)|;
  }

  lemma MoveAffine(x: real, y: real, a: real, b: real)
    requires a > 0.0
    ensures MaxReal(Lin(a, y, b) - Lin(a, x, b), 0.0) == Lin(a, MaxReal(y - x, 0.0), 0.0)
    ensures MaxReal(Lin(a, x, b) - Lin(a, y, b), 0.0) == Lin(a, MaxReal(x - y, 0.0), 0.0)
  {
    assert Lin(a, y, b) - Lin(a, x, b) == a * (y - x);
    Sign(a, y - x);
  }

  lemma Sign(a: real, d: real)
    requires a > 0.0
    ensures a * d > 0.0 <==> d > 0.0
    ensures a * d < 0.0 <==> d < 0.0
  {
    if d < 0.0 {
      assert a * -d > 0.0;
    }
  }

  lemma RsiOfScaled(g: real, l: real, a: real, g': real, l': real)
    requires a > 0.0 && g >= 0.0 && l >= 0.0 && g' == a * g && l' == a * l
    ensures l' == 0.0 || 1.0 + g' / l' != 0.0
    ensures l == 0.0 || 1.0 + g / l != 0.0
    ensures RsiOf(g', l') == RsiOf(g, l)
  {
    if l > 0.0 {
      Sign(a, l);
      assert g / l * l == g;
      Associate(a, g / l, l);
      assert g / l * (a * l) == a * g;
      QuotientUnique(g', l', g / l);
    }
  }

  /** RSI does not depend on the unit or the origin of prices. */
  lemma RsiUnitFree(v: seq<real>, p: nat, i: nat, a: real, b: real)
    requires 1 <= p <= i < |v| && a > 0.0
    ensures RsiAt(Affine(v, a, b), p, i) == RsiAt(v, p, i)
  {
    hide RsiOf, AvgMove, Lin;
    AvgMoveAffine(v, p, i, a, b, true);
    AvgMoveAffine(v, p, i, a, b, false);
    AvgMoveNotNegative(v, p, i);
    AvgMoveNotNegative(Affine(v, a, b), p, i);
    RsiOfScaled(AvgMove(v, p, i, true), AvgMove(v, p, i, false), a,
                AvgMove(Affine(v, a, b), p, i, true), AvgMove(Affine(v, a, b), p, i, false));
  }

  lemma AvgMoveAffine(v: seq<real>, p: nat, i: nat, a: real, b: real, up: bool)
    requires 1 <= p <= i < |v| && a > 0.0
    ensures AvgMove(Affine(v, a, b), p, i, up) == a * AvgMove(v, p, i, up)
  {
    hide Lin, Moves, WilderAt;
    MovesAffine(v, a, b, up);
    SmoothingAffine(Moves(v, up), p, i - 1, a, 0.0);
    LinIsProduct(a, AvgMove(v, p, i, up));
  }

  lemma LinIsProduct(a: real, x: real)
    ensures Lin(a, x, 0.0) == a * x
  {
  }

  function Negated(v: seq<real>): seq<real> {
    seq(|v|, i requires 0 <= i < |v| => -v[i])
  }

  lemma MirrorShares(g: real, l: real)
    requires g >= 0.0 && l >= 0.0
    ensures (l == 0.0 || 1.0 + g / l != 0.0) && (g == 0.0 || 1.0 + l / g != 0.0)
    ensures RsiOf(l, g) == 100.0 - RsiOf(g, l) <==> g > 0.0 || l > 0.0
  {
    if g + l > 0.0 {
      RsiIsShare(g, l);
      RsiIsShare(l, g);
      SharesAddUp(g, l, g + l);
    }
  }

  lemma MovesMirror(v: seq<real>, up: bool)
    requires v != []
    ensures Moves(Negated(v), up) == Moves(v, !up) && |Negated(v)| == |v|
  {
  }

  /** Turning prices upside down mirrors RSI, except exactly where neither gain nor loss is left: there both
      sides read 100. */
  lemma RsiMirror(v: seq<real>, p: nat, i: nat)
    requires 1 <= p <= i < |v|
    ensures RsiAt(Negated(v), p, i) == 100.0 - RsiAt(v, p, i)
      <==> AvgMove(v, p, i, true) > 0.0 || AvgMove(v, p, i, false) > 0.0
  {
    hide RsiOf, Moves, Negated, WilderAt;
    MovesMirror(v, true);
    MovesMirror(v, false);
    AvgMoveNotNegative(v, p, i);
    MirrorShares(AvgMove(v, p, i, true), AvgMove(v, p, i, false));
  }

  // ---------------------------------------------------------------- no look-ahead

  /** The indicator of the first `k` candles is the first `k` outputs of the indicator: nothing at an index
      depends on a later candle, through every early return for lack of data. */
  lemma AveragesDoNotLookAhead(v: seq<real>, p: nat, k: nat)
    requires p >= 1 && k <= |v|
    ensures SmaSeries(v[..k], p) == SmaSeries(v, p)[..k]
    ensures EmaSeries(v[..k], p) == EmaSeries(v, p)[..k]
  {
    hide EmaAt, Sum;
    forall i | 0 <= i < k
      ensures SmaSeries(v[..k], p)[i] == SmaSeries(v, p)[i] && EmaSeries(v[..k], p)[i] == EmaSeries(v, p)[i]
    {
      if i >= p - 1 {
        SliceOfPrefix(v, k, i + 1 - p, i + 1);
        SmoothingPrefix(v, p, k, i);
      }
    }
  }

  lemma SliceOfPrefix(v: seq<real>, k: nat, from: nat, to: nat)
    requires from <= to <= k <= |v|
    ensures v[..k][from..to] == v[from..to]
  {
  }

  lemma MovesPrefix(v: seq<real>, k: nat, up: bool)
    requires 1 <= k <= |v|
    ensures Moves(v[..k], up) == Moves(v, up)[..k - 1]
  {
  }

  lemma RsiPrefix(v: seq<real>, p: nat, k: nat, i: nat)
    requires 1 <= p <= i < k <= |v|
    ensures RsiAt(v[..k], p, i) == RsiAt(v, p, i)
  {
    hide RsiOf, WilderAt, Moves;
    MovesPrefix(v, k, true);
    MovesPrefix(v, k, false);
    SmoothingPrefix(Moves(v, true), p, k - 1, i - 1);
    SmoothingPrefix(Moves(v, false), p, k - 1, i - 1);
  }

  lemma RsiDoesNotLookAhead(v: seq<real>, p: nat, k: nat)
    requires p >= 1 && k <= |v|
    ensures RsiSeries(v[..k], p) == RsiSeries(v, p)[..k]
  {
    hide RsiAt;
    forall i | p <= i < k ensures RsiAt(v[..k], p, i) == RsiAt(v, p, i) {
      RsiPrefix(v, p, k, i);
    }
    assert forall i :: 0 <= i < k ==> RsiSeries(v[..k], p)[i] == RsiSeries(v, p)[i];
  }

  lemma AtrDoesNotLookAhead(cs: seq<Candle>, p: nat, k: nat)
    requires p >= 1 && k <= |cs|
    ensures AtrSeries(cs[..k], p) == AtrSeries(cs, p)[..k]
  {
    hide WilderAt, TrueRange;
    forall i | 0 <= i < k ensures AtrSeries(cs[..k], p)[i] == AtrSeries(cs, p)[i] {
      if i >= p {
        assert TrueRanges(cs[..k]) == TrueRanges(cs)[..k - 1];
        SmoothingPrefix(TrueRanges(cs), p, k - 1, i - 1);
      }
    }
  }

  lemma VwapDoesNotLookAhead(cs: seq<Candle>, k: nat)
    requires k <= |cs|
    ensures VwapSeries(cs[..k]) == VwapSeries(cs)[..k]
  {
    hide VwapOf;
    forall i | 0 <= i < k ensures VwapSeries(cs[..k])[i] == VwapSeries(cs)[i] {
      assert cs[..k][..i + 1] == cs[..i + 1];
    }
  }

  lemma LinePrefix(v: seq<real>, fast: nat, slow: nat, k: nat)
    requires fast >= 1 && slow >= 1 && k <= |v| && Warmup(fast, slow) <= k
    ensures MacdLine(v[..k], fast, slow) == MacdLine(v, fast, slow)[..k - Warmup(fast, slow)]
  {
    hide EmaAt;
    var w := Warmup(fast, slow);
    forall j | 0 <= j < k - w ensures MacdLine(v[..k], fast, slow)[j] == MacdLine(v, fast, slow)[j] {
      SmoothingPrefix(v, fast, k, w + j);
      SmoothingPrefix(v, slow, k, w + j);
    }
  }

  lemma MacdSeriesPrefix(v: seq<real>, fast: nat, slow: nat, signal: nat, k: nat)
    requires fast >= 1 && slow >= 1 && signal >= 1 && k <= |v|
    ensures MacdSeries(v[..k], fast, slow, signal) == MacdSeries(v, fast, slow, signal)[..k]
  {
    hide EmaAt, MacdLine;
    var w := Warmup(fast, slow);
    forall i | w + signal - 1 <= i < k
      ensures MacdAt(v[..k], fast, slow, signal, i) == MacdAt(v, fast, slow, signal, i)
    {
      LinePrefix(v, fast, slow, k);
      SmoothingPrefix(MacdLine(v, fast, slow), signal, k - w, i - w);
    }
    assert forall i :: 0 <= i < k ==>
      MacdSeries(v[..k], fast, slow, signal)[i] == MacdSeries(v, fast, slow, signal)[i];
  }

  // ---------------------------------------------------------------- scale and bounds

  lemma LinDifference(a: real, x: real, y: real, b: real)
    ensures Lin(a, x, b) - Lin(a, y, b) == Lin(a, x - y, 0.0)
  {
  }

  lemma LineAffine(v: seq<real>, fast: nat, slow: nat, a: real, b: real)
    requires fast >= 1 && slow >= 1
    ensures MacdLine(Affine(v, a, b), fast, slow) == Affine(MacdLine(v, fast, slow), a, 0.0)
  {
    hide EmaAt, Lin;
    var w := Warmup(fast, slow);
    forall j | 0 <= j < |v| - w
      ensures MacdLine(Affine(v, a, b), fast, slow)[j] == Affine(MacdLine(v, fast, slow), a, 0.0)[j]
    {
      SmoothingAffine(v, fast, w + j, a, b);
      SmoothingAffine(v, slow, w + j, a, b);
      LinDifference(a, EmaAt(v, fast, w + j), EmaAt(v, slow, w + j), b);
    }
  }

  function Rescaled(m: Macd, a: real): Macd {
    Macd(Lin(a, m.line, 0.0), Lin(a, m.signal, 0.0), Lin(a, m.histogram, 0.0))
  }

  lemma MacdAtAffine(v: seq<real>, fast: nat, slow: nat, signal: nat, i: nat, a: real, b: real)
    requires fast >= 1 && slow >= 1 && signal >= 1 && Warmup(fast, slow) + signal - 1 <= i < |v|
    ensures MacdAt(Affine(v, a, b), fast, slow, signal, i) == Rescaled(MacdAt(v, fast, slow, signal, i), a)
  {
    hide EmaAt, Lin, MacdLine;
    var line, j := MacdLine(v, fast, slow), i - Warmup(fast, slow);
    LineAffine(v, fast, slow, a, b);
    SmoothingAffine(line, signal, j, a, 0.0);
    LinDifference(a, line[j], EmaAt(line, signal, j), 0.0);
  }

  /** With volumes that are not negative, VWAP lies between the bounds of the typical prices seen. */
  lemma VwapBetween(cs: seq<Candle>, lo: real, hi: real)
    requires forall i :: 0 <= i < |cs| ==> cs[i].volume >= 0 && lo <= Typical(cs[i]) <= hi
    ensures VwapOf(cs).Some? ==> lo <= VwapOf(cs).value <= hi
  {
    TurnoverBetween(cs, lo, hi);
    if Volume(cs) != 0 {
      QuotientBetween(Turnover(cs), Volume(cs) as real, lo, hi);
    }
  }

  lemma {:induction false} TurnoverBetween(cs: seq<Candle>, lo: real, hi: real)
    requires forall i :: 0 <= i < |cs| ==> cs[i].volume >= 0 && lo <= Typical(cs[i]) <= hi
    ensures Volume(cs) >= 0
    ensures lo * Volume(cs) as real <= Turnover(cs) <= hi * Volume(cs) as real
  {
    if cs != [] {
      var n := |cs| - 1;
      TurnoverBetween(cs[..n], lo, hi);
      hide Typical, Turnover;
      TurnoverStep(cs);
      BoundsAdd(lo, hi, Volume(cs[..n]), Turnover(cs[..n]), cs[n].volume, Typical(cs[n]));
    }
  }

  lemma TurnoverStep(cs: seq<Candle>)
    requires cs != []
    ensures var n := |cs| - 1; Turnover(cs) == Turnover(cs[..n]) + Typical(cs[n]) * cs[n].volume as real
  {
    hide Typical;
  }

  lemma BoundsAdd(lo: real, hi: real, volume: int, turnover: real, v: int, x: real)
    requires lo * volume as real <= turnover <= hi * volume as real && v >= 0 && lo <= x <= hi
    ensures lo * (volume + v) as real <= turnover + x * v as real <= hi * (volume + v) as real
  {
    Scale(lo, x, hi, v as real);
    Distribute(lo, volume as real, v as real);
    Distribute(hi, volume as real, v as real);
    assert (volume + v) as real == volume as real + v as real;
  }

  lemma TrueRangeNotNegative(prev: Candle, c: Candle)
    ensures TrueRange(prev, c) >= 0.0
  {
  }

  lemma AtrEntry(cs: seq<Candle>, p: nat, i: nat)
    requires p >= 1 && i < |cs|
    ensures |AtrSeries(cs, p)| == |cs|
    ensures AtrSeries(cs, p)[i] == if i < p then None else Some(WilderAt(TrueRanges(cs), p, i - 1))
  {
    hide WilderAt;
  }

  /** ATR lies between the bounds of the true ranges seen, and so is never negative. */
  lemma AtrBetween(cs: seq<Candle>, p: nat, i: nat, lo: real, hi: real)
    requires 1 <= p <= i < |cs|
    requires forall j :: 0 <= j < i ==> lo <= TrueRange(cs[j], cs[j + 1]) <= hi
    ensures AtrSeries(cs, p)[i].Some? && lo <= AtrSeries(cs, p)[i].value <= hi && AtrSeries(cs, p)[i].value >= 0.0
  {
    hide WilderAt, TrueRange, EmaAt, AtrSeries;
    AtrEntry(cs, p, i);
    forall j | 0 <= j < |cs| - 1 ensures TrueRanges(cs)[j] >= 0.0 {
      TrueRangeNotNegative(cs[j], cs[j + 1]);
    }
    SmoothingBetween(TrueRanges(cs), p, i - 1, lo, hi);
    WilderNotNegative(TrueRanges(cs), p, i - 1);
  }
}
