/** What the series of src/ta/indicators.py hold at each index, on the prices themselves: where a value is present,
    what the first one is, and how each follows from the one before. */
module IndicatorLaws {
  import opened Prelude
  import opened CandleMerge
  import opened IndicatorSpecs
  import opened IndicatorSeries

  lemma TimesQuotient(x: real, n: real)
    requires n != 0.0
    ensures x / n * n == x
  {
  }

  /** SMA: from index p - 1 on, p times the value is the sum of the last p values. */
  lemma SmaMeaning(v: seq<real>, p: nat, i: nat)
    requires p >= 1 && i < |v|
    ensures var s := SmaSeries(v, p);
      && |s| == |v| && (s[i].Some? <==> i + 1 >= p)
      && (i + 1 >= p ==> s[i].value * p as real == Sum(v[i + 1 - p..i + 1]))
  {
    hide Sum;
    if i + 1 >= p {
      TimesQuotient(Sum(v[i + 1 - p..i + 1]), p as real);
    }
  }

  /** EMA: from index p - 1 on; the first value is the mean of p values, and each later one moves 2 / (p + 1) of the
      way towards the new value. */
  lemma EmaMeaning(v: seq<real>, p: nat, i: nat)
    requires p >= 1 && i < |v|
    ensures var s := EmaSeries(v, p);
      && |s| == |v| && (s[i].Some? <==> i + 1 >= p)
      && (i + 1 == p ==> s[i].value * p as real == Sum(v[..p]))
      && (i >= p ==>
            && s[i - 1].Some?
            && (s[i].value - s[i - 1].value) * (p + 1) as real == 2.0 * (v[i] - s[i - 1].value))
  {
    hide Sum;
    if i + 1 == p {
      TimesQuotient(Sum(v[..p]), p as real);
    } else if i >= p {
      var d, m, n := v[i] - EmaAt(v, p, i - 1), 2.0 / (p + 1) as real, (p + 1) as real;
      assert EmaAt(v, p, i) - EmaAt(v, p, i - 1) == d * m;
      hide EmaAt;
      ScaledBack(d, 2.0, n);
    }
  }

  lemma ScaledBack(d: real, c: real, n: real)
    requires n != 0.0
    ensures d * (c / n) * n == c * d
  {
    assert c / n * n == c;
    assert d * (c / n) * n == d * (c / n * n);
  }

  /** The gains between neighbouring closes; the losses are those of the negated closes. */
  function Gains(v: seq<real>): (g: seq<real>)
    requires v != []
    ensures |g| == |v| - 1
  {
    seq(|v| - 1, i requires 0 <= i < |v| - 1 => MaxReal(0.0, v[i + 1] - v[i]))
  }

  lemma MovesAreGains(v: seq<real>)
    requires v != []
    ensures |Negated(v)| == |v| && Moves(v, true) == Gains(v) && Moves(v, false) == Gains(Negated(v))
  {
  }

  /** A Wilder average of some moves: the first is the mean of p, each later one takes 1 / p of the new move. */
  predicate Averages(a: real, was: real, moves: seq<real>, p: nat, i: nat)
    requires 1 <= p <= i <= |moves|
  {
    if i == p then a * p as real == Sum(moves[..p])
    else a * p as real == was * (p - 1) as real + moves[i - 1]
  }

  lemma WilderMeaning(moves: seq<real>, p: nat, i: nat)
    requires 1 <= p <= i <= |moves|
    ensures Averages(WilderAt(moves, p, i - 1), if i > p then WilderAt(moves, p, i - 2) else 0.0, moves, p, i)
  {
    hide Sum;
    if i == p {
      TimesQuotient(Sum(moves[..p]), p as real);
    } else {
      var was := WilderAt(moves, p, i - 2);
      assert WilderAt(moves, p, i - 1) == (was * (p - 1) as real + moves[i - 1]) / p as real;
      hide WilderAt;
      TimesQuotient(was * (p - 1) as real + moves[i - 1], p as real);
    }
  }

  /** RSI: from index p on; the share of the average gain in average gain and loss, out of 100, and 100 when no loss
      is left. */
  lemma RsiMeaning(v: seq<real>, p: nat, i: nat)
    requires p >= 1 && i < |v|
    ensures |RsiSeries(v, p)| == |v| && (RsiSeries(v, p)[i].Some? <==> i >= p)
    ensures i >= p ==>
      var r, gain, loss := RsiSeries(v, p)[i].value, AvgMove(v, p, i, true), AvgMove(v, p, i, false);
      && r * (gain + loss) == 100.0 * gain && (loss == 0.0 ==> r == 100.0)
  {
    hide RsiOf, AvgMove;
    if i >= p {
      AvgMoveNotNegative(v, p, i);
      ShareOfGain(AvgMove(v, p, i, true), AvgMove(v, p, i, false));
    }
  }

  /** The average gain and the average loss are the Wilder averages of the gains of the closes and of the negated
      closes. */
  lemma AvgMoveMeaning(v: seq<real>, p: nat, i: nat, up: bool)
    requires 1 <= p <= i < |v|
    ensures Averages(AvgMove(v, p, i, up), if i > p then AvgMove(v, p, i - 1, up) else 0.0,
                     Gains(if up then v else Negated(v)), p, i)
  {
    hide WilderAt, Moves, Gains, Averages, Negated;
    MovesAreGains(v);
    WilderMeaning(Moves(v, up), p, i);
  }

  lemma ShareOfGain(gain: real, loss: real)
    requires gain >= 0.0 && loss >= 0.0
    ensures loss == 0.0 || 1.0 + gain / loss != 0.0
    ensures loss == 0.0 ==> RsiOf(gain, loss) == 100.0
    ensures RsiOf(gain, loss) * (gain + loss) == 100.0 * gain
  {
    RatioDefined(gain, loss);
    if loss == 0.0 {
    } else {
      RsiIsShare(gain, loss);
      TimesQuotient(100.0 * gain, gain + loss);
    }
  }

  /** The true range is the least upper bound of the three distances. */
  lemma TrueRangeMeaning(prev: Candle, c: Candle)
    ensures var r := TrueRange(prev, c);
      && r >= c.high - c.low
      && r >= c.high - prev.close && r >= prev.close - c.high && r >= c.low - prev.close && r >= prev.close - c.low
      && (|| r == c.high - c.low || r == c.high - prev.close || r == prev.close - c.high
          || r == c.low - prev.close || r == prev.close - c.low)
  {
  }

  /** ATR: from index p on, the Wilder average of the true ranges. */
  lemma AtrMeaning(cs: seq<Candle>, p: nat, i: nat)
    requires p >= 1 && i < |cs|
    ensures |AtrSeries(cs, p)| == |cs| && (AtrSeries(cs, p)[i].Some? <==> i >= p)
    ensures |TrueRanges(cs)| == |cs| - 1
    ensures forall j :: 0 <= j < |cs| - 1 ==> TrueRanges(cs)[j] == TrueRange(cs[j], cs[j + 1])
    ensures i > p ==> AtrSeries(cs, p)[i - 1].Some?
    ensures i >= p ==>
      var s := AtrSeries(cs, p);
      Averages(s[i].value, if i > p then s[i - 1].value else 0.0, TrueRanges(cs), p, i)
  {
    hide TrueRange, WilderAt, Averages;
    if i >= p {
      WilderMeaning(TrueRanges(cs), p, i);
    }
  }

  /** The volumes, and the sums of high, low and close weighted with them. */
  function Volumes(cs: seq<Candle>): seq<real> {
    seq(|cs|, i requires 0 <= i < |cs| => cs[i].volume as real)
  }

  function Traded(cs: seq<Candle>): seq<real> {
    seq(|cs|, i requires 0 <= i < |cs| => TradedIn(cs[i]))
  }

  function TradedIn(c: Candle): real {
    (c.high + c.low + c.close) * c.volume as real
  }

  lemma {:induction false} SumsTraded(cs: seq<Candle>)
    ensures Volume(cs) as real == Sum(Volumes(cs)) && Turnover(cs) * 3.0 == Sum(Traded(cs))
  {
    if cs != [] {
      var n := |cs| - 1;
      SumsTraded(cs[..n]);
      assert Volumes(cs)[..n] == Volumes(cs[..n]);
      TradedPrefix(cs, n);
      Thirds(cs[n].high + cs[n].low + cs[n].close, cs[n].volume as real);
    }
  }

  lemma TradedPrefix(cs: seq<Candle>, n: nat)
    requires n <= |cs|
    ensures Traded(cs)[..n] == Traded(cs[..n])
  {
    hide TradedIn;
  }

  lemma Thirds(x: real, n: real)
    ensures x / 3.0 * n * 3.0 == x * n
  {
  }

  /** VWAP: none while the volumes seen sum to zero, and otherwise three times the value times the volume is the sum
      of high, low and close, each weighted with its volume. */
  lemma VwapMeaning(cs: seq<Candle>, i: nat)
    requires i < |cs|
    ensures var s, volume := VwapSeries(cs), Sum(Volumes(cs[..i + 1]));
      && |s| == |cs| && (s[i].Some? <==> volume != 0.0)
      && (s[i].Some? ==> s[i].value * volume * 3.0 == Sum(Traded(cs[..i + 1])))
  {
    hide Volume, Turnover, Sum, Volumes, Traded;
    SumsTraded(cs[..i + 1]);
    if Volume(cs[..i + 1]) != 0 {
      TimesQuotient(Turnover(cs[..i + 1]), Volume(cs[..i + 1]) as real);
    }
  }

  /** MACD: from max(fast, slow) + signal - 2 on; the line is the difference of the two EMA values, the signal an EMA
      of the lines so far, and the histogram line less signal. */
  lemma MacdMeaning(v: seq<real>, fast: nat, slow: nat, signal: nat, i: nat)
    requires fast >= 1 && slow >= 1 && signal >= 1 && i < |v|
    ensures var s, w := MacdSeries(v, fast, slow, signal), MaxInt(fast, slow) - 1;
      && |s| == |v| && (s[i].Some? <==> i >= w + signal - 1)
      && (s[i].Some? ==>
            && EmaSeries(v, fast)[i].Some? && EmaSeries(v, slow)[i].Some?
            && s[i].value.line == EmaSeries(v, fast)[i].value - EmaSeries(v, slow)[i].value
            && s[i].value.histogram == s[i].value.line - s[i].value.signal
            && (i > w + signal - 1 ==>
                  && s[i - 1].Some?
                  && (s[i].value.signal - s[i - 1].value.signal) * (signal + 1) as real
                       == 2.0 * (s[i].value.line - s[i - 1].value.signal))
            && (i == w + signal - 1 ==> s[i].value.signal * signal as real == Sum(LinesFrom(v, fast, slow, w, signal))))
  {
    hide Sum, EmaAt, MacdLine;
    var w := MaxInt(fast, slow) - 1;
    if i >= w + signal - 1 {
      var line := MacdLine(v, fast, slow);
      LineIs(v, fast, slow, i - w);
      EmaMeaning(line, signal, i - w);
      if i == w + signal - 1 {
        LinesAre(v, fast, slow, signal);
      }
    }
  }

  lemma LineIs(v: seq<real>, fast: nat, slow: nat, j: nat)
    requires fast >= 1 && slow >= 1 && MaxInt(fast, slow) - 1 + j < |v|
    ensures var i := MaxInt(fast, slow) - 1 + j;
      && EmaSeries(v, fast)[i].Some? && EmaSeries(v, slow)[i].Some? && j < |MacdLine(v, fast, slow)|
      && MacdLine(v, fast, slow)[j] == EmaSeries(v, fast)[i].value - EmaSeries(v, slow)[i].value
  {
    hide EmaAt;
  }

  /** The first `n` differences of the two averages. */
  function LinesFrom(v: seq<real>, fast: nat, slow: nat, w: nat, n: nat): seq<real>
    requires fast >= 1 && slow >= 1 && w == MaxInt(fast, slow) - 1 && w + n <= |v|
  {
    seq(n, j requires 0 <= j < n =>
      EmaSeries(v, fast)[w + j].value - EmaSeries(v, slow)[w + j].value)
  }

  lemma LinesAre(v: seq<real>, fast: nat, slow: nat, n: nat)
    requires fast >= 1 && slow >= 1 && MaxInt(fast, slow) - 1 + n <= |v|
    ensures n <= |MacdLine(v, fast, slow)|
    ensures MacdLine(v, fast, slow)[..n] == LinesFrom(v, fast, slow, MaxInt(fast, slow) - 1, n)
  {
    hide EmaAt, MacdLine;
    var line, want := MacdLine(v, fast, slow), LinesFrom(v, fast, slow, MaxInt(fast, slow) - 1, n);
    forall j | 0 <= j < n ensures line[j] == want[j] {
      LineIs(v, fast, slow, j);
    }
    assert line[..n] == want;
  }
}
