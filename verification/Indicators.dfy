/** The indicator loops of src/ta/indicators.py, each proved to compute its series. */
module Indicators {
  import opened Prelude
  import opened CandleMerge
  import opened IndicatorSpecs
  import opened IndicatorSeries
  import opened MacdSignals

  /** `sum(values)`. */
  method SumOf(values: seq<real>) returns (total: real)
    ensures total == Sum(values)
  {
    total := 0.0;
    for i := 0 to |values|
      invariant total == Sum(values[..i])
    {
      SumSnoc(values, i);
      total := total + values[i];
    }
    assert values[..|values|] == values;
  }

  /** One more output: the series so far, extended. */
  lemma Extend<T>(want: seq<T>, i: nat)
    requires i < |want|
    ensures want[..i + 1] == want[..i] + [want[i]]
  {
  }

  lemma SmaEntry(v: seq<real>, p: nat, i: nat)
    requires p >= 1 && i < |v|
    ensures |SmaSeries(v, p)| == |v|
    ensures SmaSeries(v, p)[i] == if i < p - 1 then None else Some(Sum(v[i + 1 - p..i + 1]) / p as real)
  {
  }

  method Sma(cs: seq<Candle>, period: int) returns (r: Result<Series>)
    ensures period <= 0 ==> r == ValueError
    ensures period > 0 ==> r == Ok(SmaSeries(Closes(cs), period))
  {
    if period <= 0 {
      return ValueError;
    }
    var closes := Closes(cs);
    ghost var want := SmaSeries(closes, period);
    assert |want| == |cs|;
    hide SmaSeries, Sum, Closes;
    var result: Series := [];
    for i := 0 to |cs|
      invariant result == want[..i]
    {
      SmaEntry(closes, period, i);
      Extend(want, i);
      if i < period - 1 {
        result := result + [None];
      } else {
        var total := SumOf(closes[i - period + 1..i + 1]);
        result := result + [Some(total / period as real)];
      }
    }
    assert want[..|cs|] == want;
    return Ok(result);
  }

  lemma EmaEntry(v: seq<real>, p: nat, i: nat)
    requires p >= 1 && i < |v|
    ensures |EmaSeries(v, p)| == |v|
    ensures EmaSeries(v, p)[i] == if i < p - 1 then None else Some(EmaAt(v, p, i))
  {
  }

  lemma EmaWarmup(v: seq<real>, p: nat)
    requires p >= 1
    ensures |EmaSeries(v, p)| == |v|
    ensures |v| < p ==> EmaSeries(v, p) == Blank(|v|)
    ensures |v| >= p ==> EmaSeries(v, p)[..p - 1] == Blank(p - 1)
  {
  }

  /** `(value - prev) * multiplier + prev`. */
  method EmaNext(prev: real, value: real, multiplier: real, ghost p: nat) returns (current: real)
    requires multiplier == 2.0 / (p + 1) as real
    ensures current == EmaStep(prev, value, p)
  {
    current := (value - prev) * multiplier + prev;
  }

  /** `(prev * (period - 1) + value) / period`. */
  method WilderNext(prev: real, value: real, period: nat) returns (current: real)
    requires period >= 1
    ensures current == WilderStep(prev, value, period)
  {
    current := (prev * (period - 1) as real + value) / period as real;
  }

  method Ema(cs: seq<Candle>, period: int) returns (r: Result<Series>)
    ensures period <= 0 ==> r == ValueError
    ensures period > 0 ==> r == Ok(EmaSeries(Closes(cs), period))
  {
    if period <= 0 {
      return ValueError;
    }
    var closes := Closes(cs);
    ghost var want := EmaSeries(closes, period);
    EmaWarmup(closes, period);
    hide EmaSeries, EmaStep, Sum;
    if |closes| < period {
      return Ok(Blank(|cs|));
    }
    var multiplier := 2.0 / (period + 1) as real;
    var total := SumOf(closes[..period]);
    var firstSma := total / period as real;
    var result: Series := Blank(period - 1);
    result := result + [Some(firstSma)];
    var prev := firstSma;
    EmaEntry(closes, period, period - 1);
    Extend(want, period - 1);
    for i := period to |closes|
      invariant result == want[..i] && prev == EmaAt(closes, period, i - 1)
    {
      var current := EmaNext(prev, closes[i], multiplier, period);
      result := result + [Some(current)];
      prev := current;
      EmaEntry(closes, period, i);
      Extend(want, i);
    }
    assert want[..|cs|] == want;
    return Ok(result);
  }

  lemma RsiEntry(v: seq<real>, p: nat, i: nat)
    requires p >= 1 && i < |v|
    ensures |RsiSeries(v, p)| == |v|
    ensures RsiSeries(v, p)[i] == if i < p then None else Some(RsiAt(v, p, i))
  {
  }

  lemma RsiWarmup(v: seq<real>, p: nat)
    requires p >= 1
    ensures |RsiSeries(v, p)| == |v|
    ensures |v| < p + 1 ==> RsiSeries(v, p) == Blank(|v|)
    ensures |v| >= p + 1 ==> RsiSeries(v, p)[..p] == Blank(p)
  {
  }

  /** The RSI from the two averages, as both branches of the loop compute it. */
  method RsiValue(ghost v: seq<real>, ghost p: nat, ghost i: nat, avgGain: real, avgLoss: real) returns (value: real)
    requires 1 <= p <= i < |v| && avgGain == AvgMove(v, p, i, true) && avgLoss == AvgMove(v, p, i, false)
    ensures value == RsiAt(v, p, i)
  {
    AvgMoveNotNegative(v, p, i);
    RatioDefined(avgGain, avgLoss);
    if avgLoss == 0.0 {
      return 100.0;
    }
    var rs := avgGain / avgLoss;
    return 100.0 - 100.0 / (1.0 + rs);
  }

  /** Seeds and steps of the two averages. */
  lemma AvgMoveSteps(v: seq<real>, p: nat, i: nat, up: bool)
    requires 1 <= p <= i < |v|
    ensures i == p ==> AvgMove(v, p, i, up) == Sum(Moves(v, up)[..p]) / p as real
    ensures i > p ==> AvgMove(v, p, i, up) == WilderStep(AvgMove(v, p, i - 1, up), Moves(v, up)[i - 1], p)
  {
    hide WilderStep, Moves, Sum;
  }

  /** `[closes[i] - closes[i - 1] for i in range(1, n)]`. */
  method Deltas(closes: seq<real>) returns (deltas: seq<real>)
    requires closes != []
    ensures |deltas| == |closes| - 1
    ensures forall i :: 0 <= i < |deltas| ==> deltas[i] == closes[i + 1] - closes[i]
  {
    deltas := [];
    for i := 1 to |closes|
      invariant |deltas| == i - 1
      invariant forall j :: 0 <= j < i - 1 ==> deltas[j] == closes[j + 1] - closes[j]
    {
      deltas := deltas + [closes[i] - closes[i - 1]];
    }
  }

  /** The gain (`up`) or loss of one delta. */
  method MoveOf(ghost closes: seq<real>, ghost i: nat, up: bool, delta: real) returns (move: real)
    requires i + 1 < |closes| && delta == closes[i + 1] - closes[i]
    ensures move == Moves(closes, up)[i]
  {
    move := MaxReal(if up then delta else -delta, 0.0);
  }

  /** `[max(d, 0) for d in deltas[:period]]`, or the losses. */
  method FirstMoves(ghost closes: seq<real>, deltas: seq<real>, period: nat, up: bool) returns (moves: seq<real>)
    requires 1 <= period < |closes| && |deltas| == |closes| - 1
    requires forall i :: 0 <= i < |deltas| ==> deltas[i] == closes[i + 1] - closes[i]
    ensures moves == Moves(closes, up)[..period]
  {
    hide Moves;
    moves := [];
    for i := 0 to period
      invariant moves == Moves(closes, up)[..i]
    {
      var move := MoveOf(closes, i, up, deltas[i]);
      moves := moves + [move];
    }
  }

  /** The mean of the first moves. */
  method AverageOf(ghost closes: seq<real>, period: nat, ghost up: bool, moves: seq<real>) returns (average: real)
    requires 1 <= period < |closes| && moves == Moves(closes, up)[..period]
    ensures average == AvgMove(closes, period, period, up)
  {
    hide AvgMove, Moves, Sum;
    AvgMoveSteps(closes, period, period, up);
    var total := SumOf(moves);
    average := total / period as real;
  }

  method NextAverage(ghost closes: seq<real>, period: nat, ghost i: nat, ghost up: bool, prev: real, move: real)
    returns (average: real)
    requires 1 <= period <= i && i + 1 < |closes|
    requires prev == AvgMove(closes, period, i, up) && move == Moves(closes, up)[i]
    ensures average == AvgMove(closes, period, i + 1, up)
  {
    hide AvgMove, Moves, WilderStep;
    AvgMoveSteps(closes, period, i + 1, up);
    average := WilderNext(prev, move, period);
  }

  method Rsi(cs: seq<Candle>, period: int) returns (r: Result<Series>)
    ensures period <= 0 ==> r == ValueError
    ensures period > 0 ==> r == Ok(RsiSeries(Closes(cs), period))
  {
    if period <= 0 {
      return ValueError;
    }
    var closes := Closes(cs);
    ghost var want := RsiSeries(closes, period);
    RsiWarmup(closes, period);
    hide RsiSeries, RsiAt, AvgMove, WilderStep, Sum, Closes, Moves;
    if |closes| < period + 1 {
      return Ok(Blank(|closes|));
    }
    var result: Series := Blank(period);
    var deltas := Deltas(closes);
    var gains := FirstMoves(closes, deltas, period, true);
    var losses := FirstMoves(closes, deltas, period, false);
    var avgGain := AverageOf(closes, period, true, gains);
    var avgLoss := AverageOf(closes, period, false, losses);
    var value := RsiValue(closes, period, period, avgGain, avgLoss);
    result := result + [Some(value)];
    RsiEntry(closes, period, period);
    Extend(want, period);
    for i := period to |deltas|
      invariant result == want[..i + 1]
      invariant avgGain == AvgMove(closes, period, i, true) && avgLoss == AvgMove(closes, period, i, false)
    {
      var gain := MoveOf(closes, i, true, deltas[i]);
      var loss := MoveOf(closes, i, false, deltas[i]);
      avgGain := NextAverage(closes, period, i, true, avgGain, gain);
      avgLoss := NextAverage(closes, period, i, false, avgLoss, loss);
      value := RsiValue(closes, period, i + 1, avgGain, avgLoss);
      result := result + [Some(value)];
      RsiEntry(closes, period, i + 1);
      Extend(want, i + 1);
    }
    assert want[..|cs|] == want;
    return Ok(result);
  }

  lemma AtrWarmup(cs: seq<Candle>, p: nat)
    requires p >= 1
    ensures |AtrSeries(cs, p)| == |cs|
    ensures |cs| < 2 ==> AtrSeries(cs, p) == Blank(|cs|)
    ensures 2 <= |cs| < p + 1 ==> AtrSeries(cs, p) == [None] + Blank(|cs| - 1)
    ensures |cs| >= p + 1 ==> AtrSeries(cs, p)[..p] == [None] + Blank(p - 1)
  {
  }

  method Ranges(cs: seq<Candle>) returns (ranges: seq<real>)
    requires cs != []
    ensures ranges == TrueRanges(cs)
  {
    ranges := [];
    for i := 1 to |cs|
      invariant ranges == TrueRanges(cs)[..i - 1]
    {
      var highLow := cs[i].high - cs[i].low;
      var highClose := Abs(cs[i].high - cs[i - 1].close);
      var lowClose := Abs(cs[i].low - cs[i - 1].close);
      ranges := ranges + [MaxReal(MaxReal(highLow, highClose), lowClose)];
    }
  }

  /** The mean of the first `period` values, which seeds the average. */
  method FirstAverage(values: seq<real>, period: nat) returns (average: real)
    requires 1 <= period <= |values|
    ensures average == WilderAt(values, period, period - 1)
  {
    var total := SumOf(values[..period]);
    average := total / period as real;
  }

  method NextWilder(ghost values: seq<real>, period: nat, ghost i: nat, prev: real, value: real)
    returns (average: real)
    requires 1 <= period <= i < |values| && value == values[i] && prev == WilderAt(values, period, i - 1)
    ensures average == WilderAt(values, period, i)
  {
    hide WilderStep;
    average := WilderNext(prev, value, period);
  }

  method Atr(cs: seq<Candle>, period: int) returns (r: Result<Series>)
    ensures period <= 0 ==> r == ValueError
    ensures period > 0 ==> r == Ok(AtrSeries(cs, period))
  {
    if period <= 0 {
      return ValueError;
    }
    ghost var want := AtrSeries(cs, period);
    AtrWarmup(cs, period);
    hide AtrSeries, TrueRanges, WilderAt, Sum;
    if |cs| < 2 {
      return Ok(Blank(|cs|));
    }
    var ranges := Ranges(cs);
    if |ranges| < period {
      return Ok([None] + Blank(|ranges|));
    }
    var firstAtr := FirstAverage(ranges, period);
    var result: Series := [None] + Blank(period - 1);
    result := result + [Some(firstAtr)];
    var prev := firstAtr;
    AtrEntry(cs, period, period);
    Extend(want, period);
    for i := period to |ranges|
      invariant result == want[..i + 1] && prev == WilderAt(ranges, period, i - 1)
    {
      var current := NextWilder(ranges, period, i, prev, ranges[i]);
      result := result + [Some(current)];
      prev := current;
      AtrEntry(cs, period, i + 1);
      Extend(want, i + 1);
    }
    assert want[..|cs|] == want;
    return Ok(result);
  }

  lemma VwapEntry(cs: seq<Candle>, i: nat)
    requires i < |cs|
    ensures |VwapSeries(cs)| == |cs| && VwapSeries(cs)[i] == VwapOf(cs[..i + 1])
    ensures Volume(cs[..i + 1]) == Volume(cs[..i]) + cs[i].volume
    ensures Turnover(cs[..i + 1]) == Turnover(cs[..i]) + Typical(cs[i]) * cs[i].volume as real
  {
    assert cs[..i + 1][..i] == cs[..i];
  }

  method Vwap(cs: seq<Candle>) returns (r: Series)
    ensures r == VwapSeries(cs)
  {
    ghost var want := VwapSeries(cs);
    assert |want| == |cs|;
    hide VwapSeries, Volume, Turnover, Typical;
    r := [];
    var cumVolume, cumTurnover := 0, 0.0;
    VwapStart();
    for i := 0 to |cs|
      invariant r == want[..i]
      invariant cumVolume == Volume(cs[..i]) && cumTurnover == Turnover(cs[..i])
    {
      VwapEntry(cs, i);
      Extend(want, i);
      var typical := Typical(cs[i]);
      cumTurnover := cumTurnover + typical * cs[i].volume as real;
      cumVolume := cumVolume + cs[i].volume;
      var value := VwapValue(cs[..i + 1], cumVolume, cumTurnover);
      r := r + [value];
    }
    assert want[..|cs|] == want;
  }

  method VwapValue(ghost cs: seq<Candle>, cumVolume: int, cumTurnover: real) returns (value: Option<real>)
    requires cumVolume == Volume(cs) && cumTurnover == Turnover(cs)
    ensures value == VwapOf(cs)
  {
    if cumVolume == 0 {
      return None;
    }
    return Some(cumTurnover / cumVolume as real);
  }

  lemma VwapStart()
    ensures Volume([]) == 0 && Turnover([]) == 0.0
  {
  }

  // ---------------------------------------------------------------- the signal, for every period

  method NextRunning(ghost values: seq<real>, ghost period: int, ghost i: int, value: real, prev: real,
                     multiplier: real) returns (current: real)
    requires Divides(period) && -|values| <= period <= i < |values| && value == values[Wrapped(i, |values|)]
    requires multiplier == 2.0 / (period + 1) as real && prev == RunningAt(values, period, i - 1)
    ensures current == RunningAt(values, period, i)
  {
    current := (value - prev) * multiplier + prev;
  }

  /** The signal loop; where it raises, what the list held is lost. */
  method EmaFromValues(values: seq<real>, period: int, offset: nat, totalLength: nat) returns (r: Result<Series>)
    requires offset + |values| <= totalLength
    ensures r == FromValues(values, period, offset, totalLength)
  {
    if |values| == 0 || |values| < period {
      return Ok(Blank(totalLength));
    }
    if period + 1 == 0 {
      return ArithmeticError;
    }
    var multiplier := 2.0 / (period + 1) as real;
    var result := Blank(totalLength);
    if period == 0 {
      return ArithmeticError;
    }
    var total := SumOf(values[..SliceEnd(|values|, period)]);
    var prev := total / period as real;
    assert prev == RunningAt(values, period, period - 1);
    hide RunningAt, Sum;
    if offset + period - 1 + totalLength < 0 {
      return IndexError;
    }
    result := result[Wrapped(offset + period - 1, totalLength) := Some(prev)];
    forall k | 0 <= k < totalLength
      ensures result[k] == Written(values, period, offset, totalLength, k, period)
    {
      WrittenFirst(values, period, offset, totalLength, k);
    }
    hide Written, FromValues;
    for i := period to |values|
      invariant |result| == totalLength && (i > period ==> -|values| <= period)
      invariant prev == RunningAt(values, period, i - 1)
      invariant forall k :: 0 <= k < totalLength ==> result[k] == Written(values, period, offset, totalLength, k, i)
    {
      if i < -|values| {
        return IndexError;
      }
      prev := NextRunning(values, period, i, values[Wrapped(i, |values|)], prev, multiplier);
      ghost var before := result;
      result := result[Wrapped(offset + i, totalLength) := Some(prev)];
      forall k | 0 <= k < totalLength
        ensures result[k] == Written(values, period, offset, totalLength, k, i + 1)
      {
        WrittenNext(values, period, offset, totalLength, k, i);
        assert before[k] == Written(values, period, offset, totalLength, k, i);
      }
    }
    AllWritten(values, period, offset, totalLength, result);
    return Ok(result);
  }

  function Difference(f: Option<real>, s: Option<real>): Option<real> {
    if f.Some? && s.Some? then Some(f.value - s.value) else None
  }

  /** The line where both averages exist, the same values alone, and the first index that has one. */
  method Line(fast: Series, slow: Series) returns (line: Series, valid: seq<real>, first: nat)
    requires |fast| == |slow|
    ensures |line| == |fast| && first <= |line|
    ensures forall i :: 0 <= i < |line| ==> line[i] == Difference(fast[i], slow[i])
    ensures valid == Present(line)
    ensures (forall i :: 0 <= i < first ==> line[i].None?) && (first < |line| ==> line[first].Some?)
  {
    line, valid := [], [];
    for i := 0 to |fast|
      invariant |line| == i && valid == Present(line)
      invariant forall j :: 0 <= j < i ==> line[j] == Difference(fast[j], slow[j])
    {
      if fast[i].Some? && slow[i].Some? {
        line, valid := line + [Some(fast[i].value - slow[i].value)], valid + [fast[i].value - slow[i].value];
      } else {
        line := line + [None];
      }
    }
    first := 0;
    while first < |line| && line[first].None?
      invariant first <= |line| && forall i :: 0 <= i < first ==> line[i].None?
    {
      first := first + 1;
    }
  }

  /** `[v for v in line if v is not None]`. */
  function Present(line: Series): seq<real> {
    if line == [] then []
    else
      var n := |line| - 1;
      Present(line[..n]) + if line[n].Some? then [line[n].value] else []
  }

  lemma {:induction false} PresentTail(line: Series, w: nat, values: seq<real>)
    requires |line| == w + |values|
    requires forall i :: 0 <= i < |line| ==> line[i] == if i < w then None else Some(values[i - w])
    ensures Present(line) == values
  {
    if |line| > 0 {
      var n := |line| - 1;
      if values == [] {
        PresentTail(line[..n], n, []);
      } else {
        PresentTail(line[..n], w, values[..|values| - 1]);
      }
    }
  }

  lemma {:induction false} PresentNone(line: Series)
    requires forall i :: 0 <= i < |line| ==> line[i].None?
    ensures Present(line) == []
  {
    if line != [] {
      PresentNone(line[..|line| - 1]);
    }
  }

  method MacdOf(cs: seq<Candle>, fast: int, slow: int, signal: int) returns (r: Result<seq<Option<Macd>>>)
    ensures fast <= 0 || slow <= 0 ==> r == ValueError
    ensures fast > 0 && slow > 0 ==> r == MacdResult(Closes(cs), fast, slow, signal)
    ensures fast > 0 && slow > 0 && signal >= 1 ==> r == Ok(MacdSeries(Closes(cs), fast, slow, signal))
  {
    var fastEma := Ema(cs, fast);
    if fastEma.ValueError? {
      return ValueError;
    }
    var slowEma := Ema(cs, slow);
    if slowEma.ValueError? {
      return ValueError;
    }
    hide EmaAt, RunningAt, MacdLine, Present, Difference, Closes, EmaSeries, MacdSeries, Both;
    EmaWarmup(Closes(cs), fast);
    EmaWarmup(Closes(cs), slow);
    r := FromAverages(Closes(cs), fast, slow, signal, fastEma.value, slowEma.value);
  }

  method FromAverages(ghost v: seq<real>, ghost fast: nat, ghost slow: nat, signal: int,
                      fastEma: Series, slowEma: Series)
    returns (r: Result<seq<Option<Macd>>>)
    requires fast >= 1 && slow >= 1
    requires fastEma == EmaSeries(v, fast) && slowEma == EmaSeries(v, slow)
    ensures r == MacdResult(v, fast, slow, signal)
  {
    hide EmaAt, RunningAt, MacdLine, Present, Difference, MacdSeries, Both, FromValues;
    var line, valid, first := Line(fastEma, slowEma);
    LineIsLine(v, fast, slow, line, first);
    var signals := EmaFromValues(valid, signal, first, |fastEma|);
    SignalMatters(v, fast, slow, signal, first);
    if signals.ArithmeticError? {
      return ArithmeticError;
    }
    if signals.IndexError? {
      return IndexError;
    }
    var result := Combine(line, signals.value);
    ghost var want := MacdResult(v, fast, slow, signal).value;
    forall i | 0 <= i < |v| ensures result[i] == want[i] {
      MacdEntry(v, fast, slow, signal, i, line[i], signals.value[i]);
    }
    assert result == want;
    return Ok(result);
  }

  /** When the signal raises, and what it holds where the line has a value. */
  lemma SignalMatters(v: seq<real>, fast: nat, slow: nat, signal: int, first: nat)
    requires fast >= 1 && slow >= 1
    requires first == if Warmup(fast, slow) < |v| then Warmup(fast, slow) else |v|
    ensures var line, w := MacdLine(v, fast, slow), Warmup(fast, slow);
      var s, r := FromValues(line, signal, first, |v|), MacdResult(v, fast, slow, signal);
      && !s.ValueError? && (s.Ok? <==> r.Ok?) && (s.ArithmeticError? <==> r.ArithmeticError?)
      && (s.Ok? ==>
            && |s.value| == |v| == |r.value|
            && forall i :: w <= i < |v| ==>
                 s.value[i] == if signal >= 1 && i < w + signal - 1 then None
                               else if signal >= 1 then Some(EmaAt(line, signal, i - w))
                               else Some(RunningAt(line, signal, i - w)))
  {
    hide EmaAt, RunningAt;
    var line := MacdLine(v, fast, slow);
    hide MacdLine, MacdAt;
    if signal >= 1 {
      SignalIsEma(line, signal, first, |v|);
    }
  }

  function Both(l: Option<real>, s: Option<real>): Option<Macd> {
    if l.Some? && s.Some? then Some(Macd(l.value, s.value, l.value - s.value)) else None
  }

  method Combine(line: Series, signals: Series) returns (result: seq<Option<Macd>>)
    requires |line| == |signals|
    ensures |result| == |line|
    ensures forall i :: 0 <= i < |line| ==> result[i] == Both(line[i], signals[i])
  {
    result := [];
    for i := 0 to |line|
      invariant |result| == i
      invariant forall j :: 0 <= j < i ==> result[j] == Both(line[j], signals[j])
    {
      if line[i].Some? && signals[i].Some? {
        result := result + [Some(Macd(line[i].value, signals[i].value, line[i].value - signals[i].value))];
      } else {
        result := result + [None];
      }
    }
  }

  /** The entries of line and signal at one index make the entry of the series. */
  lemma MacdEntry(v: seq<real>, fast: nat, slow: nat, signal: int, i: nat, l: Option<real>, s: Option<real>)
    requires fast >= 1 && slow >= 1 && i < |v| && MacdResult(v, fast, slow, signal).Ok?
    requires |MacdResult(v, fast, slow, signal).value| == |v|
    requires l == if i < Warmup(fast, slow) then None else Some(MacdLine(v, fast, slow)[i - Warmup(fast, slow)])
    requires i >= Warmup(fast, slow) ==>
      s == if signal >= 1 && i < Warmup(fast, slow) + signal - 1 then None
           else if signal >= 1 then Some(EmaAt(MacdLine(v, fast, slow), signal, i - Warmup(fast, slow)))
           else Some(RunningAt(MacdLine(v, fast, slow), signal, i - Warmup(fast, slow)))
    ensures MacdResult(v, fast, slow, signal).value[i] == Both(l, s)
  {
    hide EmaAt, RunningAt, MacdLine;
  }

  /** The nested warm-ups align: the line starts where the longer average does. */
  lemma LineIsLine(v: seq<real>, fast: nat, slow: nat, line: Series, first: nat)
    requires fast >= 1 && slow >= 1 && |line| == |v| && first <= |line|
    requires forall i :: 0 <= i < |line| ==> line[i] == Difference(EmaSeries(v, fast)[i], EmaSeries(v, slow)[i])
    requires (forall i :: 0 <= i < first ==> line[i].None?) && (first < |line| ==> line[first].Some?)
    ensures Present(line) == MacdLine(v, fast, slow)
    ensures first == if Warmup(fast, slow) < |v| then Warmup(fast, slow) else |v|
    ensures forall i :: 0 <= i < |line| ==>
      line[i] == if i < Warmup(fast, slow) then None else Some(MacdLine(v, fast, slow)[i - Warmup(fast, slow)])
  {
    hide EmaAt, EmaSeries, Present;
    var w := Warmup(fast, slow);
    forall i | 0 <= i < |line|
      ensures line[i] == if i < w then None else Some(MacdLine(v, fast, slow)[i - w])
    {
      EmaEntry(v, fast, i);
      EmaEntry(v, slow, i);
    }
    if w < |v| {
      PresentTail(line, w, MacdLine(v, fast, slow));
      assert line[w].Some?;
    } else {
      PresentNone(line);
    }
  }
}
