/** The MACD of src/ta/indicators.py for every signal period, negative ones included, and its laws. */
module MacdSignals {
  import opened Prelude
  import opened IndicatorSpecs
  import opened IndicatorSeries

  /** The position of a list index that may be negative. */
  function Wrapped(i: int, n: nat): int {
    if i < 0 then i + n else i
  }

  /** Where `values[:period]` ends. */
  function SliceEnd(n: nat, period: int): nat
    requires period <= n
  {
    if period >= 0 then period else MaxInt(0, n + period)
  }

  predicate Divides(period: int) {
    period != 0 && period != -1
  }

  function SignalStep(prev: real, x: real, period: int): real
    requires Divides(period)
  {
    (x - prev) * (2.0 / (period + 1) as real) + prev
  }

  /** The running average after turn `i`, seeded at turn `period - 1`.  With a negative period the turns, and
      with them the list indices, start below zero. */
  function RunningAt(values: seq<real>, period: int, i: int): real
    requires Divides(period) && period <= |values| && period - 1 <= i < |values|
    requires i >= period ==> -|values| <= period
    decreases i - period + 1
  {
    if i == period - 1 then Sum(values[..SliceEnd(|values|, period)]) / period as real
    else
      SignalStep(RunningAt(values, period, i - 1), values[Wrapped(i, |values|)], period)
  }

  /** What stands at place `k` once all turns before `i` have written at `offset + turn`. */
  function Written(values: seq<real>, period: int, offset: nat, total: nat, k: nat, i: int): Option<real>
    requires Divides(period) && period <= i <= |values| && (i > period ==> -|values| <= period)
  {
    if period - 1 <= k - offset < i then Some(RunningAt(values, period, k - offset))
    else if period - 1 <= k - offset - total < i then Some(RunningAt(values, period, k - offset - total))
    else None
  }

  /** The signal for every period: a period of 0 or -1 divides by zero, and one below wraps around both lists
      or leaves them. */
  function FromValues(values: seq<real>, period: int, offset: nat, total: nat): Result<Series> {
    if values == [] || |values| < period then Ok(Blank(total))
    else if !Divides(period) then ArithmeticError
    else if offset + period - 1 + total < 0 || period < -|values| then IndexError
    else Ok(seq(total, k requires 0 <= k < total => Written(values, period, offset, total, k, |values|)))
  }

  lemma {:induction false} RunningIsEma(values: seq<real>, period: int, i: int)
    requires 1 <= period && period - 1 <= i < |values|
    ensures RunningAt(values, period, i) == EmaAt(values, period, i)
    decreases i
  {
    if i > period - 1 {
      RunningIsEma(values, period, i - 1);
    }
  }

  /** For a positive period the signal is the smoothed list, one value at exactly the offset places. */
  lemma SignalIsEma(values: seq<real>, period: int, offset: nat, total: nat)
    requires period >= 1 && offset + |values| <= total
    ensures var r := FromValues(values, period, offset, total);
      && r.Ok? && |r.value| == total
      && forall k :: 0 <= k < total ==>
           r.value[k] == if offset + period - 1 <= k < offset + |values|
                         then Some(EmaAt(values, period, k - offset)) else None
  {
    hide RunningAt, EmaAt;
    var r := FromValues(values, period, offset, total).value;
    forall k | 0 <= k < total
      ensures r[k] == if offset + period - 1 <= k < offset + |values|
                      then Some(EmaAt(values, period, k - offset)) else None
    {
      if |values| < period {
        assert r == Blank(total);
      } else if offset + period - 1 <= k < offset + |values| {
        RunningIsEma(values, period, k - offset);
      }
    }
  }

  /** One turn: the write lands at its place, or wrapped around, over whatever stood there. */
  lemma WrittenNext(values: seq<real>, period: int, offset: nat, total: nat, k: nat, i: int)
    requires Divides(period) && period <= i < |values| && -|values| <= period && offset + |values| <= total
    requires 0 <= offset + i + total && k < total
    ensures Written(values, period, offset, total, k, i + 1) ==
      if k == Wrapped(offset + i, total) then Some(RunningAt(values, period, i))
      else Written(values, period, offset, total, k, i)
  {
    hide RunningAt;
  }

  lemma WrittenFirst(values: seq<real>, period: int, offset: nat, total: nat, k: nat)
    requires Divides(period) && period <= |values| && offset + |values| <= total
    requires 0 <= offset + period - 1 + total && k < total
    ensures Written(values, period, offset, total, k, period) ==
      if k == Wrapped(offset + period - 1, total) then Some(RunningAt(values, period, period - 1)) else None
  {
    hide RunningAt;
  }

  lemma AllWritten(values: seq<real>, period: int, offset: nat, total: nat, result: Series)
    requires values != [] && Divides(period) && -|values| <= period <= |values| && 0 <= offset + period - 1 + total
    requires |result| == total
    requires forall k :: 0 <= k < total ==> result[k] == Written(values, period, offset, total, k, |values|)
    ensures FromValues(values, period, offset, total) == Ok(result)
  {
    hide RunningAt;
    var want := FromValues(values, period, offset, total).value;
    forall k | 0 <= k < total ensures want[k] == result[k] {
      assert want[k] == Written(values, period, offset, total, k, |values|);
    }
    assert want == result;
  }

  /** MACD for every signal period.  Below 1 the source checks nothing: with values on the line, 0 and -1 divide by
      zero; a period further below raises when it reaches past either list, and otherwise gives a value at every
      place of the line. */
  function MacdResult(v: seq<real>, fast: nat, slow: nat, signal: int): Result<seq<Option<Macd>>>
    requires fast >= 1 && slow >= 1
  {
    var w, line := Warmup(fast, slow), MacdLine(v, fast, slow);
    if signal >= 1 then Ok(MacdSeries(v, fast, slow, signal))
    else if |v| <= w then Ok(seq(|v|, i => None))
    else if !Divides(signal) then ArithmeticError
    else if -signal > |v| - w || (w == 0 && -signal == |v|) then IndexError
    else Ok(seq(|v|, i requires 0 <= i < |v| =>
      if i < w then None
      else
        var s := RunningAt(line, signal, i - w);
        Some(Macd(line[i - w], s, line[i - w] - s))))
  }

  // ---------------------------------------------------------------- look-ahead

  /** The result for any first `k` closes is the first `k` entries of the result. */
  ghost predicate NoLookAhead(fast: nat, slow: nat, signal: int)
    requires fast >= 1 && slow >= 1
  {
    forall v: seq<real>, k: nat :: k <= |v| && MacdResult(v, fast, slow, signal).Ok? ==>
      MacdResult(v[..k], fast, slow, signal) == Ok(MacdResult(v, fast, slow, signal).value[..k])
  }

  function Flat(n: nat): seq<real> {
    seq(n, i => 0.0)
  }

  /** MACD never looks ahead exactly when the signal period is at least -1; further below, a list of closes can be
      long enough whose prefix is not. */
  lemma MacdLookAheadIff(fast: nat, slow: nat, signal: int)
    requires fast >= 1 && slow >= 1
    ensures NoLookAhead(fast, slow, signal) <==> signal >= -1
  {
    hide MacdLine, MacdAt;
    var w := Warmup(fast, slow);
    if signal >= -1 {
      forall v: seq<real>, k: nat | k <= |v| && MacdResult(v, fast, slow, signal).Ok?
        ensures MacdResult(v[..k], fast, slow, signal) == Ok(MacdResult(v, fast, slow, signal).value[..k])
      {
        if signal >= 1 {
          MacdSeriesPrefix(v, fast, slow, signal, k);
        } else {
          assert MacdResult(v[..k], fast, slow, signal).value == MacdResult(v, fast, slow, signal).value[..k];
        }
      }
    } else {
      var v, k := Flat(w + 1 - signal), w + 1;
      assert MacdResult(v, fast, slow, signal).Ok?;
      assert MacdResult(v[..k], fast, slow, signal).IndexError?;
    }
  }

  /** Nor are the values safe where both lists are long enough: with a signal period of -2 a later close changes an
      earlier signal. */
  lemma SignalLooksAhead()
    ensures var v, entry := [0.0, 2.0, 2.0, 2.0],
        (v: seq<real>) => MacdResult(v, 1, 2, -2);
      && entry(v).Ok? && entry(v[..3]).Ok?
      && entry(v).value[1] == Some(Macd(1.0, -133.0 / 6.0, 139.0 / 6.0))
      && entry(v[..3]).value[1] == Some(Macd(1.0, -22.0, 23.0))
  {
    var v := [0.0, 2.0, 2.0, 2.0];
    var u := v[..3];
    assert u == [0.0, 2.0, 2.0];
    LineOfExample(u);
    LineOfExample(v);
    assert MacdLine(u, 1, 2) == [1.0, 1.0 / 3.0];
    assert MacdLine(v, 1, 2) == [1.0, 1.0 / 3.0, 1.0 / 9.0];
    hide MacdLine;
    ShortSignal([1.0, 1.0 / 3.0]);
    LongSignal([1.0, 1.0 / 3.0, 1.0 / 9.0]);
  }

  lemma LineOfExample(v: seq<real>)
    requires 3 <= |v| <= 4 && v[0] == 0.0 && forall i :: 1 <= i < |v| ==> v[i] == 2.0
    ensures var line := MacdLine(v, 1, 2);
      |line| == |v| - 1 && line[0] == 1.0 && line[1] == 1.0 / 3.0 && (|v| == 4 ==> line[2] == 1.0 / 9.0)
  {
    assert Sum(v[..1]) == 0.0 && Sum(v[..2]) == 2.0 by {
      assert v[..2][..1] == v[..1] && v[..1][..0] == [];
    }
    assert EmaAt(v, 1, 0) == 0.0 && EmaAt(v, 1, 1) == 2.0 && EmaAt(v, 1, 2) == 2.0;
    assert EmaAt(v, 2, 1) == 1.0 && EmaAt(v, 2, 2) == 5.0 / 3.0;
    if |v| == 4 {
      assert EmaAt(v, 1, 3) == 2.0 && EmaAt(v, 2, 3) == 17.0 / 9.0;
    }
  }

  lemma ShortSignal(line: seq<real>)
    requires line == [1.0, 1.0 / 3.0]
    ensures RunningAt(line, -2, 0) == -22.0
  {
    assert RunningAt(line, -2, -3) == 0.0 by {
      assert line[..0] == [];
    }
    assert RunningAt(line, -2, -2) == -2.0;
    assert RunningAt(line, -2, -1) == -20.0 / 3.0;
  }

  lemma LongSignal(line: seq<real>)
    requires line == [1.0, 1.0 / 3.0, 1.0 / 9.0]
    ensures RunningAt(line, -2, 0) == -133.0 / 6.0
  {
    assert RunningAt(line, -2, -3) == -0.5 by {
      assert line[..1] == [1.0] && [1.0][..0] == [];
    }
    assert RunningAt(line, -2, -2) == -13.0 / 6.0;
    assert RunningAt(line, -2, -1) == -121.0 / 18.0;
  }

  // ---------------------------------------------------------------- scale

  lemma {:induction false} RunningScales(v: seq<real>, period: int, i: int, a: real)
    requires Divides(period) && period <= |v| && period - 1 <= i < |v| && (i >= period ==> -|v| <= period)
    ensures RunningAt(Affine(v, a, 0.0), period, i) == Lin(a, RunningAt(v, period, i), 0.0)
    decreases i - period + 1
  {
    hide Lin, SignalStep, Sum;
    if i == period - 1 {
      SeedScales(v, SliceEnd(|v|, period), period, a);
    } else {
      RunningScales(v, period, i - 1, a);
      assert Affine(v, a, 0.0)[Wrapped(i, |v|)] == Lin(a, v[Wrapped(i, |v|)], 0.0);
      StepScales(a, v[Wrapped(i, |v|)], RunningAt(v, period, i - 1), period);
    }
  }

  lemma SeedScales(v: seq<real>, n: nat, period: int, a: real)
    requires n <= |v| && period != 0
    ensures Sum(Affine(v, a, 0.0)[..n]) / period as real == Lin(a, Sum(v[..n]) / period as real, 0.0)
  {
    hide Sum;
    SumAffine(v[..n], a, 0.0);
    AffinePrefix(v, a, 0.0, n);
    QuotientScales(a, Sum(v[..n]), period as real);
  }

  lemma QuotientScales(a: real, sum: real, n: real)
    requires n != 0.0
    ensures (a * sum) / n == a * (sum / n)
  {
    var q := sum / n;
    assert q * n == sum;
    assert a * sum == a * q * n;
  }

  lemma StepScales(a: real, x: real, prev: real, period: int)
    requires Divides(period)
    ensures SignalStep(Lin(a, prev, 0.0), Lin(a, x, 0.0), period) == Lin(a, SignalStep(prev, x, period), 0.0)
  {
    var m := 2.0 / (period + 1) as real;
    assert (a * x - a * prev) * m == a * ((x - prev) * m);
  }

  /** MACD ignores a shift of all prices and scales with them, for every signal period: the same errors, and every
      entry scaled. */
  lemma MacdAffine(v: seq<real>, fast: nat, slow: nat, signal: int, a: real, b: real)
    requires fast >= 1 && slow >= 1
    ensures var r, t := MacdResult(v, fast, slow, signal), MacdResult(Affine(v, a, b), fast, slow, signal);
      if !r.Ok? then t == r
      else
        && t.Ok? && |t.value| == |r.value| == |v|
        && forall i :: 0 <= i < |v| ==>
             if r.value[i].None? then t.value[i].None? else t.value[i] == Some(Rescaled(r.value[i].value, a))
  {
    hide MacdLine, MacdAt, RunningAt, Rescaled;
    if MacdResult(v, fast, slow, signal).Ok? {
      var r, t := MacdResult(v, fast, slow, signal).value, MacdResult(Affine(v, a, b), fast, slow, signal).value;
      forall i | 0 <= i < |v|
        ensures if r[i].None? then t[i].None? else t[i] == Some(Rescaled(r[i].value, a))
      {
        EntryScales(v, fast, slow, signal, a, b, i);
      }
    }
  }

  lemma EntryScales(v: seq<real>, fast: nat, slow: nat, signal: int, a: real, b: real, i: nat)
    requires fast >= 1 && slow >= 1 && i < |v| && MacdResult(v, fast, slow, signal).Ok?
    ensures var r, t := MacdResult(v, fast, slow, signal), MacdResult(Affine(v, a, b), fast, slow, signal);
      && t.Ok? && |t.value| == |r.value| == |v|
      && if r.value[i].None? then t.value[i].None? else t.value[i] == Some(Rescaled(r.value[i].value, a))
  {
    hide MacdLine, MacdAt, MacdSeries, RunningAt, Lin;
    var w, line := Warmup(fast, slow), MacdLine(v, fast, slow);
    if signal >= 1 {
      hide Rescaled;
      SeriesEntry(v, fast, slow, signal, i);
      SeriesEntry(Affine(v, a, b), fast, slow, signal, i);
      if i >= w + signal - 1 {
        MacdAtAffine(v, fast, slow, signal, i, a, b);
      }
    } else if i >= w {
      LineAffine(v, fast, slow, a, b);
      RunningScales(line, signal, i - w, a);
      assert Affine(line, a, 0.0)[i - w] == Lin(a, line[i - w], 0.0);
      LinDifference(a, line[i - w], RunningAt(line, signal, i - w), 0.0);
    }
  }

  lemma SeriesEntry(v: seq<real>, fast: nat, slow: nat, signal: nat, i: nat)
    requires fast >= 1 && slow >= 1 && signal >= 1 && i < |v|
    ensures |MacdSeries(v, fast, slow, signal)| == |v|
    ensures MacdSeries(v, fast, slow, signal)[i] ==
      if i < Warmup(fast, slow) + signal - 1 then None else Some(MacdAt(v, fast, slow, signal, i))
  {
    hide MacdAt;
  }
}
