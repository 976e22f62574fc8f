/** What the ten checks of src/risk/manager.py decide and report, condition by condition. */
module RiskLaws {
  import opened KillSwitches
  import opened Risk
  import opened RateLimiter

  lemma {:induction false} AfterIsIn(ts: seq<real>, cutoff: real)
    ensures CountAfter(ts, cutoff) == CountIn(ts, t => t > cutoff)
  {
    if ts != [] {
      AfterIsIn(ts[..|ts| - 1], cutoff);
    }
  }

  /** How many recorded orders lie in the window of this width that ends at `now`. */
  function InLast(ts: seq<real>, width: real, now: real): nat {
    CountIn(ts, t => t > now - width)
  }

  /** The ten conditions, on the figures themselves. */
  predicate Clears(l: Limits, s: Ledger, symbols: set<string>, level: Level, o: Order, inHours: bool, now: real,
                   check: nat)
    requires 1 <= check <= 10
  {
    var value := o.price * o.quantity as real;
    var position := if o.symbol in s.positions then s.positions[o.symbol] else 0.0;
    match check
    case 1 => o.symbol in symbols
    case 2 => inHours
    case 3 => value <= l.maxOrderValue
    case 4 => s.dailyOrderCount < l.maxDailyOrders
    case 5 =>
      InLast(s.orderTimestamps, 1.0, now) < l.maxPerSecond && InLast(s.orderTimestamps, 60.0, now) < l.maxPerMinute
    case 6 => value <= s.marginAvailable
    case 7 => (position + o.quantity as real) * o.price <= l.maxPositionPerSymbol
    case 8 => s.exposure + value <= l.maxTotalExposure
    case 9 => o.price > 0.0
    case _ => level == Inactive || level == Throttle
  }

  const CHECK_IDS := ["T1", "T2", "T3", "T4", "T5", "T6", "T7", "T8", "T9", "T10"]

  /** Each check reports its identifier, and passes exactly when its condition holds. */
  lemma ChecksMeaning(l: Limits, s: Ledger, symbols: set<string>, level: Level, o: Order, inHours: bool, now: real)
    ensures var rs := CheckAll(l, s, symbols, level, o, inHours, now);
      && |rs| == |CHECK_IDS|
      && forall i :: 0 <= i < 10 ==>
           rs[i].id == CHECK_IDS[i] && (rs[i].passed <==> Clears(l, s, symbols, level, o, inHours, now, i + 1))
  {
    hide CountAfter, CountIn;
    AfterIsIn(s.orderTimestamps, now - 1.0);
    AfterIsIn(s.orderTimestamps, now - 60.0);
  }

  /** The gate opens exactly when all ten conditions hold. */
  lemma GateIff(l: Limits, s: Ledger, symbols: set<string>, level: Level, o: Order, inHours: bool, now: real)
    ensures FailedIds(CheckAll(l, s, symbols, level, o, inHours, now)) == [] <==>
      forall check :: 1 <= check <= 10 ==> Clears(l, s, symbols, level, o, inHours, now, check)
  {
    hide CheckAll, Clears;
    ChecksMeaning(l, s, symbols, level, o, inHours, now);
    var rs := CheckAll(l, s, symbols, level, o, inHours, now);
    if forall check :: 1 <= check <= 10 ==> Clears(l, s, symbols, level, o, inHours, now, check) {
      forall r | r in rs ensures r.passed {
        var i :| 0 <= i < |rs| && rs[i] == r;
        assert Clears(l, s, symbols, level, o, inHours, now, i + 1);
      }
    } else {
      var check :| 1 <= check <= 10 && !Clears(l, s, symbols, level, o, inHours, now, check);
      var i := check - 1;
      assert rs[i] in rs && !rs[i].passed;
    }
  }

  // ---------------------------------------------------------------- what is reported

  function Failures(rs: seq<CheckResult>): nat {
    if rs == [] then 0 else Failures(rs[..|rs| - 1]) + if rs[|rs| - 1].passed then 0 else 1
  }

  /** The failed checks are listed by identifier, each one once and in order: a failing check stands behind exactly
      those that failed before it. */
  lemma {:induction false} FailedAreListed(rs: seq<CheckResult>, i: nat)
    requires i < |rs| && !rs[i].passed
    ensures |FailedIds(rs)| == Failures(rs) > Failures(rs[..i])
    ensures FailedIds(rs)[Failures(rs[..i])] == rs[i].id
  {
    var n := |rs| - 1;
    FailedCount(rs[..n]);
    if i < n {
      FailedAreListed(rs[..n], i);
      assert rs[..n][..i] == rs[..i];
    }
  }

  lemma {:induction false} FailedCount(rs: seq<CheckResult>)
    ensures |FailedIds(rs)| == Failures(rs)
  {
    if rs != [] {
      FailedCount(rs[..|rs| - 1]);
    }
  }
}
