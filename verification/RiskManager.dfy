/** The pre-trade risk gate of src/risk/manager.py: ten checks over a mutable risk state. */
module Risk {
  import opened Prelude
  import opened AuditTrails
  import opened KillSwitches

  datatype Order = Order(
    symbol: string, segment: string, orderType: string, quantity: int, price: real, strategyId: string)

  function Value(o: Order): real {
    o.price * o.quantity as real
  }

  /** The limits of config/settings.py that the checks read. */
  datatype Limits = Limits(
    maxOrderValue: real, maxDailyOrders: int, maxPerSecond: int, maxPerMinute: int,
    maxPositionPerSymbol: real, maxTotalExposure: real)

  /** The value of a risk state at one moment. */
  datatype Ledger = Ledger(
    dailyOrderCount: int, exposure: real, positions: map<string, real>,
    marginAvailable: real, marginUsed: real,
    orderTimestamps: seq<real>, orderRejections: seq<real>)

  datatype CheckResult = CheckResult(id: string, passed: bool)

  function PositionOf(s: Ledger, symbol: string): real {
    if symbol in s.positions then s.positions[symbol] else 0.0
  }

  /** How many timestamps lie strictly after `cutoff`. */
  function CountAfter(ts: seq<real>, cutoff: real): nat {
    if ts == [] then 0
    else CountAfter(ts[..|ts| - 1], cutoff) + (if ts[|ts| - 1] > cutoff then 1 else 0)
  }

  predicate WithinOrderValue(l: Limits, o: Order) { Value(o) <= l.maxOrderValue }

  predicate WithinDailyOrders(l: Limits, s: Ledger) { s.dailyOrderCount < l.maxDailyOrders }

  predicate WithinRate(l: Limits, s: Ledger, now: real) {
    && CountAfter(s.orderTimestamps, now - 1.0) < l.maxPerSecond
    && CountAfter(s.orderTimestamps, now - 60.0) < l.maxPerMinute
  }

  predicate WithinMargin(s: Ledger, o: Order) { s.marginAvailable >= Value(o) }

  predicate WithinPosition(l: Limits, s: Ledger, o: Order) {
    (PositionOf(s, o.symbol) + o.quantity as real) * o.price <= l.maxPositionPerSymbol
  }

  predicate WithinExposure(l: Limits, s: Ledger, o: Order) { s.exposure + Value(o) <= l.maxTotalExposure }

  /** T1 to T10 in order; none is skipped when an earlier one fails. */
  function CheckAll(l: Limits, s: Ledger, symbols: set<string>, level: Level, o: Order, inHours: bool, now: real)
    : seq<CheckResult>
  {
    [ CheckResult("T1", o.symbol in symbols),
      CheckResult("T2", inHours),
      CheckResult("T3", WithinOrderValue(l, o)),
      CheckResult("T4", WithinDailyOrders(l, s)),
      CheckResult("T5", WithinRate(l, s, now)),
      CheckResult("T6", WithinMargin(s, o)),
      CheckResult("T7", WithinPosition(l, s, o)),
      CheckResult("T8", WithinExposure(l, s, o)),
      CheckResult("T9", o.price > 0.0),
      CheckResult("T10", Allows(level)) ]
  }

  /** The identifiers of the checks that did not pass, in order. */
  function FailedIds(rs: seq<CheckResult>): (ids: seq<string>)
    ensures ids == [] <==> forall r :: r in rs ==> r.passed
    ensures |ids| <= |rs|
  {
    if rs == [] then []
    else
      var n := |rs| - 1;
      assert rs == rs[..n] + [rs[n]];
      FailedIds(rs[..n]) + if rs[n].passed then [] else [rs[n].id]
  }

  function CheckData(o: Order, rs: seq<CheckResult>): Data {
    map["symbol" := Text(o.symbol), "strategy_id" := Text(o.strategyId),
        "checks_passed" := Number(|rs| - |FailedIds(rs)|), "checks_total" := Number(|rs|),
        "failed_checks" := Names(FailedIds(rs))]
  }

  function CheckEvent(rs: seq<CheckResult>): EventType {
    if FailedIds(rs) == [] then RiskCheckPassed else RiskCheckFailed
  }

  /** The ledger after a check with these results. */
  function AfterCheck(s: Ledger, rs: seq<CheckResult>, now: real): Ledger {
    if FailedIds(rs) == [] then s else s.(orderRejections := s.orderRejections + [now])
  }

  /** The ledger after a successful submission. */
  function AfterPlaced(s: Ledger, o: Order, now: real): Ledger {
    s.(dailyOrderCount := s.dailyOrderCount + 1,
       orderTimestamps := s.orderTimestamps + [now],
       exposure := s.exposure + Value(o),
       positions := s.positions[o.symbol := PositionOf(s, o.symbol) + o.quantity as real])
  }

  /** The ten conditions of the gate. */
  predicate AllHold(l: Limits, s: Ledger, symbols: set<string>, level: Level, o: Order, inHours: bool, now: real) {
    && o.symbol in symbols && inHours
    && WithinOrderValue(l, o) && WithinDailyOrders(l, s) && WithinRate(l, s, now)
    && WithinMargin(s, o) && WithinPosition(l, s, o) && WithinExposure(l, s, o)
    && o.price > 0.0 && Allows(level)
  }

  /** The gate opens exactly when all ten hold. */
  lemma GateMeaning(l: Limits, s: Ledger, symbols: set<string>, level: Level, o: Order, inHours: bool, now: real)
    ensures FailedIds(CheckAll(l, s, symbols, level, o, inHours, now)) == []
      <==> AllHold(l, s, symbols, level, o, inHours, now)
  {
    var rs := CheckAll(l, s, symbols, level, o, inHours, now);
    assert FailedIds(rs) == [] <==>
      rs[0].passed && rs[1].passed && rs[2].passed && rs[3].passed && rs[4].passed &&
      rs[5].passed && rs[6].passed && rs[7].passed && rs[8].passed && rs[9].passed;
  }

  class RiskState {
    var dailyOrderCount: int
    var currentExposure: real
    var positions: map<string, real>
    var marginAvailable: real
    var marginUsed: real
    var orderTimestamps: seq<real>
    var orderRejections: seq<real>

    ghost function View(): Ledger
      reads this
    {
      Ledger(dailyOrderCount, currentExposure, positions, marginAvailable, marginUsed,
                  orderTimestamps, orderRejections)
    }

    constructor ()
      ensures View() == Ledger(0, 0.0, map[], 0.0, 0.0, [], [])
    {
      dailyOrderCount, currentExposure, positions := 0, 0.0, map[];
      marginAvailable, marginUsed, orderTimestamps, orderRejections := 0.0, 0.0, [], [];
    }
  }

  class RiskManager {
    const limits: Limits
    const killSwitch: KillSwitch
    const audit: AuditTrail
    const state: RiskState
    var allowedSymbols: set<string>

    constructor (limits: Limits, killSwitch: KillSwitch, audit: AuditTrail, state: RiskState, symbols: set<string>)
      ensures this.limits == limits && this.killSwitch == killSwitch && this.audit == audit
      ensures this.state == state && allowedSymbols == symbols
    {
      this.limits, this.killSwitch, this.audit := limits, killSwitch, audit;
      this.state, allowedSymbols := state, symbols;
    }

    method RegisterSymbol(symbol: string)
      modifies this
      ensures allowedSymbols == old(allowedSymbols) + {symbol}
    {
      allowedSymbols := allowedSymbols + {symbol};
    }

    /** The number of recorded orders after `cutoff`, counted over the whole never-pruned list (T5). */
    method CountRecent(cutoff: real) returns (n: nat)
      ensures n == CountAfter(state.orderTimestamps, cutoff)
    {
      n := 0;
      var ts := state.orderTimestamps;
      for i := 0 to |ts|
        invariant n == CountAfter(ts[..i], cutoff)
      {
        assert ts[..i + 1][..i] == ts[..i];
        if ts[i] > cutoff {
          n := n + 1;
        }
      }
      assert ts[..|ts|] == ts;
    }

    /** The ten tests; they only read. */
    method RunChecks(o: Order, inHours: bool, now: real) returns (rs: seq<CheckResult>)
      ensures rs == CheckAll(limits, state.View(), allowedSymbols, killSwitch.level, o, inHours, now)
    {
      hide Value, CountAfter;
      var recentSecond := CountRecent(now - 1.0);
      var recentMinute := CountRecent(now - 60.0);
      var allowed := killSwitch.CheckOrderAllowed();
      var orderValue := Value(o);
      var current := if o.symbol in state.positions then state.positions[o.symbol] else 0.0;
      var projected := current + o.quantity as real;
      var t5 := recentSecond < limits.maxPerSecond && recentMinute < limits.maxPerMinute;
      var t7 := projected * o.price <= limits.maxPositionPerSymbol;
      assert t5 == WithinRate(limits, state.View(), now) && t7 == WithinPosition(limits, state.View(), o);
      hide WithinRate, WithinPosition, Allows;
      rs := [ CheckResult("T1", o.symbol in allowedSymbols),
              CheckResult("T2", inHours),
              CheckResult("T3", orderValue <= limits.maxOrderValue),
              CheckResult("T4", state.dailyOrderCount < limits.maxDailyOrders),
              CheckResult("T5", t5),
              CheckResult("T6", state.marginAvailable >= orderValue),
              CheckResult("T7", t7),
              CheckResult("T8", state.currentExposure + orderValue <= limits.maxTotalExposure),
              CheckResult("T9", o.price > 0.0),
              CheckResult("T10", allowed) ];
    }

    method Check(o: Order, inHours: bool, now: real) returns (rs: seq<CheckResult>)
      modifies audit, state
      ensures rs == CheckAll(limits, old(state.View()), allowedSymbols, killSwitch.level, o, inHours, now)
      ensures state.View() == AfterCheck(old(state.View()), rs, now)
      ensures audit.entries ==
        Recorded(audit.digest, old(audit.entries), CheckEvent(rs), CheckData(o, rs), o.strategyId, "", Micros(now))
    {
      hide CheckAll, CheckData;
      rs := RunChecks(o, inHours, now);
      var failed := FailedIds(rs);
      var event := if failed == [] then RiskCheckPassed else RiskCheckFailed;
      var _ := audit.Record(event, CheckData(o, rs), o.strategyId, "", Micros(now));
      if failed != [] {
        state.orderRejections := state.orderRejections + [now];
      }
    }

    method RecordOrderPlaced(o: Order, now: real)
      modifies state
      ensures state.View() == AfterPlaced(old(state.View()), o, now)
      ensures state.dailyOrderCount == old(state.dailyOrderCount) + 1
      ensures state.orderTimestamps == old(state.orderTimestamps) + [now]
      ensures state.currentExposure == old(state.currentExposure) + o.price * o.quantity as real
      ensures o.symbol in state.positions && state.positions[o.symbol] ==
        (if o.symbol in old(state.positions) then old(state.positions)[o.symbol] else 0.0) + o.quantity as real
      ensures state.positions - {o.symbol} == old(state.positions) - {o.symbol}
      ensures state.marginAvailable == old(state.marginAvailable) && state.marginUsed == old(state.marginUsed)
      ensures state.orderRejections == old(state.orderRejections)
    {
      state.dailyOrderCount := state.dailyOrderCount + 1;
      state.orderTimestamps := state.orderTimestamps + [now];
      var orderValue := o.price * o.quantity as real;
      state.currentExposure := state.currentExposure + orderValue;
      var current := if o.symbol in state.positions then state.positions[o.symbol] else 0.0;
      state.positions := state.positions[o.symbol := current + o.quantity as real];
    }
  }
}
