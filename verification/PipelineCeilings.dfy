/** Runs from freshly constructed components that pass the limits, and that meet the bounds under overlap. */
module PipelineCeilings {
  import opened Prelude
  import opened Reals
  import opened KillSwitches
  import opened Risk
  import opened RateLimiter
  import opened Engine
  import opened Positions
  import opened Pipelines
  import opened PipelineMoves
  import opened PipelineLimits
  import opened PipelineOverlap
  import opened PipelineScript

  /** Limits under which an order of the greatest value can pass. */
  predicate Workable(u: Setup) {
    var l := u.engine.limits;
    && 0.0 < l.maxOrderValue <= l.maxPositionPerSymbol
    && l.maxDailyOrders >= 1 && l.maxPerSecond >= 1 && l.maxPerMinute >= 1
    && u.lossLimit >= 0.0 && u.marginThreshold >= 0.0
  }

  function Largest(l: Limits, symbol: string): Order {
    Order(symbol, "NFO", "BUY", 1, l.maxOrderValue, "")
  }

  /** A sync after which exactly one order of the greatest value fits. */
  function OneFits(l: Limits): Event {
    SyncAnswered([], Margins(l.maxOrderValue, 0.0, l.maxTotalExposure - l.maxOrderValue), 0.0, 0.0, 0.0, 0.0)
  }

  function Fitted(u: Setup, clock: real, symbols: set<string>): Pipeline {
    Step(u, Start(clock, symbols), OneFits(u.engine.limits))
  }

  lemma AfterOneFits(u: Setup, clock: real, symbols: set<string>)
    requires Workable(u)
    ensures var p, l := Fitted(u, clock, symbols), u.engine.limits;
      && p == Run(u, Start(clock, symbols), [OneFits(l)]) && p.clock == clock
      && p.engine.flights == map[] && p.engine.nextId == 0
      && p.engine.symbols == symbols && p.engine.kill.level == Inactive
      && p.engine.risk == Ledger(0, l.maxTotalExposure - l.maxOrderValue, map[], l.maxOrderValue, 0.0, [], [])
  {
    hide LossTrail, LossReason, MarginReason;
    var total := u.engine.limits.maxTotalExposure - u.engine.limits.maxOrderValue;
    assert total != 0.0 ==> 0.0 / total == 0.0;
    RunOne(u, Start(clock, symbols), OneFits(u.engine.limits));
  }

  lemma LargestPasses(u: Setup, clock: real, symbols: set<string>, symbol: string)
    requires Workable(u) && symbol in symbols && u.engine.maxRetries >= 0
    ensures var p, l := Fitted(u, clock, symbols), u.engine.limits;
      && Value(Largest(l, symbol)) == l.maxOrderValue
      && Verdict(u.engine, p.engine, Largest(l, symbol), true, p.clock) == None
  {
    hide CheckAll, FailedIds, Fitted;
    var p, l := Fitted(u, clock, symbols), u.engine.limits;
    AfterOneFits(u, clock, symbols);
    GateMeaning(l, p.engine.risk, symbols, Inactive, Largest(l, symbol), true, p.clock);
  }

  // ---------------------------------------------------------------- orders of the greatest value

  /** `n` overlapping orders of the greatest value, after that sync, record `n` times what each adds. */
  lemma LargestOverlap(u: Setup, m: Measure, clock: real, symbols: set<string>, symbol: string, n: nat)
    requires Workable(u) && symbol in symbols && u.engine.maxRetries >= 0 && Counts(m, clock)
    ensures var p, o := Fitted(u, clock, symbols), Largest(u.engine.limits, symbol);
      var es := Overlapping(u, m, p, o, n);
      && Leaves(m, es) && (AtPrice(m, SubmitCalled(o, true, 0.0)) ==> Suits(m, es)) && Peak(u, p, es) == n
      && Load(m, p) == OnRecord(m, p.engine.risk)
      && OnRecord(m, Run(u, p, es).engine.risk) == OnRecord(m, p.engine.risk) + Times(n, Adds(m, o, clock))
  {
    hide Fitted, Run, Verdict, Largest, Overlapping, Peak, Adds, Times, OnRecord, AtPrice, Leaves, Suits, Load;
    var p := Fitted(u, clock, symbols);
    AfterOneFits(u, clock, symbols);
    LargestPasses(u, clock, symbols, symbol);
    RecordBelowLoad(m, p);
    OverlapRecords(u, m, p, Largest(u.engine.limits, symbol), n);
  }

  /** The exposure ceiling is met for every number of overlapping orders: the limit and `n - 1` order values. */
  lemma CeilingReached(u: Setup, clock: real, symbols: set<string>, symbol: string, n: nat)
    requires Workable(u) && symbol in symbols && u.engine.maxRetries >= 0 && n >= 1
    ensures var l := u.engine.limits;
      var p := Run(u, Start(clock, symbols), [OneFits(l)]);
      var es := Overlapping(u, Exposure, p, Largest(l, symbol), n);
      var exposure := Run(u, p, es).engine.risk.exposure;
      && Suits(Exposure, es) && Peak(u, p, es) == n && WithinLimit(u, Exposure, p)
      && exposure == l.maxTotalExposure + (n - 1) as real * l.maxOrderValue
      && exposure == Ceiling(MaxReal(Load(Exposure, p), l.maxTotalExposure), Peak(u, p, es), Unit(l, Exposure))
  {
    hide Fitted, Run, Overlapping, Peak, Suits, Leaves, Load, Value, Largest;
    var l, p := u.engine.limits, Fitted(u, clock, symbols);
    AfterOneFits(u, clock, symbols);
    LargestPasses(u, clock, symbols, symbol);
    LargestOverlap(u, Exposure, clock, symbols, symbol, n);
    Distribute(l.maxOrderValue, (n - 1) as real, 1.0);
  }

  /** The same runs pass the other three limits: the daily count, the count of a window and the position become
      `n`, however small the limits are. */
  lemma OtherLimitsPassed(u: Setup, clock: real, symbols: set<string>, symbol: string, n: nat, window: real -> bool,
                          width: real, cap: int)
    requires Workable(u) && symbol in symbols && u.engine.maxRetries >= 0 && window(clock)
    ensures var p, o := Fitted(u, clock, symbols), Largest(u.engine.limits, symbol);
      var place := (m: Measure) => Run(u, p, Overlapping(u, m, p, o, n)).engine.risk;
      && place(DailyCount).dailyOrderCount == n
      && CountIn(place(Rate(window, width, cap)).orderTimestamps, window) == n
      && PositionOf(place(Position(symbol, u.engine.limits.maxOrderValue)), symbol) == n as real
  {
    hide Fitted, Run, Overlapping, Peak, Suits, Leaves, Load, AtPrice;
    var l := u.engine.limits;
    AfterOneFits(u, clock, symbols);
    LargestOverlap(u, DailyCount, clock, symbols, symbol, n);
    LargestOverlap(u, Rate(window, width, cap), clock, symbols, symbol, n);
    LargestOverlap(u, Position(symbol, l.maxOrderValue), clock, symbols, symbol, n);
    assert Ahead(window, clock);
    TimesOne(n);
    var p, m := Fitted(u, clock, symbols), Position(symbol, l.maxOrderValue);
    var position := PositionOf(Run(u, p, Overlapping(u, m, p, Largest(l, symbol), n)).engine.risk, symbol);
    assert position * l.maxOrderValue == n as real * l.maxOrderValue;
    Cancel(position, l.maxOrderValue);
    Cancel(n as real, l.maxOrderValue);
  }

  // ---------------------------------------------------------------- orders that only count

  /** An order of no quantity passes every check on value, and still counts. */
  function Idle(symbol: string): Order {
    Order(symbol, "NFO", "BUY", 0, 1.0, "")
  }

  /** `k` of them have been placed one at a time, and nothing is in flight. */
  predicate Settled(u: Setup, p: Pipeline, k: nat, symbol: string) {
    var s, l := p.engine, u.engine.limits;
    && s.flights == map[] && s.nextId == k && s.kill.level == Inactive && symbol in s.symbols
    && s.risk.dailyOrderCount == k && s.risk.exposure == l.maxTotalExposure - l.maxOrderValue
    && s.risk.marginAvailable == l.maxOrderValue && PositionOf(s.risk, symbol) == 0.0
    && |s.risk.orderTimestamps| == k && forall i :: 0 <= i < k ==> s.risk.orderTimestamps[i] <= p.clock
  }

  /** The rate check lets another one through: a minute has passed, or the caps are not reached. */
  predicate RateRoom(l: Limits, k: nat, wait: real) {
    wait >= 60.0 || (k < l.maxPerSecond && k < l.maxPerMinute)
  }

  lemma IdlePasses(u: Setup, p: Pipeline, k: nat, symbol: string, wait: Delay)
    requires Workable(u) && u.engine.maxRetries >= 0 && Settled(u, p, k, symbol)
    requires k < u.engine.limits.maxDailyOrders && RateRoom(u.engine.limits, k, wait)
    ensures Verdict(u.engine, p.engine, Idle(symbol), true, p.clock + wait) == None
  {
    hide CheckAll, FailedIds, CountAfter;
    var ts, now := p.engine.risk.orderTimestamps, p.clock + wait;
    CountAfterSkips(ts, now - 1.0, if wait >= 60.0 then k else 0);
    CountAfterSkips(ts, now - 60.0, if wait >= 60.0 then k else 0);
    GateMeaning(u.engine.limits, p.engine.risk, p.engine.symbols, Inactive, Idle(symbol), true, now);
  }

  /** One more of them: submitted, and accepted at once. */
  function Single(symbol: string, id: nat, wait: Delay): seq<Event> {
    [SubmitCalled(Idle(symbol), true, wait), BrokerAnswered(id, BrokerResult("", Open, ""), 0.0)]
  }

  lemma SingleSettles(u: Setup, p: Pipeline, k: nat, symbol: string, wait: Delay)
    requires Workable(u) && u.engine.maxRetries >= 0 && Settled(u, p, k, symbol)
    requires k < u.engine.limits.maxDailyOrders && RateRoom(u.engine.limits, k, wait)
    ensures var q := Run(u, p, Single(symbol, k, wait));
      && Settled(u, q, k + 1, symbol) && q.clock == p.clock + wait
      && q.engine.risk.orderTimestamps == p.engine.risk.orderTimestamps + [q.clock]
  {
    hide Run, Step, Verdict, Begins;
    var submit := SubmitCalled(Idle(symbol), true, wait);
    var answer := BrokerAnswered(k, BrokerResult("", Open, ""), 0.0);
    var r := Step(u, p, submit);
    IdlePasses(u, p, k, symbol, wait);
    IdleBegins(u, p, symbol, wait);
    BeginningFlies(u, p, submit);
    assert Single(symbol, k, wait) == [submit] + [answer];
    RunFirst(u, p, submit, [answer]);
    RunOne(u, r, answer);
    IdleAnswered(u, r, k, symbol);
  }

  lemma IdleBegins(u: Setup, p: Pipeline, symbol: string, wait: Delay)
    requires Verdict(u.engine, p.engine, Idle(symbol), true, p.clock + wait) == None
    ensures Begins(u, p, SubmitCalled(Idle(symbol), true, wait))
  {
    hide Verdict;
  }

  lemma IdleAnswered(u: Setup, p: Pipeline, id: nat, symbol: string)
    requires Placing(p.engine, id) && p.engine.flights[id].order == Idle(symbol)
    ensures var q := Step(u, p, BrokerAnswered(id, BrokerResult("", Open, ""), 0.0));
      && q.engine.flights == p.engine.flights - {id} && q.clock == p.clock && q.engine.nextId == p.engine.nextId
      && q.engine.kill == p.engine.kill && q.engine.symbols == p.engine.symbols
      && q.engine.risk == AfterPlaced(p.engine.risk, Idle(symbol), p.clock)
      && q.engine.risk.exposure == p.engine.risk.exposure
  {
    hide PlacedTrail, RejectedTrail, Delivered;
  }

  /** `k` of them, one at a time. */
  function Singles(symbol: string, k: nat, wait: Delay): seq<Event> {
    if k == 0 then [] else Singles(symbol, k - 1, wait) + Single(symbol, k - 1, wait)
  }

  lemma {:induction false} SinglesSettle(u: Setup, p: Pipeline, symbol: string, k: nat, wait: Delay)
    requires Workable(u) && u.engine.maxRetries >= 0 && Settled(u, p, 0, symbol)
    requires k <= u.engine.limits.maxDailyOrders && (k > 0 ==> RateRoom(u.engine.limits, k - 1, wait))
    ensures var q := Run(u, p, Singles(symbol, k, wait));
      && Settled(u, q, k, symbol)
      && (wait == 0.0 ==>
            q.clock == p.clock && forall i :: 0 <= i < k ==> q.engine.risk.orderTimestamps[i] == p.clock)
  {
    hide Step, Workable, Single;
    if k > 0 {
      hide Settled;
      SinglesSettle(u, p, symbol, k - 1, wait);
      SingleSettles(u, Run(u, p, Singles(symbol, k - 1, wait)), k - 1, symbol, wait);
      RunAppend(u, p, Singles(symbol, k - 1, wait), Single(symbol, k - 1, wait));
    }
  }

  /** The daily-count ceiling is met for every number of overlapping orders: one place short of the limit, `n`
      orders still begin together. */
  lemma CountCeilingReached(u: Setup, clock: real, symbols: set<string>, symbol: string, n: nat)
    requires Workable(u) && symbol in symbols && u.engine.maxRetries >= 0 && n >= 1
    ensures var l := u.engine.limits;
      var prior := [OneFits(l)] + Singles(symbol, l.maxDailyOrders - 1, 60.0) + [CancelAnswered("", "", 60.0)];
      var p := Run(u, Start(clock, symbols), prior);
      var es := Overlapping(u, DailyCount, p, Idle(symbol), n);
      && p.engine.flights == map[] && WithinLimit(u, DailyCount, p) && Peak(u, p, es) == n
      && Run(u, p, es).engine.risk.dailyOrderCount == l.maxDailyOrders + (n - 1)
  {
    hide Run, Step, Verdict, Overlapping, Peak, Singles, Fitted, Leaves, Suits;
    var l, start := u.engine.limits, Start(clock, symbols);
    var first, k := Fitted(u, clock, symbols), l.maxDailyOrders - 1;
    var q := Run(u, first, Singles(symbol, k, 60.0));
    AfterOneFits(u, clock, symbols);
    SinglesSettle(u, first, symbol, k, 60.0);
    RunAppend(u, start, [OneFits(l)], Singles(symbol, k, 60.0));
    RunAppend(u, start, [OneFits(l)] + Singles(symbol, k, 60.0), [CancelAnswered("", "", 60.0)]);
    RunOne(u, q, CancelAnswered("", "", 60.0));
    IdlePasses(u, q, k, symbol, 60.0);
    var p := Step(u, q, CancelAnswered("", "", 60.0));
    Waited(u, q, 60.0, Idle(symbol));
    CountLoad(p);
    OverlapRecords(u, DailyCount, p, Idle(symbol), n);
    TimesOne(n);
  }

  /** Waiting changes nothing that the gate or the measures look at. */
  lemma Waited(u: Setup, p: Pipeline, wait: Delay, o: Order)
    ensures var q := Step(u, p, CancelAnswered("", "", wait));
      && q.engine.flights == p.engine.flights && q.engine.risk == p.engine.risk && q.clock == p.clock + wait
      && q.engine.nextId == p.engine.nextId
      && Verdict(u.engine, q.engine, o, true, q.clock) == Verdict(u.engine, p.engine, o, true, p.clock + wait)
  {
    hide CheckAll, FailedIds, CancelledTrail;
  }

  /** The rate ceiling is met for the tighter of the two caps: with one place left in the window, `n` orders still
      begin together. */
  lemma RateCeilingReached(u: Setup, clock: real, symbols: set<string>, symbol: string, n: nat,
                           window: real -> bool, width: real, cap: nat)
    requires Workable(u) && symbol in symbols && u.engine.maxRetries >= 0 && n >= 1 && window(clock)
    requires 1 <= cap <= u.engine.limits.maxPerSecond && cap <= u.engine.limits.maxPerMinute
    requires cap <= u.engine.limits.maxDailyOrders
    ensures var p := Run(u, Start(clock, symbols), [OneFits(u.engine.limits)] + Singles(symbol, cap - 1, 0.0));
      var es := Overlapping(u, Rate(window, width, cap), p, Idle(symbol), n);
      && p.engine.flights == map[] && Pressure(p, window) == cap - 1 && Peak(u, p, es) == n
      && CountIn(Run(u, p, es).engine.risk.orderTimestamps, window) == cap + (n - 1)
  {
    hide Run, Step, Verdict, Overlapping, Peak, Singles, Fitted, Leaves, Suits, CountIn;
    var m, start := Rate(window, width, cap), Start(clock, symbols);
    var first := Fitted(u, clock, symbols);
    var p := Run(u, first, Singles(symbol, cap - 1, 0.0));
    AfterOneFits(u, clock, symbols);
    SinglesSettle(u, first, symbol, cap - 1, 0.0);
    RunAppend(u, start, [OneFits(u.engine.limits)], Singles(symbol, cap - 1, 0.0));
    IdlePasses(u, p, cap - 1, symbol, 0.0);
    var ts := p.engine.risk.orderTimestamps;
    CountInAtMost(ts, window);
    RateLoad(p, window, width, cap);
    OverlapRecords(u, m, p, Idle(symbol), n);
    TimesOne(n);
  }
}
