/**
 What the check-then-record limits of the risk manager guarantee when orders overlap.

 Four of its ten checks compare a limit with what is on record when an order begins, while the order itself is
 recorded only when the broker answers: T4, T5, T7 and T8.  They are treated here as four measures of one kind.
 */
module PipelineLimits {
  import opened Prelude
  import opened Reals
  import opened Risk
  import opened RateLimiter
  import opened Engine
  import opened Pipelines
  import opened PipelineMoves

  /** What one of those checks bounds. */
  datatype Measure =
    | Exposure                                           // T8
    | DailyCount                                         // T4
    | Position(symbol: string, price: real)              // T7, for orders of one symbol at one price
    | Rate(window: real -> bool, width: real, cap: int)  // T5, for the orders recorded in a window of time

  /** Some instant of the window is still to come. */
  ghost predicate Ahead(window: real -> bool, clock: real) {
    exists t :: window(t) && t >= clock
  }

  /** Instants pairwise less than `width` apart. */
  ghost predicate Narrow(window: real -> bool, width: real) {
    forall s, t :: window(s) && window(t) ==> t - s < width
  }

  ghost function OnRecord(m: Measure, s: Ledger): real {
    match m
    case Exposure => s.exposure
    case DailyCount => s.dailyOrderCount as real
    case Position(symbol, price) => PositionOf(s, symbol) * price
    case Rate(window, _, _) => CountIn(s.orderTimestamps, window) as real
  }

  /** What an order adds to the record if it is placed at `clock` or later. */
  ghost function Weight(m: Measure, o: Order, clock: real): real {
    match m
    case Exposure => Value(o)
    case DailyCount => 1.0
    case Position(symbol, price) => if o.symbol == symbol then o.quantity as real * price else 0.0
    case Rate(window, _, _) => if Ahead(window, clock) then 1.0 else 0.0
  }

  ghost function Adds(m: Measure, o: Order, clock: real): real {
    MaxReal(0.0, Weight(m, o, clock))
  }

  /** What a flight could still add to the record. */
  ghost function CouldAdd(m: Measure, clock: real): Flight -> real {
    (f: Flight) => Adds(m, f.order, clock)
  }

  /** What is on record, plus what the orders in flight could still add. */
  ghost function Load(m: Measure, p: Pipeline): real {
    OnRecord(m, p.engine.risk) + Total(p.engine.flights, CouldAdd(m, p.clock))
  }

  function Limit(l: Limits, m: Measure): real {
    match m
    case Exposure => l.maxTotalExposure
    case DailyCount => l.maxDailyOrders as real
    case Position(_, _) => l.maxPositionPerSymbol
    case Rate(_, _, cap) => cap as real
  }

  /** The most that one order can add. */
  function Unit(l: Limits, m: Measure): (unit: real)
    ensures unit >= 0.0
  {
    if m.DailyCount? || m.Rate? then 1.0 else MaxReal(0.0, l.maxOrderValue)
  }

  predicate RateCap(l: Limits, width: real, cap: int) {
    (width == 1.0 && cap == l.maxPerSecond) || (width == 60.0 && cap == l.maxPerMinute)
  }

  /** The measure is one the gate checks: for a rate, one of its two windows. */
  ghost predicate Gauged(l: Limits, m: Measure) {
    m.Rate? ==> Narrow(m.window, m.width) && RateCap(l, m.width, m.cap)
  }

  /** The event does not overwrite the record: a sync replaces the exposure, a fill the position. */
  predicate LeavesRecord(m: Measure, e: Event) {
    match m
    case Exposure => !e.SyncAnswered?
    case Position(symbol, _) => !(e.FillArrived? && e.fill.symbol == symbol)
    case _ => true
  }

  /** An order of the measured symbol comes at the measured price. */
  predicate AtPrice(m: Measure, e: Event) {
    m.Position? && (e.RouteCalled? || e.SubmitCalled?) && e.order.symbol == m.symbol ==> e.order.price == m.price
  }

  predicate Suits(m: Measure, es: seq<Event>) {
    forall k :: 0 <= k < |es| ==> LeavesRecord(m, es[k]) && AtPrice(m, es[k])
  }

  /** No order in flight can add more than one unit. */
  ghost predicate InFlightWithin(l: Limits, m: Measure, p: Pipeline) {
    && Numbered(p.engine)
    && forall id :: id in p.engine.flights ==> Adds(m, p.engine.flights[id].order, p.clock) <= Unit(l, m)
  }

  // ---------------------------------------------------------------- one order

  /** The gate lets nothing begin that does not fit by itself. */
  lemma GateFits(u: Setup, m: Measure, p: Pipeline, e: Event)
    requires Begins(u, p, e) && Gauged(u.engine.limits, m) && AtPrice(m, e)
    ensures var adds := Adds(m, e.order, CheckedAt(p, e));
      && adds <= Unit(u.engine.limits, m)
      && (adds > 0.0 ==> OnRecord(m, p.engine.risk) + adds <= Limit(u.engine.limits, m))
  {
    hide Begins, Value, PositionOf, CountIn, CountAfter, Narrow, Ahead;
    BeginningIsChecked(u, p, e);
    match m
    case Exposure =>
    case DailyCount =>
    case Position(symbol, price) =>
      if e.order.symbol == symbol {
        PositionFits(u.engine.limits, p.engine.risk, e.order);
      }
    case Rate(window, width, cap) =>
      if Ahead(window, CheckedAt(p, e)) {
        CheckedBelowCap(p.engine.risk.orderTimestamps, window, width, CheckedAt(p, e));
      }
  }

  lemma PositionFits(l: Limits, s: Ledger, o: Order)
    requires WithinOrderValue(l, o) && WithinPosition(l, s, o)
    ensures o.quantity as real * o.price <= l.maxOrderValue
    ensures PositionOf(s, o.symbol) * o.price + o.quantity as real * o.price <= l.maxPositionPerSymbol
  {
    hide PositionOf;
    Distribute(o.price, PositionOf(s, o.symbol), o.quantity as real);
  }

  /** While a narrow window lasts, it holds no more than the check counts. */
  lemma CheckedBelowCap(ts: seq<real>, window: real -> bool, width: real, now: real)
    requires Narrow(window, width) && Ahead(window, now)
    ensures CountIn(ts, window) <= CountAfter(ts, now - width)
  {
    var t :| window(t) && t >= now;
    forall s | window(s) ensures s > t - width {
      assert window(s) && window(t);
    }
    CountInAtMostAfter(ts, window, t - width);
    CountAfterAntitone(ts, now - width, t - width);
  }

  /** Time can only take away what an order could add. */
  lemma AddsLater(m: Measure, o: Order, clock: real, now: real)
    requires clock <= now
    ensures 0.0 <= Adds(m, o, now) <= Adds(m, o, clock)
    ensures Adds(m, o, now) > 0.0 ==> Adds(m, o, now) == Adds(m, o, clock)
  {
    if m.Rate? && Ahead(m.window, now) {
      var t :| m.window(t) && t >= now;
      assert m.window(t) && t >= clock;
    }
  }

  /** A rate measure counts what is placed within its window, all others count everything. */
  predicate Counts(m: Measure, now: real) {
    m.Rate? ==> m.window(now)
  }

  /** What placing an order does to the record. */
  lemma PlacedWeighs(m: Measure, s: Ledger, o: Order, now: real)
    ensures OnRecord(m, AfterPlaced(s, o, now)) <= OnRecord(m, s) + Adds(m, o, now)
    ensures Counts(m, now) ==> OnRecord(m, AfterPlaced(s, o, now)) == OnRecord(m, s) + Weight(m, o, now)
  {
    hide Value, CountIn, PositionOf;
    match m
    case Exposure =>
    case DailyCount =>
    case Position(symbol, price) => PlacedPosition(s, o, now, symbol, price);
    case Rate(window, _, _) => PlacedInWindow(s.orderTimestamps, now, window);
  }

  lemma PlacedPosition(s: Ledger, o: Order, now: real, symbol: string, price: real)
    ensures PositionOf(AfterPlaced(s, o, now), symbol) * price ==
      PositionOf(s, symbol) * price + if o.symbol == symbol then o.quantity as real * price else 0.0
  {
    hide Value;
    if o.symbol == symbol {
      Distribute(price, PositionOf(s, symbol), o.quantity as real);
    }
  }

  lemma PlacedInWindow(ts: seq<real>, now: real, window: real -> bool)
    ensures CountIn(ts + [now], window) == CountIn(ts, window) + if window(now) then 1 else 0
    ensures window(now) ==> Ahead(window, now)
  {
    assert (ts + [now])[..|ts|] == ts;
  }

  // ---------------------------------------------------------------- one step

  /** The flights that are left can add no more than before. */
  lemma FewerAdd(m: Measure, s: map<nat, Flight>, clock: real, t: map<nat, Flight>, now: real)
    requires clock <= now && t.Keys <= s.Keys && forall id :: id in t ==> t[id].order == s[id].order
    ensures Total(t, CouldAdd(m, now)) <= Total(s, CouldAdd(m, clock))
    ensures forall id :: id in t ==> Adds(m, t[id].order, now) <= Adds(m, s[id].order, clock)
  {
    hide Adds;
    forall id | id in s ensures 0.0 <= Adds(m, s[id].order, now) <= Adds(m, s[id].order, clock) {
      AddsLater(m, s[id].order, clock, now);
    }
    TotalBelow(t, CouldAdd(m, now), s, CouldAdd(m, clock));
  }

  lemma StaysLoad(m: Measure, p: Pipeline, q: Pipeline, e: Event)
    requires Stays(p, q, e) && LeavesRecord(m, e)
    ensures Load(m, q) <= Load(m, p)
  {
    hide Total, Adds, CouldAdd, OnRecord;
    RecordStays(m, p, q, e);
    FewerAdd(m, p.engine.flights, p.clock, q.engine.flights, q.clock);
  }

  lemma RecordStays(m: Measure, p: Pipeline, q: Pipeline, e: Event)
    requires Stays(p, q, e) && LeavesRecord(m, e)
    ensures OnRecord(m, q.engine.risk) == OnRecord(m, p.engine.risk)
  {
    hide PositionOf, CountIn;
    match m
    case Position(symbol, price) =>
      assert PositionOf(q.engine.risk, symbol) == PositionOf(p.engine.risk, symbol);
    case _ =>
  }

  lemma PlacesLoad(m: Measure, p: Pipeline, q: Pipeline, id: nat)
    requires Places(p, q, id)
    ensures Load(m, q) <= Load(m, p)
  {
    hide Total, Adds, OnRecord, AfterPlaced;
    var f := p.engine.flights[id];
    FewerAdd(m, q.engine.flights, p.clock, q.engine.flights, q.clock);
    TotalSplit(p.engine.flights, CouldAdd(m, p.clock), id);
    PlacedWeighs(m, p.engine.risk, f.order, q.clock);
    AddsLater(m, f.order, p.clock, q.clock);
  }

  /** A load grows only where an order begins, or where the record is overwritten from outside. */
  lemma OthersKeepLoad(u: Setup, m: Measure, p: Pipeline, e: Event)
    requires LeavesRecord(m, e) && !Begins(u, p, e)
    ensures Load(m, Step(u, p, e)) <= Load(m, p)
  {
    hide Begins, Step, Stays, Places, LeavesRecord, Load;
    OthersMove(u, p, e);
    if Stays(p, Step(u, p, e), e) {
      StaysLoad(m, p, Step(u, p, e), e);
    } else {
      PlacesLoad(m, p, Step(u, p, e), e.id);
    }
  }

  /** `base` plus one unit for every order in flight beyond the first. */
  function Ceiling(base: real, peak: int, unit: real): real {
    base + Times(MaxInt(0, peak - 1), unit)
  }

  lemma CeilingMonotone(base: real, base': real, low: int, high: int, unit: real)
    requires base <= base' && low <= high && unit >= 0.0
    ensures base <= Ceiling(base, low, unit) <= Ceiling(base', high, unit)
  {
    TimesMonotone(MaxInt(0, low - 1), MaxInt(0, high - 1), unit);
  }

  lemma BeginningLoad(u: Setup, m: Measure, p: Pipeline, e: Event)
    requires Numbered(p.engine) && Begins(u, p, e)
    ensures var q, now := Step(u, p, e), CheckedAt(p, e);
      && |q.engine.flights| == |p.engine.flights| + 1 && Numbered(q.engine) && q.clock == now >= p.clock
      && (forall id :: id in q.engine.flights ==>
            if id in p.engine.flights then q.engine.flights[id] == p.engine.flights[id]
            else q.engine.flights[id].order == e.order)
      && Load(m, q) ==
           OnRecord(m, p.engine.risk) + Total(p.engine.flights, CouldAdd(m, now)) + Adds(m, e.order, now)
  {
    hide Begins, Step, Total, Adds, OnRecord;
    BeginningFlies(u, p, e);
    FlightsMove(u, p, e);
    TotalUpdate(p.engine.flights, CouldAdd(m, CheckedAt(p, e)), p.engine.nextId,
                Flight(e.order, e.RouteCalled?, CheckedAt(p, e), 1, false));
  }

  /** Beginning an order adds what it could add to the load; where that is nothing the load does not grow. */
  lemma BeginningAdds(u: Setup, m: Measure, p: Pipeline, e: Event)
    requires Numbered(p.engine) && Begins(u, p, e)
    ensures var q, adds := Step(u, p, e), Adds(m, e.order, CheckedAt(p, e));
      if adds > 0.0 then Load(m, q) == Load(m, p) + adds else Load(m, q) <= Load(m, p)
  {
    hide Begins, Step, Total, Adds, OnRecord;
    BeginningLoad(u, m, p, e);
    NotNegative(m, e.order, CheckedAt(p, e));
    if Adds(m, e.order, CheckedAt(p, e)) > 0.0 {
      StillAhead(m, p.engine.flights, p.clock, CheckedAt(p, e), e.order);
    } else {
      FewerAdd(m, p.engine.flights, p.clock, p.engine.flights, CheckedAt(p, e));
    }
  }

  /** And the result is within the limit and one unit for every other flight. */
  lemma BeginningWithin(u: Setup, m: Measure, p: Pipeline, e: Event)
    requires InFlightWithin(u.engine.limits, m, p) && Begins(u, p, e)
    requires Gauged(u.engine.limits, m) && AtPrice(m, e)
    ensures var q, l := Step(u, p, e), u.engine.limits;
      && InFlightWithin(l, m, q)
      && (Adds(m, e.order, CheckedAt(p, e)) > 0.0 ==>
            Load(m, q) <= Ceiling(Limit(l, m), |q.engine.flights|, Unit(l, m)))
  {
    hide Begins, Step, Total, Adds, OnRecord, Limit, Unit, Ceiling, Gauged, AtPrice;
    BeginningLoad(u, m, p, e);
    FewerAdd(m, p.engine.flights, p.clock, p.engine.flights, CheckedAt(p, e));
    GateFits(u, m, p, e);
    UnitsAbove(u.engine.limits, m, p.engine.flights, CheckedAt(p, e), Limit(u.engine.limits, m));
  }

  lemma NotNegative(m: Measure, o: Order, clock: real)
    ensures Adds(m, o, clock) >= 0.0
  {
  }

  /** Where a new order can add something, the others can still add what they could. */
  lemma StillAhead(m: Measure, s: map<nat, Flight>, clock: real, now: real, o: Order)
    requires clock <= now && Adds(m, o, now) > 0.0
    ensures Total(s, CouldAdd(m, now)) == Total(s, CouldAdd(m, clock))
  {
    hide Total;
    forall id | id in s ensures Adds(m, s[id].order, now) == Adds(m, s[id].order, clock) >= 0.0 {
      AddsLater(m, s[id].order, clock, now);
      AddsLater(m, o, clock, now);
    }
    TotalBelow(s, CouldAdd(m, now), s, CouldAdd(m, clock));
    TotalBelow(s, CouldAdd(m, clock), s, CouldAdd(m, now));
  }

  lemma UnitsAbove(l: Limits, m: Measure, s: map<nat, Flight>, now: real, base: real)
    requires forall id :: id in s ==> Adds(m, s[id].order, now) <= Unit(l, m)
    ensures base + Total(s, CouldAdd(m, now)) <= Ceiling(base, |s| + 1, Unit(l, m))
  {
    hide Total, Adds, Unit, Times;
    TotalAtMost(s, CouldAdd(m, now), Unit(l, m));
    assert MaxInt(0, |s| + 1 - 1) == |s|;
  }

  // ---------------------------------------------------------------- over every run

  lemma WithinIsNumbered(l: Limits, m: Measure, p: Pipeline)
    requires InFlightWithin(l, m, p)
    ensures Numbered(p.engine)
  {
  }

  lemma StepWithinUnit(u: Setup, m: Measure, p: Pipeline, e: Event)
    requires InFlightWithin(u.engine.limits, m, p) && Gauged(u.engine.limits, m) && AtPrice(m, e)
    ensures InFlightWithin(u.engine.limits, m, Step(u, p, e))
  {
    hide Begins, Step, Adds, Total, Unit, Gauged, Ceiling, Limit;
    if Begins(u, p, e) {
      BeginningWithin(u, m, p, e);
    } else {
      OthersMove(u, p, e);
      FewerAdd(m, p.engine.flights, p.clock, Step(u, p, e).engine.flights, Step(u, p, e).clock);
    }
  }

  /** Every state of every run, syncs and fills included, is one the bounds can start from. */
  lemma {:induction false} InFlightWithinThroughout(u: Setup, m: Measure, clock: real, symbols: set<string>,
                                                    es: seq<Event>)
    requires Gauged(u.engine.limits, m) && forall k :: 0 <= k < |es| ==> AtPrice(m, es[k])
    ensures InFlightWithin(u.engine.limits, m, Run(u, Start(clock, symbols), es))
  {
    if es != [] {
      hide InFlightWithin, Step, Gauged, AtPrice;
      var n := |es| - 1;
      InFlightWithinThroughout(u, m, clock, symbols, es[..n]);
      StepWithinUnit(u, m, Run(u, Start(clock, symbols), es[..n]), es[n]);
    }
  }

  /** The bound under overlap, for each of the four checks, over any run that leaves its record alone, from any
      state, in any interleaving, for any quantities: what is on record plus everything in flight exceeds its base
      by at most one unit per order in flight beyond the first. */
  lemma {:induction false} LimitsUnderConcurrency(u: Setup, m: Measure, p: Pipeline, es: seq<Event>)
    requires InFlightWithin(u.engine.limits, m, p) && Gauged(u.engine.limits, m) && Suits(m, es)
    ensures var q, l := Run(u, p, es), u.engine.limits;
      && InFlightWithin(l, m, q)
      && Load(m, q) <= Ceiling(MaxReal(Load(m, p), Limit(l, m)), Peak(u, p, es), Unit(l, m))
  {
    hide Load, InFlightWithin, Step, Ceiling, Limit, Begins, Adds, Gauged, LeavesRecord, AtPrice;
    var l, base := u.engine.limits, MaxReal(Load(m, p), Limit(u.engine.limits, m));
    if es == [] {
      CeilingMonotone(base, base, Peak(u, p, es), Peak(u, p, es), Unit(l, m));
    } else {
      var n := |es| - 1;
      var r, q := Run(u, p, es[..n]), Run(u, p, es);
      LimitsUnderConcurrency(u, m, p, es[..n]);
      StepWithinUnit(u, m, r, es[n]);
      CeilingMonotone(base, base, Peak(u, p, es[..n]), Peak(u, p, es), Unit(l, m));
      if Begins(u, r, es[n]) {
        WithinIsNumbered(l, m, r);
        BeginningAdds(u, m, r, es[n]);
        BeginningWithin(u, m, r, es[n]);
        FlightsMove(u, r, es[n]);
        CeilingMonotone(Limit(l, m), base, |q.engine.flights|, Peak(u, p, es), Unit(l, m));
      } else {
        OthersKeepLoad(u, m, r, es[n]);
      }
    }
  }

  lemma {:induction false} RecordBelowLoad(m: Measure, p: Pipeline)
    ensures OnRecord(m, p.engine.risk) <= Load(m, p)
    ensures p.engine.flights == map[] ==> OnRecord(m, p.engine.risk) == Load(m, p)
  {
    hide OnRecord, Adds;
    forall id | id in p.engine.flights ensures CouldAdd(m, p.clock)(p.engine.flights[id]) >= 0.0 {
      NotNegative(m, p.engine.flights[id].order, p.clock);
    }
    TotalBelow(map[], CouldAdd(m, p.clock), p.engine.flights, CouldAdd(m, p.clock));
  }

  /** One order at a time: each of the four limits is exact. */
  lemma SequentialLimitsExact(u: Setup, m: Measure, p: Pipeline, es: seq<Event>)
    requires p.engine.flights == map[] && Gauged(u.engine.limits, m) && Suits(m, es) && Peak(u, p, es) <= 1
    ensures OnRecord(m, Run(u, p, es).engine.risk) <= MaxReal(OnRecord(m, p.engine.risk), Limit(u.engine.limits, m))
  {
    hide Run, Step, Load, OnRecord, Gauged, Suits, Limit;
    LimitsUnderConcurrency(u, m, p, es);
    RecordBelowLoad(m, p);
    RecordBelowLoad(m, Run(u, p, es));
  }

  // ---------------------------------------------------------------- the same in whole numbers

  lemma CountLoad(p: Pipeline)
    ensures Load(DailyCount, p) == (p.engine.risk.dailyOrderCount + |p.engine.flights|) as real
  {
    TotalOnes(p.engine.flights, CouldAdd(DailyCount, p.clock));
  }

  /** Orders recorded in a window, and while it lasts those in flight, which may still be. */
  ghost function Pressure(p: Pipeline, window: real -> bool): int {
    CountIn(p.engine.risk.orderTimestamps, window) + if Ahead(window, p.clock) then |p.engine.flights| else 0
  }

  lemma RateLoad(p: Pipeline, window: real -> bool, width: real, cap: int)
    ensures Load(Rate(window, width, cap), p) == Pressure(p, window) as real
  {
    var m := Rate(window, width, cap);
    if Ahead(window, p.clock) {
      TotalOnes(p.engine.flights, CouldAdd(m, p.clock));
    } else {
      TotalZero(p.engine.flights, CouldAdd(m, p.clock));
    }
  }

  /** The daily count under overlap, syncs and fills included. */
  lemma CountUnderConcurrency(u: Setup, p: Pipeline, es: seq<Event>)
    requires Numbered(p.engine)
    ensures var s, l := Run(u, p, es).engine, u.engine.limits;
      s.risk.dailyOrderCount + |s.flights| <=
        MaxInt(p.engine.risk.dailyOrderCount + |p.engine.flights|, l.maxDailyOrders) + MaxInt(0, Peak(u, p, es) - 1)
  {
    hide Run, Peak, Load, Times;
    LimitsUnderConcurrency(u, DailyCount, p, es);
    TimesOne(MaxInt(0, Peak(u, p, es) - 1));
    CountLoad(p);
    CountLoad(Run(u, p, es));
  }

  /** The rate check under overlap: over every run from freshly constructed components, in any interleaving, any
      window narrower than a second (minute) holds at most the cap of recorded orders, plus one for each order in
      flight beyond the first. */
  lemma RateUnderConcurrency(u: Setup, clock: real, symbols: set<string>, es: seq<Event>, window: real -> bool,
                             width: real, cap: int)
    requires Gauged(u.engine.limits, Rate(window, width, cap))
    ensures var start := Start(clock, symbols);
      Pressure(Run(u, start, es), window) <= MaxInt(0, cap) + MaxInt(0, Peak(u, start, es) - 1)
  {
    hide Run, Peak, Load, Start, Pressure, Gauged, InFlightWithin, Times;
    var m, start := Rate(window, width, cap), Start(clock, symbols);
    InFlightWithinThroughout(u, m, clock, symbols, []);
    NoPressure(u, clock, symbols, window);
    LimitsUnderConcurrency(u, m, start, es);
    TimesOne(MaxInt(0, Peak(u, start, es) - 1));
    RateLoad(start, window, width, cap);
    RateLoad(Run(u, start, es), window, width, cap);
  }

  lemma NoPressure(u: Setup, clock: real, symbols: set<string>, window: real -> bool)
    ensures Pressure(Start(clock, symbols), window) == 0 && Run(u, Start(clock, symbols), []) == Start(clock, symbols)
  {
  }

  /** In particular for both kinds of half-open second and minute. */
  lemma HalfOpenRates(u: Setup, clock: real, symbols: set<string>, es: seq<Event>, start: real, width: real, cap: int)
    requires RateCap(u.engine.limits, width, cap)
    ensures var ts := Run(u, Start(clock, symbols), es).engine.risk.orderTimestamps;
      var bound := MaxInt(0, cap) + MaxInt(0, Peak(u, Start(clock, symbols), es) - 1);
      && CountIn(ts, t => start <= t < start + width) <= bound
      && CountIn(ts, t => start < t <= start + width) <= bound
  {
    hide Run, Peak, CountIn;
    RateUnderConcurrency(u, clock, symbols, es, t => start <= t < start + width, width, cap);
    RateUnderConcurrency(u, clock, symbols, es, t => start < t <= start + width, width, cap);
  }
}
