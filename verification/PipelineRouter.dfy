/** The router over whole runs: every reservation is accounted for, and no window overflows. */
module PipelineRouter {
  import opened Prelude
  import opened AuditTrails
  import opened Risk
  import opened RateLimiter
  import opened Engine
  import opened Router
  import opened Positions
  import opened Pipelines
  import opened PipelineStory

  // ---------------------------------------------------------------- conservation of reservations

  function AsReal(n: int): real {
    n as real
  }

  /** The results that submits called by the router returned, oldest first. */
  function RoutedResults(es: seq<Ending>): seq<ExecutionResult> {
    if es == [] then []
    else
      var x := es[|es| - 1];
      RoutedResults(es[..|es| - 1]) + if x.routed && x.outcome.Returned? then [x.outcome.result] else []
  }

  /** How many submits called by the router ended in an exception. */
  function RoutedLost(es: seq<Ending>): nat {
    if es == [] then 0
    else
      var x := es[|es| - 1];
      RoutedLost(es[..|es| - 1]) + if x.routed && x.outcome.Raised? then 1 else 0
  }

  function RoutedIds(flights: map<nat, Flight>): set<nat> {
    set id | id in flights && flights[id].routed
  }

  /** Each reservation is a result, an exception, or still in flight; the per-segment counts add up to the
      daily count; and the daily count never passes its cap. */
  ghost predicate Accounted(p: Pipeline, caps: Caps) {
    var r := p.router;
    && r.rate.dailyCount == |r.accepted|
    && r.rate.dailyCount == |r.results| + RoutedLost(p.engine.endings) + |RoutedIds(p.engine.flights)|
    && r.results == RoutedResults(p.engine.endings)
    && Total(r.segmentCounts, AsReal) == r.rate.dailyCount as real
    && r.rate.dailyCount <= MaxInt(0, caps.perDay)
    && forall id :: id in p.engine.flights ==> id < p.engine.nextId
  }

  lemma EndingRouted(es: seq<Ending>, x: Ending)
    ensures RoutedResults(es + [x]) ==
      RoutedResults(es) + if x.routed && x.outcome.Returned? then [x.outcome.result] else []
    ensures RoutedLost(es + [x]) == RoutedLost(es) + if x.routed && x.outcome.Raised? then 1 else 0
  {
    assert (es + [x])[..|es|] == es;
  }

  lemma AdmitAccounted(u: Setup, p: Pipeline, o: Order, routed: bool, inHours: bool, now: real, router: RouterState)
    requires Accounted(p, u.caps)
    requires if routed then SlotOf(p.router, router) && p.router.rate.dailyCount < u.caps.perDay else router == p.router
    ensures var verdict := Verdict(u.engine, p.engine, o, inHours, now);
      Accounted(Pipeline(now, if routed && verdict.Some? then Kept(router, verdict.value) else router,
                         Admit(u.engine, p.engine, o, routed, inHours, now), p.book), u.caps)
  {
    hide Checks, FailedIds, CheckData, BlockedTrail, CheckedTrail, RoutedResults, RoutedLost, Total;
    match Verdict(u.engine, p.engine, o, inHours, now)
    case Some(outcome) => EndingRouted(p.engine.endings, Ending(o, routed, 0, outcome));
    case None =>
      var f := Flight(o, routed, now, 1, false);
      assert RoutedIds(p.engine.flights[p.engine.nextId := f]) ==
        RoutedIds(p.engine.flights) + if routed then {p.engine.nextId} else {};
  }

  /** `s` is `r` with one more slot taken. */
  ghost predicate SlotOf(r: RouterState, s: RouterState) {
    && s.results == r.results && |s.accepted| == |r.accepted| + 1 && s.rate.dailyCount == r.rate.dailyCount + 1
    && Total(s.segmentCounts, AsReal) == Total(r.segmentCounts, AsReal) + 1.0
  }

  lemma SlotTakenIsSlot(r: RouterState, o: Order, pruned: real, now: real)
    ensures SlotOf(r, SlotTaken(Swept(r, pruned), o, now))
  {
    var segment := Upper(o.segment);
    TotalUpdate(r.segmentCounts, AsReal, segment, SegmentCount(r.segmentCounts, segment) + 1);
  }

  lemma LandedAccounted(p: Pipeline, caps: Caps, id: nat, outcome: Outcome, q: Pipeline)
    requires Accounted(p, caps) && id in p.engine.flights
    requires var l := Landed(p.engine, id, outcome);
      q.engine.flights == l.flights && q.engine.endings == l.endings && q.engine.nextId == l.nextId
    requires q.router == Delivered(p.router, p.engine.flights[id], outcome)
    ensures Accounted(q, caps)
  {
    hide RoutedResults, RoutedLost, Total;
    var f := p.engine.flights[id];
    EndingRouted(p.engine.endings, Ending(f.order, f.routed, f.attempt, outcome));
    assert RoutedIds(p.engine.flights - {id}) == RoutedIds(p.engine.flights) - {id};
  }

  lemma FlightChangeAccounted(p: Pipeline, caps: Caps, id: nat, f: Flight, q: Pipeline)
    requires Accounted(p, caps) && id in p.engine.flights && f.routed == p.engine.flights[id].routed
    requires q.router == p.router && q.engine.flights == p.engine.flights[id := f]
    requires q.engine.endings == p.engine.endings && q.engine.nextId == p.engine.nextId
    ensures Accounted(q, caps)
  {
    assert RoutedIds(q.engine.flights) == RoutedIds(p.engine.flights);
  }

  lemma StepAccounted(u: Setup, p: Pipeline, e: Event)
    requires Accounted(p, u.caps)
    ensures Accounted(Step(u, p, e), u.caps)
  {
    hide Admit, Verdict, RoutedResults, RoutedLost, RoutedIds, Total, Upper, Recent;
    hide RejectedTrail, PlacedTrail, AfterPlaced, SlotTaken, SlotOf, Synced, SyncedKill, LossTrail, AfterFill;
    match e
    case RouteCalled(o, inHours, a, b, c) =>
      SlotTakenIsSlot(p.router, o, p.clock + a, p.clock + a + b);
      if !Limited(Swept(p.router, p.clock + a).rate, u.caps) {
        AdmitAccounted(u, p, o, true, inHours, p.clock + a + b + c,
                       SlotTaken(Swept(p.router, p.clock + a), o, p.clock + a + b));
      }
    case SubmitCalled(o, inHours, wait) => AdmitAccounted(u, p, o, false, inHours, p.clock + wait, p.router);
    case BrokerAnswered(id, br, _) =>
      if Placing(p.engine, id) {
        LandedAccounted(p, u.caps, id, Returned(AnsweredResult(br, p.engine.flights[id].admittedAt)), Step(u, p, e));
      }
    case BrokerRaised(id, _) =>
      if Placing(p.engine, id) {
        if p.engine.flights[id].attempt <= u.engine.maxRetries {
          FlightChangeAccounted(p, u.caps, id, p.engine.flights[id].(sleeping := true), Step(u, p, e));
        } else {
          LandedAccounted(p, u.caps, id, Raised, Step(u, p, e));
        }
      }
    case DelayOver(id, _) =>
      if Sleeping(p.engine, id) {
        var f := p.engine.flights[id];
        FlightChangeAccounted(p, u.caps, id, f.(sleeping := false, attempt := f.attempt + 1), Step(u, p, e));
      }
    case TaskCancelled(id, _) =>
      if id in p.engine.flights {
        LandedAccounted(p, u.caps, id, Raised, Step(u, p, e));
      }
    case _ =>
  }

  // ---------------------------------------------------------------- the sliding windows

  /** The limiter's lists are faithful from now on, and the accepted instants are spaced in both windows. */
  ghost predicate Windowed(p: Pipeline, caps: Caps) {
    && (forall now :: p.clock <= now ==> Faithful(Pruned(p.router.rate, now), p.router.accepted, now))
    && Spaced(p.router.accepted, 1.0, caps.perSecond)
    && Spaced(p.router.accepted, 60.0, caps.perMinute)
  }

  lemma RouteWindowed(u: Setup, p: Pipeline, e: Event)
    requires e.RouteCalled? && Windowed(p, u.caps)
    ensures Windowed(RouteStep(u, p, e), u.caps)
  {
    hide Admit, Verdict, Upper, Recent, CountAfter, Spaced;
    var pruned := p.clock + e.toPrune;
    var reserved := pruned + e.toReserve;
    var rate, accepted := Pruned(p.router.rate, pruned), p.router.accepted;
    assert Faithful(rate, accepted, pruned);
    RecentCounts(accepted, pruned - 1.0);
    RecentCounts(accepted, pruned - 60.0);
    var q := RouteStep(u, p, e);
    if !Limited(rate, u.caps) {
      ReserveFaithful(rate, accepted, pruned, reserved);
      ReserveSpaced(accepted, 1.0, u.caps.perSecond, pruned, reserved);
      ReserveSpaced(accepted, 60.0, u.caps.perMinute, pruned, reserved);
      assert q.router.rate == Reserved(rate, reserved) && q.router.accepted == accepted + [reserved];
    }
    forall now | q.clock <= now ensures Faithful(Pruned(q.router.rate, now), q.router.accepted, now) {
      PruneFaithful(q.router.rate, u.caps, q.router.accepted, pruned, now);
    }
  }

  lemma StepWindowed(u: Setup, p: Pipeline, e: Event)
    requires Windowed(p, u.caps)
    ensures Windowed(Step(u, p, e), u.caps)
  {
    hide Admit, Answered, Landed, Spaced, Pruned, Faithful, Synced, SyncedKill, LossTrail;
    if e.RouteCalled? {
      RouteWindowed(u, p, e);
    } else {
      var q := Step(u, p, e);
      assert q.clock >= p.clock;
      assert q.router.rate == p.router.rate && q.router.accepted == p.router.accepted;
    }
  }

  // ---------------------------------------------------------------- over every run

  lemma {:induction false} RouterThroughout(u: Setup, clock: real, symbols: set<string>, es: seq<Event>)
    ensures var p := Run(u, Start(clock, symbols), es); Accounted(p, u.caps) && Windowed(p, u.caps)
  {
    if es == [] {
      StartsEmpty(u, clock, symbols);
    } else {
      hide Accounted, Windowed, Step;
      var n := |es| - 1;
      RouterThroughout(u, clock, symbols, es[..n]);
      StepAccounted(u, Run(u, Start(clock, symbols), es[..n]), es[n]);
      StepWindowed(u, Run(u, Start(clock, symbols), es[..n]), es[n]);
    }
  }

  lemma StartsEmpty(u: Setup, clock: real, symbols: set<string>)
    ensures Accounted(Start(clock, symbols), u.caps) && Windowed(Start(clock, symbols), u.caps)
  {
    var p := Start(clock, symbols);
    assert RoutedIds(p.engine.flights) == {};
  }

  /** Rate safety over whole runs and all interleavings: any half-open second holds at most the
      per-second cap of accepted orders, any half-open minute at most the per-minute cap. */
  lemma NoWindowOverflows(u: Setup, clock: real, symbols: set<string>, es: seq<Event>, start: real)
    ensures var accepted := Run(u, Start(clock, symbols), es).router.accepted;
      && CountIn(accepted, t => start <= t < start + 1.0) <= MaxInt(0, u.caps.perSecond)
      && CountIn(accepted, t => start < t <= start + 1.0) <= MaxInt(0, u.caps.perSecond)
      && CountIn(accepted, t => start <= t < start + 60.0) <= MaxInt(0, u.caps.perMinute)
      && CountIn(accepted, t => start < t <= start + 60.0) <= MaxInt(0, u.caps.perMinute)
  {
    RouterThroughout(u, clock, symbols, es);
    var accepted := Run(u, Start(clock, symbols), es).router.accepted;
    HalfOpenBounded(accepted, 1.0, u.caps.perSecond, start);
    HalfOpenBounded(accepted, 60.0, u.caps.perMinute, start);
  }

  /** The next decision is the one a never-pruned history would give. */
  lemma DecisionIsExact(u: Setup, clock: real, symbols: set<string>, es: seq<Event>, now: real)
    requires Run(u, Start(clock, symbols), es).clock <= now
    ensures var r := Run(u, Start(clock, symbols), es).router;
      Limited(Pruned(r.rate, now), u.caps) <==>
        || CountAfter(r.accepted, now - 1.0) >= u.caps.perSecond
        || CountAfter(r.accepted, now - 60.0) >= u.caps.perMinute
        || |r.accepted| >= u.caps.perDay
  {
    RouterThroughout(u, clock, symbols, es);
    var r := Run(u, Start(clock, symbols), es).router;
    RecentCounts(r.accepted, now - 1.0);
    RecentCounts(r.accepted, now - 60.0);
    assert Faithful(Pruned(r.rate, now), r.accepted, now);
  }

  // ---------------------------------------------------------------- the histories of accepted orders, exactly

  /** In order, and none before `clock`. */
  predicate Timely(ts: seq<real>, clock: real) {
    && (forall i, j :: 0 <= i < j < |ts| ==> ts[i] <= ts[j])
    && forall i :: 0 <= i < |ts| ==> clock <= ts[i]
  }

  predicate TimelyUntil(ts: seq<real>, clock: real, now: real) {
    Timely(ts, clock) && clock <= now && forall i :: 0 <= i < |ts| ==> ts[i] <= now
  }

  lemma StepTimely(u: Setup, p: Pipeline, e: Event, clock: real)
    requires TimelyUntil(p.router.accepted, clock, p.clock)
    ensures TimelyUntil(Step(u, p, e).router.accepted, clock, Step(u, p, e).clock)
  {
    hide Admit, Answered, Landed, Synced, SyncedKill, LossTrail, Swept, Limited, Verdict, Upper;
    var q := Step(u, p, e);
    assert p.clock <= q.clock;
    if e.RouteCalled? {
      assert q.router.accepted == p.router.accepted
          || q.router.accepted == p.router.accepted + [p.clock + e.toPrune + e.toReserve] by {
        SweptKeeps(p.router, p.clock + e.toPrune);
      }
    } else {
      assert q.router.accepted == p.router.accepted;
    }
  }

  lemma SweptKeeps(r: RouterState, now: real)
    ensures Swept(r, now).accepted == r.accepted
  {
  }

  lemma {:induction false} AcceptedTimely(u: Setup, clock: real, symbols: set<string>, es: seq<Event>)
    ensures var p := Run(u, Start(clock, symbols), es); TimelyUntil(p.router.accepted, clock, p.clock)
  {
    if es != [] {
      hide Step, TimelyUntil;
      var n := |es| - 1;
      AcceptedTimely(u, clock, symbols, es[..n]);
      StepTimely(u, Run(u, Start(clock, symbols), es[..n]), es[n], clock);
    } else {
      assert Start(clock, symbols).router.accepted == [];
    }
  }

  function LastOr(ts: seq<real>, clock: real): real {
    if ts == [] then clock else ts[|ts| - 1]
  }

  /** Calls of `route` at these instants. */
  function RoutesAt(o: Order, ts: seq<real>, clock: real): seq<Event>
    requires Timely(ts, clock)
  {
    if ts == [] then []
    else
      var init := ts[..|ts| - 1];
      assert forall i, j :: 0 <= i < j < |init| ==> init[i] <= init[j];
      RoutesAt(o, init, clock) + [RouteCalled(o, true, ts[|ts| - 1] - LastOr(init, clock), 0.0, 0.0)]
  }

  lemma RouteAccepts(u: Setup, p: Pipeline, e: Event)
    requires e.RouteCalled? && !Limited(Pruned(p.router.rate, p.clock + e.toPrune), u.caps)
    ensures var q := Step(u, p, e);
      && q.router.accepted == p.router.accepted + [p.clock + e.toPrune + e.toReserve]
      && q.clock == p.clock + e.toPrune + e.toReserve + e.toCheck
  {
    hide Limited, Pruned, Admit, Verdict, Upper;
  }

  lemma {:induction false} RoutesAccepted(u: Setup, clock: real, symbols: set<string>, o: Order, ts: seq<real>)
    requires Timely(ts, clock) && Permitted(u.caps, ts)
    ensures var p := Run(u, Start(clock, symbols), RoutesAt(o, ts, clock));
      p.router.accepted == ts && p.clock == LastOr(ts, clock)
  {
    hide Step;
    if ts != [] {
      var n := |ts| - 1;
      var init, es := ts[..n], RoutesAt(o, ts, clock);
      InitTimely(ts, clock);
      InitPermitted(u.caps, ts);
      RoutesAccepted(u, clock, symbols, o, init);
      RoutesLast(o, ts, clock);
      hide Start, Timely;
      var p := Run(u, Start(clock, symbols), es[..n]);
      DecisionIsExact(u, clock, symbols, es[..n], ts[n]);
      RouteAccepts(u, p, es[n]);
    }
  }

  lemma InitTimely(ts: seq<real>, clock: real)
    requires Timely(ts, clock) && ts != []
    ensures Timely(ts[..|ts| - 1], clock) && LastOr(ts[..|ts| - 1], clock) <= ts[|ts| - 1]
  {
  }

  lemma InitPermitted(caps: Caps, ts: seq<real>)
    requires Permitted(caps, ts) && ts != []
    ensures var init, now := ts[..|ts| - 1], ts[|ts| - 1];
      && Permitted(caps, init) && CountAfter(init, now - 1.0) < caps.perSecond
      && CountAfter(init, now - 60.0) < caps.perMinute && |init| < caps.perDay
  {
    hide CountAfter;
  }

  lemma RoutesLast(o: Order, ts: seq<real>, clock: real)
    requires Timely(ts, clock) && ts != []
    ensures Timely(ts[..|ts| - 1], clock)
    ensures var es, init := RoutesAt(o, ts, clock), ts[..|ts| - 1];
      && |es| == |ts| && es[..|ts| - 1] == RoutesAt(o, init, clock) && es[|ts| - 1].RouteCalled?
      && es[|ts| - 1].toPrune == ts[|ts| - 1] - LastOr(init, clock)
      && es[|ts| - 1].toReserve == 0.0 && es[|ts| - 1].toCheck == 0.0
  {
    InitTimely(ts, clock);
    RoutesLength(o, ts[..|ts| - 1], clock);
  }

  lemma {:induction false} RoutesLength(o: Order, ts: seq<real>, clock: real)
    requires Timely(ts, clock)
    ensures |RoutesAt(o, ts, clock)| == |ts|
  {
    if ts != [] {
      InitTimely(ts, clock);
      RoutesLength(o, ts[..|ts| - 1], clock);
    }
  }

  /** What the router can accept, exactly: a list of instants is the history of accepted orders of some run if and
      only if it is in order and spaced in both windows and within the daily cap. */
  lemma HistoryIff(u: Setup, clock: real, symbols: set<string>, o: Order, ts: seq<real>)
    ensures (exists es :: Run(u, Start(clock, symbols), es).router.accepted == ts)
      <==> Timely(ts, clock) && Permitted(u.caps, ts)
  {
    hide Run, Start, Spaced;
    if Timely(ts, clock) && Permitted(u.caps, ts) {
      RoutesAccepted(u, clock, symbols, o, ts);
    }
    if es :| Run(u, Start(clock, symbols), es).router.accepted == ts {
      RouterThroughout(u, clock, symbols, es);
      AcceptedTimely(u, clock, symbols, es);
    }
  }

  // ---------------------------------------------------------------- closed windows, exactly

  /** How many orders a run has accepted in the closed interval of this width. */
  function InClosed(u: Setup, clock: real, symbols: set<string>, es: seq<Event>, start: real, width: real): nat {
    CountIn(Run(u, Start(clock, symbols), es).router.accepted, t => start <= t <= start + width)
  }

  /** No closed second and no closed minute ever holds more than this. */
  lemma ClosedWindowsBounded(u: Setup, clock: real, symbols: set<string>, es: seq<Event>, start: real)
    ensures InClosed(u, clock, symbols, es, start, 1.0) <= ClosedSecond(u.caps)
    ensures InClosed(u, clock, symbols, es, start, 60.0) <= ClosedMinute(u.caps)
  {
    hide Run, Start, Spaced;
    RouterThroughout(u, clock, symbols, es);
    ClosedSecondBounded(u.caps, Run(u, Start(clock, symbols), es).router.accepted, start);
    ClosedMinuteBounded(u.caps, Run(u, Start(clock, symbols), es).router.accepted, start);
  }

  /** And some run fills each of them so far. */
  lemma ClosedWindowsFill(u: Setup, clock: real, symbols: set<string>, o: Order)
    ensures exists es :: InClosed(u, clock, symbols, es, clock, 1.0) == ClosedSecond(u.caps)
    ensures exists es :: InClosed(u, clock, symbols, es, clock, 60.0) == ClosedMinute(u.caps)
  {
    hide InClosed;
    var caps := u.caps;
    if caps.perSecond >= 1 && caps.perMinute >= 1 && caps.perDay >= 1 {
      var burst := MinInt(caps.perSecond, caps.perMinute);
      BurstsRun(u, clock, symbols, o, burst, burst, 1.0, ClosedSecond(caps));
      BurstsRun(u, clock, symbols, o, burst, MinInt(caps.perMinute, 60 * caps.perSecond), 60.0, ClosedMinute(caps));
    } else {
      EmptyRun(u, clock, symbols, 1.0);
      EmptyRun(u, clock, symbols, 60.0);
    }
  }

  lemma EmptyRun(u: Setup, clock: real, symbols: set<string>, width: real)
    ensures InClosed(u, clock, symbols, [], clock, width) == 0
  {
  }

  lemma BurstsRun(u: Setup, clock: real, symbols: set<string>, o: Order, burst: nat, full: nat, width: real, k: nat)
    requires BurstsAllowed(u.caps, burst, full, width, k)
    ensures exists es :: InClosed(u, clock, symbols, es, clock, width) == k
  {
    hide Run, Start, Permitted;
    var ts := Bursts(burst, full, width, clock, k);
    BurstsPermitted(u.caps, burst, full, width, clock, k);
    BurstsInOrder(burst, full, width, clock, k);
    RoutesAccepted(u, clock, symbols, o, ts);
    assert InClosed(u, clock, symbols, RoutesAt(o, ts, clock), clock, width) == k;
  }

  ghost predicate Overflows(u: Setup, clock: real, symbols: set<string>, es: seq<Event>, start: real, width: real,
                            cap: int)
  {
    InClosed(u, clock, symbols, es, start, width) > MaxInt(0, cap)
  }

  /** So a closed second can hold more than its cap if and only if the other caps leave room for one more order, and
      a closed minute if and only if, besides, 61 seconds can hold more than a minute may. */
  lemma ClosedWindowsOverflowIff(u: Setup, clock: real, symbols: set<string>, o: Order)
    ensures var c := u.caps;
      && ((exists es, start :: Overflows(u, clock, symbols, es, start, 1.0, c.perSecond))
            <==> 1 <= c.perSecond < c.perMinute && c.perSecond < c.perDay)
      && ((exists es, start :: Overflows(u, clock, symbols, es, start, 60.0, c.perMinute))
            <==> 1 <= c.perMinute < 61 * c.perSecond && c.perMinute < c.perDay)
  {
    hide InClosed;
    ClosedWindowsFill(u, clock, symbols, o);
    var second :| InClosed(u, clock, symbols, second, clock, 1.0) == ClosedSecond(u.caps);
    var minute :| InClosed(u, clock, symbols, minute, clock, 60.0) == ClosedMinute(u.caps);
    assert Overflows(u, clock, symbols, second, clock, 1.0, u.caps.perSecond)
      <==> ClosedSecond(u.caps) > MaxInt(0, u.caps.perSecond);
    assert Overflows(u, clock, symbols, minute, clock, 60.0, u.caps.perMinute)
      <==> ClosedMinute(u.caps) > MaxInt(0, u.caps.perMinute);
    forall es, start
      ensures !(Overflows(u, clock, symbols, es, start, 1.0, u.caps.perSecond)
                && ClosedSecond(u.caps) <= MaxInt(0, u.caps.perSecond))
      ensures !(Overflows(u, clock, symbols, es, start, 60.0, u.caps.perMinute)
                && ClosedMinute(u.caps) <= MaxInt(0, u.caps.perMinute))
    {
      ClosedWindowsBounded(u, clock, symbols, es, start);
    }
  }

  // ---------------------------------------------------------------- the daily cap

  predicate AllRouted(es: seq<Event>) {
    forall k :: 0 <= k < |es| ==> !es[k].SubmitCalled?
  }

  /** Every submit came through the router. */
  predicate OnlyRouted(s: EngineState) {
    && (forall id :: id in s.flights ==> s.flights[id].routed)
    && (forall k :: 0 <= k < |s.endings| ==> s.endings[k].routed)
  }

  lemma StepOnlyRouted(u: Setup, p: Pipeline, e: Event)
    requires OnlyRouted(p.engine) && !e.SubmitCalled?
    ensures OnlyRouted(Step(u, p, e).engine)
  {
    hide Checks, FailedIds, CheckData, Recorded, AfterPlaced, Synced, SyncedKill, LossTrail, Upper;
  }

  lemma {:induction false} RunOnlyRouted(u: Setup, clock: real, symbols: set<string>, es: seq<Event>)
    requires AllRouted(es)
    ensures OnlyRouted(Run(u, Start(clock, symbols), es).engine)
  {
    if es != [] {
      hide OnlyRouted, Step;
      var n := |es| - 1;
      RunOnlyRouted(u, clock, symbols, es[..n]);
      StepOnlyRouted(u, Run(u, Start(clock, symbols), es[..n]), es[n]);
    } else {
      NothingYet(clock, symbols);
    }
  }

  lemma NothingYet(clock: real, symbols: set<string>)
    ensures OnlyRouted(Start(clock, symbols).engine)
  {
  }

  lemma {:induction false} PlacedAreRouted(es: seq<Ending>)
    requires forall k :: 0 <= k < |es| ==> es[k].routed
    ensures CountFate(es, Placed) <= |RoutedResults(es)|
  {
    if es != [] {
      PlacedAreRouted(es[..|es| - 1]);
    }
  }

  /** The daily cap is exact: the router reserves before it awaits, so the orders recorded by the risk
      manager together with those in flight never exceed it, in any interleaving, although the risk
      manager itself checks first and records later. */
  lemma DailyCapIsExact(u: Setup, clock: real, symbols: set<string>, es: seq<Event>)
    requires AllRouted(es)
    ensures var s := Run(u, Start(clock, symbols), es).engine;
      s.risk.dailyOrderCount + |s.flights| <= MaxInt(0, u.caps.perDay)
  {
    RouterThroughout(u, clock, symbols, es);
    RunOnlyRouted(u, clock, symbols, es);
    TrailAgreesThroughout(u, clock, symbols, es);
    var s := Run(u, Start(clock, symbols), es).engine;
    PlacedAreRouted(s.endings);
    assert RoutedIds(s.flights) == s.flights.Keys;
  }
}
