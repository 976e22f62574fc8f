/** What one event does to the orders in flight and to the risk state: an order begins, an order is placed, or
    neither. */
module PipelineMoves {
  import opened Prelude
  import opened Risk
  import opened RateLimiter
  import opened Engine
  import opened Router
  import opened Positions
  import opened Pipelines
  import opened PipelineStory

  /** The most orders in flight at once, at any moment of a run. */
  function Peak(u: Setup, p: Pipeline, es: seq<Event>): int {
    if es == [] then |p.engine.flights|
    else MaxInt(Peak(u, p, es[..|es| - 1]), |Run(u, p, es).engine.flights|)
  }

  // ---------------------------------------------------------------- orders that begin

  /** What the gate guarantees of an order it lets begin, and what beginning it does. */
  lemma AdmittedFits(cfg: Config, s: EngineState, o: Order, routed: bool, inHours: bool, now: real)
    requires Verdict(cfg, s, o, inHours, now) == None
    ensures Value(o) <= cfg.limits.maxOrderValue && s.risk.exposure + Value(o) <= cfg.limits.maxTotalExposure
    ensures s.risk.dailyOrderCount < cfg.limits.maxDailyOrders
    ensures s.risk.marginAvailable >= Value(o) && o.price > 0.0 && o.symbol in s.symbols
    ensures (PositionOf(s.risk, o.symbol) + o.quantity as real) * o.price <= cfg.limits.maxPositionPerSymbol
    ensures var a := Admit(cfg, s, o, routed, inHours, now);
      && a.risk == s.risk && a.kill == s.kill && a.symbols == s.symbols && a.nextId == s.nextId + 1
      && a.flights == s.flights[s.nextId := Flight(o, routed, now, 1, false)]
      && a.placements == s.placements + 1 && a.endings == s.endings
  {
    AdmitFlies(cfg, s, o, routed, inHours, now);
    hide CheckAll, FailedIds, Admit, Value;
    GateMeaning(cfg.limits, s.risk, s.symbols, s.kill.level, o, inHours, now);
  }

  /** A submit that ends at once only records. */
  lemma RefusedUnchanged(cfg: Config, s: EngineState, o: Order, routed: bool, inHours: bool, now: real)
    requires Verdict(cfg, s, o, inHours, now) != None
    ensures var a := Admit(cfg, s, o, routed, inHours, now);
      && a.risk == s.risk.(orderRejections := a.risk.orderRejections)
      && a.flights == s.flights && a.nextId == s.nextId && a.placements == s.placements && a.kill == s.kill
  {
    hide Checks, FailedIds, CheckData, BlockedTrail, CheckedTrail;
  }

  /** This event is a submit that passes the gate: its first placement begins. */
  predicate Begins(u: Setup, p: Pipeline, e: Event): (begins: bool)
    ensures begins ==> e.RouteCalled? || e.SubmitCalled?
  {
    match e
    case RouteCalled(o, inHours, _, _, _) =>
      && !Limited(Swept(p.router, p.clock + e.toPrune).rate, u.caps)
      && Verdict(u.engine, p.engine, o, inHours, CheckedAt(p, e)) == None
    case SubmitCalled(o, inHours, _) => Verdict(u.engine, p.engine, o, inHours, CheckedAt(p, e)) == None
    case _ => false
  }

  /** When the gate of this submit reads its clock. */
  function CheckedAt(p: Pipeline, e: Event): real
    requires e.RouteCalled? || e.SubmitCalled?
  {
    if e.RouteCalled? then p.clock + e.toPrune + e.toReserve + e.toCheck else p.clock + e.wait
  }

  /** What it does to the engine, the trail aside. */
  lemma BeginningFlies(u: Setup, p: Pipeline, e: Event)
    requires Begins(u, p, e)
    ensures Verdict(u.engine, p.engine, e.order, e.inHours, CheckedAt(p, e)) == None
    ensures var s, t := p.engine, Step(u, p, e).engine;
      && t.flights == s.flights[s.nextId := Flight(e.order, e.RouteCalled?, CheckedAt(p, e), 1, false)]
      && t.risk == s.risk && t.kill == s.kill && t.symbols == s.symbols
      && t.nextId == s.nextId + 1 && t.placements == s.placements + 1
    ensures Step(u, p, e).clock == CheckedAt(p, e)
  {
    hide Admit, Verdict, Limited, Swept, SlotTaken, Kept;
    AdmittedFits(u.engine, p.engine, e.order, e.RouteCalled?, e.inHours, CheckedAt(p, e));
  }

  /** All ten conditions hold at the moment this event begins its order. */
  predicate Checked(u: Setup, p: Pipeline, e: Event) {
    && (e.RouteCalled? || e.SubmitCalled?)
    && AllHold(u.engine.limits, p.engine.risk, p.engine.symbols, p.engine.kill.level, e.order, e.inHours,
               CheckedAt(p, e))
  }

  lemma BeginningIsChecked(u: Setup, p: Pipeline, e: Event)
    requires Begins(u, p, e)
    ensures Checked(u, p, e)
  {
    hide CheckAll, FailedIds, AllHold, Limited, Swept;
    GateMeaning(u.engine.limits, p.engine.risk, p.engine.symbols, p.engine.kill.level, e.order, e.inHours,
                CheckedAt(p, e));
  }

  // ---------------------------------------------------------------- all other events

  /** No order begins, and none is placed: flights may leave, the record may be overwritten from outside. */
  ghost predicate Stays(p: Pipeline, q: Pipeline, e: Event) {
    var s, t := p.engine, q.engine;
    && p.clock <= q.clock && t.nextId == s.nextId && t.flights.Keys <= s.flights.Keys
    && (forall id :: id in t.flights ==> t.flights[id].order == s.flights[id].order)
    && (e.SyncAnswered? || t.risk.exposure == s.risk.exposure)
    && t.risk.dailyOrderCount == s.risk.dailyOrderCount && t.risk.orderTimestamps == s.risk.orderTimestamps
    && (forall k :: PositionOf(t.risk, k) == PositionOf(s.risk, k) || (e.FillArrived? && e.fill.symbol == k))
  }

  /** One order in flight is placed. */
  ghost predicate Places(p: Pipeline, q: Pipeline, id: nat) {
    var s, t := p.engine, q.engine;
    && p.clock <= q.clock && id in s.flights && t.flights == s.flights - {id} && t.nextId == s.nextId
    && t.risk == AfterPlaced(s.risk, s.flights[id].order, q.clock)
  }

  lemma AnswerMoves(u: Setup, p: Pipeline, e: Event)
    requires e.BrokerAnswered? && Placing(p.engine, e.id)
    ensures var q := Step(u, p, e); if e.answer.status == Rejected then Stays(p, q, e) else Places(p, q, e.id)
    ensures Step(u, p, e).clock == p.clock + e.wait
  {
    hide RejectedTrail, PlacedTrail, AfterPlaced, Kept;
  }

  lemma RetryStays(u: Setup, p: Pipeline, e: Event)
    requires e.BrokerRaised? || e.DelayOver? || e.TaskCancelled?
    ensures Stays(p, Step(u, p, e), e)
  {
  }

  lemma OutsideStays(u: Setup, p: Pipeline, e: Event)
    requires e.CancelAnswered? || e.SyncAnswered? || e.FillArrived? || e.SymbolRegistered?
             || e.OperatorActivates? || e.OperatorDeactivates?
    ensures Stays(p, Step(u, p, e), e)
  {
    hide Synced, SyncedKill, LossTrail, AfterFill, CancelledTrail;
  }

  lemma RefusedStays(u: Setup, p: Pipeline, e: Event)
    requires (e.RouteCalled? || e.SubmitCalled?) && !Begins(u, p, e)
    ensures Stays(p, Step(u, p, e), e)
  {
    hide Admit, Verdict, Limited, Swept, SlotTaken, Kept;
    if e.SubmitCalled? || !Limited(Swept(p.router, p.clock + e.toPrune).rate, u.caps) {
      RefusedUnchanged(u.engine, p.engine, e.order, e.RouteCalled?, e.inHours, CheckedAt(p, e));
    }
  }

  /** Whatever does not begin an order leaves the record alone or places one order. */
  lemma OthersMove(u: Setup, p: Pipeline, e: Event)
    requires !Begins(u, p, e)
    ensures var q := Step(u, p, e); Stays(p, q, e) || (e.BrokerAnswered? && Places(p, q, e.id))
  {
    hide Step, Stays, Places, Begins;
    if e.RouteCalled? || e.SubmitCalled? {
      RefusedStays(u, p, e);
    } else if e.BrokerAnswered? {
      if Placing(p.engine, e.id) {
        AnswerMoves(u, p, e);
      } else {
        UnknownStays(u, p, e);
      }
    } else if e.BrokerRaised? || e.DelayOver? || e.TaskCancelled? {
      RetryStays(u, p, e);
    } else {
      OutsideStays(u, p, e);
    }
  }

  lemma UnknownStays(u: Setup, p: Pipeline, e: Event)
    requires e.BrokerAnswered? && !Placing(p.engine, e.id)
    ensures Stays(p, Step(u, p, e), e)
  {
  }

  /** Flights are numbered below the next number. */
  predicate Numbered(s: EngineState) {
    forall id :: id in s.flights ==> id < s.nextId
  }

  /** The number of flights moves by at most one, and grows only where an order begins. */
  lemma FlightsMove(u: Setup, p: Pipeline, e: Event)
    requires Numbered(p.engine)
    ensures var s, t := p.engine, Step(u, p, e).engine;
      Numbered(t) && if Begins(u, p, e) then |t.flights| == |s.flights| + 1 else |t.flights| <= |s.flights|
  {
    hide Begins, Step;
    var s, t := p.engine, Step(u, p, e).engine;
    if Begins(u, p, e) {
      BeginningFlies(u, p, e);
      assert t.flights.Keys == s.flights.Keys + {s.nextId};
    } else {
      OthersMove(u, p, e);
      assert t.flights.Keys <= s.flights.Keys;
      Fewer(t.flights.Keys, s.flights.Keys);
      assert |t.flights.Keys| == |t.flights| && |s.flights.Keys| == |s.flights|;
    }
  }

  lemma Fewer(a: set<nat>, b: set<nat>)
    requires a <= b
    ensures |a| <= |b|
  {
    assert b == a + (b - a);
  }

  // ---------------------------------------------------------------- exposure is what was placed

  /** The value of every order that was placed. */
  function PlacedValue(es: seq<Ending>): real {
    if es == [] then 0.0
    else
      var x := es[|es| - 1];
      PlacedValue(es[..|es| - 1]) + if FateOf(x.outcome) == Placed then Value(x.order) else 0.0
  }

  lemma PlacedSnoc(es: seq<Ending>, x: Ending)
    ensures PlacedValue(es + [x]) == PlacedValue(es) + if FateOf(x.outcome) == Placed then Value(x.order) else 0.0
  {
    assert (es + [x])[..|es|] == es;
  }

  lemma AdmitPlacesNothing(cfg: Config, s: EngineState, o: Order, routed: bool, inHours: bool, now: real)
    ensures var a := Admit(cfg, s, o, routed, inHours, now);
      a.risk.exposure == s.risk.exposure && PlacedValue(a.endings) == PlacedValue(s.endings)
  {
    hide Checks, FailedIds, CheckData, BlockedTrail, CheckedTrail, PlacedValue, Value;
    var verdict := Verdict(cfg, s, o, inHours, now);
    if verdict.Some? {
      PlacedSnoc(s.endings, Ending(o, routed, 0, verdict.value));
    }
  }

  lemma LandingPlaces(cfg: Config, s: EngineState, id: nat, br: BrokerResult, now: real)
    requires id in s.flights
    ensures var a := Answered(cfg, s, id, br, now);
      a.risk.exposure - PlacedValue(a.endings) == s.risk.exposure - PlacedValue(s.endings)
    ensures PlacedValue(Landed(s, id, Raised).endings) == PlacedValue(s.endings)
  {
    hide PlacedValue, Value, RejectedTrail, PlacedTrail;
    var f := s.flights[id];
    PlacedSnoc(s.endings, Ending(f.order, f.routed, f.attempt, Returned(AnsweredResult(br, f.admittedAt))));
    PlacedSnoc(s.endings, Ending(f.order, f.routed, f.attempt, Raised));
  }

  lemma StepPlaces(u: Setup, p: Pipeline, e: Event)
    requires !e.SyncAnswered?
    ensures var s, t := p.engine, Step(u, p, e).engine;
      t.risk.exposure - PlacedValue(t.endings) == s.risk.exposure - PlacedValue(s.endings)
  {
    hide Admit, Answered, Landed, PlacedValue, Kept, SlotTaken, Swept, Limited, Verdict;
    match e
    case RouteCalled(o, inHours, a, b, c) =>
      AdmitPlacesNothing(u.engine, p.engine, o, true, inHours, p.clock + a + b + c);
    case SubmitCalled(o, inHours, wait) =>
      AdmitPlacesNothing(u.engine, p.engine, o, false, inHours, p.clock + wait);
    case BrokerAnswered(id, br, wait) =>
      if id in p.engine.flights {
        LandingPlaces(u.engine, p.engine, id, br, p.clock + wait);
      }
    case BrokerRaised(id, wait) =>
      if id in p.engine.flights {
        LandingPlaces(u.engine, p.engine, id, BrokerResult("", Rejected, ""), p.clock + wait);
        LandedKeepsRisk(p.engine, id);
      }
    case TaskCancelled(id, wait) =>
      if id in p.engine.flights {
        LandingPlaces(u.engine, p.engine, id, BrokerResult("", Rejected, ""), p.clock + wait);
        LandedKeepsRisk(p.engine, id);
      }
    case _ =>
  }

  lemma LandedKeepsRisk(s: EngineState, id: nat)
    requires id in s.flights
    ensures Landed(s, id, Raised).risk == s.risk
  {
  }

  /** Between syncs the exposure grows by exactly the value of the orders placed, in every interleaving. */
  lemma {:induction false} ExposureIsPlacedValue(u: Setup, p: Pipeline, es: seq<Event>)
    requires forall k :: 0 <= k < |es| ==> !es[k].SyncAnswered?
    ensures var s := Run(u, p, es).engine;
      s.risk.exposure - p.engine.risk.exposure == PlacedValue(s.endings) - PlacedValue(p.engine.endings)
  {
    if es != [] {
      hide Step, PlacedValue;
      var n := |es| - 1;
      ExposureIsPlacedValue(u, p, es[..n]);
      StepPlaces(u, Run(u, p, es[..n]), es[n]);
    }
  }
}
