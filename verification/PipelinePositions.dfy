/** The risk state's positions against the tracker's, over whole runs. */
module PipelinePositions {
  import opened Risk
  import opened RateLimiter
  import opened Engine
  import opened Router
  import opened Positions
  import opened PositionLaws
  import opened Pipelines
  import opened PipelineStory
  import opened PipelineMoves

  /** How many units of a symbol the placed orders were for. */
  function UnitsPlaced(es: seq<Ending>, symbol: string): int {
    if es == [] then 0 else UnitsPlaced(es[..|es| - 1], symbol) + UnitsBy(es[|es| - 1], symbol)
  }

  function UnitsBy(x: Ending, symbol: string): int {
    if FateOf(x.outcome) == Placed && x.order.symbol == symbol then x.order.quantity else 0
  }

  /** How far the risk state's position is ahead of the book, less what placed orders account for. */
  function Gap(p: Pipeline, symbol: string): real {
    PositionOf(p.engine.risk, symbol) - Held(p.book, symbol) as real - UnitsPlaced(p.engine.endings, symbol) as real
  }

  /** Events that leave the book of this symbol alone. */
  predicate Undisturbed(e: Event, symbol: string) {
    !e.SyncAnswered? && !(e.FillArrived? && e.fill.symbol == symbol)
  }

  lemma UnitsSnoc(es: seq<Ending>, x: Ending, symbol: string)
    ensures UnitsPlaced(es + [x], symbol) == UnitsPlaced(es, symbol) + UnitsBy(x, symbol)
  {
    assert (es + [x])[..|es|] == es;
  }

  lemma AdmitKeepsUnits(cfg: Config, s: EngineState, o: Order, routed: bool, inHours: bool, now: real, symbol: string)
    ensures var a := Admit(cfg, s, o, routed, inHours, now);
      a.risk.positions == s.risk.positions && UnitsPlaced(a.endings, symbol) == UnitsPlaced(s.endings, symbol)
  {
    hide Checks, FailedIds, CheckData, BlockedTrail, CheckedTrail, UnitsPlaced;
    var verdict := Verdict(cfg, s, o, inHours, now);
    if verdict.Some? {
      UnitsSnoc(s.endings, Ending(o, routed, 0, verdict.value), symbol);
    }
  }

  lemma LandingMovesUnits(cfg: Config, s: EngineState, id: nat, br: BrokerResult, now: real, symbol: string)
    requires id in s.flights
    ensures var a := Answered(cfg, s, id, br, now);
      PositionOf(a.risk, symbol) - UnitsPlaced(a.endings, symbol) as real ==
        PositionOf(s.risk, symbol) - UnitsPlaced(s.endings, symbol) as real
    ensures UnitsPlaced(Landed(s, id, Raised).endings, symbol) == UnitsPlaced(s.endings, symbol)
    ensures Landed(s, id, Raised).risk == s.risk
  {
    hide UnitsPlaced, Value, RejectedTrail, PlacedTrail;
    var f := s.flights[id];
    UnitsSnoc(s.endings, Ending(f.order, f.routed, f.attempt, Returned(AnsweredResult(br, f.admittedAt))), symbol);
    UnitsSnoc(s.endings, Ending(f.order, f.routed, f.attempt, Raised), symbol);
  }

  lemma StepKeepsGap(u: Setup, p: Pipeline, e: Event, symbol: string)
    requires Undisturbed(e, symbol)
    ensures var q := Step(u, p, e); Gap(q, symbol) == Gap(p, symbol) && Held(q.book, symbol) == Held(p.book, symbol)
  {
    hide Admit, Answered, Landed, UnitsPlaced, Kept, SlotTaken, Swept, Limited, Verdict;
    match e
    case RouteCalled(o, inHours, _, _, _) =>
      AdmitKeepsUnits(u.engine, p.engine, o, true, inHours, CheckedAt(p, e), symbol);
    case SubmitCalled(o, inHours, _) =>
      AdmitKeepsUnits(u.engine, p.engine, o, false, inHours, CheckedAt(p, e), symbol);
    case BrokerAnswered(id, br, wait) =>
      if id in p.engine.flights {
        LandingMovesUnits(u.engine, p.engine, id, br, p.clock + wait, symbol);
      }
    case BrokerRaised(id, wait) =>
      if id in p.engine.flights {
        LandingMovesUnits(u.engine, p.engine, id, BrokerResult("", Rejected, ""), p.clock + wait, symbol);
      }
    case TaskCancelled(id, wait) =>
      if id in p.engine.flights {
        LandingMovesUnits(u.engine, p.engine, id, BrokerResult("", Rejected, ""), p.clock + wait, symbol);
      }
    case FillArrived(fill) => FillMeaning(p.book, p.engine.risk, fill);
    case _ =>
  }

  /** A fill makes the risk state's position of its symbol what the tracker holds, and touches no other. */
  lemma FillAligns(u: Setup, p: Pipeline, fill: Fill)
    ensures var q := Step(u, p, FillArrived(fill));
      && PositionOf(q.engine.risk, fill.symbol) == Held(q.book, fill.symbol) as real
      && Held(q.book, fill.symbol) == Held(p.book, fill.symbol) + (if fill.buy then fill.quantity else -fill.quantity)
      && q.engine.endings == p.engine.endings
      && forall k :: k != fill.symbol ==>
           PositionOf(q.engine.risk, k) == PositionOf(p.engine.risk, k) && Held(q.book, k) == Held(p.book, k)
  {
    hide AfterFill, FilledLedger;
    FillMeaning(p.book, p.engine.risk, fill);
    OnlyItsSymbol(p, fill);
  }

  lemma OnlyItsSymbol(p: Pipeline, fill: Fill)
    ensures forall k :: k != fill.symbol ==>
      && PositionOf(FilledLedger(p.engine.risk, p.book, fill), k) == PositionOf(p.engine.risk, k)
      && Held(AfterFill(p.book, fill), k) == Held(p.book, k)
  {
    hide BuyPrice, Booked;
  }

  lemma {:induction false} GapKept(u: Setup, p: Pipeline, es: seq<Event>, symbol: string)
    requires forall k :: 0 <= k < |es| ==> Undisturbed(es[k], symbol)
    ensures var q := Run(u, p, es); Gap(q, symbol) == Gap(p, symbol) && Held(q.book, symbol) == Held(p.book, symbol)
  {
    if es != [] {
      hide Step, Gap;
      var n := |es| - 1;
      GapKept(u, p, es[..n], symbol);
      StepKeepsGap(u, Run(u, p, es[..n]), es[n], symbol);
    }
  }

  /** After a fill, and until the next fill of its symbol or a sync, in every interleaving: the risk state's position
      is what the tracker holds plus the units of the orders placed since, so the two agree exactly when those add
      up to nothing. */
  lemma PositionsAfterFill(u: Setup, p: Pipeline, fill: Fill, es: seq<Event>)
    requires forall k :: 0 <= k < |es| ==> Undisturbed(es[k], fill.symbol)
    ensures var filled := Step(u, p, FillArrived(fill));
      var q := Run(u, filled, es);
      var placed := UnitsPlaced(q.engine.endings, fill.symbol) - UnitsPlaced(p.engine.endings, fill.symbol);
      && PositionOf(q.engine.risk, fill.symbol) == (Held(q.book, fill.symbol) + placed) as real
      && (PositionOf(q.engine.risk, fill.symbol) == Held(q.book, fill.symbol) as real <==> placed == 0)
      && Held(q.book, fill.symbol) == Held(p.book, fill.symbol) + (if fill.buy then fill.quantity else -fill.quantity)
  {
    hide Step, Run, UnitsPlaced, PositionOf, Held;
    FillAligns(u, p, fill);
    GapKept(u, Step(u, p, FillArrived(fill)), es, fill.symbol);
  }
}
