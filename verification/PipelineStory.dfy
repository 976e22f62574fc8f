/** In every reachable state the audit trail, the risk state, the router and the orders in flight agree. */
module PipelineStory {
  import opened Prelude
  import opened AuditTrails
  import opened Risk
  import opened RateLimiter
  import opened Engine
  import opened Router
  import opened Pipelines

  /** The five ways a submit ends. */
  datatype Fate = Blocked | Failed | Refused | Placed | Lost

  function FateOf(o: Outcome): Fate {
    match o
    case Raised => Lost
    case Returned(r) =>
      match r.status
      case KillSwitchBlocked => Blocked
      case RiskRejected => Failed
      case BrokerRejected => Refused
      case _ => Placed
  }

  function CountFate(es: seq<Ending>, fate: Fate): nat {
    if es == [] then 0
    else CountFate(es[..|es| - 1], fate) + (if FateOf(es[|es| - 1].outcome) == fate then 1 else 0)
  }

  /** Trail, risk state and orders in flight tell one story. */
  ghost predicate Agrees(s: EngineState) {
    && CountOf(s.trail, OrderPlaced) + CountOf(s.trail, OrderConfirmed) == CountFate(s.endings, Placed)
    && s.risk.dailyOrderCount == |s.risk.orderTimestamps| == CountFate(s.endings, Placed)
    && CountOf(s.trail, RiskCheckPassed) ==
         CountFate(s.endings, Placed) + CountFate(s.endings, Refused) + CountFate(s.endings, Lost) + |s.flights|
    && CountOf(s.trail, EventType.OrderRejected) == CountFate(s.endings, Blocked) + CountFate(s.endings, Refused)
    && CountOf(s.trail, RiskCheckFailed) == |s.risk.orderRejections| == CountFate(s.endings, Failed)
    && forall id :: id in s.flights ==> id < s.nextId
  }

  lemma EndingCounts(es: seq<Ending>, x: Ending)
    ensures forall fate :: CountFate(es + [x], fate) == CountFate(es, fate) + if FateOf(x.outcome) == fate then 1 else 0
  {
    assert (es + [x])[..|es|] == es;
  }

  lemma RecordCounts(h: Digest, es: seq<Entry>, t: EventType, data: Data, strategyId: string, orderId: string,
                     timestamp: int)
    ensures var es' := Recorded(h, es, t, data, strategyId, orderId, timestamp);
      forall k :: CountOf(es', k) == CountOf(es, k) + if k == t then 1 else 0
  {
    RecordKeepsChain(h, es, t, data, strategyId, orderId, timestamp);
  }

  /** Each submit leaves one record before its first suspension: blocked, failed or passed. */
  lemma AdmitRecords(cfg: Config, s: EngineState, o: Order, routed: bool, inHours: bool, now: real)
    ensures var a := Admit(cfg, s, o, routed, inHours, now);
      var t := match Verdict(cfg, s, o, inHours, now)
        case Some(Returned(r)) => if FateOf(Returned(r)) == Blocked then EventType.OrderRejected else RiskCheckFailed
        case _ => RiskCheckPassed;
      forall k :: CountOf(a.trail, k) == CountOf(s.trail, k) + if k == t then 1 else 0
  {
    hide Checks, FailedIds, CheckData, CountOf;
    var a := Admit(cfg, s, o, routed, inHours, now);
    var x := a.trail[|s.trail|].payload;
    RecordCounts(cfg.digest, s.trail, x.eventType, x.data, x.strategyId, x.orderId, x.timestamp);
  }

  lemma AdmitAgrees(cfg: Config, s: EngineState, o: Order, routed: bool, inHours: bool, now: real)
    requires Agrees(s)
    ensures Agrees(Admit(cfg, s, o, routed, inHours, now))
  {
    hide Agrees, Admit, Verdict;
    match Verdict(cfg, s, o, inHours, now)
    case Some(outcome) => RefusedAgrees(cfg, s, o, routed, inHours, now, outcome);
    case None => AdmittedAgrees(cfg, s, o, routed, inHours, now);
  }

  lemma RefusedAgrees(cfg: Config, s: EngineState, o: Order, routed: bool, inHours: bool, now: real, outcome: Outcome)
    requires Agrees(s) && Verdict(cfg, s, o, inHours, now) == Some(outcome)
    ensures Agrees(Admit(cfg, s, o, routed, inHours, now))
  {
    hide Checks, FailedIds, CheckData, CountOf, CountFate, BlockedTrail, CheckedTrail;
    AdmitRecords(cfg, s, o, routed, inHours, now);
    EndingCounts(s.endings, Ending(o, routed, 0, outcome));
  }

  lemma AdmittedAgrees(cfg: Config, s: EngineState, o: Order, routed: bool, inHours: bool, now: real)
    requires Agrees(s) && Verdict(cfg, s, o, inHours, now) == None
    ensures Agrees(Admit(cfg, s, o, routed, inHours, now))
  {
    hide Admit, Verdict, CountOf, CountFate;
    AdmitRecords(cfg, s, o, routed, inHours, now);
    AdmitFlies(cfg, s, o, routed, inHours, now);
    var a := Admit(cfg, s, o, routed, inHours, now);
    assert a.flights.Keys == s.flights.Keys + {s.nextId};
    OneMorePassed(s, a);
  }

  lemma OneMorePassed(s: EngineState, a: EngineState)
    requires Agrees(s) && a.risk == s.risk && a.endings == s.endings
    requires a.flights.Keys == s.flights.Keys + {s.nextId} && a.nextId == s.nextId + 1
    requires forall k :: CountOf(a.trail, k) == CountOf(s.trail, k) + if k == RiskCheckPassed then 1 else 0
    ensures Agrees(a)
  {
    hide CountOf, CountFate;
    assert |a.flights.Keys| == |a.flights| && |s.flights.Keys| == |s.flights|;
    assert s.nextId !in s.flights.Keys;
  }

  lemma LandedCounts(s: EngineState, id: nat, outcome: Outcome)
    requires id in s.flights
    ensures var l := Landed(s, id, outcome);
      && |l.flights| == |s.flights| - 1
      && forall fate ::
           CountFate(l.endings, fate) == CountFate(s.endings, fate) + if FateOf(outcome) == fate then 1 else 0
  {
    var f := s.flights[id];
    EndingCounts(s.endings, Ending(f.order, f.routed, f.attempt, outcome));
    assert (s.flights - {id}).Keys == s.flights.Keys - {id};
  }

  lemma AnsweredRecords(cfg: Config, s: EngineState, id: nat, br: BrokerResult, now: real)
    requires id in s.flights
    ensures var a := Answered(cfg, s, id, br, now);
      var t := if br.status == Rejected then EventType.OrderRejected else PlacedEvent(br);
      forall k :: CountOf(a.trail, k) == CountOf(s.trail, k) + if k == t then 1 else 0
  {
    hide CountOf;
    var a := Answered(cfg, s, id, br, now);
    var last := a.trail[|s.trail|].payload;
    RecordCounts(cfg.digest, s.trail, last.eventType, last.data, last.strategyId, last.orderId, last.timestamp);
  }

  lemma AnsweredAgrees(cfg: Config, s: EngineState, id: nat, br: BrokerResult, now: real)
    requires Agrees(s) && id in s.flights
    ensures Agrees(Answered(cfg, s, id, br, now))
  {
    hide CountOf, CountFate, PlacedTrail, RejectedTrail;
    LandedCounts(s, id, Returned(AnsweredResult(br, s.flights[id].admittedAt)));
    AnsweredRecords(cfg, s, id, br, now);
  }

  lemma LostAgrees(s: EngineState, id: nat)
    requires Agrees(s) && id in s.flights
    ensures Agrees(Landed(s, id, Raised))
  {
    hide CountOf, CountFate;
    LandedCounts(s, id, Raised);
  }

  /** What the story counts, and what no other step touches. */
  ghost predicate SameStory(s: EngineState, t: EngineState) {
    && s.flights.Keys == t.flights.Keys && s.nextId == t.nextId && s.endings == t.endings
    && s.risk.dailyOrderCount == t.risk.dailyOrderCount && s.risk.orderTimestamps == t.risk.orderTimestamps
    && s.risk.orderRejections == t.risk.orderRejections
    && forall k ::
         k != KillSwitchActivated && k != EventType.OrderCancelled ==> CountOf(s.trail, k) == CountOf(t.trail, k)
  }

  lemma SameStoryAgrees(s: EngineState, t: EngineState)
    requires Agrees(s) && SameStory(s, t)
    ensures Agrees(t)
  {
    hide CountOf, CountFate;
    assert |s.flights.Keys| == |s.flights| && |t.flights.Keys| == |t.flights|;
  }

  lemma OtherStepsAgree(u: Setup, p: Pipeline, e: Event)
    requires e.CancelAnswered? || e.SyncAnswered? || e.FillArrived? || e.SymbolRegistered?
             || e.OperatorActivates? || e.OperatorDeactivates?
    ensures SameStory(p.engine, Step(u, p, e).engine)
  {
    hide CountOf;
    GrowthIsRecorded(u, p, e);
    var before, after := p.engine.trail, Step(u, p, e).engine.trail;
    if after != before {
      var x := after[|before|].payload;
      RecordCounts(u.engine.digest, before, x.eventType, x.data, x.strategyId, x.orderId, x.timestamp);
    }
  }

  lemma StepAgrees(u: Setup, p: Pipeline, e: Event)
    requires Agrees(p.engine)
    ensures Agrees(Step(u, p, e).engine)
  {
    hide Agrees, SameStory, Admit, Answered, Landed, Verdict, Limited, Swept, SlotTaken, Kept, SyncStep, FillStep;
    match e
    case RouteCalled(o, inHours, a, b, c) =>
      AdmitAgrees(u.engine, p.engine, o, true, inHours, p.clock + a + b + c);
    case SubmitCalled(o, inHours, wait) => AdmitAgrees(u.engine, p.engine, o, false, inHours, p.clock + wait);
    case BrokerAnswered(id, br, wait) =>
      if id in p.engine.flights {
        AnsweredAgrees(u.engine, p.engine, id, br, p.clock + wait);
      }
    case BrokerRaised(id, _) =>
      if id in p.engine.flights {
        LostAgrees(p.engine, id);
        SleepSameStory(u.engine, p.engine, id);
      }
    case DelayOver(id, _) =>
      if id in p.engine.flights {
        SleepSameStory(u.engine, p.engine, id);
      }
    case TaskCancelled(id, _) =>
      if id in p.engine.flights {
        LostAgrees(p.engine, id);
      }
    case _ =>
      OtherStepsAgree(u, p, e);
      SameStoryAgrees(p.engine, Step(u, p, e).engine);
  }

  lemma SleepSameStory(cfg: Config, s: EngineState, id: nat)
    requires Agrees(s) && id in s.flights
    ensures Agrees(Retried(s, id)) && (s.flights[id].attempt <= cfg.maxRetries ==> Agrees(Stumbled(cfg, s, id)))
  {
    hide Agrees;
    assert SameStory(s, Retried(s, id));
    SameStoryAgrees(s, Retried(s, id));
    if s.flights[id].attempt <= cfg.maxRetries {
      assert SameStory(s, Stumbled(cfg, s, id));
      SameStoryAgrees(s, Stumbled(cfg, s, id));
    }
  }

  /** Over every run and every interleaving, from freshly constructed components: the trail verifies, and
      it agrees with the risk state, the finished submits and the orders in flight. */
  lemma {:induction false} TrailAgreesThroughout(u: Setup, clock: real, symbols: set<string>, es: seq<Event>)
    ensures var s := Run(u, Start(clock, symbols), es).engine; Chained(u.engine.digest, s.trail) && Agrees(s)
  {
    if es != [] {
      hide Agrees, Chained, Step;
      var n := |es| - 1;
      TrailAgreesThroughout(u, clock, symbols, es[..n]);
      StepAgrees(u, Run(u, Start(clock, symbols), es[..n]), es[n]);
      StepKeepsChain(u, Run(u, Start(clock, symbols), es[..n]), es[n]);
    }
  }
}
