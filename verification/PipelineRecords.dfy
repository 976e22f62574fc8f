/** What every step leaves behind, on the figures themselves: the new audit record, the result returned, the risk
    state. */
module PipelineRecords {
  import opened Prelude
  import opened AuditTrails
  import opened KillSwitches
  import opened Risk
  import opened RiskLaws
  import opened RateLimiter
  import opened Engine
  import opened Router
  import opened Positions
  import opened PositionLaws
  import opened Pipelines
  import opened PipelineMoves
  import opened PipelineRouter

  /** The trail has grown by one entry with this content. */
  ghost predicate Writes(before: seq<Entry>, after: seq<Entry>, t: EventType, data: Data, strategyId: string,
                         orderId: string, at: real)
  {
    && |after| == |before| + 1 && after[..|before|] == before
    && var x := after[|before|].payload;
       && x.eventType == t && x.data == data && x.strategyId == strategyId && x.orderId == orderId
       && x.timestamp == (at * 1000000.0).Floor
  }

  /** A submit reaches the engine: called directly, or routed while the router is not limited. */
  predicate Reaches(u: Setup, p: Pipeline, e: Event) {
    e.SubmitCalled? || (e.RouteCalled? && !Limited(Swept(p.router, p.clock + e.toPrune).rate, u.caps))
  }

  /** A submit at PAUSE or KILL: one rejection record and the blocked result, and nothing else changes. */
  lemma BlockedLeaves(u: Setup, p: Pipeline, e: Event)
    requires Reaches(u, p, e) && (p.engine.kill.level == Pause || p.engine.kill.level == Kill)
    ensures var s, t, now := p.engine, Step(u, p, e).engine, CheckedAt(p, e);
      var level := if s.kill.level == Pause then "PAUSE" else "KILL";
      && Writes(s.trail, t.trail, EventType.OrderRejected,
                map["symbol" := Text(e.order.symbol), "reason" := Text("KILL_SWITCH_ACTIVE"),
                    "kill_switch_level" := Text(level)], e.order.strategyId, "", now)
      && t.endings == s.endings + [Ending(e.order, e.RouteCalled?, 0,
           Returned(ExecutionResult("", KillSwitchBlocked, false, ["KILL_SWITCH"], None, now)))]
      && t.risk == s.risk && t.flights == s.flights && t.placements == s.placements && t.kill == s.kill
  {
    hide Step, Checks;
    StepIsAdmit(u, p, e);
  }

  /** The failing checks among the ten. */
  function FailedOf(u: Setup, p: Pipeline, e: Event): seq<string>
    requires e.RouteCalled? || e.SubmitCalled?
  {
    FailedIds(CheckAll(u.engine.limits, p.engine.risk, p.engine.symbols, p.engine.kill.level, e.order, e.inHours,
                       CheckedAt(p, e)))
  }

  /** A submit at INACTIVE or THROTTLE: one record of the checks with their tally; a failure is time-stamped and
      returned with the failed identifiers, a success begins the first placement. */
  lemma CheckedLeaves(u: Setup, p: Pipeline, e: Event)
    requires Reaches(u, p, e) && (p.engine.kill.level == Inactive || p.engine.kill.level == Throttle)
    ensures var s, t, now, failed := p.engine, Step(u, p, e).engine, CheckedAt(p, e), FailedOf(u, p, e);
      && Writes(s.trail, t.trail, if failed == [] then RiskCheckPassed else RiskCheckFailed,
                map["symbol" := Text(e.order.symbol), "strategy_id" := Text(e.order.strategyId),
                    "checks_passed" := Number(10 - |failed|), "checks_total" := Number(10),
                    "failed_checks" := Names(failed)], e.order.strategyId, "", now)
      && t.risk == s.risk.(orderRejections := s.risk.orderRejections + if failed == [] then [] else [now])
      && t.kill == s.kill
      && if failed == [] && u.engine.maxRetries >= 0 then
           && t.flights == s.flights[s.nextId := Flight(e.order, e.RouteCalled?, now, 1, false)]
           && t.endings == s.endings && t.placements == s.placements + 1
         else
           && t.flights == s.flights && t.placements == s.placements
           && t.endings == s.endings + [Ending(e.order, e.RouteCalled?, 0,
                if failed == [] then Raised
                else Returned(ExecutionResult("", RiskRejected, false, failed, None, now)))]
  {
    hide CheckAll, FailedIds, Admit, Step;
    StepIsAdmit(u, p, e);
    AdmitWrites(u.engine, p.engine, e.order, e.RouteCalled?, e.inHours, CheckedAt(p, e));
    AdmitDecides(u.engine, p.engine, e.order, e.RouteCalled?, e.inHours, CheckedAt(p, e));
  }

  lemma StepIsAdmit(u: Setup, p: Pipeline, e: Event)
    requires Reaches(u, p, e)
    ensures Step(u, p, e).engine == Admit(u.engine, p.engine, e.order, e.RouteCalled?, e.inHours, CheckedAt(p, e))
  {
    hide Admit, Verdict, Limited, Swept, SlotTaken, Kept;
  }

  lemma AdmitWrites(cfg: Config, s: EngineState, o: Order, routed: bool, inHours: bool, now: real)
    requires s.kill.level == Inactive || s.kill.level == Throttle
    ensures var t := Admit(cfg, s, o, routed, inHours, now);
      var failed := FailedIds(CheckAll(cfg.limits, s.risk, s.symbols, s.kill.level, o, inHours, now));
      Writes(s.trail, t.trail, if failed == [] then RiskCheckPassed else RiskCheckFailed,
             map["symbol" := Text(o.symbol), "strategy_id" := Text(o.strategyId),
                 "checks_passed" := Number(10 - |failed|), "checks_total" := Number(10),
                 "failed_checks" := Names(failed)], o.strategyId, "", now)
  {
    var rs := CheckAll(cfg.limits, s.risk, s.symbols, s.kill.level, o, inHours, now);
    assert |rs| == 10;
    hide CheckAll, FailedIds, AfterCheck, CheckedTrail;
    assert Admit(cfg, s, o, routed, inHours, now).trail == CheckedTrail(cfg.digest, s.trail, o, rs, now);
    CheckedTrailWrites(cfg.digest, s.trail, o, rs, now);
  }

  lemma CheckedTrailWrites(h: Digest, es: seq<Entry>, o: Order, rs: seq<CheckResult>, now: real)
    ensures var failed := FailedIds(rs);
      Writes(es, CheckedTrail(h, es, o, rs, now), if failed == [] then RiskCheckPassed else RiskCheckFailed,
             map["symbol" := Text(o.symbol), "strategy_id" := Text(o.strategyId),
                 "checks_passed" := Number(|rs| - |failed|), "checks_total" := Number(|rs|),
                 "failed_checks" := Names(failed)], o.strategyId, "", now)
  {
    hide FailedIds;
  }

  lemma AdmitDecides(cfg: Config, s: EngineState, o: Order, routed: bool, inHours: bool, now: real)
    requires s.kill.level == Inactive || s.kill.level == Throttle
    ensures var t := Admit(cfg, s, o, routed, inHours, now);
      var failed := FailedIds(CheckAll(cfg.limits, s.risk, s.symbols, s.kill.level, o, inHours, now));
      && t.risk == s.risk.(orderRejections := s.risk.orderRejections + if failed == [] then [] else [now])
      && t.kill == s.kill
      && if failed == [] && cfg.maxRetries >= 0 then
           && t.flights == s.flights[s.nextId := Flight(o, routed, now, 1, false)]
           && t.endings == s.endings && t.placements == s.placements + 1
         else
           && t.flights == s.flights && t.placements == s.placements
           && t.endings == s.endings + [Ending(o, routed, 0,
                if failed == [] then Raised else Returned(ExecutionResult("", RiskRejected, false, failed, None, now)))]
  {
    hide CheckAll, FailedIds, CheckedTrail;
  }

  /** The broker's answer: its rejection is recorded as such; a pending order is recorded as placed and any other as
      confirmed, with the order's figures and the reply's identifier; the reply goes into the result. */
  lemma AnswerLeaves(u: Setup, p: Pipeline, id: nat, br: BrokerResult, wait: Delay)
    requires Placing(p.engine, id)
    ensures var f, now := p.engine.flights[id], p.clock + wait;
      var s, t, o := p.engine, Step(u, p, BrokerAnswered(id, br, wait)).engine, f.order;
      && (if br.status == Rejected then
            Writes(s.trail, t.trail, EventType.OrderRejected,
                   map["symbol" := Text(o.symbol), "order_id" := Text(br.orderId), "reason" := Text(br.message)],
                   o.strategyId, br.orderId, now)
          else
            Writes(s.trail, t.trail, if br.status == BrokerStatus.Pending then OrderPlaced else OrderConfirmed,
                   map["symbol" := Text(o.symbol), "order_id" := Text(br.orderId), "side" := Text(o.orderType),
                       "quantity" := Number(o.quantity), "price" := Text(u.engine.notation.decimal(o.price))],
                   o.strategyId, br.orderId, now))
      && t.endings == s.endings + [Ending(o, f.routed, f.attempt, Returned(
           ExecutionResult(br.orderId, if br.status == Rejected then BrokerRejected else BrokerSubmitted, true, [],
                           Some(br), f.admittedAt)))]
      && t.flights == s.flights - {id} && t.kill == s.kill
      && (br.status == Rejected ==> t.risk == s.risk)
      && (br.status != Rejected ==>
            && t.risk.dailyOrderCount == s.risk.dailyOrderCount + 1
            && t.risk.orderTimestamps == s.risk.orderTimestamps + [now]
            && t.risk.exposure == s.risk.exposure + o.price * o.quantity as real
            && t.risk.positions == s.risk.positions[o.symbol :=
                 (if o.symbol in s.risk.positions then s.risk.positions[o.symbol] else 0.0) + o.quantity as real]
            && t.risk.marginAvailable == s.risk.marginAvailable && t.risk.marginUsed == s.risk.marginUsed
            && t.risk.orderRejections == s.risk.orderRejections)
  {
    hide Delivered;
  }

  /** An answered cancellation: one record, and nothing else. */
  lemma CancelLeaves(u: Setup, p: Pipeline, e: Event)
    requires e.CancelAnswered?
    ensures var s, t := p.engine, Step(u, p, e).engine;
      && Writes(s.trail, t.trail, EventType.OrderCancelled,
                map["order_id" := Text(e.orderId), "message" := Text(e.message)], "", e.orderId, p.clock + e.wait)
      && t == s.(trail := t.trail)
  {
  }

  /** A sync: one record exactly when the loss limit is breached, with the figures. */
  lemma SyncLeaves(u: Setup, p: Pipeline, e: Event)
    requires e.SyncAnswered?
    ensures var s, t, n := p.engine, Step(u, p, e).engine, u.engine.notation;
      var pnl := p.book.realized + Sum(Profits(e.positions));
      && (if pnl < -u.lossLimit then
            Writes(s.trail, t.trail, KillSwitchActivated,
                   map["reason" := Text("DAILY_LOSS_LIMIT"), "pnl" := Text(n.decimal(pnl)),
                       "limit" := Text(n.decimal(u.lossLimit))], "", "", p.clock + e.wait + e.toLoss + e.toRecord)
          else t.trail == s.trail)
      && t.flights == s.flights && t.endings == s.endings && t.placements == s.placements && t.symbols == s.symbols
  {
    hide Sum, PnlOf, SnapshotsOf, SyncedKill;
    PnlIsSum(e.positions);
  }

  // ---------------------------------------------------------------- over every run

  /** How many finished submits the broker answered with a status of this kind. */
  function Replied(es: seq<Ending>, kind: BrokerStatus -> bool): nat {
    if es == [] then 0
    else Replied(es[..|es| - 1], kind) + if RepliedBy(es[|es| - 1], kind) then 1 else 0
  }

  predicate RepliedBy(x: Ending, kind: BrokerStatus -> bool) {
    x.outcome.Returned? && x.outcome.result.brokerResult.Some? && kind(x.outcome.result.brokerResult.value.status)
  }

  function IsPending(): BrokerStatus -> bool {
    status => status == BrokerStatus.Pending
  }

  function IsAccepted(): BrokerStatus -> bool {
    status => status != BrokerStatus.Pending && status != Rejected
  }

  /** Every pending reply is recorded as a placed order, every other acceptance as a confirmed one. */
  predicate RecordsReplies(s: EngineState) {
    && CountOf(s.trail, OrderPlaced) == Replied(s.endings, IsPending())
    && CountOf(s.trail, OrderConfirmed) == Replied(s.endings, IsAccepted())
  }

  lemma RepliedSnoc(es: seq<Ending>, x: Ending, kind: BrokerStatus -> bool)
    ensures Replied(es + [x], kind) == Replied(es, kind) + if RepliedBy(x, kind) then 1 else 0
  {
    assert (es + [x])[..|es|] == es;
  }

  /** A result tells how its submit ended: blocked or refused without the broker, or with the broker's reply in it. */
  predicate Tells(x: Ending) {
    x.outcome.Returned? ==>
      var r := x.outcome.result;
      match r.status
      case KillSwitchBlocked =>
        r.orderId == "" && !r.riskChecksPassed && r.failedChecks == ["KILL_SWITCH"] && r.brokerResult == None
      case RiskRejected => r.orderId == "" && !r.riskChecksPassed && r.failedChecks != [] && r.brokerResult == None
      case BrokerRejected => AnsweredBy(r) && r.brokerResult.value.status == Rejected
      case BrokerSubmitted => AnsweredBy(r) && r.brokerResult.value.status != Rejected
      case _ => false
  }

  predicate AnsweredBy(r: ExecutionResult) {
    r.riskChecksPassed && r.failedChecks == [] && r.brokerResult.Some? && r.orderId == r.brokerResult.value.orderId
  }

  predicate AllTell(es: seq<Ending>) {
    forall k :: 0 <= k < |es| ==> Tells(es[k])
  }

  /** A raising placement, a cancelled task or a delay that ends writes no record.  A raise sleeps as long as no more
      than `maxRetries` attempts were made, and after that the exception leaves `submit`; the end of a delay begins
      the next attempt; a cancelled submit ends without a result. */
  lemma RaiseLeaves(u: Setup, p: Pipeline, e: Event)
    requires e.BrokerRaised? || e.TaskCancelled? || e.DelayOver?
    ensures var s, t := p.engine, Step(u, p, e).engine;
      && t.trail == s.trail && t.risk == s.risk && t.kill == s.kill
      && if e.id !in s.flights || (e.BrokerRaised? && s.flights[e.id].sleeping)
            || (e.DelayOver? && !s.flights[e.id].sleeping)
         then t == s
         else
           var f := s.flights[e.id];
           if e.BrokerRaised? && f.attempt <= u.engine.maxRetries then
             && t.flights == s.flights[e.id := Flight(f.order, f.routed, f.admittedAt, f.attempt, true)]
             && t.endings == s.endings && t.placements == s.placements
           else if e.DelayOver? then
             && t.flights == s.flights[e.id := Flight(f.order, f.routed, f.admittedAt, f.attempt + 1, false)]
             && t.endings == s.endings && t.placements == s.placements + 1
           else
             && t.flights == s.flights - {e.id} && t.placements == s.placements
             && t.endings == s.endings + [Ending(f.order, f.routed, f.attempt, Raised)]
  {
  }

  /** What the counts and the results need to know of a step. */
  ghost predicate Keeps(s: EngineState, t: EngineState) {
    RecordsReplies(s) && AllTell(s.endings) ==> RecordsReplies(t) && AllTell(t.endings)
  }

  lemma SubmitKeeps(u: Setup, p: Pipeline, e: Event)
    requires Reaches(u, p, e)
    ensures Keeps(p.engine, Step(u, p, e).engine)
  {
    hide Step, CountOf, Replied, CheckedAt, FailedOf;
    var s, t := p.engine, Step(u, p, e).engine;
    if s.kill.level == Pause || s.kill.level == Kill {
      BlockedLeaves(u, p, e);
    } else {
      CheckedLeaves(u, p, e);
    }
    var x := t.trail[|s.trail|].payload;
    OneWritten(s.trail, t.trail);
    if t.endings != s.endings {
      RepliedSnoc(s.endings, t.endings[|s.endings|], IsPending());
      RepliedSnoc(s.endings, t.endings[|s.endings|], IsAccepted());
    }
  }

  /** One more entry adds one to the count of its type. */
  lemma OneWritten(before: seq<Entry>, after: seq<Entry>)
    requires |after| == |before| + 1 && after[..|before|] == before
    ensures var t := after[|before|].payload.eventType;
      forall k :: CountOf(after, k) == CountOf(before, k) + if k == t then 1 else 0
  {
  }

  lemma AnswerKeeps(u: Setup, p: Pipeline, id: nat, br: BrokerResult, wait: Delay)
    requires Placing(p.engine, id)
    ensures Keeps(p.engine, Step(u, p, BrokerAnswered(id, br, wait)).engine)
  {
    hide Step, CountOf, Replied;
    var s, t := p.engine, Step(u, p, BrokerAnswered(id, br, wait)).engine;
    AnswerLeaves(u, p, id, br, wait);
    OneWritten(s.trail, t.trail);
    RepliedSnoc(s.endings, t.endings[|s.endings|], IsPending());
    RepliedSnoc(s.endings, t.endings[|s.endings|], IsAccepted());
  }

  lemma RaiseKeeps(u: Setup, p: Pipeline, e: Event)
    requires e.BrokerRaised? || e.TaskCancelled? || e.DelayOver?
    ensures Keeps(p.engine, Step(u, p, e).engine)
  {
    hide Step, CountOf, Replied;
    var s, t := p.engine, Step(u, p, e).engine;
    RaiseLeaves(u, p, e);
    if t.endings != s.endings {
      RepliedSnoc(s.endings, t.endings[|s.endings|], IsPending());
      RepliedSnoc(s.endings, t.endings[|s.endings|], IsAccepted());
    }
  }

  lemma OtherKeeps(u: Setup, p: Pipeline, e: Event)
    requires e.CancelAnswered? || e.SyncAnswered?
    ensures Keeps(p.engine, Step(u, p, e).engine)
  {
    hide Step, CountOf, Replied, Sum, Profits;
    if e.CancelAnswered? {
      CancelLeaves(u, p, e);
    } else {
      SyncLeaves(u, p, e);
    }
    if Step(u, p, e).engine.trail != p.engine.trail {
      OneWritten(p.engine.trail, Step(u, p, e).engine.trail);
    }
  }

  lemma StepKeepsReplies(u: Setup, p: Pipeline, e: Event)
    ensures Keeps(p.engine, Step(u, p, e).engine)
  {
    hide Keeps, Admit, Answered, Verdict, Limited, Swept, SlotTaken, Kept, SyncStep, FillStep;
    if Reaches(u, p, e) {
      SubmitKeeps(u, p, e);
    } else if e.BrokerAnswered? && Placing(p.engine, e.id) {
      AnswerKeeps(u, p, e.id, e.answer, e.wait);
    } else if e.BrokerRaised? || e.TaskCancelled? || e.DelayOver? {
      RaiseKeeps(u, p, e);
    } else if e.CancelAnswered? || e.SyncAnswered? {
      OtherKeeps(u, p, e);
    } else {
      NothingWritten(u, p, e);
    }
  }

  lemma NothingWritten(u: Setup, p: Pipeline, e: Event)
    requires !Reaches(u, p, e) && !(e.BrokerAnswered? && Placing(p.engine, e.id))
    requires !e.BrokerRaised? && !e.TaskCancelled? && !e.DelayOver? && !e.CancelAnswered? && !e.SyncAnswered?
    ensures Step(u, p, e).engine.trail == p.engine.trail && Step(u, p, e).engine.endings == p.engine.endings
    ensures Keeps(p.engine, Step(u, p, e).engine)
  {
    hide Limited, Swept, SlotTaken, Kept, AfterFill, FilledLedger;
  }

  /** In every reachable state: as many orders are recorded as placed as there were pending replies, as many as
      confirmed as there were other acceptances, and every result tells how its submit ended. */
  lemma {:induction false} RepliesRecordedThroughout(u: Setup, clock: real, symbols: set<string>, es: seq<Event>)
    ensures var s := Run(u, Start(clock, symbols), es).engine;
      && CountOf(s.trail, OrderPlaced) == Replied(s.endings, IsPending())
      && CountOf(s.trail, OrderConfirmed) == Replied(s.endings, IsAccepted())
      && forall k :: 0 <= k < |s.endings| ==> Tells(s.endings[k])
  {
    if es != [] {
      hide Step, Tells, CountOf, Replied;
      var n := |es| - 1;
      RepliesRecordedThroughout(u, clock, symbols, es[..n]);
      StepKeepsReplies(u, Run(u, Start(clock, symbols), es[..n]), es[n]);
    }
  }

  // ---------------------------------------------------------------- when an order begins

  /** A submit begins a placement exactly when it reaches the engine, an attempt is allowed, and the ten conditions
      hold. */
  lemma BeginsIff(u: Setup, p: Pipeline, e: Event)
    requires e.RouteCalled? || e.SubmitCalled?
    ensures Begins(u, p, e) <==>
      && Reaches(u, p, e) && u.engine.maxRetries >= 0
      && forall check :: 1 <= check <= 10 ==>
           Clears(u.engine.limits, p.engine.risk, p.engine.symbols, p.engine.kill.level, e.order, e.inHours,
                  CheckedAt(p, e), check)
  {
    hide CheckAll, FailedIds, Clears, Limited, Swept;
    GateIff(u.engine.limits, p.engine.risk, p.engine.symbols, p.engine.kill.level, e.order, e.inHours,
            CheckedAt(p, e));
    LastCheckIsSwitch(u, p, e);
  }

  lemma LastCheckIsSwitch(u: Setup, p: Pipeline, e: Event)
    requires e.RouteCalled? || e.SubmitCalled?
    ensures Allows(p.engine.kill.level) <==>
      Clears(u.engine.limits, p.engine.risk, p.engine.symbols, p.engine.kill.level, e.order, e.inHours,
             CheckedAt(p, e), 10)
  {
  }

  /** Over every run: one more order is in flight exactly when a submit meets the ten conditions, an attempt is
      allowed, and, if it is routed, fewer orders than each cap were accepted in the last second, in the last minute
      and altogether. */
  lemma OrderBeginsIff(u: Setup, clock: real, symbols: set<string>, es: seq<Event>, e: Event)
    requires e.RouteCalled? || e.SubmitCalled?
    ensures var p := Run(u, Start(clock, symbols), es);
      |Step(u, p, e).engine.flights| == |p.engine.flights| + 1 <==>
        && (e.RouteCalled? ==>
              && InLast(p.router.accepted, 1.0, p.clock + e.toPrune) < u.caps.perSecond
              && InLast(p.router.accepted, 60.0, p.clock + e.toPrune) < u.caps.perMinute
              && |p.router.accepted| < u.caps.perDay)
        && u.engine.maxRetries >= 0
        && forall check :: 1 <= check <= 10 ==>
             Clears(u.engine.limits, p.engine.risk, p.engine.symbols, p.engine.kill.level, e.order, e.inHours,
                    CheckedAt(p, e), check)
  {
    hide Step, Begins, Clears, Limited, CountIn, CountAfter, Run, Start;
    var p := Run(u, Start(clock, symbols), es);
    StartNumbered(u, clock, symbols, es);
    FlightsMove(u, p, e);
    BeginsIff(u, p, e);
    if e.RouteCalled? {
      DecisionIsExact(u, clock, symbols, es, p.clock + e.toPrune);
      AfterIsIn(p.router.accepted, p.clock + e.toPrune - 1.0);
      AfterIsIn(p.router.accepted, p.clock + e.toPrune - 60.0);
    }
  }

  lemma StartNumbered(u: Setup, clock: real, symbols: set<string>, es: seq<Event>)
    ensures Numbered(Run(u, Start(clock, symbols), es).engine)
  {
    RouterThroughout(u, clock, symbols, es);
  }

  // ---------------------------------------------------------------- segments

  /** How many of these events routed an order of this segment past the limiter; segments are compared in capital
      letters. */
  function SegmentRoutes(u: Setup, p: Pipeline, es: seq<Event>, segment: string): nat {
    if es == [] then 0
    else
      var n := |es| - 1;
      SegmentRoutes(u, p, es[..n], segment) + if RoutesTo(u, Run(u, p, es[..n]), es[n], segment) then 1 else 0
  }

  predicate RoutesTo(u: Setup, p: Pipeline, e: Event, segment: string) {
    e.RouteCalled? && Reaches(u, p, e) && Upper(e.order.segment) == segment
  }

  lemma StepCountsSegment(u: Setup, p: Pipeline, e: Event, segment: string)
    ensures SegmentCount(Step(u, p, e).router.segmentCounts, segment) ==
      SegmentCount(p.router.segmentCounts, segment) + if RoutesTo(u, p, e, segment) then 1 else 0
  {
    hide Admit, Answered, Landed, Limited, Pruned, Reserved, Verdict, Synced, SyncedKill, LossTrail, Upper;
  }

  /** The count of each segment is the number of its orders that were routed past the limiter. */
  lemma {:induction false} SegmentsCounted(u: Setup, p: Pipeline, es: seq<Event>, segment: string)
    ensures SegmentCount(Run(u, p, es).router.segmentCounts, segment) ==
      SegmentCount(p.router.segmentCounts, segment) + SegmentRoutes(u, p, es, segment)
  {
    if es != [] {
      hide Step, RoutesTo, SegmentCount;
      SegmentsCounted(u, p, es[..|es| - 1], segment);
      StepCountsSegment(u, Run(u, p, es[..|es| - 1]), es[|es| - 1], segment);
    }
  }
}
