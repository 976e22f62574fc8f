/**
 The whole order path as a step system: router, engine, risk manager, kill switch, audit trail and position
 tracker, under every interleaving of any number of orders in flight.

 asyncio switches tasks only at an `await`, so each event below is one uninterrupted stretch of code.
 Events carry what the outside world decides (the broker's answers, the operator's commands, how far the
 clock has moved); an event that names no suitable order changes nothing.
 */
module Pipelines {
  import opened Prelude
  import opened AuditTrails
  import opened KillSwitches
  import opened Risk
  import opened RateLimiter
  import opened Engine
  import opened Router
  import opened Positions

  datatype Setup = Setup(engine: Config, caps: Caps, lossLimit: real, marginThreshold: real)

  datatype Pipeline = Pipeline(clock: real, router: RouterState, engine: EngineState, book: Book)

  datatype Event =
    | RouteCalled(order: Order, inHours: bool, toPrune: Delay, toReserve: Delay, toCheck: Delay)
    | SubmitCalled(order: Order, inHours: bool, wait: Delay)
    | BrokerAnswered(id: nat, answer: BrokerResult, wait: Delay)
    | BrokerRaised(id: nat, wait: Delay)
    | DelayOver(id: nat, wait: Delay)
    | TaskCancelled(id: nat, wait: Delay)
    | CancelAnswered(orderId: string, message: string, wait: Delay)
    | SyncAnswered(positions: seq<BrokerPosition>, margins: Margins, wait: Delay,
                   toLoss: Delay, toRecord: Delay, toMargin: Delay)
    | FillArrived(fill: Fill)
    | SymbolRegistered(symbol: string)
    | OperatorActivates(level: Level, path: Path, reason: string, orderCount: int, wait: Delay)
    | OperatorDeactivates(reason: string, wait: Delay)

  // ---------------------------------------------------------------- the steps

  function RouteStep(u: Setup, p: Pipeline, e: Event): Pipeline
    requires e.RouteCalled?
  {
    var pruned := p.clock + e.toPrune;
    var reserved := pruned + e.toReserve;
    var checked := reserved + e.toCheck;
    var swept := Swept(p.router, pruned);
    if Limited(swept.rate, u.caps) then p.(clock := checked, router := swept)
    else
      var taken := SlotTaken(swept, e.order, reserved);
      var verdict := Verdict(u.engine, p.engine, e.order, e.inHours, checked);
      p.(clock := checked,
         router := if verdict.Some? then Kept(taken, verdict.value) else taken,
         engine := Admit(u.engine, p.engine, e.order, true, e.inHours, checked))
  }

  /** The outcome of a submit that is leaving flight reaches the router if it came through it. */
  function Delivered(r: RouterState, f: Flight, outcome: Outcome): RouterState {
    if f.routed then Kept(r, outcome) else r
  }

  function AnswerStep(u: Setup, p: Pipeline, e: Event): Pipeline
    requires e.BrokerAnswered? && Placing(p.engine, e.id)
  {
    var now := p.clock + e.wait;
    var f := p.engine.flights[e.id];
    p.(clock := now, engine := Answered(u.engine, p.engine, e.id, e.answer, now),
       router := Delivered(p.router, f, Returned(AnsweredResult(e.answer, f.admittedAt))))
  }

  function SyncStep(u: Setup, p: Pipeline, e: Event): Pipeline
    requires e.SyncAnswered?
  {
    var now := p.clock + e.wait;
    var lossAt := now + e.toLoss;
    var recordedAt := lossAt + e.toRecord;
    var marginAt := recordedAt + e.toMargin;
    var s := p.engine;
    var book := Synced(p.book, e.positions, now);
    p.(clock := marginAt, book := book,
       engine := s.(risk := SyncedLedger(s.risk, e.margins),
                    kill := SyncedKill(u.engine.notation, s.kill, book, e.margins, u.lossLimit, u.marginThreshold,
                                       s.risk.dailyOrderCount, lossAt, marginAt),
                    trail := LossTrail(u.engine.digest, u.engine.notation, s.trail, book, u.lossLimit, recordedAt)))
  }

  function FillStep(p: Pipeline, fill: Fill): Pipeline {
    p.(book := AfterFill(p.book, fill),
       engine := p.engine.(risk := FilledLedger(p.engine.risk, p.book, fill)))
  }

  predicate Placing(s: EngineState, id: nat) {
    id in s.flights && !s.flights[id].sleeping
  }

  predicate Sleeping(s: EngineState, id: nat) {
    id in s.flights && s.flights[id].sleeping
  }

  function Step(u: Setup, p: Pipeline, e: Event): Pipeline {
    match e
    case RouteCalled(_, _, _, _, _) => RouteStep(u, p, e)
    case SubmitCalled(o, inHours, wait) =>
      p.(clock := p.clock + wait, engine := Admit(u.engine, p.engine, o, false, inHours, p.clock + wait))
    case BrokerAnswered(id, _, _) => if Placing(p.engine, id) then AnswerStep(u, p, e) else p
    case BrokerRaised(id, wait) =>
      if Placing(p.engine, id) then p.(clock := p.clock + wait, engine := Stumbled(u.engine, p.engine, id)) else p
    case DelayOver(id, wait) =>
      if Sleeping(p.engine, id) then p.(clock := p.clock + wait, engine := Retried(p.engine, id)) else p
    case TaskCancelled(id, wait) =>
      if id in p.engine.flights then p.(clock := p.clock + wait, engine := Landed(p.engine, id, Raised)) else p
    case CancelAnswered(orderId, message, wait) =>
      p.(clock := p.clock + wait, engine := p.engine.(
           trail := CancelledTrail(u.engine.digest, p.engine.trail, orderId, message, p.clock + wait)))
    case SyncAnswered(_, _, _, _, _, _) => SyncStep(u, p, e)
    case FillArrived(fill) => FillStep(p, fill)
    case SymbolRegistered(symbol) => p.(engine := p.engine.(symbols := p.engine.symbols + {symbol}))
    case OperatorActivates(level, path, reason, count, wait) =>
      p.(clock := p.clock + wait, engine := p.engine.(
           kill := AfterActivate(p.engine.kill, level, path, reason, count, p.clock + wait)))
    case OperatorDeactivates(reason, wait) =>
      p.(clock := p.clock + wait, engine := p.engine.(
           kill := AfterDeactivate(p.engine.kill, reason, p.clock + wait)))
  }

  /** A run: the events in order, whatever they are. */
  function Run(u: Setup, p: Pipeline, es: seq<Event>): Pipeline {
    if es == [] then p else Step(u, Run(u, p, es[..|es| - 1]), es[|es| - 1])
  }

  /** Freshly constructed components. */
  function Start(clock: real, symbols: set<string>): Pipeline {
    Pipeline(clock,
             RouterState(RateState([], [], 0), map[], [], []),
             EngineState(KillState(Inactive, None, None, "", 0, []), Ledger(0, 0.0, map[], 0.0, 0.0, [], []),
                         symbols, [], map[], 0, [], 0),
             EmptyBook())
  }

  // ---------------------------------------------------------------- the audit trail verifies throughout

  /** `after` is `before` with one entry recorded. */
  ghost predicate OneMore(h: Digest, before: seq<Entry>, after: seq<Entry>) {
    |after| == |before| + 1 &&
    var x := after[|before|].payload;
    after == Recorded(h, before, x.eventType, x.data, x.strategyId, x.orderId, x.timestamp)
  }

  lemma AdmitRecordsOne(cfg: Config, s: EngineState, o: Order, routed: bool, inHours: bool, now: real)
    ensures OneMore(cfg.digest, s.trail, Admit(cfg, s, o, routed, inHours, now).trail)
  {
    hide Checks, FailedIds, CheckData, CheckEvent, AfterCheck;
  }

  lemma AnsweredRecordsOne(cfg: Config, s: EngineState, id: nat, br: BrokerResult, now: real)
    requires id in s.flights
    ensures OneMore(cfg.digest, s.trail, Answered(cfg, s, id, br, now).trail)
  {
    hide AfterPlaced;
  }

  /** The trail grows only through `record`, by one entry at a time. */
  lemma GrowthIsRecorded(u: Setup, p: Pipeline, e: Event)
    ensures var before, after := p.engine.trail, Step(u, p, e).engine.trail;
      after == before || OneMore(u.engine.digest, before, after)
  {
    hide Admit, Answered, SlotTaken, Swept, Limited, Verdict, Kept, SyncedKill, AfterFill, OneMore;
    match e
    case RouteCalled(o, inHours, a, b, c) =>
      AdmitRecordsOne(u.engine, p.engine, o, true, inHours, p.clock + a + b + c);
    case SubmitCalled(o, inHours, wait) => AdmitRecordsOne(u.engine, p.engine, o, false, inHours, p.clock + wait);
    case BrokerAnswered(id, br, wait) =>
      if id in p.engine.flights {
        AnsweredRecordsOne(u.engine, p.engine, id, br, p.clock + wait);
      }
    case CancelAnswered(_, _, _) => OtherRecordsOne(u, p, e);
    case SyncAnswered(_, _, _, _, _, _) => OtherRecordsOne(u, p, e);
    case _ =>
  }

  lemma OtherRecordsOne(u: Setup, p: Pipeline, e: Event)
    requires e.CancelAnswered? || e.SyncAnswered?
    ensures var before, after := p.engine.trail, Step(u, p, e).engine.trail;
      after == before || OneMore(u.engine.digest, before, after)
  {
    hide SyncedKill, Synced, LossBreached;
  }

  lemma StepKeepsChain(u: Setup, p: Pipeline, e: Event)
    ensures Chained(u.engine.digest, Step(u, p, e).engine.trail) <==> Chained(u.engine.digest, p.engine.trail)
  {
    hide Chained, Step;
    var before, after := p.engine.trail, Step(u, p, e).engine.trail;
    GrowthIsRecorded(u, p, e);
    if after != before {
      var x := after[|before|].payload;
      RecordKeepsChain(u.engine.digest, before, x.eventType, x.data, x.strategyId, x.orderId, x.timestamp);
    }
  }
}
