/**
 The risk-gated submission pipeline of src/execution/engine.py.

 `submit` is a coroutine: it can be interrupted only where it awaits the broker or the retry delay.
 The functions of this module are its atomic sections, on a value that holds every order in flight;
 the class at the end is the code itself, proved to run those sections in sequence.
 */
module Engine {
  import opened Prelude
  import opened AuditTrails
  import opened KillSwitches
  import opened Risk

  datatype Status =
    | Accepted | RiskRejected | KillSwitchBlocked | BrokerSubmitted | BrokerRejected
    | BrokerError | OrderCancelled | Timeout

  datatype BrokerStatus = Pending | Open | PartialFill | Filled | Cancelled | Rejected

  datatype BrokerResult = BrokerResult(orderId: string, status: BrokerStatus, message: string)

  datatype ExecutionResult = ExecutionResult(
    orderId: string, status: Status, riskChecksPassed: bool, failedChecks: seq<string>,
    brokerResult: Option<BrokerResult>, submittedAt: real)

  datatype Config = Config(limits: Limits, digest: Digest, notation: Notation, maxRetries: int)

  /** A suspended `submit`: waiting for the broker, or asleep between two attempts. */
  datatype Flight = Flight(order: Order, routed: bool, admittedAt: real, attempt: nat, sleeping: bool)

  /** How a `submit` ended: it returned a result, or an exception left it. */
  datatype Outcome = Returned(result: ExecutionResult) | Raised

  datatype Ending = Ending(order: Order, routed: bool, attempts: nat, outcome: Outcome)

  /** Everything the engine touches, the suspended submits, and two ledgers kept for the theorems: how
      every finished submit ended and how many broker placements were begun. */
  datatype EngineState = EngineState(
    kill: KillState, risk: Ledger, symbols: set<string>, trail: seq<Entry>,
    flights: map<nat, Flight>, nextId: nat, endings: seq<Ending>, placements: nat)

  function LevelName(level: Level): string {
    match level
    case Inactive => "INACTIVE"
    case Throttle => "THROTTLE"
    case Pause => "PAUSE"
    case Kill => "KILL"
  }

  // ---------------------------------------------------------------- results and audit records

  function BlockedResult(now: real): ExecutionResult {
    ExecutionResult("", KillSwitchBlocked, false, ["KILL_SWITCH"], None, now)
  }

  function RiskRejectedResult(failed: seq<string>, now: real): ExecutionResult {
    ExecutionResult("", RiskRejected, false, failed, None, now)
  }

  /** The result of a submit to which the broker answered. */
  function AnsweredResult(br: BrokerResult, admittedAt: real): ExecutionResult {
    ExecutionResult(br.orderId, if br.status == Rejected then BrokerRejected else BrokerSubmitted,
                    true, [], Some(br), admittedAt)
  }

  function BlockedTrail(h: Digest, es: seq<Entry>, o: Order, level: Level, now: real): seq<Entry> {
    Recorded(h, es, OrderRejected,
             map["symbol" := Text(o.symbol), "reason" := Text("KILL_SWITCH_ACTIVE"),
                 "kill_switch_level" := Text(LevelName(level))],
             o.strategyId, "", Micros(now))
  }

  function CheckedTrail(h: Digest, es: seq<Entry>, o: Order, rs: seq<CheckResult>, now: real): seq<Entry> {
    Recorded(h, es, CheckEvent(rs), CheckData(o, rs), o.strategyId, "", Micros(now))
  }

  function RejectedTrail(h: Digest, es: seq<Entry>, o: Order, br: BrokerResult, now: real): seq<Entry> {
    Recorded(h, es, EventType.OrderRejected,
             map["symbol" := Text(o.symbol), "order_id" := Text(br.orderId), "reason" := Text(br.message)],
             o.strategyId, br.orderId, Micros(now))
  }

  function PlacedEvent(br: BrokerResult): EventType {
    if br.status == Pending then OrderPlaced else OrderConfirmed
  }

  function PlacedTrail(cfg: Config, es: seq<Entry>, o: Order, br: BrokerResult, now: real): seq<Entry> {
    Recorded(cfg.digest, es, PlacedEvent(br),
             map["symbol" := Text(o.symbol), "order_id" := Text(br.orderId), "side" := Text(o.orderType),
                 "quantity" := Number(o.quantity), "price" := Text(cfg.notation.decimal(o.price))],
             o.strategyId, br.orderId, Micros(now))
  }

  function CancelledTrail(h: Digest, es: seq<Entry>, orderId: string, message: string, now: real): seq<Entry> {
    Recorded(h, es, EventType.OrderCancelled,
             map["order_id" := Text(orderId), "message" := Text(message)], "", orderId, Micros(now))
  }

  // ---------------------------------------------------------------- the atomic sections

  function Checks(cfg: Config, s: EngineState, o: Order, inHours: bool, now: real): seq<CheckResult> {
    CheckAll(cfg.limits, s.risk, s.symbols, s.kill.level, o, inHours, now)
  }

  /** How a submit ends before its first suspension, if it does. */
  function Verdict(cfg: Config, s: EngineState, o: Order, inHours: bool, now: real): Option<Outcome> {
    if !Allows(s.kill.level) then Some(Returned(BlockedResult(now)))
    else
      var failed := FailedIds(Checks(cfg, s, o, inHours, now));
      if failed != [] then Some(Returned(RiskRejectedResult(failed, now)))
      else if cfg.maxRetries < 0 then Some(Raised)
      else None
  }

  /** Guard and checks, with their records. */
  function Gated(cfg: Config, s: EngineState, o: Order, inHours: bool, now: real): EngineState {
    if !Allows(s.kill.level) then s.(trail := BlockedTrail(cfg.digest, s.trail, o, s.kill.level, now))
    else
      var rs := Checks(cfg, s, o, inHours, now);
      s.(trail := CheckedTrail(cfg.digest, s.trail, o, rs, now), risk := AfterCheck(s.risk, rs, now))
  }

  /** From the call of `submit` to its first suspension: guard, checks, and the first placement begun. */
  function Admit(cfg: Config, s: EngineState, o: Order, routed: bool, inHours: bool, now: real): EngineState {
    var g := Gated(cfg, s, o, inHours, now);
    match Verdict(cfg, s, o, inHours, now)
    case Some(outcome) => g.(endings := g.endings + [Ending(o, routed, 0, outcome)])
    case None =>
      g.(flights := g.flights[g.nextId := Flight(o, routed, now, 1, false)],
         nextId := g.nextId + 1, placements := g.placements + 1)
  }

  /** A submit that is still undecided has begun its first placement. */
  lemma AdmitFlies(cfg: Config, s: EngineState, o: Order, routed: bool, inHours: bool, now: real)
    requires Verdict(cfg, s, o, inHours, now) == None
    ensures var a := Admit(cfg, s, o, routed, inHours, now);
      && cfg.maxRetries >= 0
      && a.flights == s.flights[s.nextId := Flight(o, routed, now, 1, false)] && a.nextId == s.nextId + 1
      && a.risk == s.risk && a.kill == s.kill && a.symbols == s.symbols
      && a.placements == s.placements + 1 && a.endings == s.endings
  {
    hide Checks, FailedIds, CheckData, BlockedTrail, CheckedTrail;
  }

  /** The order has left flight. */
  function Landed(s: EngineState, id: nat, outcome: Outcome): EngineState
    requires id in s.flights
  {
    var f := s.flights[id];
    s.(flights := s.flights - {id}, endings := s.endings + [Ending(f.order, f.routed, f.attempt, outcome)])
  }

  /** The broker answers: rejection is recorded, anything else counts as placed. */
  function Answered(cfg: Config, s: EngineState, id: nat, br: BrokerResult, now: real): EngineState
    requires id in s.flights
  {
    var f := s.flights[id];
    var l := Landed(s, id, Returned(AnsweredResult(br, f.admittedAt)));
    if br.status == Rejected then l.(trail := RejectedTrail(cfg.digest, s.trail, f.order, br, now))
    else l.(risk := AfterPlaced(s.risk, f.order, now), trail := PlacedTrail(cfg, s.trail, f.order, br, now))
  }

  /** The placement raises: sleep if an attempt is left, else the exception leaves `submit`. */
  function Stumbled(cfg: Config, s: EngineState, id: nat): EngineState
    requires id in s.flights
  {
    var f := s.flights[id];
    if f.attempt <= cfg.maxRetries then s.(flights := s.flights[id := f.(sleeping := true)])
    else Landed(s, id, Raised)
  }

  /** The delay is over and the next placement begins; neither guard nor checks are repeated. */
  function Retried(s: EngineState, id: nat): EngineState
    requires id in s.flights
  {
    var f := s.flights[id];
    s.(flights := s.flights[id := f.(sleeping := false, attempt := f.attempt + 1)], placements := s.placements + 1)
  }

  // ---------------------------------------------------------------- one submit, uninterrupted

  /** What the broker does with one placement. */
  datatype Answer = Replies(result: BrokerResult) | Raises

  /** The retry loop: attempt after attempt until the broker replies or the attempts run out. */
  function Attempts(cfg: Config, s: EngineState, id: nat, answers: seq<Answer>, later: real): EngineState
    requires id in s.flights && |answers| > cfg.maxRetries + 1 - s.flights[id].attempt
    requires answers != []
    decreases |answers|
  {
    if answers[0].Replies? then Answered(cfg, s, id, answers[0].result, later)
    else if s.flights[id].attempt <= cfg.maxRetries then
      Attempts(cfg, Retried(Stumbled(cfg, s, id), id), id, answers[1..], later)
    else Stumbled(cfg, s, id)
  }

  function SubmitAlone(cfg: Config, s: EngineState, o: Order, routed: bool, inHours: bool, now: real,
                       answers: seq<Answer>, later: real): EngineState
    requires |answers| > cfg.maxRetries
  {
    var a := Admit(cfg, s, o, routed, inHours, now);
    if Verdict(cfg, s, o, inHours, now).Some? then a
    else Attempts(cfg, a, s.nextId, answers, later)
  }

  // ---------------------------------------------------------------- the engine object

  /** Two moments of one submit. */
  predicate SameOrder(f: Flight, g: Flight) {
    f.order == g.order && f.routed == g.routed && f.admittedAt == g.admittedAt
  }

  /** The engine as written.  Its ghost fields hold what the asyncio runtime holds for it: the suspended
      submits, with the two ledgers of `EngineState`. */
  class ExecutionEngine {
    const config: Config
    const riskManager: RiskManager
    const killSwitch: KillSwitch
    const audit: AuditTrail
    ghost var flights: map<nat, Flight>
    ghost var nextId: nat
    ghost var endings: seq<Ending>
    ghost var placements: nat

    /** One kill switch, one audit trail, one risk state, shared by engine and risk manager. */
    ghost predicate Wired() {
      && riskManager.limits == config.limits && audit.digest == config.digest
      && riskManager.killSwitch == killSwitch && riskManager.audit == audit
    }

    ghost function View(): EngineState
      reads this, riskManager, riskManager.state, killSwitch, audit
    {
      EngineState(killSwitch.State(), riskManager.state.View(), riskManager.allowedSymbols, audit.entries,
                  flights, nextId, endings, placements)
    }

    constructor (config: Config, riskManager: RiskManager, killSwitch: KillSwitch, audit: AuditTrail)
      requires riskManager.limits == config.limits && audit.digest == config.digest
      requires riskManager.killSwitch == killSwitch && riskManager.audit == audit
      ensures Wired() && this.config == config
      ensures View() == EngineState(killSwitch.State(), riskManager.state.View(), riskManager.allowedSymbols,
                                    audit.entries, map[], 0, [], 0)
    {
      this.config, this.riskManager, this.killSwitch, this.audit := config, riskManager, killSwitch, audit;
      flights, nextId, endings, placements := map[], 0, [], 0;
    }

    method CheckKillSwitch(o: Order, now: real) returns (r: Option<ExecutionResult>)
      requires Wired()
      modifies audit
      ensures r == if Allows(killSwitch.level) then None else Some(BlockedResult(now))
      ensures audit.entries == if Allows(killSwitch.level) then old(audit.entries)
                               else BlockedTrail(config.digest, old(audit.entries), o, killSwitch.level, now)
    {
      var allowed := killSwitch.CheckOrderAllowed();
      if allowed {
        return None;
      }
      var _ := audit.Record(
        EventType.OrderRejected,
        map["symbol" := Text(o.symbol), "reason" := Text("KILL_SWITCH_ACTIVE"),
            "kill_switch_level" := Text(LevelName(killSwitch.level))],
        o.strategyId, "", Micros(now));
      return Some(ExecutionResult("", KillSwitchBlocked, false, ["KILL_SWITCH"], None, now));
    }

    method CheckRisk(o: Order, inHours: bool, now: real) returns (r: Option<ExecutionResult>)
      requires Wired()
      modifies audit, riskManager.state
      ensures var rs := Checks(config, old(View()), o, inHours, now);
        && r == (if FailedIds(rs) == [] then None else Some(RiskRejectedResult(FailedIds(rs), now)))
        && audit.entries == CheckedTrail(config.digest, old(audit.entries), o, rs, now)
        && riskManager.state.View() == AfterCheck(old(riskManager.state.View()), rs, now)
    {
      var rs := riskManager.Check(o, inHours, now);
      var failed := FailedIds(rs);
      if failed != [] {
        return Some(ExecutionResult("", RiskRejected, false, failed, None, now));
      }
      return None;
    }

    method HandleBrokerRejection(o: Order, br: BrokerResult, submittedAt: real, now: real) returns (r: ExecutionResult)
      requires Wired() && br.status == Rejected
      modifies audit
      ensures r == AnsweredResult(br, submittedAt)
      ensures audit.entries == RejectedTrail(config.digest, old(audit.entries), o, br, now)
    {
      var _ := audit.Record(
        EventType.OrderRejected,
        map["symbol" := Text(o.symbol), "order_id" := Text(br.orderId), "reason" := Text(br.message)],
        o.strategyId, br.orderId, Micros(now));
      return ExecutionResult(br.orderId, BrokerRejected, true, [], Some(br), submittedAt);
    }

    method RecordSuccess(o: Order, br: BrokerResult, now: real)
      requires Wired()
      modifies audit, riskManager.state
      ensures riskManager.state.View() == AfterPlaced(old(riskManager.state.View()), o, now)
      ensures audit.entries == PlacedTrail(config, old(audit.entries), o, br, now)
    {
      riskManager.RecordOrderPlaced(o, now);
      var event := if br.status == Pending then OrderPlaced else OrderConfirmed;
      var _ := audit.Record(
        event,
        map["symbol" := Text(o.symbol), "order_id" := Text(br.orderId), "side" := Text(o.orderType),
            "quantity" := Number(o.quantity), "price" := Text(config.notation.decimal(o.price))],
        o.strategyId, br.orderId, Micros(now));
    }

    /** The retry loop, given what the broker would do with each attempt. */
    method SubmitWithRetry(ghost id: nat, answers: seq<Answer>, ghost later: real) returns (reply: Option<BrokerResult>)
      requires config.maxRetries >= 0 ==> id in flights && flights[id].attempt == 1 && !flights[id].sleeping
      requires |answers| > config.maxRetries
      modifies this`flights, this`placements
      ensures config.maxRetries < 0 ==> reply == None && View() == old(View())
      ensures config.maxRetries >= 0 ==>
        && id in flights && SameOrder(flights[id], old(flights[id]))
        && Attempts(config, old(View()), id, answers, later) ==
             match reply
             case Some(br) => Answered(config, View(), id, br, later)
             case None => Landed(View(), id, Raised)
    {
      hide Answered;
      var attempt := 0;
      reply := None;
      while attempt < 1 + config.maxRetries
        invariant 0 <= attempt
        invariant config.maxRetries < 0 ==> attempt == 0 && View() == old(View())
        invariant attempt <= config.maxRetries ==>
          && id in flights && flights[id].attempt == attempt + 1 && SameOrder(flights[id], old(flights[id]))
          && Attempts(config, View(), id, answers[attempt..], later) ==
               Attempts(config, old(View()), id, answers, later)
        invariant attempt > config.maxRetries >= 0 ==>
          && id in flights && SameOrder(flights[id], old(flights[id]))
          && Attempts(config, old(View()), id, answers, later) == Landed(View(), id, Raised)
        decreases 1 + config.maxRetries - attempt
      {
        var answer := answers[attempt];
        if answer.Replies? {
          return Some(answer.result);
        }
        if attempt < config.maxRetries {
          flights := flights[id := flights[id].(sleeping := true)];
          flights := flights[id := flights[id].(sleeping := false, attempt := flights[id].attempt + 1)];
          placements := placements + 1;
          assert answers[attempt..][1..] == answers[attempt + 1..];
        }
        attempt := attempt + 1;
      }
    }

    /** `submit` up to its first suspension: guard, checks, and the first placement begun. */
    method Begin(o: Order, ghost routed: bool, inHours: bool, now: real) returns (verdict: Option<Outcome>)
      requires Wired()
      modifies this`flights, this`nextId, this`endings, this`placements, audit, riskManager.state
      ensures View() == Admit(config, old(View()), o, routed, inHours, now)
      ensures verdict == Verdict(config, old(View()), o, inHours, now)
      ensures verdict.Some? ==> endings != [] && endings[|endings| - 1].outcome == verdict.value
    {
      hide CheckAll, FailedIds, BlockedTrail, CheckedTrail, AfterCheck, BlockedResult, RiskRejectedResult;
      var refused := CheckKillSwitch(o, now);
      if refused.None? {
        refused := CheckRisk(o, inHours, now);
      }
      if refused.Some? {
        verdict := Some(Returned(refused.value));
      } else if config.maxRetries < 0 {
        verdict := Some(Raised);  // no attempt is made and there is no exception to re-raise
      } else {
        verdict := None;
        flights := flights[nextId := Flight(o, routed, now, 1, false)];
        nextId := nextId + 1;
        placements := placements + 1;
      }
      if verdict.Some? {
        endings := endings + [Ending(o, routed, 0, verdict.value)];
      }
    }

    /** `submit` after the broker's final word (None: the last attempt raised). */
    method Settle(ghost id: nat, o: Order, reply: Option<BrokerResult>, submittedAt: real, now: real)
      returns (outcome: Outcome)
      requires Wired() && id in flights && flights[id].order == o && flights[id].admittedAt == submittedAt
      modifies this`flights, this`endings, audit, riskManager.state
      ensures View() == match reply
        case Some(br) => Answered(config, old(View()), id, br, now)
        case None => Landed(old(View()), id, Raised)
      ensures outcome == match reply
        case Some(br) => Returned(AnsweredResult(br, submittedAt))
        case None => Raised
      ensures endings != [] && endings[|endings| - 1].outcome == outcome
    {
      if reply.None? {
        outcome := Raised;
      } else if reply.value.status == Rejected {
        var r := HandleBrokerRejection(o, reply.value, submittedAt, now);
        outcome := Returned(r);
      } else {
        RecordSuccess(o, reply.value, now);
        outcome := Returned(
          ExecutionResult(reply.value.orderId, BrokerSubmitted, true, [], reply, submittedAt));
      }
      ghost var f := flights[id];
      endings := endings + [Ending(f.order, f.routed, f.attempt, outcome)];
      flights := flights - {id};
    }

    /** `submit`, with no other task running in between. */
    method Submit(o: Order, ghost routed: bool, inHours: bool, now: real, answers: seq<Answer>, later: real)
      returns (outcome: Outcome)
      requires Wired() && |answers| > config.maxRetries
      modifies this`flights, this`nextId, this`endings, this`placements, audit, riskManager.state
      ensures View() == SubmitAlone(config, old(View()), o, routed, inHours, now, answers, later)
      ensures endings != [] && outcome == endings[|endings| - 1].outcome
    {
      hide Gated, Checks, FailedIds, Attempts, Answered, Landed;
      ghost var id := nextId;
      var verdict := Begin(o, routed, inHours, now);
      if verdict.Some? {
        return verdict.value;
      }
      AdmitFlies(config, old(View()), o, routed, inHours, now);
      var reply := SubmitWithRetry(id, answers, later);
      outcome := Settle(id, o, reply, now, later);
    }

    /** `cancel`, called at `calledAt`, once the broker has answered or raised (None). */
    method Cancel(orderId: string, answer: Option<BrokerResult>, calledAt: real, now: real)
      returns (r: ExecutionResult)
      requires Wired()
      modifies audit
      ensures audit.entries == match answer
                case Some(br) => CancelledTrail(config.digest, old(audit.entries), orderId, br.message, now)
                case None => old(audit.entries)
      ensures r.orderId == orderId && r.brokerResult == answer && r.submittedAt == calledAt
      ensures r.status == (if answer.Some? then Status.OrderCancelled else BrokerError)
      ensures r.riskChecksPassed && r.failedChecks == []
    {
      if answer.None? {
        return ExecutionResult(orderId, BrokerError, true, [], None, calledAt);
      }
      var br := answer.value;
      var _ := audit.Record(
        EventType.OrderCancelled,
        map["order_id" := Text(orderId), "message" := Text(br.message)], "", orderId, Micros(now));
      return ExecutionResult(orderId, Status.OrderCancelled, true, [], Some(br), calledAt);
    }
  }
}
