/** The emergency halt over whole runs: it never lifts itself, and what it does and does not stop. */
module PipelineHalt {
  import opened Prelude
  import opened KillSwitches
  import opened Risk
  import opened RateLimiter
  import opened Engine
  import opened Router
  import opened Positions
  import opened PositionLaws
  import opened Pipelines
  import opened PipelineStory
  import opened PipelineMoves
  import opened PipelineOverlap
  import opened PipelineCeilings
  import opened PipelineScript

  predicate Halted(p: Pipeline) {
    !Allows(p.engine.kill.level)
  }

  /** The operator commands that permit orders again. */
  predicate Releases(e: Event) {
    e.OperatorDeactivates? || (e.OperatorActivates? && e.level == Throttle)
  }

  /** Only a sync and the operator touch the kill switch. */
  lemma OthersKeepKill(u: Setup, p: Pipeline, e: Event)
    requires !e.SyncAnswered? && !e.OperatorActivates? && !e.OperatorDeactivates?
    ensures Step(u, p, e).engine.kill == p.engine.kill
  {
    hide Admit, Verdict, RejectedTrail, PlacedTrail, AfterPlaced, SlotTaken, Swept, Limited, Kept;
    match e
    case RouteCalled(o, inHours, a, b, c) => AdmitKeepsKill(u.engine, p.engine, o, true, inHours, p.clock + a + b + c);
    case SubmitCalled(o, inHours, wait) => AdmitKeepsKill(u.engine, p.engine, o, false, inHours, p.clock + wait);
    case _ =>
  }

  lemma AdmitKeepsKill(cfg: Config, s: EngineState, o: Order, routed: bool, inHours: bool, now: real)
    ensures Admit(cfg, s, o, routed, inHours, now).kill == s.kill
  {
    hide Checks, FailedIds, CheckData, BlockedTrail, CheckedTrail, AfterCheck;
  }

  /** From a halted state, an event permits orders again if and only if it is one of those commands; and an
      activated switch becomes inactive only by a deactivation. */
  lemma OnlyOperatorReleases(u: Setup, p: Pipeline, e: Event)
    ensures Halted(p) ==> (Halted(Step(u, p, e)) <==> !Releases(e))
    ensures p.engine.kill.level != Inactive ==>
      (Step(u, p, e).engine.kill.level == Inactive <==> e.OperatorDeactivates?)
  {
    if e.SyncAnswered? {
      hide SyncedKill;
      var lossAt := p.clock + e.wait + e.toLoss;
      SyncBlocks(u.engine.notation, p.engine.kill, Synced(p.book, e.positions, p.clock + e.wait), e.margins,
                 u.lossLimit, u.marginThreshold, p.engine.risk.dailyOrderCount, lossAt,
                 lossAt + e.toRecord + e.toMargin);
    } else if !e.OperatorActivates? && !e.OperatorDeactivates? {
      hide Step;
      OthersKeepKill(u, p, e);
    }
  }

  /** Any sync that finds the loss limit breached leaves the pipeline halted, whatever the margins are. */
  lemma BreachHalts(u: Setup, p: Pipeline, e: Event)
    requires e.SyncAnswered? && p.book.realized + PnlOf(e.positions) < -u.lossLimit
    ensures Halted(Step(u, p, e))
  {
    var lossAt := p.clock + e.wait + e.toLoss;
    SyncBlocks(u.engine.notation, p.engine.kill, Synced(p.book, e.positions, p.clock + e.wait), e.margins, u.lossLimit,
               u.marginThreshold, p.engine.risk.dailyOrderCount, lossAt, lossAt + e.toRecord + e.toMargin);
  }

  /** The exact level after a sync, from what the broker reports and the level before. */
  lemma SyncSetsLevel(u: Setup, p: Pipeline, e: Event)
    requires e.SyncAnswered?
    ensures Step(u, p, e).engine.kill.level ==
      if UseAbove(e.margins, u.marginThreshold) && UseAbove(e.margins, 0.95) then Pause
      else if p.book.realized + Sum(Profits(e.positions)) < -u.lossLimit then Kill
      else if UseAbove(e.margins, u.marginThreshold) && p.engine.kill.level == Inactive then Throttle
      else p.engine.kill.level
  {
    hide Sum, PnlOf, Profits, UseAbove, SyncedKill;
    var lossAt := p.clock + e.wait + e.toLoss;
    SyncLevel(u.engine.notation, p.engine.kill, p.book, e.positions, e.margins, u.lossLimit, u.marginThreshold,
              p.engine.risk.dailyOrderCount, p.clock + e.wait, lossAt, lossAt + e.toRecord + e.toMargin);
  }

  /** An operator's command takes effect at once and is logged; INACTIVE cannot be activated. */
  lemma CommandTakesEffect(u: Setup, p: Pipeline, e: Event)
    ensures var k, k' := p.engine.kill, Step(u, p, e).engine.kill;
      match e
      case OperatorActivates(level, path, reason, count, wait) =>
        if level == Inactive then k' == k
        else k' == KillState(level, Some(p.clock + wait), Some(path), reason, count,
                             k.log + [Activated(p.clock + wait, level, path, reason, count)])
      case OperatorDeactivates(reason, wait) =>
        if k.level == Inactive then k' == k
        else k' == KillState(Inactive, None, None, "", k.orderCount,
                             k.log + [Deactivated(p.clock + wait, k.level, reason)])
      case _ => true
  {
  }

  /** No step rewrites the activation log, and the last event in it accounts for the switch. */
  lemma StepLogTells(u: Setup, p: Pipeline, e: Event)
    requires LogTells(p.engine.kill)
    ensures var k := Step(u, p, e).engine.kill; LogTells(k) && p.engine.kill.log <= k.log
  {
    if e.SyncAnswered? {
      SyncLogTells(u, p, e);
    } else if !e.OperatorActivates? && !e.OperatorDeactivates? {
      hide Step;
      OthersKeepKill(u, p, e);
    }
  }

  lemma SyncLogTells(u: Setup, p: Pipeline, e: Event)
    requires e.SyncAnswered? && LogTells(p.engine.kill)
    ensures var k := Step(u, p, e).engine.kill; LogTells(k) && p.engine.kill.log <= k.log
  {
    hide LossBreached, MarginHigh, MarginCritical, Synced, LossReason, MarginReason, SyncedLedger, LossTrail;
  }

  /** In every reachable state the last log event tells the level, and for an active switch also when, how, why and
      at what order count it was activated, automatic activations included. */
  lemma {:induction false} LogTellsThroughout(u: Setup, clock: real, symbols: set<string>, es: seq<Event>)
    ensures var k := Run(u, Start(clock, symbols), es).engine.kill; LogTells(k) && LevelAfter(k.log) == k.level
  {
    if es != [] {
      hide Step;
      var n := |es| - 1;
      LogTellsThroughout(u, clock, symbols, es[..n]);
      StepLogTells(u, Run(u, Start(clock, symbols), es[..n]), es[n]);
    }
  }

  // ---------------------------------------------------------------- attempts

  predicate AttemptsOf(e: Ending, maxRetries: int) {
    match FateOf(e.outcome)
    case Blocked => e.attempts == 0
    case Failed => e.attempts == 0
    case _ => e.attempts <= MaxInt(0, 1 + maxRetries) && (maxRetries >= 0 ==> e.attempts >= 1)
  }

  function AttemptSum(es: seq<Ending>): nat {
    if es == [] then 0 else AttemptSum(es[..|es| - 1]) + es[|es| - 1].attempts
  }

  function AttemptsSoFar(f: Flight): real {
    f.attempt as real
  }

  /** A blocked or failed submit makes no attempt, any other makes between one and 1 + maxRetries; every
      placement ever begun belongs to exactly one submit, finished or in flight. */
  ghost predicate Attempted(s: EngineState, maxRetries: int) {
    && (forall id :: id in s.flights ==>
          1 <= s.flights[id].attempt <= 1 + maxRetries
          && (s.flights[id].sleeping ==> s.flights[id].attempt <= maxRetries))
    && (forall k :: 0 <= k < |s.endings| ==> AttemptsOf(s.endings[k], maxRetries))
    && s.placements as real == AttemptSum(s.endings) as real + Total(s.flights, AttemptsSoFar)
    && forall id :: id in s.flights ==> id < s.nextId
  }

  lemma AttemptSumSnoc(es: seq<Ending>, x: Ending)
    ensures AttemptSum(es + [x]) == AttemptSum(es) + x.attempts
  {
    assert (es + [x])[..|es|] == es;
  }

  lemma AdmitAttempted(cfg: Config, s: EngineState, o: Order, routed: bool, inHours: bool, now: real)
    requires Attempted(s, cfg.maxRetries)
    ensures Attempted(Admit(cfg, s, o, routed, inHours, now), cfg.maxRetries)
  {
    hide Checks, FailedIds, CheckData, BlockedTrail, CheckedTrail, AttemptSum, Total;
    match Verdict(cfg, s, o, inHours, now)
    case Some(outcome) => AttemptSumSnoc(s.endings, Ending(o, routed, 0, outcome));
    case None => TotalUpdate(s.flights, AttemptsSoFar, s.nextId, Flight(o, routed, now, 1, false));
  }

  lemma LandedAttempted(s: EngineState, maxRetries: int, id: nat, outcome: Outcome, t: EngineState)
    requires Attempted(s, maxRetries) && id in s.flights && FateOf(outcome) in {Refused, Placed, Lost}
    requires var l := Landed(s, id, outcome);
      t.flights == l.flights && t.endings == l.endings && t.placements == l.placements && t.nextId == l.nextId
    ensures Attempted(t, maxRetries)
  {
    hide AttemptSum, Total;
    var f := s.flights[id];
    AttemptSumSnoc(s.endings, Ending(f.order, f.routed, f.attempt, outcome));
    TotalSplit(s.flights, AttemptsSoFar, id);
  }

  lemma FlightChangeAttempted(s: EngineState, maxRetries: int, id: nat, f: Flight, t: EngineState)
    requires Attempted(s, maxRetries) && id in s.flights && 1 <= f.attempt <= 1 + maxRetries
    requires f.sleeping ==> f.attempt <= maxRetries
    requires t.flights == s.flights[id := f] && t.endings == s.endings && t.nextId == s.nextId
    requires t.placements == s.placements + f.attempt - s.flights[id].attempt
    ensures Attempted(t, maxRetries)
  {
    TotalUpdate(s.flights, AttemptsSoFar, id, f);
  }

  lemma SameAttempted(s: EngineState, maxRetries: int, t: EngineState)
    requires Attempted(s, maxRetries) && t.flights == s.flights && t.endings == s.endings
    requires t.nextId == s.nextId && t.placements == s.placements
    ensures Attempted(t, maxRetries)
  {
  }

  lemma AttemptRange(s: EngineState, maxRetries: int, id: nat)
    requires Attempted(s, maxRetries) && id in s.flights
    ensures 1 <= s.flights[id].attempt <= 1 + maxRetries
    ensures s.flights[id].sleeping ==> s.flights[id].attempt <= maxRetries
  {
  }

  lemma StepAttempted(u: Setup, p: Pipeline, e: Event)
    requires Attempted(p.engine, u.engine.maxRetries)
    ensures Attempted(Step(u, p, e).engine, u.engine.maxRetries)
  {
    hide Attempted, Admit, RejectedTrail, PlacedTrail, AfterPlaced, Upper, Recent;
    var s, t, r := p.engine, Step(u, p, e).engine, u.engine.maxRetries;
    match e
    case RouteCalled(o, inHours, a, b, c) => AdmitAttempted(u.engine, s, o, true, inHours, p.clock + a + b + c);
    case SubmitCalled(o, inHours, wait) => AdmitAttempted(u.engine, s, o, false, inHours, p.clock + wait);
    case BrokerAnswered(id, br, wait) =>
      if Placing(s, id) {
        LandedAttempted(s, r, id, Returned(AnsweredResult(br, s.flights[id].admittedAt)), t);
      }
    case BrokerRaised(id, _) =>
      if Placing(s, id) {
        AttemptRange(s, r, id);
        if s.flights[id].attempt <= r {
          FlightChangeAttempted(s, r, id, s.flights[id].(sleeping := true), t);
        } else {
          LandedAttempted(s, r, id, Raised, t);
        }
      }
    case DelayOver(id, _) =>
      if Sleeping(s, id) {
        AttemptRange(s, r, id);
        var f := s.flights[id];
        FlightChangeAttempted(s, r, id, f.(sleeping := false, attempt := f.attempt + 1), t);
      }
    case TaskCancelled(id, _) =>
      if id in s.flights {
        LandedAttempted(s, r, id, Raised, t);
      }
    case _ => SameAttempted(s, r, t);
  }

  lemma {:induction false} AttemptsThroughout(u: Setup, clock: real, symbols: set<string>, es: seq<Event>)
    ensures Attempted(Run(u, Start(clock, symbols), es).engine, u.engine.maxRetries)
  {
    if es != [] {
      hide Attempted, Step;
      var n := |es| - 1;
      AttemptsThroughout(u, clock, symbols, es[..n]);
      StepAttempted(u, Run(u, Start(clock, symbols), es[..n]), es[n]);
    }
  }

  // ---------------------------------------------------------------- what a halt stops

  /** The attempts a flight has left. */
  function AttemptsLeft(cfg: Config): Flight -> real {
    (f: Flight) => (1 + cfg.maxRetries - f.attempt) as real
  }

  /** All the attempts still open to the orders in flight. */
  ghost function Budget(cfg: Config, s: EngineState): real {
    Total(s.flights, AttemptsLeft(cfg))
  }

  lemma LandedBudget(cfg: Config, s: EngineState, id: nat, t: EngineState)
    requires id in s.flights && s.flights[id].attempt <= 1 + cfg.maxRetries
    requires t.flights == s.flights - {id} && t.placements == s.placements
    ensures t.placements as real + Budget(cfg, t) <= s.placements as real + Budget(cfg, s)
  {
    TotalSplit(s.flights, AttemptsLeft(cfg), id);
  }

  lemma FlightChangeBudget(cfg: Config, s: EngineState, id: nat, f: Flight, t: EngineState)
    requires id in s.flights && t.flights == s.flights[id := f]
    requires t.placements - s.placements == f.attempt - s.flights[id].attempt
    ensures t.placements as real + Budget(cfg, t) == s.placements as real + Budget(cfg, s)
  {
    TotalUpdate(s.flights, AttemptsLeft(cfg), id, f);
  }

  lemma HaltedStep(u: Setup, p: Pipeline, e: Event)
    requires Halted(p) && Attempted(p.engine, u.engine.maxRetries)
    ensures var s, t := p.engine, Step(u, p, e).engine;
      t.placements as real + Budget(u.engine, t) <= s.placements as real + Budget(u.engine, s)
  {
    hide Admit, RejectedTrail, PlacedTrail, AfterPlaced, Budget, Upper, Recent;
    var s, t := p.engine, Step(u, p, e).engine;
    match e
    case RouteCalled(o, inHours, a, b, c) =>
      RefusedUnchanged(u.engine, s, o, true, inHours, p.clock + a + b + c);
      SameFlightsBudget(u.engine, s, t);
    case SubmitCalled(o, inHours, wait) =>
      RefusedUnchanged(u.engine, s, o, false, inHours, p.clock + wait);
      SameFlightsBudget(u.engine, s, t);
    case BrokerAnswered(id, br, wait) =>
      if Placing(s, id) {
        LandedBudget(u.engine, s, id, t);
      }
    case BrokerRaised(id, _) =>
      if Placing(s, id) {
        if s.flights[id].attempt <= u.engine.maxRetries {
          FlightChangeBudget(u.engine, s, id, s.flights[id].(sleeping := true), t);
        } else {
          LandedBudget(u.engine, s, id, t);
        }
      }
    case DelayOver(id, _) =>
      if Sleeping(s, id) {
        var f := s.flights[id];
        FlightChangeBudget(u.engine, s, id, f.(sleeping := false, attempt := f.attempt + 1), t);
      }
    case TaskCancelled(id, _) =>
      if id in s.flights {
        LandedBudget(u.engine, s, id, t);
      }
    case _ => SameFlightsBudget(u.engine, s, t);
  }

  lemma SameFlightsBudget(cfg: Config, s: EngineState, t: EngineState)
    requires t.flights == s.flights
    ensures Budget(cfg, t) == Budget(cfg, s)
  {
  }

  predicate NoRelease(es: seq<Event>) {
    forall k :: 0 <= k < |es| ==> !Releases(es[k])
  }

  /** Never auto-resume: once halted, a run without a releasing command stays halted, whatever routes, fills,
      syncs and broker answers it contains; and from then on no more placements begin than the attempts
      still open to the orders in flight at the halt. */
  lemma {:induction false} HaltHolds(u: Setup, p: Pipeline, es: seq<Event>)
    requires Halted(p) && Attempted(p.engine, u.engine.maxRetries) && NoRelease(es)
    ensures var q := Run(u, p, es);
      && Halted(q) && Attempted(q.engine, u.engine.maxRetries)
      && q.engine.placements as real + Budget(u.engine, q.engine)
           <= p.engine.placements as real + Budget(u.engine, p.engine)
  {
    if es != [] {
      hide Halted, Attempted, Step, Budget, Releases;
      var n := |es| - 1;
      HaltHolds(u, p, es[..n]);
      OnlyOperatorReleases(u, Run(u, p, es[..n]), es[n]);
      StepAttempted(u, Run(u, p, es[..n]), es[n]);
      HaltedStep(u, Run(u, p, es[..n]), es[n]);
    }
  }

  lemma {:induction false} BudgetSign(cfg: Config, flights: map<nat, Flight>)
    requires forall id :: id in flights ==> flights[id].attempt <= 1 + cfg.maxRetries
    ensures Total(flights, AttemptsLeft(cfg)) >= 0.0
    ensures (forall id :: id in flights ==> flights[id].attempt > cfg.maxRetries) ==>
      Total(flights, AttemptsLeft(cfg)) == 0.0
    decreases |flights|
  {
    if flights != map[] {
      BudgetSign(cfg, flights - {Pick(flights)});
    }
  }

  /** Some order in flight has an attempt left. */
  ghost predicate AttemptOpen(cfg: Config, s: EngineState) {
    exists id :: id in s.flights && s.flights[id].attempt <= cfg.maxRetries
  }

  /** In this continuation, which nobody releases, a placement begins. */
  ghost predicate PlacesAgain(u: Setup, p: Pipeline, es: seq<Event>) {
    NoRelease(es) && Run(u, p, es).engine.placements > p.engine.placements
  }

  /** What a halt stops, exactly: in a halted state a placement can still begin without a releasing command if
      and only if an order in flight has an attempt left. */
  lemma HaltIsCompleteIff(u: Setup, p: Pipeline)
    requires Halted(p) && Attempted(p.engine, u.engine.maxRetries)
    ensures (exists es :: PlacesAgain(u, p, es)) <==> AttemptOpen(u.engine, p.engine)
  {
    hide Run, Halted, Total, Step;
    if AttemptOpen(u.engine, p.engine) {
      var id :| id in p.engine.flights && p.engine.flights[id].attempt <= u.engine.maxRetries;
      AnotherAttempt(u, p, id);
    }
    if es :| PlacesAgain(u, p, es) {
      HaltHolds(u, p, es);
      BudgetSign(u.engine, p.engine.flights);
      BudgetSign(u.engine, Run(u, p, es).engine.flights);
    }
  }

  /** The placement in progress raises, if it has not yet, and the delay ends. */
  lemma AnotherAttempt(u: Setup, p: Pipeline, id: nat)
    requires id in p.engine.flights && p.engine.flights[id].attempt <= u.engine.maxRetries
    ensures var es := if p.engine.flights[id].sleeping then [DelayOver(id, 0.0)]
                      else [BrokerRaised(id, 0.0), DelayOver(id, 0.0)];
      PlacesAgain(u, p, es)
  {
    hide Run, Step;
    if p.engine.flights[id].sleeping {
      RunOne(u, p, DelayOver(id, 0.0));
      Wakes(u, p, id);
    } else {
      var asleep := Step(u, p, BrokerRaised(id, 0.0));
      assert [BrokerRaised(id, 0.0), DelayOver(id, 0.0)] == [BrokerRaised(id, 0.0)] + [DelayOver(id, 0.0)];
      RunFirst(u, p, BrokerRaised(id, 0.0), [DelayOver(id, 0.0)]);
      RunOne(u, asleep, DelayOver(id, 0.0));
      SleepAndWake(u, p, id);
      Retries(u, p, id);
    }
  }

  lemma Retries(u: Setup, p: Pipeline, id: nat)
    requires id in p.engine.flights && p.engine.flights[id].attempt <= u.engine.maxRetries
    ensures Retried(Stumbled(u.engine, p.engine, id), id).placements == p.engine.placements + 1
  {
  }

  /** So without retries a halt is complete: from then on no placement begins. */
  lemma HaltIsCompleteWithoutRetries(u: Setup, p: Pipeline, es: seq<Event>)
    requires Halted(p) && Attempted(p.engine, u.engine.maxRetries) && NoRelease(es) && u.engine.maxRetries <= 0
    ensures Run(u, p, es).engine.placements <= p.engine.placements
  {
    hide Run, Halted, Total;
    HaltIsCompleteIff(u, p);
    assert !PlacesAgain(u, p, es);
  }

  // ---------------------------------------------------------------- which placements are checked

  /** A placement begins in two ways: a submit passes the gate, or a retry delay ends. */
  lemma PlacementsMove(u: Setup, p: Pipeline, e: Event)
    ensures Step(u, p, e).engine.placements ==
      p.engine.placements + if Begins(u, p, e) || (e.DelayOver? && Sleeping(p.engine, e.id)) then 1 else 0
  {
    hide Admit, Verdict, RejectedTrail, PlacedTrail, AfterPlaced, Upper, Recent, SlotTaken, Swept, Limited, Kept;
    if Begins(u, p, e) {
      hide Step, Begins;
      BeginningFlies(u, p, e);
    } else if e.SubmitCalled? {
      RefusedUnchanged(u.engine, p.engine, e.order, false, e.inHours, CheckedAt(p, e));
    } else if e.RouteCalled? && !Limited(Swept(p.router, p.clock + e.toPrune).rate, u.caps) {
      RefusedUnchanged(u.engine, p.engine, e.order, true, e.inHours, CheckedAt(p, e));
    }
  }

  /** Every step that begins a placement passes all ten checks at that moment, or is the retry of an order that
      has slept; without retries there is no such order, so no placement escapes any check. */
  lemma PlacementsAreChecked(u: Setup, p: Pipeline, e: Event)
    requires Attempted(p.engine, u.engine.maxRetries)
    requires Step(u, p, e).engine.placements != p.engine.placements
    ensures Checked(u, p, e) || (e.DelayOver? && Sleeping(p.engine, e.id) && u.engine.maxRetries > 0)
  {
    hide Begins, Step, Checked;
    PlacementsMove(u, p, e);
    if Begins(u, p, e) {
      BeginningIsChecked(u, p, e);
    }
  }

  /** The k-th event of a run begins no placement that escapes a check. */
  predicate NoneEscapes(u: Setup, p: Pipeline, es: seq<Event>, k: nat)
    requires k < |es|
  {
    var q := Run(u, p, es[..k]);
    Step(u, q, es[k]).engine.placements != q.engine.placements ==> Checked(u, q, es[k])
  }

  /** Over every run from freshly constructed components, without retries: no order is placed unless all ten
      checks pass at that very moment. */
  lemma NoPlacementEscapesWithoutRetries(u: Setup, clock: real, symbols: set<string>, es: seq<Event>)
    requires u.engine.maxRetries <= 0
    ensures forall k :: 0 <= k < |es| ==> NoneEscapes(u, Start(clock, symbols), es, k)
  {
    hide Run, Step, Checked, Attempted;
    forall k | 0 <= k < |es| ensures NoneEscapes(u, Start(clock, symbols), es, k) {
      var q := Run(u, Start(clock, symbols), es[..k]);
      AttemptsThroughout(u, clock, symbols, es[..k]);
      if Step(u, q, es[k]).engine.placements != q.engine.placements {
        PlacementsAreChecked(u, q, es[k]);
      }
    }
  }

  /** With retries a halt does not stop an order admitted before it: the order is placed again, because neither
      the guard nor the checks are repeated. */
  lemma RetryIgnoresHalt(u: Setup, p: Pipeline, o: Order)
    requires u.engine.maxRetries > 0 && Verdict(u.engine, p.engine, o, true, p.clock) == None
    ensures var id := p.engine.nextId;
      var halted := Run(u, p, [SubmitCalled(o, true, 0.0), BrokerRaised(id, 0.0),
                               OperatorActivates(Kill, Cli, "", 0, 0.0)]);
      var after := Step(u, halted, DelayOver(id, 0.0));
      Halted(halted) && Halted(after) && after.engine.placements == halted.engine.placements + 1
  {
    hide Admit, Verdict, Step, Halted;
    var id := p.engine.nextId;
    var es := [SubmitCalled(o, true, 0.0), BrokerRaised(id, 0.0), OperatorActivates(Kill, Cli, "", 0, 0.0)];
    assert es[..2][..1] == es[..1] && es[..1][..0] == [];
    assert Run(u, p, es[..1]) == Step(u, p, es[0]);
    assert Run(u, p, es[..2]) == Step(u, Run(u, p, es[..1]), es[1]);
    assert Run(u, p, es) == Step(u, Run(u, p, es[..2]), es[2]);
    SubmitFlies(u, p, o);
    RaiseHaltRetry(u, Step(u, p, es[0]), id);
  }

  lemma SubmitFlies(u: Setup, p: Pipeline, o: Order)
    requires Verdict(u.engine, p.engine, o, true, p.clock) == None
    ensures var q, id := Step(u, p, SubmitCalled(o, true, 0.0)), p.engine.nextId;
      Placing(q.engine, id) && q.engine.flights[id].attempt == 1
  {
    hide Admit, Verdict;
    AdmittedFits(u.engine, p.engine, o, false, true, p.clock);
  }

  lemma RaiseHaltRetry(u: Setup, p: Pipeline, id: nat)
    requires u.engine.maxRetries > 0 && Placing(p.engine, id) && p.engine.flights[id].attempt == 1
    ensures var halted := Step(u, Step(u, p, BrokerRaised(id, 0.0)), OperatorActivates(Kill, Cli, "", 0, 0.0));
      var after := Step(u, halted, DelayOver(id, 0.0));
      Halted(halted) && Halted(after) && after.engine.placements == halted.engine.placements + 1
  {
  }

  /** The events of that failure, from the start. */
  function HaltedRetry(l: Limits, o: Order): seq<Event> {
    [OneFits(l), SubmitCalled(o, true, 0.0), BrokerRaised(0, 0.0), OperatorActivates(Kill, Cli, "", 0, 0.0),
     DelayOver(0, 0.0)]
  }

  /** So over all runs from freshly constructed components, no placement escapes a check if and only if retries
      are off. */
  lemma NoPlacementEscapesIff(u: Setup, clock: real, symbols: set<string>, symbol: string)
    requires Workable(u) && symbol in symbols
    ensures (forall es: seq<Event>, k: nat :: k < |es| ==> NoneEscapes(u, Start(clock, symbols), es, k))
      <==> u.engine.maxRetries <= 0
  {
    hide Run, Step, Workable, NoneEscapes;
    if u.engine.maxRetries <= 0 {
      forall es: seq<Event>, k: nat | k < |es| ensures NoneEscapes(u, Start(clock, symbols), es, k) {
        NoPlacementEscapesWithoutRetries(u, clock, symbols, es);
      }
    } else {
      var es := HaltedRetry(u.engine.limits, Largest(u.engine.limits, symbol));
      RetryEscapes(u, clock, symbols, symbol);
      assert !NoneEscapes(u, Start(clock, symbols), es, 4);
    }
  }

  lemma RetryEscapes(u: Setup, clock: real, symbols: set<string>, symbol: string)
    requires Workable(u) && symbol in symbols && u.engine.maxRetries > 0
    ensures !NoneEscapes(u, Start(clock, symbols), HaltedRetry(u.engine.limits, Largest(u.engine.limits, symbol)), 4)
  {
    hide Run, Step, Workable, Value, Verdict, Largest, OneFits;
    var start, l := Start(clock, symbols), u.engine.limits;
    var o := Largest(l, symbol);
    var es, p := HaltedRetry(l, o), Step(u, start, OneFits(l));
    LargestPasses(u, clock, symbols, symbol);
    AfterOneFits(u, clock, symbols);
    RetryIgnoresHalt(u, p, o);
    var tail := [SubmitCalled(o, true, 0.0), BrokerRaised(0, 0.0), OperatorActivates(Kill, Cli, "", 0, 0.0)];
    assert es[..4] == [OneFits(l)] + tail;
    RunFirst(u, start, OneFits(l), tail);
  }
}
