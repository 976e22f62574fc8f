/** The code run without interruption is one of the runs of the step system. */
module PipelineScript {
  import opened Prelude
  import opened Risk
  import opened RateLimiter
  import opened Engine
  import opened Router
  import opened Pipelines

  lemma {:induction false} RunAppend(u: Setup, p: Pipeline, xs: seq<Event>, ys: seq<Event>)
    ensures Run(u, p, xs + ys) == Run(u, Run(u, p, xs), ys)
  {
    if ys == [] {
      assert xs + ys == xs;
    } else {
      var n := |ys| - 1;
      RunAppend(u, p, xs, ys[..n]);
      assert (xs + ys)[..|xs + ys| - 1] == xs + ys[..n];
    }
  }

  lemma RunFirst(u: Setup, p: Pipeline, e: Event, es: seq<Event>)
    ensures Run(u, p, [e] + es) == Run(u, Step(u, p, e), es)
  {
    hide Step;
    RunAppend(u, p, [e], es);
    RunOne(u, p, e);
  }

  lemma RunOne(u: Setup, p: Pipeline, e: Event)
    ensures Run(u, p, [e]) == Step(u, p, e)
  {
    hide Step;
    assert [e][..0] == [];
  }

  /** The events of one retry loop: the flight raises and sleeps until the broker replies or the attempts
      run out; only the last event moves the clock. */
  function Script(cfg: Config, id: nat, attempt: nat, answers: seq<Answer>, wait: Delay): seq<Event>
    decreases |answers|
  {
    if answers == [] then []
    else if answers[0].Replies? then [BrokerAnswered(id, answers[0].result, wait)]
    else if attempt <= cfg.maxRetries then
      [BrokerRaised(id, 0.0), DelayOver(id, 0.0)] + Script(cfg, id, attempt + 1, answers[1..], wait)
    else [BrokerRaised(id, wait)]
  }

  /** `q` is `p` after the flight `id` has ended, the engine now being `s`. */
  predicate Delivers(p: Pipeline, id: nat, s: EngineState, wait: Delay, q: Pipeline)
    requires id in p.engine.flights
  {
    && q.engine == s && s.endings != []
    && q.router == Delivered(p.router, p.engine.flights[id], s.endings[|s.endings| - 1].outcome)
    && q.book == p.book && q.clock == p.clock + wait
  }

  lemma ReplyDelivers(u: Setup, p: Pipeline, id: nat, br: BrokerResult, wait: Delay)
    requires Placing(p.engine, id)
    ensures Delivers(p, id, Answered(u.engine, p.engine, id, br, p.clock + wait), wait,
                     Step(u, p, BrokerAnswered(id, br, wait)))
  {
    hide AfterPlaced, PlacedTrail, RejectedTrail, Kept;
  }

  lemma RaiseDelivers(u: Setup, p: Pipeline, id: nat, wait: Delay)
    requires Placing(p.engine, id) && p.engine.flights[id].attempt > u.engine.maxRetries
    ensures Delivers(p, id, Stumbled(u.engine, p.engine, id), wait, Step(u, p, BrokerRaised(id, wait)))
  {
  }

  lemma SleepAndWake(u: Setup, p: Pipeline, id: nat)
    requires Placing(p.engine, id) && p.engine.flights[id].attempt <= u.engine.maxRetries
    ensures var f := p.engine.flights[id];
      var q := Step(u, Step(u, p, BrokerRaised(id, 0.0)), DelayOver(id, 0.0));
      && q == p.(engine := Retried(Stumbled(u.engine, p.engine, id), id))
      && Placing(q.engine, id) && q.engine.flights[id] == f.(attempt := f.attempt + 1)
  {
  }

  lemma {:induction false} AttemptsIsRun(u: Setup, p: Pipeline, id: nat, answers: seq<Answer>, wait: Delay)
    requires Placing(p.engine, id) && answers != []
    requires |answers| > u.engine.maxRetries + 1 - p.engine.flights[id].attempt
    ensures Delivers(p, id, Attempts(u.engine, p.engine, id, answers, p.clock + wait), wait,
                     Run(u, p, Script(u.engine, id, p.engine.flights[id].attempt, answers, wait)))
    decreases |answers|
  {
    hide Step, Run, Answered, Stumbled, Retried, Kept;
    var f := p.engine.flights[id];
    if answers[0].Replies? {
      RunOne(u, p, BrokerAnswered(id, answers[0].result, wait));
      ReplyDelivers(u, p, id, answers[0].result, wait);
    } else if f.attempt <= u.engine.maxRetries {
      var asleep := Step(u, p, BrokerRaised(id, 0.0));
      var awake := Step(u, asleep, DelayOver(id, 0.0));
      var rest := Script(u.engine, id, f.attempt + 1, answers[1..], wait);
      SleepAndWake(u, p, id);
      assert [BrokerRaised(id, 0.0), DelayOver(id, 0.0)] + rest ==
        [BrokerRaised(id, 0.0)] + ([DelayOver(id, 0.0)] + rest);
      RunFirst(u, p, BrokerRaised(id, 0.0), [DelayOver(id, 0.0)] + rest);
      RunFirst(u, asleep, DelayOver(id, 0.0), rest);
      AttemptsIsRun(u, awake, id, answers[1..], wait);
    } else {
      RunOne(u, p, BrokerRaised(id, wait));
      RaiseDelivers(u, p, id, wait);
    }
  }

  /** The events of one uninterrupted `route`. */
  function RouteScript(u: Setup, p: Pipeline, e: Event, answers: seq<Answer>, wait: Delay): seq<Event>
    requires e.RouteCalled?
  {
    var checked := p.clock + e.toPrune + e.toReserve + e.toCheck;
    if Verdict(u.engine, p.engine, e.order, e.inHours, checked).Some? then [e]
    else [e] + Script(u.engine, p.engine.nextId, 1, answers, wait)
  }

  /** The whole of `route`, as the router's method computes it, is the run of its scripted events. */
  lemma RouteIsRun(u: Setup, p: Pipeline, e: Event, answers: seq<Answer>, wait: Delay)
    requires e.RouteCalled? && |answers| > u.engine.maxRetries
    requires !Limited(Swept(p.router, p.clock + e.toPrune).rate, u.caps)
    ensures var pruned := p.clock + e.toPrune;
      var reserved := pruned + e.toReserve;
      var checked := reserved + e.toCheck;
      var q := Run(u, p, RouteScript(u, p, e, answers, wait));
      && q.engine == SubmitAlone(u.engine, p.engine, e.order, true, e.inHours, checked, answers, checked + wait)
      && q.engine.endings != []
      && q.router == Kept(SlotTaken(Swept(p.router, pruned), e.order, reserved),
                          q.engine.endings[|q.engine.endings| - 1].outcome)
  {
    hide Step, Admit, Verdict, SlotTaken, Attempts, Run, Script, Kept, Swept, Limited;
    var checked := p.clock + e.toPrune + e.toReserve + e.toCheck;
    var p' := Step(u, p, e);
    RouteBegins(u, p, e);
    if Verdict(u.engine, p.engine, e.order, e.inHours, checked).Some? {
      RunOne(u, p, e);
    } else {
      var es := Script(u.engine, p.engine.nextId, 1, answers, wait);
      RunFirst(u, p, e, es);
      AttemptsIsRun(u, p', p.engine.nextId, answers, wait);
    }
  }

  lemma RouteBegins(u: Setup, p: Pipeline, e: Event)
    requires e.RouteCalled? && !Limited(Swept(p.router, p.clock + e.toPrune).rate, u.caps)
    ensures var pruned := p.clock + e.toPrune;
      var reserved := pruned + e.toReserve;
      var checked := reserved + e.toCheck;
      var verdict := Verdict(u.engine, p.engine, e.order, e.inHours, checked);
      var taken := SlotTaken(Swept(p.router, pruned), e.order, reserved);
      var q, id := Step(u, p, e), p.engine.nextId;
      && q.clock == checked && q.engine == Admit(u.engine, p.engine, e.order, true, e.inHours, checked)
      && (verdict.Some? ==>
            && q.router == Kept(taken, verdict.value)
            && q.engine.endings != [] && q.engine.endings[|q.engine.endings| - 1].outcome == verdict.value)
      && (verdict.None? ==>
            && u.engine.maxRetries >= 0 && q.router == taken && Placing(q.engine, id)
            && q.engine.flights[id].attempt == 1 && q.engine.flights[id].routed)
  {
    hide Gated, Checks, FailedIds, SlotTaken, Kept, Swept, Limited;
    var checked := p.clock + e.toPrune + e.toReserve + e.toCheck;
    if Verdict(u.engine, p.engine, e.order, e.inHours, checked).None? {
      AdmitFlies(u.engine, p.engine, e.order, true, e.inHours, checked);
    }
  }
}
