/** When the limits hold although orders overlap, exactly; and how far they are missed otherwise. */
module PipelineOverlap {
  import opened Prelude
  import opened Reals
  import opened Risk
  import opened RateLimiter
  import opened Engine
  import opened Pipelines
  import opened PipelineMoves
  import opened PipelineLimits
  import opened PipelineScript

  // ---------------------------------------------------------------- when a limit holds

  /** What is on record, with everything in flight, is within the limit. */
  ghost predicate WithinLimit(u: Setup, m: Measure, p: Pipeline) {
    Load(m, p) <= Limit(u.engine.limits, m)
  }

  /** If this event begins an order that counts, the order fits beside everything on record and in flight. */
  ghost predicate FitsBeside(u: Setup, m: Measure, p: Pipeline, e: Event) {
    Begins(u, p, e) ==>
      var adds := Adds(m, e.order, CheckedAt(p, e));
      adds > 0.0 ==> Load(m, p) + adds <= Limit(u.engine.limits, m)
  }

  lemma StepWithinLimit(u: Setup, m: Measure, p: Pipeline, e: Event)
    requires Numbered(p.engine) && LeavesRecord(m, e) && WithinLimit(u, m, p)
    ensures WithinLimit(u, m, Step(u, p, e)) <==> FitsBeside(u, m, p, e)
  {
    hide Begins, Step, Load, Limit, Adds, LeavesRecord, Numbered;
    if Begins(u, p, e) {
      BeginningAdds(u, m, p, e);
    } else {
      OthersKeepLoad(u, m, p, e);
    }
  }

  predicate Leaves(m: Measure, es: seq<Event>) {
    forall k :: 0 <= k < |es| ==> LeavesRecord(m, es[k])
  }

  /** Along every run that leaves the record alone, in every interleaving, for each of the four checks: what is on
      record plus everything in flight stays within the limit if and only if it starts there and each order that
      begins fits beside what it meets.  The gate tests what is on record alone, which is this condition with
      nothing in flight. */
  lemma WithinLimitIff(u: Setup, m: Measure, p: Pipeline, es: seq<Event>)
    requires Numbered(p.engine) && Leaves(m, es)
    ensures (forall k: nat :: k <= |es| ==> WithinLimit(u, m, Run(u, p, es[..k])))
      <==> WithinLimit(u, m, p) && forall k: nat :: k < |es| ==> FitsBeside(u, m, Run(u, p, es[..k]), es[k])
  {
    hide WithinLimit, FitsBeside, Run, Step, Numbered, Leaves;
    ghost var holds := (k: nat) => k <= |es| ==> WithinLimit(u, m, Run(u, p, es[..k]));
    ghost var meets := (k: nat) => k < |es| ==> FitsBeside(u, m, Run(u, p, es[..k]), es[k]);
    RunNothing(u, p, es);
    forall k: nat | k < |es| && holds(k) ensures holds(k + 1) <==> meets(k) {
      FitsAt(u, m, p, es, k);
    }
    StepwiseIff(|es|, holds, meets);
    assert forall k: nat :: k <= |es| ==> (holds(k) <==> WithinLimit(u, m, Run(u, p, es[..k])));
    assert forall k: nat :: k < |es| ==> (meets(k) <==> FitsBeside(u, m, Run(u, p, es[..k]), es[k]));
  }

  lemma RunNothing(u: Setup, p: Pipeline, es: seq<Event>)
    ensures Run(u, p, es[..0]) == p
  {
  }

  lemma FitsAt(u: Setup, m: Measure, p: Pipeline, es: seq<Event>, k: nat)
    requires Numbered(p.engine) && Leaves(m, es) && k < |es|
    ensures WithinLimit(u, m, Run(u, p, es[..k])) ==>
      (WithinLimit(u, m, Run(u, p, es[..k + 1])) <==> FitsBeside(u, m, Run(u, p, es[..k]), es[k]))
  {
    hide WithinLimit, FitsBeside, Step, Numbered, LeavesRecord;
    RunNumbered(u, p, es[..k]);
    assert es[..k + 1][..k] == es[..k];
    assert LeavesRecord(m, es[k]);
    if WithinLimit(u, m, Run(u, p, es[..k])) {
      StepWithinLimit(u, m, Run(u, p, es[..k]), es[k]);
    }
  }

  lemma {:induction false} RunNumbered(u: Setup, p: Pipeline, es: seq<Event>)
    requires Numbered(p.engine)
    ensures Numbered(Run(u, p, es).engine)
  {
    if es != [] {
      hide Step, Numbered;
      var n := |es| - 1;
      RunNumbered(u, p, es[..n]);
      FlightsMove(u, Run(u, p, es[..n]), es[n]);
    }
  }

  // ---------------------------------------------------------------- the load is what will be recorded

  /** Events that begin no order and leave the record alone. */
  predicate Quiet(m: Measure, es: seq<Event>) {
    forall k :: 0 <= k < |es| ==> LeavesRecord(m, es[k]) && !es[k].RouteCalled? && !es[k].SubmitCalled?
  }

  /** The broker's answer to a flight that makes the most of it. */
  ghost function Landing(m: Measure, id: nat, f: Flight, clock: real): seq<Event> {
    (if f.sleeping then [DelayOver(id, 0.0)] else []) + [BrokerAnswered(id, BestAnswer(m, f, clock), 0.0)]
  }

  ghost function BestAnswer(m: Measure, f: Flight, clock: real): BrokerResult {
    BrokerResult("", if Weight(m, f.order, clock) >= 0.0 then Open else Rejected, "")
  }

  /** Landing one flight records what it could add, and changes nothing else that is measured. */
  ghost predicate Lands(m: Measure, p: Pipeline, id: nat, q: Pipeline) {
    && id in p.engine.flights && q.engine.flights == p.engine.flights - {id} && q.clock == p.clock
    && OnRecord(m, q.engine.risk) == OnRecord(m, p.engine.risk) + Adds(m, p.engine.flights[id].order, p.clock)
  }

  lemma LandingRecords(u: Setup, m: Measure, p: Pipeline, id: nat)
    requires id in p.engine.flights && Counts(m, p.clock)
    ensures Lands(m, p, id, Run(u, p, Landing(m, id, p.engine.flights[id], p.clock)))
  {
    hide Step, Run, OnRecord, BestAnswer, Adds;
    var f := p.engine.flights[id];
    var e := BrokerAnswered(id, BestAnswer(m, f, p.clock), 0.0);
    if f.sleeping {
      var q := Step(u, p, DelayOver(id, 0.0));
      assert Landing(m, id, f, p.clock) == [DelayOver(id, 0.0)] + [e];
      RunFirst(u, p, DelayOver(id, 0.0), [e]);
      Wakes(u, p, id);
      RunOne(u, q, e);
      SameAnswer(m, f, q.engine.flights[id], p.clock);
      AnswerRecords(u, m, q, id);
      assert p.engine.flights[id := f.(sleeping := false, attempt := f.attempt + 1)] - {id} == p.engine.flights - {id};
    } else {
      assert Landing(m, id, f, p.clock) == [e];
      RunOne(u, p, e);
      AnswerRecords(u, m, p, id);
    }
  }

  lemma SameAnswer(m: Measure, f: Flight, g: Flight, clock: real)
    requires f.order == g.order
    ensures BestAnswer(m, f, clock) == BestAnswer(m, g, clock)
  {
  }

  lemma Wakes(u: Setup, p: Pipeline, id: nat)
    requires Sleeping(p.engine, id)
    ensures var f := p.engine.flights[id];
      var q := Step(u, p, DelayOver(id, 0.0));
      && q.engine.flights == p.engine.flights[id := f.(sleeping := false, attempt := f.attempt + 1)]
      && q.engine.risk == p.engine.risk && q.engine.kill == p.engine.kill && q.clock == p.clock
      && q.engine.placements == p.engine.placements + 1
  {
  }

  lemma AnswerRecords(u: Setup, m: Measure, p: Pipeline, id: nat)
    requires Placing(p.engine, id) && Counts(m, p.clock)
    ensures Lands(m, p, id, Step(u, p, BrokerAnswered(id, BestAnswer(m, p.engine.flights[id], p.clock), 0.0)))
  {
    hide OnRecord, Weight, PlacedTrail, RejectedTrail, Delivered, AfterPlaced;
    PlacedWeighs(m, p.engine.risk, p.engine.flights[id].order, p.clock);
  }

  /** All flights landed one after the other. */
  ghost function LandAll(m: Measure, flights: map<nat, Flight>, clock: real): seq<Event>
    decreases |flights|
  {
    if flights == map[] then [] else
      var id := Pick(flights);
      Landing(m, id, flights[id], clock) + LandAll(m, flights - {id}, clock)
  }

  lemma {:induction false} LandAllIsQuiet(m: Measure, flights: map<nat, Flight>, clock: real)
    ensures Quiet(m, LandAll(m, flights, clock))
    decreases |flights|
  {
    if flights != map[] {
      hide BestAnswer;
      LandAllIsQuiet(m, flights - {Pick(flights)}, clock);
    }
  }

  /** From any state the orders in flight can end so that exactly the load is on record; for a rate, within its
      window. */
  lemma {:induction false} LoadLands(u: Setup, m: Measure, p: Pipeline)
    requires Counts(m, p.clock)
    ensures var q := Run(u, p, LandAll(m, p.engine.flights, p.clock));
      && q.engine.flights == map[] && q.clock == p.clock && OnRecord(m, q.engine.risk) == Load(m, p)
    decreases |p.engine.flights|
  {
    hide Step, Landing, Adds, OnRecord;
    var flights := p.engine.flights;
    if flights != map[] {
      var id := Pick(flights);
      var q := Run(u, p, Landing(m, id, flights[id], p.clock));
      LandingRecords(u, m, p, id);
      OneFewer(flights, id);
      RunAppend(u, p, Landing(m, id, flights[id], p.clock), LandAll(m, flights - {id}, p.clock));
      LoadLands(u, m, q);
    }
  }

  lemma {:induction false} QuietKeepsLoad(u: Setup, m: Measure, p: Pipeline, es: seq<Event>)
    requires Quiet(m, es)
    ensures Load(m, Run(u, p, es)) <= Load(m, p)
  {
    if es != [] {
      hide Step, Load, Begins, LeavesRecord;
      var n := |es| - 1;
      QuietKeepsLoad(u, m, p, es[..n]);
      assert !Begins(u, Run(u, p, es[..n]), es[n]);
      OthersKeepLoad(u, m, Run(u, p, es[..n]), es[n]);
    }
  }

  /** The record goes over the limit in some continuation that begins no further order. */
  ghost predicate Exceeds(u: Setup, m: Measure, p: Pipeline, es: seq<Event>) {
    Quiet(m, es) && OnRecord(m, Run(u, p, es).engine.risk) > Limit(u.engine.limits, m)
  }

  /** So the load is the right measure: with no further order, the record can still go over the limit if and only
      if the load is over it now. */
  lemma OverLimitIff(u: Setup, m: Measure, p: Pipeline)
    ensures (exists es :: Exceeds(u, m, p, es)) <==> !WithinLimit(u, m, p)
  {
    hide Step, Run, Load, OnRecord, Limit, Quiet;
    if !WithinLimit(u, m, p) {
      var es := LoadIsReached(u, m, p);
      assert Exceeds(u, m, p, es);
    }
    if es :| Exceeds(u, m, p, es) {
      QuietKeepsLoad(u, m, p, es);
      RecordBelowLoad(m, Run(u, p, es));
    }
  }

  /** A continuation that records the load: for a rate, first wait for the window. */
  lemma LoadIsReached(u: Setup, m: Measure, p: Pipeline) returns (es: seq<Event>)
    ensures Quiet(m, es) && OnRecord(m, Run(u, p, es).engine.risk) == Load(m, p)
  {
    hide Step, Run, LandAll, Load, OnRecord, Quiet;
    if Counts(m, p.clock) {
      LandAllIsQuiet(m, p.engine.flights, p.clock);
      LoadLands(u, m, p);
      es := LandAll(m, p.engine.flights, p.clock);
    } else if Ahead(m.window, p.clock) {
      var t :| m.window(t) && t >= p.clock;
      var q := Step(u, p, CancelAnswered("", "", t - p.clock));
      WaitKeepsLoad(u, m, p, t);
      LandAllIsQuiet(m, q.engine.flights, q.clock);
      LoadLands(u, m, q);
      var rest := LandAll(m, q.engine.flights, q.clock);
      RunFirst(u, p, CancelAnswered("", "", t - p.clock), rest);
      es := [CancelAnswered("", "", t - p.clock)] + rest;
      WaitIsQuiet(m, t - p.clock, rest);
    } else {
      NothingAhead(u, m, p);
      es := [];
    }
  }

  lemma WaitKeepsLoad(u: Setup, m: Measure, p: Pipeline, t: real)
    requires m.Rate? && m.window(t) && t >= p.clock
    ensures var q := Step(u, p, CancelAnswered("", "", t - p.clock)); q.clock == t && Load(m, q) == Load(m, p)
  {
    hide Total, CancelledTrail, CountIn;
    assert Ahead(m.window, t) && Ahead(m.window, p.clock);
    var q := Step(u, p, CancelAnswered("", "", t - p.clock));
    StillAhead(m, p.engine.flights, p.clock, t, Order("", "", "", 0, 0.0, ""));
  }

  lemma WaitIsQuiet(m: Measure, wait: Delay, rest: seq<Event>)
    requires Quiet(m, rest)
    ensures Quiet(m, [CancelAnswered("", "", wait)] + rest)
  {
  }

  lemma NothingAhead(u: Setup, m: Measure, p: Pipeline)
    requires m.Rate? && !Ahead(m.window, p.clock)
    ensures Quiet(m, []) && Run(u, p, []) == p && OnRecord(m, p.engine.risk) == Load(m, p)
  {
    TotalZero(p.engine.flights, CouldAdd(m, p.clock));
  }

  // ---------------------------------------------------------------- how far it is missed

  /** The gate does not see orders in flight: beginning one changes no later decision. */
  lemma GateIsBlind(cfg: Config, s: EngineState, o: Order, routed: bool, inHours: bool, now: real,
                    o': Order, inHours': bool, now': real)
    requires Verdict(cfg, s, o, inHours, now) == None
    ensures Verdict(cfg, Admit(cfg, s, o, routed, inHours, now), o', inHours', now')
         == Verdict(cfg, s, o', inHours', now')
  {
    hide CheckAll, FailedIds;
  }

  /** The same order, submitted `n` times before anything is answered. */
  function Submits(o: Order, n: nat): seq<Event> {
    if n == 0 then [] else Submits(o, n - 1) + [SubmitCalled(o, true, 0.0)]
  }

  /** `q` is `p` with `n` more flights of an order that still passes the gate. */
  ghost predicate Flown(u: Setup, m: Measure, p: Pipeline, o: Order, n: nat, q: Pipeline) {
    && Verdict(u.engine, q.engine, o, true, q.clock) == None
    && Numbered(q.engine) && |q.engine.flights| == |p.engine.flights| + n && q.clock == p.clock
    && Load(m, q) == Load(m, p) + Times(n, Adds(m, o, p.clock))
  }

  lemma NextFlies(u: Setup, m: Measure, p: Pipeline, o: Order, n: nat, q: Pipeline)
    requires Flown(u, m, p, o, n, q)
    ensures Flown(u, m, p, o, n + 1, Step(u, q, SubmitCalled(o, true, 0.0)))
  {
    hide Verdict, Step, Total, Adds, OnRecord, Numbered, Times;
    BeginningFlies(u, q, SubmitCalled(o, true, 0.0));
    BeginningLoad(u, m, q, SubmitCalled(o, true, 0.0));
    SubmitIsAdmit(u, q, o);
    GateIsBlind(u.engine, q.engine, o, false, true, q.clock, o, true, q.clock);
    TimesNext(n, Adds(m, o, p.clock));
  }

  /** If it passes once it passes every time, and all of it is in flight at once. */
  lemma {:induction false} SubmitsFly(u: Setup, m: Measure, p: Pipeline, o: Order, n: nat)
    requires Flown(u, m, p, o, 0, p)
    ensures Flown(u, m, p, o, n, Run(u, p, Submits(o, n)))
    ensures Peak(u, p, Submits(o, n)) == |p.engine.flights| + n
  {
    hide Verdict, Step, Load, Numbered, Adds, Times;
    if n > 0 {
      var es, e := Submits(o, n - 1), SubmitCalled(o, true, 0.0);
      assert (es + [e])[..|es|] == es;
      SubmitsFly(u, m, p, o, n - 1);
      NextFlies(u, m, p, o, n - 1, Run(u, p, es));
      assert Submits(o, n) == es + [e];
    }
  }

  lemma SubmitIsAdmit(u: Setup, p: Pipeline, o: Order)
    ensures Step(u, p, SubmitCalled(o, true, 0.0)).engine == Admit(u.engine, p.engine, o, false, true, p.clock)
  {
    hide Admit;
  }

  lemma {:induction false} PeakAppend(u: Setup, p: Pipeline, xs: seq<Event>, ys: seq<Event>)
    ensures Peak(u, p, xs + ys) == MaxInt(Peak(u, p, xs), Peak(u, Run(u, p, xs), ys))
  {
    if ys == [] {
      assert xs + ys == xs;
      PeakHere(u, p, xs);
    } else {
      hide Step, Run;
      PeakAppend(u, p, xs, ys[..|ys| - 1]);
      RunAppend(u, p, xs, ys);
      assert (xs + ys)[..|xs + ys| - 1] == xs + ys[..|ys| - 1];
    }
  }

  lemma PeakHere(u: Setup, p: Pipeline, es: seq<Event>)
    ensures |Run(u, p, es).engine.flights| <= Peak(u, p, es)
  {
    hide Step;
  }

  lemma {:induction false} QuietPeak(u: Setup, m: Measure, p: Pipeline, es: seq<Event>)
    requires Quiet(m, es) && Numbered(p.engine)
    ensures Peak(u, p, es) == |p.engine.flights| >= |Run(u, p, es).engine.flights|
  {
    if es != [] {
      hide Step, Numbered, LeavesRecord;
      var n := |es| - 1;
      QuietPeak(u, m, p, es[..n]);
      RunNumbered(u, p, es[..n]);
      FlightsMove(u, Run(u, p, es[..n]), es[n]);
    }
  }

  /** The submits, and then the broker's answers to all that is in flight. */
  ghost function Overlapping(u: Setup, m: Measure, p: Pipeline, o: Order, n: nat): seq<Event> {
    var q := Run(u, p, Submits(o, n));
    Submits(o, n) + LandAll(m, q.engine.flights, q.clock)
  }

  /** Wherever an order passes the gate, `n` overlapping submits of it record `n` times what it adds, on top of all
      that was on record or in flight. */
  lemma OverlapRecords(u: Setup, m: Measure, p: Pipeline, o: Order, n: nat)
    requires Verdict(u.engine, p.engine, o, true, p.clock) == None
    requires Numbered(p.engine) && Counts(m, p.clock)
    ensures var es := Overlapping(u, m, p, o, n);
      && Leaves(m, es) && (AtPrice(m, SubmitCalled(o, true, 0.0)) ==> Suits(m, es))
      && Peak(u, p, es) == |p.engine.flights| + n && Run(u, p, es).engine.flights == map[]
      && OnRecord(m, Run(u, p, es).engine.risk) == Load(m, p) + Times(n, Adds(m, o, p.clock))
  {
    hide Verdict, Step, Adds, Run, Peak, Load, Submits, LandAll, Numbered, Quiet, Leaves, Suits, OnRecord;
    hide AtPrice, Times;
    TimesNext(0, Adds(m, o, p.clock));
    assert Flown(u, m, p, o, 0, p);
    SubmitsFly(u, m, p, o, n);
    var xs, q := Submits(o, n), Run(u, p, Submits(o, n));
    var ys := LandAll(m, q.engine.flights, q.clock);
    LandAllIsQuiet(m, q.engine.flights, q.clock);
    LoadLands(u, m, q);
    QuietPeak(u, m, q, ys);
    RunAppend(u, p, xs, ys);
    PeakAppend(u, p, xs, ys);
    SubmitsSuit(m, o, n);
    QuietSuits(m, xs, ys);
  }

  lemma {:induction false} SubmitsSuit(m: Measure, o: Order, n: nat)
    ensures Leaves(m, Submits(o, n)) && (AtPrice(m, SubmitCalled(o, true, 0.0)) ==> Suits(m, Submits(o, n)))
  {
    if n > 0 {
      SubmitsSuit(m, o, n - 1);
    }
  }

  lemma QuietSuits(m: Measure, xs: seq<Event>, ys: seq<Event>)
    requires Quiet(m, ys)
    ensures Leaves(m, xs) ==> Leaves(m, xs + ys)
    ensures Suits(m, xs) ==> Suits(m, xs + ys)
  {
  }
}
