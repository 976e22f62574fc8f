/** The order router of src/execution/router.py: rate limiting in front of the engine. */
module Router {
  import opened Prelude
  import opened Risk
  import opened RateLimiter
  import opened Engine

  /** The router's state, with the full history of reservations that the code does not keep. */
  datatype RouterState = RouterState(
    rate: RateState, segmentCounts: map<string, int>, results: seq<ExecutionResult>, accepted: seq<real>)

  function UpperChar(c: char): char {
    if 'a' <= c <= 'z' then c - 'a' + 'A' else c
  }

  function Upper(s: string): string {
    seq(|s|, i requires 0 <= i < |s| => UpperChar(s[i]))
  }

  /** Letters of the ASCII alphabet become capital, everything else stays. */
  lemma UpperMeaning(s: string)
    ensures |Upper(s)| == |s|
    ensures forall i :: 0 <= i < |s| ==>
      Upper(s)[i] as int == s[i] as int - if 97 <= s[i] as int <= 122 then 32 else 0
    ensures Upper(Upper(s)) == Upper(s)
  {
    assert 'a' as int == 97 && 'z' as int == 122 && 'A' as int == 65;
  }

  function SegmentCount(counts: map<string, int>, segment: string): int {
    if segment in counts then counts[segment] else 0
  }

  function RateLimitedResult(now: real): ExecutionResult {
    ExecutionResult("", BrokerRejected, true, ["RATE_LIMIT"], None, now)
  }

  function Swept(r: RouterState, now: real): RouterState {
    r.(rate := Pruned(r.rate, now))
  }

  /** A slot is taken before the engine is awaited. */
  function SlotTaken(r: RouterState, o: Order, now: real): RouterState {
    var segment := Upper(o.segment);
    r.(rate := Reserved(r.rate, now), accepted := r.accepted + [now],
       segmentCounts := r.segmentCounts[segment := SegmentCount(r.segmentCounts, segment) + 1])
  }

  /** What `route` keeps of a finished submit; an exception leaves nothing. */
  function Kept(r: RouterState, outcome: Outcome): RouterState {
    match outcome
    case Returned(result) => r.(results := r.results + [result])
    case Raised => r
  }

  const DEFAULT_CAPS := Caps(3, 200, 2000)

  class OrderRouter {
    const engine: ExecutionEngine
    const caps: Caps
    var secondTimestamps: seq<real>
    var minuteTimestamps: seq<real>
    var dailyCount: int
    var segmentCounts: map<string, int>
    var results: seq<ExecutionResult>
    ghost var accepted: seq<real>

    ghost function View(): RouterState
      reads this
    {
      RouterState(RateState(secondTimestamps, minuteTimestamps, dailyCount), segmentCounts, results, accepted)
    }

    constructor (engine: ExecutionEngine, perSecond: Option<int>, perMinute: Option<int>, perDay: Option<int>)
      ensures this.engine == engine
      ensures caps == Caps(OrDefault(perSecond, 0, DEFAULT_CAPS.perSecond),
                           OrDefault(perMinute, 0, DEFAULT_CAPS.perMinute),
                           OrDefault(perDay, 0, DEFAULT_CAPS.perDay))
      ensures perSecond == None || perSecond == Some(0) ==> caps.perSecond == 3
      ensures perMinute == None || perMinute == Some(0) ==> caps.perMinute == 200
      ensures perDay == None || perDay == Some(0) ==> caps.perDay == 2000
      ensures perSecond.Some? && perSecond.value != 0 ==> caps.perSecond == perSecond.value
      ensures perMinute.Some? && perMinute.value != 0 ==> caps.perMinute == perMinute.value
      ensures perDay.Some? && perDay.value != 0 ==> caps.perDay == perDay.value
      ensures View() == RouterState(RateState([], [], 0), map[], [], [])
    {
      this.engine := engine;
      caps := Caps(OrDefault(perSecond, 0, DEFAULT_CAPS.perSecond), OrDefault(perMinute, 0, DEFAULT_CAPS.perMinute),
                   OrDefault(perDay, 0, DEFAULT_CAPS.perDay));
      secondTimestamps, minuteTimestamps, dailyCount, segmentCounts, results := [], [], 0, map[], [];
      accepted := [];
    }

    method PruneTimestamps(now: real)
      modifies this`secondTimestamps, this`minuteTimestamps
      ensures View() == Swept(old(View()), now)
    {
      secondTimestamps := KeepRecent(secondTimestamps, now - 1.0);
      minuteTimestamps := KeepRecent(minuteTimestamps, now - 60.0);
    }

    /** The timestamps strictly after `cutoff`. */
    static method KeepRecent(ts: seq<real>, cutoff: real) returns (kept: seq<real>)
      ensures kept == Recent(ts, cutoff)
    {
      kept := [];
      for i := 0 to |ts|
        invariant kept == Recent(ts[..i], cutoff)
      {
        assert ts[..i + 1][..i] == ts[..i];
        if ts[i] > cutoff {
          kept := kept + [ts[i]];
        }
      }
      assert ts[..|ts|] == ts;
    }

    method IsRateLimited() returns (limited: bool)
      ensures limited <==> Limited(View().rate, caps)
    {
      if |secondTimestamps| >= caps.perSecond {
        return true;
      }
      if |minuteTimestamps| >= caps.perMinute {
        return true;
      }
      return dailyCount >= caps.perDay;
    }

    method Reserve(o: Order, now: real)
      modifies this
      ensures View() == SlotTaken(old(View()), o, now)
    {
      secondTimestamps := secondTimestamps + [now];
      minuteTimestamps := minuteTimestamps + [now];
      dailyCount := dailyCount + 1;
      accepted := accepted + [now];
      var segment := Upper(o.segment);
      segmentCounts := segmentCounts[segment := SegmentCount(segmentCounts, segment) + 1];
    }

    /** `route`, with no other task running in between.  The clock is read at `pruned`, again at `reserved`,
        and by the engine at `checked` and `later`. */
    method Route(o: Order, inHours: bool, pruned: real, reserved: real, checked: real,
                 answers: seq<Answer>, later: real)
      returns (outcome: Outcome)
      requires engine.Wired() && |answers| > engine.config.maxRetries
      modifies this, engine`flights, engine`nextId, engine`endings, engine`placements
      modifies engine.audit, engine.riskManager.state
      ensures var swept := Swept(old(View()), pruned);
        if Limited(swept.rate, caps) then
          && View() == swept && engine.View() == old(engine.View())
          && outcome == Returned(RateLimitedResult(reserved))
          && outcome == Returned(ExecutionResult("", BrokerRejected, true, ["RATE_LIMIT"], None, reserved))
        else
          && View() == Kept(SlotTaken(swept, o, reserved), outcome)
          && engine.View() ==
               SubmitAlone(engine.config, old(engine.View()), o, true, inHours, checked, answers, later)
          && engine.endings != [] && outcome == engine.endings[|engine.endings| - 1].outcome
    {
      hide Pruned, Limited, SlotTaken, SubmitAlone;
      PruneTimestamps(pruned);
      var limited := IsRateLimited();
      if limited {
        return Returned(ExecutionResult("", BrokerRejected, true, ["RATE_LIMIT"], None, reserved));
      }
      Reserve(o, reserved);
      outcome := engine.Submit(o, true, inHours, checked, answers, later);
      if outcome.Returned? {
        results := results + [outcome.result];
      }
    }
  }
}
