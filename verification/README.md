# Verified model of the trading bot's order path, cache, positions, audit trail and indicators

This project models the stateful core of the repository in Dafny 4.11 and proves properties of it.
`dafny verify dfyconfig.toml` checks everything; no file needs anything outside this directory.

The model has two layers.

* **The code.** The objects of the repository are classes with the same fields, and their methods follow the
  same branches and loops: `KillSwitch`, `AuditTrail`, `RiskState`, `RiskManager`, `PositionTracker`,
  `ExecutionEngine`, `OrderRouter`, `OhlcvCache`, `TickerManager`, and the indicator loops as methods. Each method
  is proved to take the abstract value of its object to a specification function of the old value.
* **The specification functions and the runs.** The same functions are the steps of an event system
  (`OrderPipeline.dfy`) in which any number of orders are in flight. asyncio changes tasks only at an `await`, so
  one event is one uninterrupted stretch of code: a call of `route` or `submit` up to the first broker call, the
  broker answering, the broker raising, the retry delay ending, a task being cancelled, a sync's or cancel's answer,
  a fill, an operator command. The theorems speak about `Run`, for every list of events. `PipelineScript.dfy` proves
  that the code run without interruption is one of these runs.

What a specification function comes to is stated once more on the figures themselves, without its name or those of its
parts: the ten checks in `RiskLaws.dfy`, syncs and fills in `PositionLaws.dfy`, every record, result and ledger change
of the order path in `PipelineRecords.dfy`, positions over runs in `PipelinePositions.dfy`, the indicator series in
`IndicatorLaws.dfy`.

What is taken as given: amounts are exact reals, and how they are written as text is a parameter; the clock does not
run backwards (every event carries a non-negative delay); the broker, the operator and the trading-hours test are
inputs; the digest is an arbitrary function of the payload, so the audit theorems end in "equal, or here is a
collision"; router, engine, risk manager and tracker share one kill switch, one audit trail and one risk state, as
tests/execution/conftest.py wires them.

Where the code and its own comments disagree, the model follows the code:

* src/execution/engine.py says no order reaches the broker unless all checks pass. With retries the guard and the
  checks are not repeated, so an order can be placed again although a check now fails. Without retries every placement
  passes all ten checks when it begins (`PipelineHalt.NoPlacementEscapesWithoutRetries`); under limits that let any
  order of the greatest value pass, this holds over all runs only then (`PipelineHalt.NoPlacementEscapesIff`). In a
  halted state a further placement can begin if and only if an order in flight has an attempt left
  (`PipelineHalt.HaltIsCompleteIff`).
* Four of the ten checks (daily count, rate, position, exposure) compare a limit with what is on record when an order
  begins, and do not see orders in flight. What is on record plus everything in flight stays within each limit if and
  only if each order, when it begins, fits beside that sum (`PipelineOverlap.WithinLimitIff`); the record can go over
  its limit without a further order if and only if the sum is over it (`PipelineOverlap.OverLimitIff`). One order at a
  time is enough (`PipelineLimits.SequentialLimitsExact`); `n` at once exceed a limit by at most `n - 1` orders
  (`PipelineLimits.LimitsUnderConcurrency`). All four are passed in runs from the start
  (`PipelineCeilings.CeilingReached`, `PipelineCeilings.OtherLimitsPassed`), and for exposure, the daily count and the
  tighter of the two rates the bound is met.
* src/risk/kill_switch.py says the switch must be INACTIVE before any order is placed; THROTTLE permits orders too
  (`KillSwitches.KillSwitch.CheckOrderAllowed`).
* src/risk/audit.py says tampering with any entry breaks the chain. The newest entry can always be replaced by another
  one (`AuditTrails.NewestCanBeForged`), and entries can be cut off the end (`AuditTrails.ChainPrefix`); any other single
  edit needs a digest collision (`AuditTrails.TamperingNeedsCollision`), and what binds the whole history is the last
  checksum (`AuditTrails.LastChecksumBinds`).
* src/data/cache.py says an instrument stores up to `max_candles`. That holds if and only if the limit is positive
  (`CandleMerge.StoresAtMostIff`); a limit of zero drops nothing, ever (`CandleMerge.ZeroLimitKeepsAll`).
* src/execution/router.py speaks of queueing; a limited order is rejected.
* A sync that breaches the loss limit and finds margins critical leaves PAUSE, not KILL; orders are blocked either
  way (`Positions.SyncBlocks`).

The router's caps are exact for half-open windows. A closed second can hold up to twice its cap and a closed minute up
to its cap and one second's worth, as far as the other caps allow (`PipelineRouter.ClosedWindowsBounded`, met by
`PipelineRouter.ClosedWindowsFill`); the cap itself is passed for the second if and only if it is positive and below the
other two, and for the minute if and only if it is positive, below the daily cap and below 61 times the cap of a second
(`PipelineRouter.ClosedWindowsOverflowIff`). At the defaults of 3, 200 and 2000 a closed second holds up to 6 orders and
a closed minute up to 183. `PipelineRouter.HistoryIff` says exactly which histories of accepted orders exist.

MACD looks ahead only for a signal period below -1, which the code does not reject
(`MacdSignals.MacdLookAheadIff`, `MacdSignals.SignalLooksAhead`).

## Model

| member | source | states |
|---|---|---|
| AuditTrails.AuditTrail.Record | src/risk/audit.py:114-137 | appends one entry with the given type, data, strategy, order id and time, linked to the last checksum; the chain verifies afterwards exactly if it did before; counts of event types move by one |
| AuditTrails.AuditTrail.VerifyChain | src/risk/audit.py:139-172 | the loop with its three early exits accepts exactly the trails in which every entry carries its checksum and its predecessor's |
| AuditTrails.ChainedByIndex | src/risk/audit.py:144-170 | the chain predicate is the per-index test of checksum and link |
| AuditTrails.ChainPrefix | src/risk/audit.py:139-172 | every prefix of a verified chain verifies: cutting the tail is not detected |
| AuditTrails.LastChecksumBinds | src/risk/audit.py:74-87 | two verified chains with one last checksum are equal entry by entry, or the backward walk yields a digest collision or a payload hashing to the genesis marker |
| AuditTrails.SingleEdit | src/risk/audit.py:104-109 | replacing one entry goes unnoticed if and only if it verifies, keeps its link and (unless newest) reproduces the checksum |
| AuditTrails.TamperingNeedsCollision | src/risk/audit.py:104-109 | an unnoticed change of any entry but the newest is a digest collision |
| AuditTrails.NewestCanBeForged | src/risk/audit.py:104-109 | the newest entry of every verified chain can be replaced by a different one and the chain still verifies |
| KillSwitches.KillSwitch.Activate | src/risk/kill_switch.py:67-101 | the whole new state after activation; INACTIVE is a no-op |
| KillSwitches.KillSwitch.Deactivate | src/risk/kill_switch.py:103-127 | the whole new state after deactivation; a no-op when inactive |
| KillSwitches.KillSwitch.CheckOrderAllowed | src/risk/kill_switch.py:129-133 | orders are permitted exactly at INACTIVE and THROTTLE |
| Risk.FailedIds | src/execution/engine.py:153 | the failing identifiers are empty exactly when every check passed |
| RiskLaws.FailedAreListed | src/execution/engine.py:153 | each failed check is listed by its identifier, once, behind exactly those that failed before it |
| RiskLaws.ChecksMeaning | src/risk/manager.py:139-305 | each of the ten results carries its identifier and passes exactly when its condition on order, limits and risk state holds; the rate condition counts the recorded orders of the last second and the last minute |
| RiskLaws.GateIff | src/risk/manager.py:83-96 | no check fails if and only if all ten conditions hold |
| Risk.RiskManager.CountRecent | src/risk/manager.py:199-205 | the rate check's count over the never-pruned timestamp list |
| Risk.RiskManager.RunChecks | src/risk/manager.py:85-96 | the ten results in order, none skipped; what each one means is `RiskLaws.ChecksMeaning` |
| Risk.RiskManager.Check | src/risk/manager.py:83-123 | results, the one audit record, and a rejection timestamp exactly on failure |
| Risk.RiskManager.RecordOrderPlaced | src/risk/manager.py:129-137 | the whole risk state after a successful submission: count, timestamp, exposure by price times quantity, position by quantity, margins and rejections as before |
| Positions.PositionTracker.UpdateFill | src/execution/positions.py:118-156 | the book after a fill, and the risk state's position set to the held quantity |
| Positions.PositionTracker.Sync | src/execution/positions.py:79-116 | the book, risk state, kill switch and trail after a sync, each at its own clock reading, the loop over duplicate symbols included |
| Positions.PositionTracker.CheckDailyLoss | src/execution/positions.py:179-201 | KILL, with profit and limit in the reason, and one record exactly when total profit is below the negative limit |
| Positions.PositionTracker.CheckMarginUtilization | src/execution/positions.py:203-233 | PAUSE when critical, THROTTLE exactly from INACTIVE above the threshold, the utilization in the reason; nothing when total margin is zero |
| PositionLaws.SyncLevel | src/execution/positions.py:179-233 | the exact level after a sync from profits, margins and old level alone; the throttle is forced |
| PositionLaws.SyncIsLogged | src/execution/positions.py:179-233 | exactly which activations a sync logs, with times, reasons and figures |
| PositionLaws.SyncMeaning | src/execution/positions.py:79-116 | unrealized profit is the sum over the reported positions, exposure and margins are the reported ones, nothing else moves |
| PositionLaws.LastReportKept | src/execution/positions.py:88-100 | the table holds every symbol as last reported, each field with its figure |
| PositionLaws.FillMeaning | src/execution/positions.py:118-156 | a fill moves its symbol by the signed quantity, marks price and time, books a SELL's profit, and makes the risk state's position the held quantity; no other symbol moves |
| PositionLaws.BuyMeaning | src/execution/positions.py:139-147 | after a BUY the entry price makes the new quantity cost what the old one cost and the BUY paid |
| PipelinePositions.FillAligns | src/execution/positions.py:156 | in any state a fill makes the risk state's position equal the tracker's and leaves every other symbol alone in both |
| PipelinePositions.PositionsAfterFill | src/execution/positions.py:156 | over every interleaving after a fill, until its symbol's next fill or a sync: the risk state's position is what the tracker holds plus the units placed since; the two agree exactly when those add up to nothing |
| Positions.FillConserves | src/execution/positions.py:126-154 | one fill changes realized profit less cost held by exactly its cash if and only if it meets a condition on side, sign and prices known before the call |
| Positions.RunConserves | src/execution/positions.py:118-156 | over every multi-symbol run: the identity holds after each fill exactly when each fill meets that condition |
| Positions.RealizedIsCash | src/execution/positions.py:118-156 | long-only runs from an empty book: realized equals net cash plus cost held, and net cash exactly when all is flat |
| Positions.EntryPriceInRange | src/execution/positions.py:139-151 | from flat, built by BUYs in a price range and reduced without going short, the entry price stays in the range while anything is held |
| Positions.BuysAverage | src/execution/positions.py:139-147 | for BUYs alone the entry price is money spent over units bought |
| Positions.BuysCommute | src/execution/positions.py:139-147 | the same BUYs in any order give the same quantity and entry price |
| Positions.UnrealizedAddsUp | src/execution/positions.py:85-102 | with distinct symbols the snapshots' unrealized profit sums to the tracker's |
| Positions.SyncBlocks | src/execution/positions.py:115-116 | blocked after a sync iff blocked before, or loss breached, or margin critical; when KILL survives; INACTIVE never results from a sync |
| RateLimiter.PruneFaithful | src/execution/router.py:130-148 | pruned lists are the full history seen through the two windows, and the decision equals counting over a never-pruned list |
| RateLimiter.ReserveSpaced | src/execution/router.py:74-98 | a reservation stamped later than the pruning keeps every accepted instant spaced |
| RateLimiter.SpacedBoundsWindow | src/execution/router.py:130-136 | no set of instants pairwise closer than the width holds more than the cap |
| RateLimiter.HalfOpenBounded | src/execution/router.py:130-136 | both kinds of half-open interval hold at most the cap |
| RateLimiter.ClosedBounded | src/execution/router.py:130-148 | a closed interval holds at most twice the cap |
| Engine.ExecutionEngine.CheckKillSwitch | src/execution/engine.py:118-148 | blocked result and one record exactly when orders are not permitted |
| Engine.ExecutionEngine.CheckRisk | src/execution/engine.py:150-169 | rejection lists exactly the failed checks |
| Engine.ExecutionEngine.HandleBrokerRejection | src/execution/engine.py:171-196 | one ORDER_REJECTED record and the rejection result |
| Engine.ExecutionEngine.RecordSuccess | src/execution/engine.py:198-227 | risk state and trail after a placed order; PENDING is recorded as placed, anything else as confirmed |
| Engine.ExecutionEngine.SubmitWithRetry | src/execution/engine.py:268-285 | the loop returns the first reply among 1 + max_retries attempts, none if all raise, and makes no attempt for a negative limit |
| Engine.ExecutionEngine.Begin | src/execution/engine.py:88-101 | guard, checks and first placement as one atomic section |
| Engine.ExecutionEngine.Settle | src/execution/engine.py:101-116 | the section after the broker's final word |
| Engine.ExecutionEngine.Submit | src/execution/engine.py:88-116 | the uninterrupted submit is admission followed by the retry loop, and returns the outcome it records |
| Engine.ExecutionEngine.Cancel | src/execution/engine.py:229-266 | one ORDER_CANCELLED record and the broker's result passed on when it answers; no record and BROKER_ERROR when it raises |
| Router.OrderRouter.PruneTimestamps | src/execution/router.py:138-148 | both lists pruned at one clock reading, nothing else changed |
| Router.OrderRouter.IsRateLimited | src/execution/router.py:130-136 | the three caps, any of which limits |
| Router.OrderRouter.Route | src/execution/router.py:72-112 | limited: only pruning happens; otherwise slot taken first, engine called, result kept unless it raised |
| Router.UpperMeaning | src/execution/router.py:100-101 | segments are compared in capital letters: small letters move by 32, everything else stays, twice is once |
| Pipelines.GrowthIsRecorded | src/execution/engine.py:88-227 | every step leaves the trail alone or extends it by one recorded entry |
| Pipelines.StepKeepsChain | src/risk/audit.py:139-172 | every step keeps the verdict of the chain verifier |
| PipelineScript.AttemptsIsRun | src/execution/engine.py:268-285 | the retry loop is the run of its raise, sleep and reply events |
| PipelineScript.RouteIsRun | src/execution/router.py:72-112 | the whole of an unlimited route is a run of the event system, ending in the state its method computes |
| PipelineStory.AdmitRecords | src/execution/engine.py:92-98 | each submit leaves exactly one record before its first suspension |
| PipelineStory.StepAgrees | src/execution/engine.py:118-227 | every step keeps trail, risk state, endings and flights in agreement |
| PipelineStory.TrailAgreesThroughout | src/execution/engine.py:118-227 | every reachable state: placed and confirmed records equal the daily order count; passed checks equal placed, refused, raised and in flight; rejected records equal blocked and refused; failed checks equal rejection timestamps; the chain verifies |
| PipelineRecords.BlockedLeaves | src/execution/engine.py:118-148 | a submit at PAUSE or KILL: the content of its one record and of its result, and nothing else moves |
| PipelineRecords.CheckedLeaves | src/risk/manager.py:98-123 | a submit that is checked: the record with its tally and failed checks, the rejection timestamp or the first placement, the result |
| PipelineRecords.AnswerLeaves | src/execution/engine.py:101-227 | the broker's reply: a PENDING order is recorded as placed, any other acceptance as confirmed, a rejection as rejected, with the order's figures and the reply's identifier; the result and the whole risk state after it |
| PipelineRecords.RaiseLeaves | src/execution/engine.py:268-285 | a raise sleeps while an attempt is left and else leaves submit, the delay's end begins the next attempt, cancellation ends it; none writes a record |
| PipelineRecords.CancelLeaves | src/execution/engine.py:251-256 | an answered cancellation writes the one record and changes nothing else |
| PipelineRecords.SyncLeaves | src/execution/positions.py:179-201 | a sync writes one record, with the figures, exactly when the loss limit is breached |
| PipelineRecords.RepliesRecordedThroughout | src/execution/engine.py:204-209 | every reachable state: as many orders recorded as placed as there were PENDING replies, as many confirmed as other acceptances; every result tells how its submit ended |
| PipelineRecords.BeginsIff | src/execution/engine.py:88-101 | a submit begins a placement if and only if it passes the limiter, an attempt is allowed and the ten conditions hold |
| PipelineRecords.OrderBeginsIff | src/execution/router.py:72-112 | in every reachable state an order enters flight if and only if the ten conditions hold, an attempt is allowed and, when routed, fewer than each cap were accepted in the last second, the last minute and altogether |
| PipelineRecords.SegmentsCounted | src/execution/router.py:100-101 | over every run the count of each segment is the number of its orders routed past the limiter |
| PipelineRouter.StepAccounted | src/execution/router.py:95-104 | every step keeps the accounting of reservations |
| PipelineRouter.StepWindowed | src/execution/router.py:74-98 | every step keeps the pruned lists faithful and the accepted instants spaced |
| PipelineRouter.RouterThroughout | src/execution/router.py:95-104 | every reachable state: daily count = segment counts = results + raised + in flight, within its cap; results are those of the router's finished submits in order |
| PipelineRouter.NoWindowOverflows | src/execution/router.py:74-98 | every run and interleaving: any half-open second or minute holds at most its cap of accepted orders |
| PipelineRouter.ClosedWindowsBounded | src/execution/router.py:130-148 | every run: a closed second holds at most the least of twice its cap and the other two caps; a closed minute at most the lesser of its cap and 60 seconds' worth, plus one second's worth, and never more than the daily cap |
| PipelineRouter.ClosedWindowsFill | src/execution/router.py:130-148 | for all caps some run reaches each of these two bounds |
| PipelineRouter.ClosedWindowsOverflowIff | src/execution/router.py:130-148 | some run puts more than its cap into a closed second if and only if 1 <= perSecond < perMinute, perDay; into a closed minute if and only if 1 <= perMinute < 61 perSecond, perDay |
| PipelineRouter.HistoryIff | src/execution/router.py:74-98 | a list of instants is the history of accepted orders of some run if and only if it is in order, spaced in both windows and within the daily cap |
| PipelineRouter.DecisionIsExact | src/execution/router.py:130-148 | in every reachable state the next decision is that of counting the full history |
| PipelineRouter.DailyCapIsExact | src/execution/router.py:136 | orders recorded by the risk manager plus in flight never exceed the router's daily cap when all come through it |
| PipelineMoves.AdmittedFits | src/risk/manager.py:172-192 | an order that begins fits every limit by itself (value, count, margin, position, exposure), and beginning it changes only flights and placements besides the trail |
| PipelineLimits.LimitsUnderConcurrency | src/risk/manager.py:186-273 | for daily count, rate, position (orders of one symbol at one price) and exposure, over any run that does not overwrite the record, from any state, for any quantities: what is on record plus in flight exceeds its base by at most one order per order in flight beyond the first |
| PipelineLimits.CountUnderConcurrency | src/risk/manager.py:186-187 | the same for the daily count in whole numbers, syncs and fills included |
| PipelineLimits.RateUnderConcurrency | src/risk/manager.py:199-222 | every run and interleaving: any window narrower than a second (minute) holds at most the cap of recorded orders plus one for each order in flight at once beyond the first |
| PipelineLimits.HalfOpenRates | src/risk/manager.py:199-222 | the same for both kinds of half-open second and minute |
| PipelineLimits.SequentialLimitsExact | src/risk/manager.py:186-273 | with at most one order in flight each of the four limits is exact |
| PipelineLimits.InFlightWithinThroughout | src/risk/manager.py:172-174 | in every reachable state each order in flight can add at most one order value (or one order) to what is measured |
| PipelineMoves.ExposureIsPlacedValue | src/risk/manager.py:129-137 | over any run without a sync the exposure grows by exactly the value of the orders placed |
| PipelineLimits.BeginningAdds | src/execution/engine.py:92-101 | an order that begins adds exactly what it could add, if positive, to what is on record plus in flight, whatever else is in flight |
| PipelineOverlap.WithinLimitIff | src/risk/manager.py:186-273 | for each of the four checks, over any run that does not overwrite the record: recorded plus in flight stays within the limit after every event if and only if it starts there and each order that begins fits beside it |
| PipelineOverlap.OverLimitIff | src/execution/engine.py:92-106 | in any state, for each of the four: some continuation without a further order records more than the limit if and only if recorded plus in flight is over it |
| PipelineOverlap.LoadLands | src/execution/engine.py:198-206 | from any state the orders in flight can end so that exactly recorded plus in flight is on record, within the window for a rate |
| PipelineOverlap.OverlapRecords | src/execution/engine.py:92-106 | wherever an order passes the gate, n overlapping submits of it all pass, and record n times what it adds on top of everything recorded or in flight |
| PipelineCeilings.CeilingReached | src/risk/manager.py:259-273 | under limits that let an order of the greatest value pass: for every n a run from fresh components with n orders in flight at once records exactly the limit plus n - 1 order values: the bound under concurrency is met |
| PipelineCeilings.OtherLimitsPassed | src/risk/manager.py:186-258 | under the same limits: n overlapping orders make the daily count, the count of a window and the position n, whatever their limits |
| PipelineCeilings.CountCeilingReached | src/risk/manager.py:186-187 | under the same limits, for every n: a run from fresh components with n orders in flight at once makes the daily count exactly its limit plus n - 1 |
| PipelineCeilings.RateCeilingReached | src/risk/manager.py:199-222 | under the same limits, for every n: with the tighter rate cap one place short, n orders at once put exactly the cap plus n - 1 into the window |
| PipelineHalt.OnlyOperatorReleases | src/risk/kill_switch.py:67-133 | from a halted state an event permits orders again if and only if it is a deactivation or an activation at THROTTLE; INACTIVE is reached only by deactivation |
| PipelineHalt.LogTellsThroughout | src/risk/kill_switch.py:67-127 | in every reachable state the last log event tells the level, and of an active switch also when, how, why and at what order count it was activated, automatic activations included |
| PipelineHalt.SyncSetsLevel | src/execution/positions.py:179-233 | the exact level after every sync: PAUSE above 0.95 and the threshold, else KILL on a loss beyond the limit, else THROTTLE from INACTIVE above the threshold, else the level before |
| PipelineHalt.CommandTakesEffect | src/risk/kill_switch.py:67-127 | a command sets level, time, path, reason and count and logs one event; activating INACTIVE and releasing an inactive switch do nothing |
| PipelineHalt.BreachHalts | src/execution/positions.py:179-233 | a sync that finds the loss limit breached ends halted, whatever the margins |
| PipelineHalt.AttemptsThroughout | src/execution/engine.py:268-285 | every reachable state: a submit that passed makes 1 to 1 + max_retries attempts, a refused one none, and all placements are accounted for |
| PipelineHalt.HaltHolds | src/risk/kill_switch.py:8-9 | once halted, a run without a releasing command stays halted and begins no more placements than the attempts open to orders in flight |
| PipelineHalt.HaltIsCompleteIff | src/execution/engine.py:268-285 | in any halted state a placement can still begin without a releasing command if and only if an order in flight has an attempt left |
| PipelineHalt.HaltIsCompleteWithoutRetries | src/risk/kill_switch.py:8-9 | with retries off no placement begins after a halt until the operator releases it |
| PipelineHalt.PlacementsAreChecked | src/execution/engine.py:92-101 | a step that begins a placement passes all ten checks at that moment or is the retry of an order that slept |
| PipelineHalt.NoPlacementEscapesWithoutRetries | src/execution/engine.py:10 | over every run from fresh components without retries, every placement passes all ten checks when it begins |
| PipelineHalt.NoPlacementEscapesIff | src/execution/engine.py:10 | under limits that let an order of the greatest value pass: over all runs no placement escapes a check if and only if retries are off |
| PipelineHalt.RetryIgnoresHalt | src/execution/engine.py:271-284 | with retries an order that passes the gate is placed again during a halt, from any state |
| CandleMerge.Merge | src/data/cache.py:67-78 | index map, overwrite or append, sort and truncate compute the sorted override cut to its newest |
| CandleMerge.PlaceAllMeaning | src/data/cache.py:69-76 | merging keeps, ascending, exactly the last candle of every timestamp |
| CandleMerge.TruncateBeforePlaceAll | src/data/cache.py:77-78 | a candle dropped by truncation never re-enters the newest |
| CandleMerge.PutsComposeIff | src/data/cache.py:58-81 | two puts equal one put of both batches for all inputs if and only if the candle limit is not negative |
| CandleMerge.PutRunMeaning | src/data/cache.py:58-81 | any run of puts is override by timestamp, later wins, then keep the newest |
| CandleMerge.StoresAtMostIff | src/data/cache.py:26 | at most the candle limit is stored, for every list and batch, if and only if the limit is positive |
| CandleMerge.ZeroLimitKeepsAll | src/data/cache.py:77-78 | under a limit of zero any run of puts keeps every timestamp ever put |
| CandleMerge.NewestMeaning | src/data/cache.py:77-78 | truncation keeps a tail of exactly the limit's length, for negative limits that of the code's slice |
| Caches.OhlcvCache.EvictExpired | src/data/cache.py:112-120 | collecting and popping leaves exactly the unexpired instruments in order |
| Caches.OhlcvCache.EnforceMaxInstruments | src/data/cache.py:122-126 | the oldest beyond the limit go; a negative limit ends in the dictionary's key error |
| Caches.OhlcvCache.Get | src/data/cache.py:42-56 | the candles from `since` on of an unexpired instrument, which is touched; nothing for any other |
| Caches.SinceMeaning | src/data/cache.py:52-56 | a candle is in the answer if and only if it is cached and not older than `since`, in ascending order |
| Caches.OhlcvCache.Put | src/data/cache.py:58-81 | eviction, merge, touch and capacity in one new state |
| Caches.OhlcvCache.Latest | src/data/cache.py:83-91 | the last candle of an unexpired instrument |
| Caches.OhlcvCache.Clear | src/data/cache.py:93-100 | one instrument, or all, removed |
| CacheEviction.EvictIsLive | src/data/cache.py:112-126 | whenever it evicts, the cache holds exactly the history's instruments touched within the time to live and among the most recent |
| CacheEviction.UnexpiredMeaning | src/data/cache.py:112-120 | what stays is exactly what was touched no longer ago than the time to live |
| CacheEviction.LiveIff | src/data/cache.py:112-126 | an instrument is live if and only if its last touch is within the time to live and fewer than the limit were touched after it |
| CacheEviction.AccessTouches | src/data/cache.py:47-81 | a hit and a put make the instrument the most recent, touched at the second clock reading, with its merged candles; a miss moves nothing |
| CacheEviction.InsertCovers | src/data/cache.py:65-81 | caching an instrument, known to the history or not, keeps the cache the newest part of it |
| CacheEviction.CacheRefinesHistory | src/data/cache.py:42-126 | every run of get, put, clear of one instrument and clear of all on the evicting cache refines a history that merges and truncates nothing and forgets only when cleared: then the named instrument and what was beyond capacity; limits are not negative |
| CacheEviction.CachedAreTheLive | src/data/cache.py:112-126 | after eviction at any time: the live instruments in order, each showing its whole log overridden and cut |
| Indicators.Sma | src/ta/indicators.py:20-35 | the loop computes the series; a non-positive period is a value error |
| Indicators.Ema | src/ta/indicators.py:38-59 | the loop computes the exponential series, early return included |
| Indicators.Rsi | src/ta/indicators.py:62-95 | the loop computes the RSI series, early return included |
| Indicators.Atr | src/ta/indicators.py:98-126 | the loop computes the ATR series, both early returns included |
| Indicators.Vwap | src/ta/indicators.py:129-146 | the loop computes the cumulative ratio, none while volume sums to zero |
| Indicators.EmaFromValues | src/ta/indicators.py:219-240 | for every period: the signal list, or the division or index error that its arithmetic meets |
| MacdSignals.SignalIsEma | src/ta/indicators.py:227-239 | for a positive period: a value at exactly the offset indices, equal to the EMA of the values |
| Indicators.MacdOf | src/ta/indicators.py:177-213 | for every signal period: present exactly from max(fast, slow) + signal - 2 on with the EMA of the line as signal; below 1 the error raised, or a value at every place of the line |
| IndicatorLaws.SmaMeaning | src/ta/indicators.py:20-35 | from index period - 1 on, the period times the value is the sum of the last values |
| IndicatorLaws.EmaMeaning | src/ta/indicators.py:45-58 | the first value is the mean of the first period, each later one moves 2 / (period + 1) of the way to the new close |
| IndicatorLaws.RsiMeaning | src/ta/indicators.py:62-95 | RSI is the average gain's share of average gain and loss out of 100, and 100 when no loss is left |
| IndicatorLaws.AvgMoveMeaning | src/ta/indicators.py:70-94 | average gain and loss are the Wilder averages of the gains of the closes and of the negated closes |
| IndicatorLaws.TrueRangeMeaning | src/ta/indicators.py:107-114 | the true range is the least upper bound of its three distances |
| IndicatorLaws.AtrMeaning | src/ta/indicators.py:98-126 | from index period on the ATR is the Wilder average of the true ranges |
| IndicatorLaws.VwapMeaning | src/ta/indicators.py:129-146 | none exactly while the volumes sum to zero; else three times value times volume is the volume-weighted sum of high, low and close |
| IndicatorLaws.MacdMeaning | src/ta/indicators.py:177-213 | present exactly from max(fast, slow) + signal - 2 on: the difference of the two EMA values, the EMA of those differences, and their difference |
| Indicators.LineIsLine | src/ta/indicators.py:189-201 | the nested warm-ups align: the line's first valid index is max(fast, slow) - 1 |
| IndicatorSpecs.SmoothingBetween | src/ta/indicators.py:49-58 | EMA and Wilder averages stay between the least and greatest values seen |
| IndicatorSpecs.SmoothingIsFaded | src/ta/indicators.py:49-58 | closed form of both averages: the seed mean and every later value, weighted 2 / (period + 1) or 1 / period, fading geometrically with age |
| IndicatorSpecs.SmoothingAffine | src/ta/indicators.py:49-58 | both averages commute with every affine change of scale |
| IndicatorSeries.RsiWithin | src/ta/indicators.py:80-94 | RSI lies in 0 to 100 |
| IndicatorSeries.RsiUnitFree | src/ta/indicators.py:75-94 | RSI is unchanged by shifting and positively scaling all closes |
| IndicatorSeries.RsiMirror | src/ta/indicators.py:75-94 | negating all closes gives 100 - RSI if and only if not both averages are zero |
| IndicatorSeries.AveragesDoNotLookAhead | src/ta/indicators.py:20-59 | SMA and EMA of a prefix are the prefix of SMA and EMA |
| IndicatorSeries.RsiDoesNotLookAhead | src/ta/indicators.py:62-95 | RSI of a prefix is the prefix of RSI |
| IndicatorSeries.AtrDoesNotLookAhead | src/ta/indicators.py:98-126 | ATR of a prefix is the prefix of ATR |
| IndicatorSeries.VwapDoesNotLookAhead | src/ta/indicators.py:129-146 | VWAP of a prefix is the prefix of VWAP |
| MacdSignals.MacdLookAheadIff | src/ta/indicators.py:177-240 | MACD of every prefix is the prefix of MACD if and only if the signal period is at least -1 |
| MacdSignals.SignalLooksAhead | src/ta/indicators.py:219-240 | with a signal period of -2 a later close changes an earlier signal, at a concrete list of closes |
| MacdSignals.MacdAffine | src/ta/indicators.py:189-213 | for every signal period MACD ignores a shift of all closes and scales with them, with the same errors |
| IndicatorSeries.VwapBetween | src/ta/indicators.py:137-145 | with volumes not negative VWAP lies between the bounds of the typical prices |
| IndicatorSeries.AtrBetween | src/ta/indicators.py:110-125 | ATR lies between the bounds of the true ranges seen and is never negative |
| Tickers.TickerManager.Subscribe | src/data/ticker.py:100-145 | table and results after the loop, the running count always the table size; all refused without a connection |
| Tickers.TickerManager.Unsubscribe | src/data/ticker.py:147-158 | exactly the named tokens leave the table; nothing without a connection, or when the connection's own call raises |
| Tickers.SubscribeMeaning | src/data/ticker.py:116-145 | for every token list with repeats and every failure pattern: reported true exactly when in the table, nothing leaves, only requested tokens enter, never past the cap |
| Tickers.SubscribedIff | src/data/ticker.py:116-145 | a token is subscribed afterwards if and only if it was before or at one of its turns the connection took it with room left |
| Tickers.RefusedOnlyForCause | src/data/ticker.py:121-139 | a token stays out only if the table is full or the connection refused it every time |

## Left out

- Risk.RiskManager.Check: trading hours (T2) enter as a truth value and one clock reading serves the whole check, because the wall-clock computation says nothing about the order path.
- Engine.ExecutionEngine.Submit: result messages, `trigger_price`, `tag` and the conversion to a broker order are not modelled; they are text handling.
- PipelineLimits.LimitsUnderConcurrency: for the position limit it speaks of orders of one symbol at one price, because the check values the whole position at the price of the order that comes.
- CacheEviction.CacheRefinesHistory: needs limits that are not negative; the history itself forgets what is beyond capacity when a single instrument is cleared, because the place that is freed belongs to no dropped instrument.
- Positions.RealizedIsCash: a sync replaces the positions by the broker's, so the identity is about runs of fills.
- Router.OrderRouter.Route: upper-casing of segments covers ASCII letters; the order queue and `day_start` are declared but unused in the repository, so the daily cap is for the router's lifetime.
- AuditTrails.AuditTrail.Record: the payload is the serialized data (texts, integers, lists of names, microseconds), from which the JSON text follows; the text itself is not modelled, and equal decimals are written alike.
- Aliasing of returned objects: `get_snapshot` and `record` hand out mutable objects in the repository; here snapshots and entries are values.
- A clock that runs backwards, Decimal's 28-digit rounding, floating-point timestamps, logging and settings loading.
- The Zerodha adapter, the data provider, WebSocket callbacks, option greeks, volatility and strength classifiers, Bollinger bands, compliance reports, scripts and deployment files.
- The throttle factor of the kill switch, which nothing in the order path reads, and cancelling open orders at level KILL, which the code announces but does not do.
