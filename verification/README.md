# BooMGateway: verified models of admission control and stream conversion

This project models the stateful cores of the BooMGateway LLM gateway in Dafny and proves
what every run of them keeps. Each core is modelled in the form its source has: objects that
are changed in place are classes whose methods are proved against pure specifications, and
the interleavings of concurrent callers are step systems over those specifications.

`dafny verify dfyconfig.toml` checks everything.

| files | core |
|---|---|
| `FlowSlots`, `FlowDispatch`, `FlowOrder`, `FlowSystem`, `FlowTheorems`, `FlowProgress`, `FlowCalls`, `FlowExamples`, `FlowController`, `FlowIndex`, `FlowIndexRuns`, `FlowQueries`, `FlowUpkeep` | per-deployment flow control: two queues, a greedy dispatcher, guards, timeouts, cancellations and the by-key index |
| `RateWindows`, `RateRuns`, `RateLaws`, `RateIntervals`, `RateEffects`, `RateRows`, `RateExamples`, `RateRestart`, `SlidingWindowLimiter` | the three-phase window limiter: peek, commit, settle |
| `Ledger`, `LedgerSteps`, `LedgerSums`, `LedgerCoherence`, `LedgerLaws`, `LedgerForecast`, `LedgerReturns`, `LedgerRuns`, `LedgerTeams`, `LedgerTurns`, `LedgerExamples` | the six permanent totals per key and team and their write-back to the database |
| `StreamEvents`, `TranscoderSteps`, `Transcoder`, `StreamRuns`, `StreamWellFormed`, `StreamFinish`, `StreamText`, `StreamBlocks`, `StreamMessage`, `StreamTools`, `StreamAgreement`, `ResponseConverter` | the OpenAI-to-Anthropic stream transcoder and the non-streaming converter |
| `Plans`, `PlanShorthand`, `PlanLimits` | schedules, effective limits and the per-minute shorthands |
| `ConcurrencySlots` | the add-then-undo acquire protocol and its garbage collection |
| `AgentStats`, `AgentLaws`, `ChartBuckets` | the 60-minute ring buffer and chart bucketing |

How to read the models:

- **Time** is a parameter (seconds, minutes of the day, or minutes since the epoch), one
  reading per call. **Concurrency** is a sequence of atomic steps: a critical section of the
  source is one step, and everything between two of them is a place where other callers run.
- **Flow control**: a client goes through the phases of `acquire`; a receiver's death is its
  own step, so a grant can fail between the timer and the lookup that follows it. The order
  and position theorems assume `max_context = 0` throughout, as an unfitting request is skipped.
  The by-key index is changed in its own sections: a removal trims the list and later, if that left
  it empty, removes the key; a query reads slot by slot, trims and may remove the key. After a
  cancellation the source holds the slot lock until the key is removed; the model lets others run.
- **Limiter**: a run interleaves any number of requests. `c` is how many requests of an owner
  may be between two phases at once; `c = 1` is the serial case. A save takes a snapshot and
  writes it row by row; a restart loads the rows last written and forgets requests under way.
- **Ledger**: every call is a list of single updates: one counter, one dirty mark, or one
  statement to the database. Other calls, and the sync with its row reads and writes, run
  between any two of them, and a sync may be cut off at any point. A settlement charges the key
  first and its team afterwards. What a total is *headed for* is the value that a reset or
  overwrite still to come will give it, or else what it holds, plus the additions still to come,
  less what the team will give back for members being cleared; once no call is under way it is
  what the total holds. A team reset stands for both `reset_team_all` and
  `clear_team_cumulative_db`, and a clear without refund for `clear_key_all`, as far as totals
  go. The database is a map.
- **Transcoder**: a chunk unfolds into elementary actions. Well-formedness is told from the
  history alone (`StreamEvents.Legal`), independently of the transcoder; tool blocks may be
  open beside other blocks, as the source keeps them open until the finish. Whether a string is
  valid JSON is a parameter, and JSON values are a type parameter.

What the proofs found, code and comments side by side:

- A timed-out request whose entry a failed send has just removed is taken for dispatched and gets
  a guard that owns nothing, so live guards can exceed `max_inflight`
  (`FlowExamples.UnbackedGuardExceedsLimit`); dispatched entries never do.
- A request that registers between the emptying of its key's list and the removal of the key is
  lost from the index: it is queued or running, and the status query by its key does not show it
  (`FlowExamples.LateRemovalHidesRequest`; `FlowIndexRuns` has the exact condition).
- "Every queued request will eventually fit" holds only while the budget is not lowered
  (`FlowExamples.LoweredBudgetStrands`, `FlowTheorems.IdleProgress`).
- A clear's deletion that reaches the database after a later settlement was synced loses that
  settlement's row for good; so does a sync that is cut off after it took the dirty set; a full
  clear forgets unsaved totals (`LedgerCoherence`, with the exact condition for each).
- Total cost is torn from its parts by a reset in the middle of a settlement, by a settlement
  between two zeroings of one reset, and by a recomputation in the middle of a sync (`LedgerRuns`,
  `LedgerExamples`).
- A team parts from its members when a member is cleared without naming the team, when a reset or
  recomputation starts while a settlement is between key and team, when a member settles while a
  team reset is past the team and not yet at the member, and when it settles between a
  recomputation's query and its overwrites (`LedgerTeams`, `LedgerExamples`).
- A restart forgets what was counted since the last save, so each restart may admit a window's
  worth again (`RateExamples.IntervalBoundIsReached`).
- A tool index announced twice, or a choice after the finishing one, leaves a block unstopped
  (`StreamWellFormed`). The chunk that follows a finish loses its text (`StreamText`). A tool
  without arguments is `{}` in the stream and `null` otherwise, and one whose object is sent twice
  has it in the stream and `null` otherwise (`StreamAgreement`).
- A snapshot of the statistics whose clock was read before a record of the next minute shows that
  newest minute as its oldest (`AgentStats`).
- Equal endpoints are a full day for validation and never active at run time (`Plans`). Outside
  the schedule a plan limited by shorthand alone has its minute counter cleared when some slot
  has an explicit 60-second window (`Plans.StaleSparesBaseIff`).

## Model

| member | source | states |
|---|---|---|
| `FlowController.FlowControlSlot.InflightStats` | boom-gateway/boom-flowcontrol/src/lib.rs:223-238 | counts the dispatched entries of both queues and sums their contexts |
| `FlowController.FlowControlSlot.TryDispatchFitting` | boom-gateway/boom-flowcontrol/src/lib.rs:260-302 | the in-place scan ends exactly as the specified scan: the same queue, the same grant or discard events |
| `FlowController.FlowControlSlot.DispatchTurn` | boom-gateway/boom-flowcontrol/src/lib.rs:241-256 | one turn of the loop: nothing when the slot is full, the VIP queue before the normal one |
| `FlowController.FlowControlSlot.DispatchWaiting` | boom-gateway/boom-flowcontrol/src/lib.rs:241-256 | the loop ends and leaves the specified dispatch; the measure is the number of waiting entries |
| `FlowController.FlowControlSlot.PositionFor` | boom-gateway/boom-flowcontrol/src/lib.rs:309-335 | walks the queues and returns how many waiting entries stand before the request |
| `FlowController.WalkIsPosition` | boom-gateway/boom-flowcontrol/src/lib.rs:309-335 | the walk counts exactly the waiting entries with a smaller id, that is, the position the run theorems speak of |
| `FlowController.FlowControlSlot.Enqueue` | boom-gateway/boom-flowcontrol/src/lib.rs:414-447 | rejects a request larger than the whole budget and changes nothing; otherwise queues it under a new id and dispatches |
| `FlowController.FlowControlSlot.TimeoutCheck` | boom-gateway/boom-flowcontrol/src/lib.rs:489-513 | a running or a vanished entry counts as dispatched; a waiting one is removed without a dispatch |
| `FlowController.FlowControlSlot.Remove` | boom-gateway/boom-flowcontrol/src/lib.rs:787-799 | takes the entry out and dispatches into the freed place; an unknown id changes nothing |
| `FlowController.FlowControlSlot.SetLimits` | boom-gateway/boom-flowcontrol/src/lib.rs:380-384 | replaces both limits and leaves the queues alone |
| `FlowDispatch.DispatchEffect` | boom-gateway/boom-flowcontrol/src/lib.rs:241-302 | every entry is touched only through an event: granted once if it was waiting with a live receiver, discarded if its receiver was gone, untouched otherwise; ids stay unique and sorted |
| `FlowDispatch.DispatchLimits` | boom-gateway/boom-flowcontrol/src/lib.rs:241-302 | a dispatch that grants anything ends within both limits, from any slot whatever; one that grants nothing keeps the load; it always ends with the slot full or no waiter fitting |
| `FlowTheorems.CapacityInEveryRun` | boom-gateway/boom-flowcontrol/src/lib.rs:223-302 | with fixed limits, after every interleaving of enqueue, registration, grant, expiry, cancellation, timeout, cleanup, release and periodic dispatch: dispatched entries within max_inflight, contexts within max_context, nothing grantable left, and a waiter only beside something in flight |
| `FlowTheorems.StepKeepsSteady` | boom-gateway/boom-flowcontrol/src/lib.rs:414-537 | each of those steps keeps that state, including the timeout branch, which removes without dispatching |
| `FlowTheorems.SteadyNeverStalls` | boom-gateway/boom-flowcontrol/src/lib.rs:418-424 | a waiter in such a slot is held back by something that is in flight (this is what the size check at enqueue is for) |
| `FlowTheorems.GrantsEndWithinLimits` | boom-gateway/boom-flowcontrol/src/lib.rs:357-385 | limits may change at any moment: a step that grants anything ends within the limits then in force |
| `FlowTheorems.IdleProgress` | boom-gateway/boom-flowcontrol/src/lib.rs:241-302 | an idle slot grants something if and only if a waiter with a live receiver fits the budget now in force |
| `FlowExamples.LoweredBudgetStrands` | boom-gateway/boom-flowcontrol/src/lib.rs:237-239 | after max_context is lowered a queued request can be stranded in an idle slot, contrary to the comment that every queued request will eventually fit |
| `FlowProgress.DispatchFills` | boom-gateway/boom-flowcontrol/src/lib.rs:241-302 | from any slot, also one whose limits were just changed, a dispatch leaves it full or with no waiter that fits, and grants something if and only if it was not full and a waiter with a live receiver fitted; loads and limits are spelled out |
| `FlowProgress.PeriodicFills` | boom-gateway/boom-flowcontrol/src/lib.rs:554-558 | the periodic dispatch does so, whatever the limits were before |
| `FlowProgress.EnqueueFills` | boom-gateway/boom-flowcontrol/src/lib.rs:414-447 | so does an accepted request, queued last in its queue; one larger than the whole budget is turned away and leaves no trace |
| `FlowProgress.ExitFills` | boom-gateway/boom-flowcontrol/src/lib.rs:787-799 | so does a release, or the clean-up of a cancelled request, that finds its entry |
| `FlowCalls.OthersGrantNothing` | boom-gateway/boom-flowcontrol/src/lib.rs:241-558 | no other step grants anything, a timeout and a change of limits included, and but for a timeout none changes the queues |
| `FlowProgress.LimitsInForce` | boom-gateway/boom-flowcontrol/src/lib.rs:357-385 | in every run the limits in force are the ones last given |
| `FlowProgress.PeriodicFillsInEveryRun` | boom-gateway/boom-flowcontrol/src/lib.rs:554-558 | in every run, with the limits changed at any time, a periodic dispatch leaves nothing waiting that would fit the limits last given |
| `FlowProgress.GrantIsFirst` | boom-gateway/boom-flowcontrol/src/lib.rs:241-302 | whatever the budget, every grant goes, in the slot state reached by the events before it, to the first request of its queue that waits, fits and has a live receiver, and to a normal one only if no VIP request does |
| `FlowProgress.RequestsAreAsAsked` | boom-gateway/boom-flowcontrol/src/lib.rs:414-447 | in every run ids are given in the order of acceptance, and every queued request has the context, the queue and the key it was asked for with |
| `FlowCalls.TimeoutAnswers` | boom-gateway/boom-flowcontrol/src/lib.rs:489-513 | a timeout that finds its request waiting takes it out and answers so, one that does not answers with a guard; no other request moves |
| `FlowCalls.CancelledNeverGuarded` | boom-gateway/boom-flowcontrol/src/lib.rs:185-212 | a call cancelled while it awaits its grant never holds a guard in any continuation, even if the grant was on its way, and once it has cleaned up its entry is gone |
| `FlowOrder.NormalGrantMeansNoVipFits` | boom-gateway/boom-flowcontrol/src/lib.rs:241-256 | every grant to a normal request is made in a state where the slot is not full and no waiting VIP with a live receiver fits |
| `FlowOrder.DispatchConserves` | boom-gateway/boom-flowcontrol/src/lib.rs:260-335 | whatever the budget, a dispatch lowers a position by exactly the events ahead of it |
| `FlowTheorems.GrantsInArrivalOrder` | boom-gateway/boom-flowcontrol/src/lib.rs:241-302 | without a context budget, grants in each queue have strictly increasing ids over the whole run |
| `FlowTheorems.PositionIsConserved` | boom-gateway/boom-flowcontrol/src/lib.rs:309-335 | over any run without a budget: position + VIP arrivals that pass = remaining position + those ahead who were granted or left |
| `FlowTheorems.GrantsBeforeAreThePosition` | boom-gateway/boom-flowcontrol/src/lib.rs:309-335 | when a waiting request is finally granted, grants before it + losses ahead of it = its first position + VIP arrivals that passed it, so the position is exact when nobody ahead leaves and no VIP arrives, and an upper bound when no VIP arrives |
| `FlowSystem.StepKeepsInv` | boom-gateway/boom-flowcontrol/src/lib.rs:396-537 | every step keeps the agreement between where a client stands, its queue entry and its delivered grant |
| `FlowTheorems.GuardOwnership` | boom-gateway/boom-flowcontrol/src/lib.rs:450-537 | in every run, limit changes included: ids unique across queues, dispatched iff the sender was taken (the discard arm for a missing sender is dead), an awaiting client always has its entry, and a guard owns a dispatched entry if and only if no failed send removed that entry |
| `FlowTheorems.BackedGuardsFit` | boom-gateway/boom-flowcontrol/src/lib.rs:787-799 | guards that own an entry never outnumber max_inflight |
| `FlowExamples.UnbackedGuardExceedsLimit` | boom-gateway/boom-flowcontrol/src/lib.rs:489-513 | a run with max_inflight 1 in which two guards are live: the timeout lookup that finds no entry hands out a guard without one |
| `FlowTheorems.UnbackedGuardIff` | boom-gateway/boom-flowcontrol/src/lib.rs:489-513 | step by step: a guard without an entry comes from the timeout lookup that finds no entry, from no other step, and goes with its release |
| `FlowIndexRuns.QueryIsExact` | boom-gateway/boom-flowcontrol/src/lib.rs:656-715 | in every run over any number of deployments without slot removal, what a status query by key reads at one moment is exactly what a full scan by owner finds, less the requests whose key was removed from the index after they registered: each once, with its true queue, its position or the load beside it; a request whose acquire has not yet written its index entry is not shown |
| `FlowIndexRuns.IndexedIff` | boom-gateway/boom-flowcontrol/src/lib.rs:88-105 | in every run, with removals and registrations interleaving section by section: a queued request is in the index if and only if no removal of its key ran since it registered |
| `FlowIndexRuns.StepCompleteIff` | boom-gateway/boom-flowcontrol/src/lib.rs:94-104 | from an index that holds every queued request of a key, a step leaves it so if and only if it is not a removal of the key that finds one still queued |
| `FlowIndexRuns.CompleteThroughoutIff` | boom-gateway/boom-flowcontrol/src/lib.rs:94-104 | the index holds every queued request of a key throughout a run if and only if no removal of the key does that |
| `FlowIndexRuns.QueryIsComplete` | boom-gateway/boom-flowcontrol/src/lib.rs:656-715 | if no request of the key registers while a removal of the key is pending, a query finds every queued request of the key |
| `FlowIndexRuns.LateRemovalHides` | boom-gateway/boom-flowcontrol/src/lib.rs:451-459 | from any reachable state, a request that registers while a removal of its key is pending is hidden by it although it stays queued |
| `FlowExamples.LateRemovalHidesRequest` | boom-gateway/boom-flowcontrol/src/lib.rs:94-104 | a run in which that happens: the last request of a key is released, the next one registers between the emptying of the list and the removal of the key, and a query by the key shows nothing while it is running |
| `FlowQueries.QueryTellsTheTruth` | boom-gateway/boom-flowcontrol/src/lib.rs:656-697 | a query that looks at one slot after another, whatever runs in between: no request twice in its answer, and every entry was true of a queued request of the key when the query looked at it |
| `FlowQueries.QueryMissesNothing` | boom-gateway/boom-flowcontrol/src/lib.rs:656-697 | and every request that had registered before the query began, was not hidden by a removal of the key and is still queued when the query has looked everywhere, is in the answer |
| `FlowIndexRuns.WorldRunKeepsInv` | boom-gateway/boom-flowcontrol/src/lib.rs:88-105 | in every run the index holds under a key only requests of that key, each once, and everything a removal or a query is about to drop is gone from the queues for good |
| `FlowIndex.KeyIndex.Add` | boom-gateway/boom-flowcontrol/src/lib.rs:450-459 | appends the reference under the key, if there is one |
| `FlowIndex.KeyIndex.Trim` | boom-gateway/boom-flowcontrol/src/lib.rs:94-99 | the first section of a removal: the references to one request go, and the list was emptied by it or not |
| `FlowIndex.KeyIndex.RemoveKey` | boom-gateway/boom-flowcontrol/src/lib.rs:100-103 | the second section: the key goes, with whatever is under it by then |
| `FlowIndex.ReadAll` | boom-gateway/boom-flowcontrol/src/lib.rs:663-697 | from slots that do not change meanwhile, the answer of a query is the status of every queued reference, and the rest are stale |
| `FlowIndex.KeyIndex.CleanUp` | boom-gateway/boom-flowcontrol/src/lib.rs:699-707 | the cleaning section of a query drops exactly the stale references and tells whether the list is empty |
| `FlowUpkeep.QueryCleansUp` | boom-gateway/boom-flowcontrol/src/lib.rs:699-707 | whatever runs meanwhile, once a query has cleaned up, no request that was gone when it began is in the list of its key |
| `FlowUpkeep.LastOneOutRemoves` | boom-gateway/boom-flowcontrol/src/lib.rs:88-105 | a removal goes on to remove the key if and only if its own reference was the last in the list |
| `FlowUpkeep.NoEmptyKeys` | boom-gateway/boom-flowcontrol/src/lib.rs:88-105 | in every run, when no removal is under way, every key in the index has a registered request |
| `SlidingWindowLimiter.Limiter.PeekOnly` | boom-gateway/boom-limiter/src/sliding_window.rs:208-329 | the first limit entry that rejects decides, counts before tokens before costs; nothing is counted |
| `RateWindows.PeekAllows` | boom-gateway/boom-limiter/src/sliding_window.rs:208-329 | allowed if and only if no dimension of any limit rejects what its live counter shows |
| `RateLaws.CounterIsExact` | boom-gateway/boom-limiter/src/sliding_window.rs:334-499 | in every run, however requests, expiries, sweeps and saves interleave: a counter holds exactly the weights counted, the tokens settled and the costs settled for its owner since its window started, read off the steps, unless that window was cleared or the process restarted since |
| `RateLaws.PeekReadsTheLog` | boom-gateway/boom-limiter/src/sliding_window.rs:208-329 | so a request is allowed if and only if, in every limit entry, what was counted in the live window leaves room for its weight and the tokens and costs settled there are below their limits |
| `RateEffects.RejectionNamesTheFirst` | boom-gateway/boom-limiter/src/sliding_window.rs:208-329 | a rejection names the first entry that is over, and of its dimensions the first of requests, tokens and costs that is, with its limit; a request is allowed only when no entry is over |
| `SlidingWindowLimiter.Limiter.CommitCounts` | boom-gateway/boom-limiter/src/sliding_window.rs:334-381 | bumps each distinct window length with a counts limit exactly once |
| `SlidingWindowLimiter.Limiter.BumpCountsAt` | boom-gateway/boom-limiter/src/sliding_window.rs:383-405 | starts a missing window, restarts an expired one, adds to a live one |
| `SlidingWindowLimiter.Limiter.SettleUsage` | boom-gateway/boom-limiter/src/sliding_window.rs:417-464 | adds usage once per distinct window length, marks those windows dirty, and adds input and output tokens, the total cost and its three parts each to its own permanent total; all six are spelled out |
| `SlidingWindowLimiter.Limiter.SettleWindows` | boom-gateway/boom-limiter/src/sliding_window.rs:417-447 | every distinct window length takes the usage exactly once; zero usage touches nothing |
| `SlidingWindowLimiter.Limiter.BumpUsageAt` | boom-gateway/boom-limiter/src/sliding_window.rs:466-499 | as for counts, on the tokens and costs dimensions |
| `SlidingWindowLimiter.Limiter.CleanupExpired` | boom-gateway/boom-limiter/src/sliding_window.rs:792-800 | removes exactly the expired counters and returns how many |
| `SlidingWindowLimiter.Limiter.Snapshot` | boom-gateway/boom-limiter/src/sliding_window.rs:741-758 | the rows that have not expired |
| `SlidingWindowLimiter.Limiter.RestoreAll` | boom-gateway/boom-limiter/src/sliding_window.rs:762-784 | brings back the saved rows that are still live |
| `SlidingWindowLimiter.Limiter.ClearForKey` | boom-gateway/boom-limiter/src/sliding_window.rs:705-719 | removes the counters of one key and no other, and returns how many there were |
| `SlidingWindowLimiter.Limiter.ClearWindowsOf` | boom-gateway/boom-limiter/src/sliding_window.rs:691-701 | removes the counters of one owner with the listed window lengths and no other, and marks exactly the removed ones dirty |
| `RateRuns.CountsOvershoot` | boom-gateway/boom-limiter/src/sliding_window.rs:208-405 | if at most c requests are ever between an allowed peek and their commit, every live counter stays within limit + (c − 1)·maxWeight, across expiries, sweeps, clears of a key or of single windows, saves row by row and restarts that load whatever was last saved; exact for c = 1 |
| `RateRuns.UsageOvershoot` | boom-gateway/boom-limiter/src/sliding_window.rs:208-499 | with at most c requests of an owner between peek and settlement, each settling at most maxUsage, its live token or cost counter is zero or within limit − 1 + c·maxUsage |
| `RateIntervals.AnyIntervalBound` | boom-gateway/boom-limiter/src/sliding_window.rs:216-499 | the weight counted in any interval one window long, read off the steps, is at most (restarts in it + 2)·(limit + (c − 1)·maxWeight); 2·limit for serial runs without a restart, even where settlements or sweeps start windows; only a clear of that very window resets the count |
| `RateIntervals.AnyIntervalUsage` | boom-gateway/boom-limiter/src/sliding_window.rs:216-499 | the same for tokens and for costs settled in such an interval, with limit − 1 + c·maxUsage per window |
| `RateEffects.ClearForgets` | boom-gateway/boom-limiter/src/sliding_window.rs:691-719 | until the next restart, the counter of a cleared window holds no more than what is charged after the clear |
| `RateEffects.SweepLeavesTheLive` | boom-gateway/boom-limiter/src/sliding_window.rs:792-800 | a sweep leaves exactly the counters whose window is still running, unchanged |
| `RateEffects.RequestsBalance` | boom-gateway/boom-limiter/src/sliding_window.rs:208-464 | in every run the requests of an owner under way are those allowed, less those settled and those given up, since the last restart |
| `RateRows.SavedCountersComeBack` | boom-gateway/boom-limiter/src/sliding_window.rs:741-784 | in every run, a counter running when a snapshot is taken, whose row is then written and left alone, comes back at a restart as the snapshot took it if its window is still running, and not otherwise, whatever was charged, cleared or swept in between |
| `RateRows.DeletedStaysAway` | boom-gateway/boom-limiter/src/sliding_window.rs:1081-1092 | a window whose rows were deleted and not written again does not come back |
| `RateExamples.IntervalBoundIsReached` | boom-gateway/boom-limiter/src/sliding_window.rs:845-880 | for every n a run with n restarts, requests one at a time and a limit of one a minute that admits n + 2 in one minute, so the bound is reached: a settlement starts a window with room in it, and each restart forgets what was not saved |
| `RateRestart.SweepIsInvisible` | boom-gateway/boom-limiter/src/sliding_window.rs:792-800 | after a sweep every later sequence of peeks, commits and settlements gets the same answers (allowed, or the rejecting window and dimension) |
| `RateRestart.RestartIsInvisible` | boom-gateway/boom-limiter/src/sliding_window.rs:741-784 | the same for a limiter rebuilt by snapshot and restore |
| `RateRestart.JudgeAfterSweepIff` | boom-gateway/boom-limiter/src/sliding_window.rs:216-310 | per limit entry, a sweep changes the verdict, retry delay included, if and only if an expired counter lingers there and the request can never fit |
| `RateRestart.PeekAfterSweepIff` | boom-gateway/boom-limiter/src/sliding_window.rs:208-329 | a sweep changes the full decision if and only if the entry that decides it is such a one; never when no limit is out of the request's reach |
| `RateRestart.RetryDelayDiffers` | boom-gateway/boom-limiter/src/sliding_window.rs:222-250 | a request heavier than its limit, for which it does differ |
| `RateRestart.RetryDelayIsExact` | boom-gateway/boom-limiter/src/sliding_window.rs:222-250 | a request within the limits is let through by the entry that rejected it once the advised delay has passed with nothing charged meanwhile, and not before |
| `SlidingWindowLimiter.Limiter.AddCumulative` | boom-gateway/boom-limiter/src/sliding_window.rs:512-522 | adds to one total and marks it dirty; adding zero leaves no trace |
| `SlidingWindowLimiter.Limiter.ResetCumulativeLocal` | boom-gateway/boom-limiter/src/sliding_window.rs:535-560 | zeroes the six totals of a scope, marks them dirty and returns what they held |
| `LedgerSums.SettlementAdds` | boom-gateway/boom-limiter/src/sliding_window.rs:449-463 | one settlement adds input, output, the sum of the three costs, and each of the three to the total of its own, told from the fields |
| `LedgerSums.SettlementSpares` | boom-gateway/boom-limiter/src/sliding_window.rs:449-463 | and leaves the totals of every other key and team alone |
| `LedgerSums.TotalsAreWhatWasSettled` | boom-gateway/boom-limiter/src/sliding_window.rs:417-464 | in every run without a reset, overwrite or refund of a key or team, once no call is under way each of its six totals is the sum of that field over all it settled |
| `LedgerSums.RefundTakes` | boom-gateway/boom-limiter/src/sliding_window.rs:1027-1078 | a clear with a refund takes what the key held off the same total of the team, and nothing if that is not positive |
| `LedgerSums.EachRowCounts` | boom-gateway/boom-limiter/src/sliding_window.rs:1165-1201 | in the sum of a recomputation each member counts with its own row of that total, or with nothing if it is missing or negative |
| `LedgerExamples.AddsAlone` | boom-gateway/boom-limiter/src/sliding_window.rs:449-463 | the six updates and marks of a settlement, undisturbed, are the settlement the limiter object makes |
| `LedgerExamples.ResetsAlone` | boom-gateway/boom-limiter/src/sliding_window.rs:535-560 | the same for the six updates and marks of a reset |
| `LedgerCoherence.PerformCoherentIff` | boom-gateway/boom-limiter/src/sliding_window.rs:512-560 | one update of one call, anything else in between: a coherent cell stays coherent if and only if the update does not lose it, that is, unless a deletion finds a total that is not zero, or an upsert one that is not its value, and nothing will write the row again (or a full clear drops a needed row or mark) |
| `LedgerCoherence.WriteBackCoherenceIff` | boom-gateway/boom-limiter/src/sliding_window.rs:898-1231 | in runs where calls interleave update by update and the sync row by row, cut-offs included, memory and database stay coherent throughout (a total that differs from its row is dirty, in the sync, or will be marked) if and only if no step loses a cell; a cut-off loses exactly the totals that differ from their rows and are neither dirty nor about to be marked |
| `LedgerCoherence.SafeUnlessSynced` | boom-gateway/boom-limiter/src/sliding_window.rs:964-1115 | a clear, team reset or recomputation loses nothing unless a sync wrote that very row or was cut off after the call began and before its statement reached the database |
| `LedgerCoherence.TeamDeletionLosesNothing` | boom-gateway/boom-limiter/src/sliding_window.rs:991-1014 | the deletion that opens a team reset is always healed by the marks that follow it |
| `LedgerSteps.WholeIsSteps` | boom-gateway/boom-limiter/src/sliding_window.rs:964-1231 | a call that runs undisturbed is one of the runs: its start followed by its own single updates |
| `LedgerCoherence.WholeKeepsCoherence` | boom-gateway/boom-limiter/src/sliding_window.rs:964-1231 | a clear, reset, recomputation or settlement that runs undisturbed never loses a cell |
| `LedgerCoherence.ClearAllCoherentIff` | boom-gateway/boom-limiter/src/sliding_window.rs:722-736 | a full clear leaves a cell coherent if and only if its row is zero, still in the running sync or about to be marked, and the row the sync has already read, if it is that one, is zero or about to be marked |
| `LedgerCoherence.SyncCompletes` | boom-gateway/boom-limiter/src/sliding_window.rs:940-944 | a sync that writes the rows it took, in any order and with nothing between, leaves nothing waiting, and memory and database agree |
| `LedgerExamples.LateDeletionLosesSettlement` | boom-gateway/boom-limiter/src/sliding_window.rs:972-979 | a run in which a settlement and a sync slip between a clear's reset and its deletion: memory keeps the amount, the row is gone, nothing will write it |
| `LedgerExamples.CutOffSyncLosesSettlement` | boom-gateway/boom-main/src/main.rs:389-393 | calls one at a time, then a sync that is cut off after it took the dirty set: memory holds the amount, there is no row, and nothing will write it |
| `LedgerLaws.Conservation` | boom-gateway/boom-limiter/src/sliding_window.rs:417-560 | in every run and for every total: held + still to be added + taken out by resets and overwrites = everything ever charged |
| `LedgerRuns.KeyStepIff` | boom-gateway/boom-limiter/src/sliding_window.rs:449-560 | from a key headed for total = parts, a step of any call or of the sync leaves it so if and only if it does not start a reset of the key while one of its settlements is half done, nor add a cost to a counter that a reset under way has still to zero |
| `LedgerRuns.KeySplitsThroughoutIff` | boom-gateway/boom-limiter/src/sliding_window.rs:417-560 | however calls interleave update by update, resets included, a key is headed for total = parts throughout a run if and only if every step meets that condition |
| `LedgerRuns.KeyTotalIsSumOfParts` | boom-gateway/boom-limiter/src/sliding_window.rs:449-463 | after any run of such steps, once no call is under way, the key holds a total cost that is the sum of its parts |
| `LedgerRuns.KeySplitsWhenTakingTurns` | boom-gateway/boom-limiter/src/sliding_window.rs:535-560 | it is enough that settlements and resets of that key never start while the other kind is under way, whatever other keys, teams, recomputations and the sync do between any two updates |
| `LedgerRuns.KeySplitsInSerialRuns` | boom-gateway/boom-limiter/src/sliding_window.rs:417-560 | so with calls one at a time (the sync still row by row) every key splits in every run, unconditionally |
| `LedgerRuns.TeamStepIff` | boom-gateway/boom-limiter/src/sliding_window.rs:417-1231 | the exact step condition for a team: additions come after every reset or overwrite still to come; a refund returns what the team was to give back; sets still to come agree; a reset starts while no settlement is half done, a recomputation reads rows that split, a clear of a member gives back a total with its parts |
| `LedgerRuns.TeamSplitsThroughoutIff` | boom-gateway/boom-limiter/src/sliding_window.rs:417-1231 | a team is headed for total = parts throughout a run if and only if every step meets that condition |
| `LedgerRuns.TeamTotalIsSumOfParts` | boom-gateway/boom-limiter/src/sliding_window.rs:449-463 | after any run of such steps, once no call is under way, the team's total cost is the sum of its parts |
| `LedgerExamples.ResetInsideSettlementTearsCost` | boom-gateway/boom-limiter/src/sliding_window.rs:449-463 | a reset between the total-cost update and the parts of one settlement tears the key's costs for good |
| `LedgerExamples.SettlementInsideResetTearsCost` | boom-gateway/boom-limiter/src/sliding_window.rs:535-560 | so does a settlement that starts and ends between two zeroings of one reset, with no settlement ever half done when a call starts |
| `LedgerExamples.RecomputeDuringSyncTearsCost` | boom-gateway/boom-limiter/src/sliding_window.rs:1152-1231 | a run with calls one at a time in which a recomputation between two rows of a sync leaves the team with a total without its parts |
| `LedgerTeams.StepBalanceIff` | boom-gateway/boom-limiter/src/sliding_window.rs:964-1231 | from a team headed for the sum of its members, the exact condition under which a single update, the start of a call or a step of the sync leaves it so; resets, refunds and overwrites still to come are part of the forecast |
| `LedgerTeams.TeamIsSumThroughoutIff` | boom-gateway/boom-limiter/src/sliding_window.rs:964-1231 | a team is headed for the sum of its members throughout a run, however everything interleaves, if and only if every step meets that condition |
| `LedgerTeams.TeamIsSumOfMembers` | boom-gateway/boom-limiter/src/sliding_window.rs:417-464 | after any run of such steps, once no call is under way, each total of the team is the sum of its members' |
| `LedgerTeams.ClearKeyBalancesIff` | boom-gateway/boom-limiter/src/sliding_window.rs:1027-1078 | starting a clear of a member with its team given keeps the balance if and only if the member holds nothing, no other call is to take its total, or one that wipes it or has this team refund it is |
| `LedgerTeams.WipeKeyBalancesIff` | boom-gateway/boom-limiter/src/sliding_window.rs:964-988 | starting a clear without the team keeps the balance if and only if the key is no member, holds nothing, or is to be taken anyway without a refund by the team |
| `LedgerTeams.ResetTeamBalancesIff` | boom-gateway/boom-limiter/src/sliding_window.rs:991-1022 | from any state, starting a reset of a team with its members leaves team and members headed for the same if and only if no settlement is between its key and its team at that moment |
| `LedgerTeams.RecomputeBalancesIff` | boom-gateway/boom-limiter/src/sliding_window.rs:1152-1231 | starting a recomputation from up-to-date rows of members nobody is resetting does so, whatever the team held, if and only if nothing is owed to it, which would be charged twice |
| `LedgerTeams.AdditionBalancesIff` | boom-gateway/boom-limiter/src/sliding_window.rs:449-463 | and from then on an addition keeps it if and only if no reset or overwrite of that team total is still to come, and the member's total is to be zeroed exactly when the team is to give it back |
| `LedgerExamples.SettlementDuringTeamResetParts` | boom-gateway/boom-limiter/src/sliding_window.rs:991-1022 | a settlement of a member after the team's zeroings and before the cascade reaches the member: nothing was owed, and at rest the team holds a token its only member does not |
| `LedgerExamples.SettlementDuringRecomputeParts` | boom-gateway/boom-limiter/src/sliding_window.rs:1165-1222 | a settlement between a recomputation's query and its overwrites: the rows were up to date, and at rest the member holds a token the team does not |
| `LedgerExamples.RecomputeIsStored` | boom-gateway/boom-limiter/src/sliding_window.rs:1204-1222 | an undisturbed recomputation leaves the sums of the rows it read in memory and in the database at once |
| `LedgerTurns.TeamSplitsInTurnIff` | boom-gateway/boom-limiter/src/sliding_window.rs:964-1231 | if resets, clears and recomputations of a team and its members start only while nothing else of theirs is under way, and their settlements only while none of those is, the team splits throughout if and only if every recomputation of it reads member rows that split |
| `LedgerTurns.TeamIsSumInTurnIff` | boom-gateway/boom-limiter/src/sliding_window.rs:964-1231 | in such runs the team is the sum of its members throughout if and only if members are cleared with their team given or empty, and every recomputation reads rows that add up to what the members hold |
| `LedgerTurns.TeamHoldsInTurn` | boom-gateway/boom-limiter/src/sliding_window.rs:964-1231 | in such runs, at rest, the two conditions give total = parts and team = sum of members |
| `LedgerTurns.TeamHoldsInPatientRuns` | boom-gateway/boom-limiter/src/sliding_window.rs:898-1231 | both hold at rest when recomputations wait until no member row is to be written, clears of members name the team and no step loses a row |
| `LedgerTurns.SerialTeamsIff` | boom-gateway/boom-limiter/src/sliding_window.rs:964-1231 | both equivalences for every run with calls one at a time in which the team refunds only its members |
| `Transcoder.AnthropicStreamTranscoder.CloseOpenBlock` | boom-gateway/boom-core/src/anthropic.rs:252-270 | closes the open thinking or text block, if any, and moves to the next index |
| `Transcoder.AnthropicStreamTranscoder.Transcode` | boom-gateway/boom-core/src/anthropic.rs:273-512 | one chunk: usage first, then either the held finish or the actions of every choice in order |
| `Transcoder.AnthropicStreamTranscoder.FinishChoice` | boom-gateway/boom-core/src/anthropic.rs:465-508 | closes the open block, flushes the tool blocks in index order, clears the map and holds the stop reason back |
| `Transcoder.AnthropicStreamTranscoder.FlushTools` | boom-gateway/boom-core/src/anthropic.rs:470-499 | buffered arguments and a stop per mapped index in increasing order; their buffers are gone |
| `Transcoder.AnthropicStreamTranscoder.BufferArguments` | boom-gateway/boom-core/src/anthropic.rs:435-461 | appends the fragment, or replaces a non-empty buffer by a fragment that is a complete object |
| `Transcoder.AnthropicStreamTranscoder.Drain` | boom-gateway/boom-core/src/anthropic.rs:516-522 | sends a held finish once, and nothing otherwise |
| `Transcoder.TranscodeStream` | boom-gateway/boom-core/src/anthropic.rs:252-545 | a whole stream through one transcoder is the specified event stream |
| `StreamRuns.FinishedStream` | boom-gateway/boom-core/src/anthropic.rs:252-545 | what a client reads up to the first message_stop is the body of the chunks through the first finish, then message_delta with the latest usage, then message_stop |
| `StreamFinish.AnnouncedReason` | boom-gateway/boom-core/src/anthropic.rs:465-545 | for streams that finish, any number of choices: the message_delta before the first message_stop says end_turn, tool_use or max_tokens for stop, tool_calls or length, and the finish itself for any other string |
| `StreamFinish.FinalUsage` | boom-gateway/boom-core/src/anthropic.rs:273-290 | its numbers are the prompt tokens last reported, and the completion tokens last reported plus one for each text piece since, at least one |
| `StreamFinish.OpeningUsage` | boom-gateway/boom-core/src/anthropic.rs:297-325 | message_start carries the numbers reported by then |
| `StreamWellFormed.WellFormedIff` | boom-gateway/boom-core/src/anthropic.rs:252-545 | for every chunk sequence, any number of choices: the events up to the first message_stop are well formed if and only if nothing finishes or the chunks through the first finish leave no block open and announce no live tool index twice; complete if and only if both |
| `StreamWellFormed.SingleChoiceWellFormed` | boom-gateway/boom-core/src/anthropic.rs:252-545 | with one choice per chunk: one leading message_start, indices 0, 1, 2, … without gaps, deltas only at open blocks of their kind, every block stopped once before message_delta — if and only if no tool index gets two ids before the finish |
| `StreamWellFormed.ReannouncedToolIsNeverStopped` | boom-gateway/boom-core/src/anthropic.rs:409-434 | an id sent twice for one index leaves the first block open for ever |
| `StreamWellFormed.SecondChoiceIsNeverStopped` | boom-gateway/boom-core/src/anthropic.rs:297-508 | a second choice after the finishing one opens a block nothing closes |
| `StreamText.SpeechIsPreserved` | boom-gateway/boom-core/src/anthropic.rs:292-403 | for any order and any number of choices, text and reasoning reach the client whole and in order, except those of a chunk that releases a held finish |
| `StreamText.TextAfterFinishIsLost` | boom-gateway/boom-core/src/anthropic.rs:292-295 | any text in the chunk right after a finishing one is lost |
| `StreamBlocks.StreamedBlocks` | boom-gateway/boom-core/src/anthropic.rs:297-509 | reassembling the events gives the outline of the deltas: runs of text and reasoning, and each tool with its joined arguments |
| `StreamMessage.LastObjectWins` | boom-gateway/boom-core/src/anthropic.rs:438-458 | a complete object sent last is the whole argument, whatever fragments came before |
| `StreamTools.ToolIs` | boom-gateway/boom-core/src/anthropic.rs:409-434 | every delta with an id announces one tool, in order, under the name of its function if it gives one and no name otherwise |
| `StreamTools.FragmentIs` | boom-gateway/boom-core/src/anthropic.rs:435-437 | every delta with arguments for a tool is one fragment of it, in order |
| `StreamTools.ArgumentsFromLastObject` | boom-gateway/boom-core/src/anthropic.rs:435-461 | a tool ends up with its fragments joined from the last one on that starts and ends with a brace and is valid JSON by itself, or with all of them when none after the first is |
| `StreamAgreement.StreamingAgreesIff` | boom-gateway/boom-core/src/anthropic.rs:114-509 | for single-choice streams that finish and announce no tool index twice: the reassembled blocks are those of the non-streaming converter on the accumulated message if and only if they come as at most one run of reasoning, one of text, then tools, and every tool has arguments that read the same whether a complete object sent late replaces the fragments before it or is joined to them |
| `StreamAgreement.LateObjectDisagrees` | boom-gateway/boom-core/src/anthropic.rs:435-461 | a tool whose last fragment is a complete object, while its fragments joined are no JSON, has that object in the stream and null otherwise |
| `StreamAgreement.OrderedStreamsAgree` | boom-gateway/boom-core/src/anthropic.rs:114-509 | streams ordered reasoning, text, tools agree with the non-streaming converter if and only if the tools' arguments read alike; always when all have arguments and no later fragment is a complete object |
| `StreamAgreement.StopReasonsAgree` | boom-gateway/boom-core/src/anthropic.rs:826-836 | the stop reason announced is the one the non-streaming converter reports for the same finish |
| `ResponseConverter.OpenaiResponseToAnthropic` | boom-gateway/boom-core/src/anthropic.rs:114-197 | the blocks of the first choice, or one empty text block if there are none; end_turn, tool_use or max_tokens for stop, tool_calls or length, any other finish as it is; usage as reported |
| `ResponseConverter.BlocksAre` | boom-gateway/boom-core/src/anthropic.rs:114-168 | a message becomes its reasoning, if it has any, then its content, then its tool calls |
| `ResponseConverter.PartAt` | boom-gateway/boom-core/src/anthropic.rs:135-151 | every reasoning part and every text part that is not empty is one block, in order, and no other part is |
| `ResponseConverter.CallAt` | boom-gateway/boom-core/src/anthropic.rs:157-168 | every call is one block, in order, with its id and name and its arguments read as JSON, or null |
| `Plans.ValidateScheduleOverlap` | boom-gateway/boom-limiter/src/concurrency.rs:191-218 | succeeds if and only if no two parsed slots overlap; a failure names the first conflicting pair |
| `Plans.AtMostOneActive` | boom-gateway/boom-limiter/src/concurrency.rs:191-271 | in an accepted schedule at most one slot is active at every minute of the day, whatever its hours |
| `Plans.SlotOrderIsIrrelevant` | boom-gateway/boom-limiter/src/concurrency.rs:95-131 | so concurrency and windows in force do not depend on the order of the slots |
| `PlanLimits.SlotLimitsInForce` | boom-gateway/boom-limiter/src/concurrency.rs:95-119 | while a slot of an accepted schedule is active: its concurrency or else the plan's; the limits, entry by entry, of its windows or else, when it has none, the plan's; and for the minute, where those do not limit requests or tokens, its rpm/tpm or else the plan's; nothing else |
| `PlanLimits.PlanLimitsInForce` | boom-gateway/boom-limiter/src/concurrency.rs:120-131 | while no slot is active all of these are the plan's |
| `PlanLimits.SlotStale` | boom-gateway/boom-limiter/src/concurrency.rs:107-118 | while a slot is active the counters to be cleared are those of the plan's windows whose length no limit in force has |
| `PlanLimits.PlanStale` | boom-gateway/boom-limiter/src/concurrency.rs:120-128 | while none is, those of any slot's windows whose length no window of the plan has |
| `PlanLimits.ActiveClockwise` | boom-gateway/boom-limiter/src/concurrency.rs:252-271 | hours run clockwise from their start up to their end, across midnight or not |
| `Plans.ConflictHasWitness` | boom-gateway/boom-limiter/src/concurrency.rs:223-271 | a reported conflict has a minute with both slots active if and only if neither has equal endpoints nor starts past the day without crossing midnight |
| `Plans.EqualEndpointsNeverActive` | boom-gateway/boom-limiter/src/concurrency.rs:223-271 | equal endpoints conflict with exactly the slots that reach into the day, across midnight or not, yet such a slot is never active |
| `Plans.MergeShorthand` | boom-gateway/boom-limiter/src/concurrency.rs:140-177 | the in-place merge is the specified one |
| `PlanShorthand.MergeIsIdempotent` | boom-gateway/boom-limiter/src/concurrency.rs:140-177 | merging twice is merging once |
| `PlanShorthand.MergeKeepsExplicit` | boom-gateway/boom-limiter/src/concurrency.rs:140-177 | every configured limit survives in place; only a missing 60-second dimension may be filled, with the shorthand |
| `PlanShorthand.SameInEveryRun` | boom-gateway/boom-limiter/src/sliding_window.rs:334-464 | two ways of listing the same limits admit the same requests and leave the same counters in every run |
| `PlanShorthand.ShorthandMeansExplicit` | boom-gateway/boom-limiter/src/concurrency.rs:75-177 | an rpm/tpm plan and its explicit 60-second form admit the same requests in every run, with one count per commit |
| `Plans.StaleSparesActive` | boom-gateway/boom-limiter/src/concurrency.rs:95-119 | with a slot active, no window in force is among those to be cleared |
| `Plans.StaleSparesBaseIff` | boom-gateway/boom-limiter/src/concurrency.rs:120-131 | with no slot active the same holds if and only if no slot has a 60-second window that the base gets only from its shorthand |
| `Plans.ShorthandCounterIsCleared` | boom-gateway/boom-limiter/src/concurrency.rs:120-131 | a plan for which it fails |
| `ConcurrencySlots.SlotsNeverExceedLimit` | boom-gateway/boom-limiter/src/concurrency.rs:432-448 | interleaving the steps of acquires, guard drops and sweeps, for all 32-bit limits: live guards per id within the largest limit passed, and the mapped counter = live guards + the acquire awaiting its decision or undo, except that it wraps to zero while such an acquire sits on 2^32 − 1 guards |
| `ConcurrencySlots.GuardsStayMapped` | boom-gateway/boom-limiter/src/concurrency.rs:669-677 | the sweep never forgets a counter that a live guard will decrement |
| `ConcurrencySlots.AcquireIsExact` | boom-gateway/boom-limiter/src/concurrency.rs:432-448 | an acquire run alone from any reachable state is refused if and only if the live guards have reached its limit |
| `ConcurrencySlots.RefusalLeavesNoTrace` | boom-gateway/boom-limiter/src/concurrency.rs:442-444 | once a refused acquire has undone its addition, its counter shows the live guards alone and the id is free |
| `ConcurrencySlots.FreedSlotIsTaken` | boom-gateway/boom-limiter/src/concurrency.rs:432-448 | an acquire run alone after a guard of its id is dropped gets the freed slot, even at the limit |
| `ConcurrencySlots.SweepForgetsIdle` | boom-gateway/boom-limiter/src/concurrency.rs:669-677 | a sweep forgets an id at rest if and only if it has no live guard |
| `AgentStats.AgentStatsTracker.AdvanceTo` | boom-gateway/boom-ctxaware/src/stats.rs:204-220 | clears exactly the buckets of the minutes that leave the hour |
| `AgentStats.AgentStatsTracker.Record` | boom-gateway/boom-ctxaware/src/stats.rs:94-104 | advances, then adds one request to the current minute |
| `AgentStats.AgentStatsTracker.RecordTokens` | boom-gateway/boom-ctxaware/src/stats.rs:111-123 | advances, then adds the tokens to the current minute |
| `AgentStats.AgentStatsTracker.Snapshot` | boom-gateway/boom-ctxaware/src/stats.rs:126-194 | sixty buckets, oldest first, and their total |
| `AgentStats.SnapshotShows` | boom-gateway/boom-ctxaware/src/stats.rs:126-160 | for any reading of the clock, before or after the latest one: each bucket shows the exact sum of the full log for its minute if that is in the hour up to the latest minute known, otherwise for the minute of that hour that has taken its bucket over |
| `AgentStats.SnapshotIsExactIff` | boom-gateway/boom-ctxaware/src/stats.rs:126-160 | every bucket shows the minute it is labelled with if and only if each minute no longer in the latest hour holds what the minute in its place does |
| `AgentStats.SnapshotIsExact` | boom-gateway/boom-ctxaware/src/stats.rs:94-221 | so with a clock that is not behind, each of the sixty buckets is the exact sum of the full log for its minute, and the summary is the exact sum of the hour |
| `AgentStats.LateSnapshotMisplaces` | boom-gateway/boom-ctxaware/src/stats.rs:126-128 | a request recorded in the next minute while a snapshot is on its way is shown as sixty minutes old |
| `AgentStats.SummaryIsExact` | boom-gateway/boom-ctxaware/src/stats.rs:126-194 | whatever the reading of the clock, the summary is the exact sum of the hour up to the latest minute known |
| `AgentLaws.SummaryTells` | boom-gateway/boom-ctxaware/src/stats.rs:94-194 | number by number: requests, input tokens and output tokens, each in total and for Anthropic clients, are those of the records and the accountings of that hour |
| `AgentLaws.BucketsTell` | boom-gateway/boom-ctxaware/src/stats.rs:94-194 | with a clock that is not behind, so are those of each bucket for its own minute, the newest one being the current minute |
| `AgentStats.SummaryShareFits` | boom-gateway/boom-ctxaware/src/stats.rs:126-194 | the Anthropic share never exceeds the total |
| `AgentStats.HitIsExactIff` | boom-gateway/boom-ctxaware/src/stats.rs:94-220 | recording keeps the ring exact if and only if the clock is less than an hour behind its latest reading, or nothing is recorded |
| `ChartBuckets.ExpectedBuckets` | boom-gateway/boom-dashboard/src/stats_timeseries.rs:147-155 | evenly spaced starts from `from`, all before `to`, and covering it |
| `ChartBuckets.EachInstantHasItsBucket` | boom-gateway/boom-dashboard/src/stats_timeseries.rs:147-164 | every instant of the window maps to exactly one expected bucket, the one that contains it |
| `ChartBuckets.BarsConserveRows` | boom-gateway/boom-dashboard/src/stats_timeseries.rs:147-164 | the bars of a chart add up to its rows |
| `ChartBuckets.PickBucketSecs` | boom-gateway/boom-dashboard/src/stats_timeseries.rs:204-226 | the smallest nice size that is large enough, threshold by threshold |
| `ChartBuckets.BuildCustomWindow` | boom-gateway/boom-dashboard/src/stats_timeseries.rs:184-199 | at most 90 days, ending where asked, with a large enough size from the list |
| `ChartBuckets.AtMostFortyNineBars` | boom-gateway/boom-dashboard/src/stats_timeseries.rs:184-226 | a custom window has between 1 and 49 buckets |
| `ChartBuckets.FortyNinthBarHappens` | boom-gateway/boom-dashboard/src/stats_timeseries.rs:184-226 | the bound of 49 is reached |
| `ChartBuckets.FallbackUnreachable` | boom-gateway/boom-dashboard/src/stats_timeseries.rs:204-226 | within 90 days some listed size is large enough, so the fallback is never taken |

## Left out

- Integer widths: counters, totals and token counts are mathematical integers, so u64/i64
  overflow and saturation are not modelled, except where they matter: the 32-bit truncation of
  upstream usage (`TranscoderSteps.Metered`) and the wrap-around of concurrency counters
  (`ConcurrencySlots`).
- Decimal costs are whole micros; floating-point ratios are not modelled.
- Cache keys are structured values instead of rendered strings; `LIKE` deletes are exact deletion
  by owner.
- SQL, the upsert macro, and statements that fail: the database is a map and every statement
  succeeds in one step. A sync that times out is cut off before or after a statement, not within.
- Reloading the permanent totals at a restart, which sets memory to the rows last written; the
  window part of a restart is modelled.
- Slot removal and re-creation, which restarts request ids at 0: the theorems about identity and
  the index are for runs without it.
- A receiver's death during a dispatch is placed before or after it: the dispatcher looks at each
  entry's receiver once.
- Wait and processing times, queue statistics for dashboards, `reset_at` and `remaining` fields.
- Parsing of schedule hours from text: a slot has the pair its text parses to, or none.
- The request direction of the Anthropic conversion, message ids, the JSON text of events.
- `is_anthropic_path` (a prefix test) is a boolean parameter of the statistics.
- Chart instants are whole seconds; presets and the parsing of ranges are not modelled.
- StreamAgreement.OrderedStreamsAgree: the empty-message placeholder is not part of it, because a
  stream sends no block where the converter adds an empty text block.
- The concurrency counters are values in a step system, since their point is the interleaving; the
  update of one shared atomic in place is the step itself.
- Plan assignment, default plans, quota admission in the routes, and the persistence of plans.
- Routing policies, the KV-cache index, provider clients, authentication, configuration,
  dashboards, hooks and the debug store: easy members or foreign I/O.
