# Verified model of the matrix backend

The backend runs social-media accounts on phones. A goal is pursued in rounds; each round opens
agent runs, which write, review and publish notes; tasks on one shared table are executed by a
scheduler or pulled by phones; limiters guard the devices, the accounts and the LLM; and a
knowledge base answers retrieval. This project models the parts whose correctness spans many calls
and proves what they promise, for every input, every run and every interleaving of the actors.

| file | models |
|---|---|
| `TaskTable.dfy`, `TaskProtocol.dfy`, `Scheduler.dfy` | the `tasks` table and its transactions, all its writers as one transition system, and the scheduler's loop as a path of that system |
| `Kpi.dfy`, `RoundKpi.dfy`, `Orchestrator.dfy` | the KPI of a round, how it is gathered from runs, notes and metrics, and the phase machine of a goal |
| `TokenBuckets.dfy`, `CircuitBreakers.dfy`, `DeviceBreakers.dfy`, `DailyCaps.dfy`, `LlmLimiter.dfy` | the limiters, with properties of whole histories |
| `Recency.dfy`, `EmbeddingCache.dfy`, `Chunking.dfy`, `KbStore.dfy` | the LRU embedding cache, the splitter and the chunk index |
| `RankFusion.dfy` | reciprocal rank fusion |
| `AgentGraph.dfy` | the routing of an agent run |
| `SurrogateRepair.dfy` | the repair of split surrogate pairs, against sections 2.1 and 2.2 of RFC 2781 |
| `Prelude.dfy` | a few shared definitions |

Objects whose methods update fields are classes with those fields; ghost fields hold the history
that a contract speaks about. A database transaction is one atomic step. Times and rates are reals.
`dafny verify dfyconfig.toml` checks the whole project.

## Where the code and its promises differ

* A token timeout in `LLMRateLimiter.acquire` releases the semaphore twice (lines 78 and 87 of
  `backend/matrix/agent/llm_rate_limiter.py`), so permits + waiting + held grows by one for good.
  `PermitLaw` is the exact law. The intended law holds in every run exactly if there is at most one
  permit and, with one, the timeout is long enough for a call that has its bucket to itself
  (`IntendedLawIff`): with two permits other calls can take each token that a sleeping call waits
  for. Otherwise the limit is exceeded by any number, on a single model (`LimitRaisedByTimeouts`).
* A breaker needs `threshold` failures per opening exactly if the cool-off exceeds the window, is
  zero, or the threshold is one (`AlertsBoundedIff`). The defaults, 600 and 1800 seconds, meet this.
* A caller that has a token bucket to itself can time out exactly if its timeout is not `LongEnough`
  (`LoneTimeoutIff`). If the clock stands still between two readings, covering one refill gap is enough.
* A chunk found by both retrievers outranks every chunk found by one, in all lists of m and n
  distinct hits, exactly if (k + m)(k + n) < (k + 1)(2k + m + n), where k is `rrf_k`
  (`BothAlwaysAboveIff`). Lists of up to k + 1 hits are of this kind (`ShortLists`).
* Swapping the retrievers keeps the ranking exactly if the first hits on any two chunks of equal
  score stand in the same order either way (`SwapKeepsIdsIff`), which they do if a chunk's hits carry
  one index (`OneIndexKeepsIds`) and may not do otherwise (`SwapCanReorder`). The only caller of
  `_rrf_fuse` reads both hits on a chunk off one row of `kb_chunks`, so hits that disagree do not reach
  it (lines 254-345 of `backend/matrix/kb/retrieval.py`).
* The attempts of a task can pass the larger of 1 and `max_attempts` exactly if it was rescheduled for
  a cool-off (`PassesAllowanceIff`), and then by the number of those reschedules (`AttemptsReached`).
* A daily cap can be exceeded exactly if two callers can overlap and neither cap they meet is closed
  (`CapExceededIff`); m of them bring a counter to cap + m - 1 (`CapExceededByOverlap`).
* The KPI of a round is to be that of its notes, but a run that wrote none falls back to the note its
  payload names, and then to the newest note of the whole table around its time, and a second note of a
  run is never looked at. So a goal can end achieved by a note that no run of it wrote
  (`AchievedByStranger`). The notes counted are those of the round exactly if no fallback leaves the
  round and every note that is not the first of its run is made up for by one (`CountsRoundIff`), and
  then the goal is decided by its own notes alone (`AchievedByOwnNotes`).
* A round is to open one run for each device, but the allocator joins each active account with its
  device. Whatever the order of the draw, no device gets two runs exactly if there is at most one slot
  or no device has two such accounts (`OneRunPerDeviceIff`).
* `load_pending` counts due publish rows that the dispatch then passes over, so a batch of unclaimed
  ones keeps every later task from being executed, in one turn (`ExecutedWithinBatch`,
  `PublishRowsStarve`) and for as long as they stay unclaimed (`StarvedWhileUnclaimed`).
* A zero `notes_per_round` counts as the default of three, a negative one opens no run at all
  (`FanoutBounded`); the table's check constraint keeps both out of the database (lines 549-552 of
  `backend/matrix/db/models.py`). `advance_goal` never reads its argument `kpi_likes_target`; the model uses the
  goal's own target, as the code does.
* COLLECT is a node of the agent graph that no edge enters (`CollectUnreachable`).

## Model

| member | source | states |
|---|---|---|
| `TaskTable.TaskStore.Insert` | backend/matrix/scheduler/db.py:98-127 | a new task is pending with no attempts, and no other row changes |
| `TaskTable.TaskStore.LoadPending` | backend/matrix/scheduler/db.py:149-162 | the batch is the earliest due rows in order, as many as the limit allows, none skipped |
| `TaskTable.TaskStore.ReclaimStaleRunning` | backend/matrix/scheduler/db.py:164-217 | the two bulk updates act as one pass over the stale rows and return exactly how many there were |
| `TaskTable.SweepInTwo` | backend/matrix/scheduler/db.py:181-217 | failing the exhausted rows first does not change which rows are requeued; the two counts add up to the stale rows |
| `TaskTable.SweepLeavesNoStale` | backend/matrix/scheduler/db.py:164-217 | after a sweep no running row is stale and every other row is untouched |
| `TaskTable.TaskStore.MarkRunning` | backend/matrix/scheduler/db.py:231-236 | the row runs with the loaded count plus one, all other rows unchanged |
| `TaskTable.TaskStore.MarkSuccess` | backend/matrix/scheduler/db.py:238-243 | the row ends in success at the given time, all other rows unchanged |
| `TaskTable.TaskStore.MarkFailed` | backend/matrix/scheduler/db.py:245-253 | the row ends failed with the given code, all other rows unchanged |
| `TaskTable.TaskStore.MarkPending` | backend/matrix/scheduler/db.py:255-261 | the row is pending again at the new time, attempts kept, all other rows unchanged |
| `TaskTable.TaskStore.ClaimNext` | backend/matrix/device/api.py:253-303 | an earliest due publish row of the device that nobody has locked starts running with one more attempt; none only if there is none |
| `TaskTable.TaskStore.Complete` | backend/matrix/device/api.py:307-352 | 404 for a foreign or missing row, 409 unless running, else the row ends as reported, with UNKNOWN for a missing code, and a reported publication is written on its note |
| `TaskTable.LoadedIff` | backend/matrix/scheduler/db.py:149-162 | a due row can be in the next batch exactly if fewer rows than the limit are due strictly earlier, and must be exactly if fewer are due no later |
| `TaskProtocol.InvStep` | backend/matrix/scheduler/scheduler.py:83-168 | every step of every actor keeps the protocol's invariant: loaded rows are still as they were loaded, claims are of publish rows |
| `TaskProtocol.WhoStarts` | backend/matrix/scheduler/scheduler.py:132-138 | a step makes a publish row running if and only if it is a phone's claim of it, any other row if and only if the scheduler marks it |
| `TaskProtocol.StepKeepsRows` | backend/matrix/scheduler/db.py:225-290 | no step loses a row, changes its action or device, or touches a finished one |
| `TaskProtocol.SchedulerCloses` | backend/matrix/scheduler/scheduler.py:132-168 | a task of the scheduler succeeds exactly when its call returned true, fails exactly when it returned false, raised, or went stale without attempts left, each with its code, and is put back exactly for a cool-off or when stale with attempts left |
| `TaskProtocol.PhoneCloses` | backend/matrix/device/api.py:307-352 | a publish task succeeds exactly when its own phone reports success while it runs, and fails exactly when that phone reports failure or it goes stale without attempts left |
| `TaskProtocol.ClaimedCanReport` | backend/matrix/device/api.py:253-352 | the phone that was handed a task can report on it as long as it runs, and closes it so |
| `TaskProtocol.BalancedStep` | backend/matrix/scheduler/scheduler.py:132-168 | one step keeps the ledger of entries, claims, executor calls and reschedules of each task in balance with its row |
| `TaskProtocol.RunBalanced` | backend/matrix/scheduler/scheduler.py:83-168 | the ledger is in balance at every moment of every interleaving |
| `TaskProtocol.AttemptsCountEntries` | backend/matrix/scheduler/db.py:231-236 | `attempts` is the number of entries into running, and executor calls never exceed it |
| `TaskProtocol.AttemptsBounded` | backend/matrix/scheduler/scheduler.py:141-151 | `attempts` is at most the larger of 1 and `max_attempts`, plus the circuit-open reschedules of that task |
| `TaskProtocol.AttemptsReached` | backend/matrix/scheduler/scheduler.py:141-151 | for every setting and every number of reschedules a run meets that bound |
| `TaskProtocol.PassesAllowanceIff` | backend/matrix/scheduler/scheduler.py:141-151 | some run with r reschedules takes a task past its allowance if and only if r is at least 1 |
| `TaskProtocol.PublishHandedOutBounded` | backend/matrix/device/api.py:280-283 | a publish task is handed to phones `attempts` times, never more than its allowance, and never reaches the executor |
| `TaskProtocol.FinishedForever` | backend/matrix/device/api.py:321-328 | success and failed are never left, in any run |
| `TaskProtocol.SucceedsIff` | backend/matrix/scheduler/scheduler.py:161-168 | at every step of every run a task of the scheduler turns success if and only if the step is its call returning true |
| `TaskProtocol.StartedByItsOwner` | backend/matrix/scheduler/scheduler.py:132-138 | along every run publish tasks are started by phones alone and all others by the scheduler alone, and only from pending |
| `TaskProtocol.StarvedWhileUnclaimed` | backend/matrix/scheduler/scheduler.py:83-138 | along every run, while a batch of earlier publish rows stays unclaimed, a task behind them is neither changed nor executed |
| `TaskProtocol.NotLoaded` | backend/matrix/scheduler/db.py:149-162 | no batch has room for such a task |
| `TaskProtocol.SweepThenLoad` | backend/matrix/scheduler/scheduler.py:83-100 | right after a sweep nothing is stale, the stale rows are failed or pending by their attempts, and only due rows are loaded |
| `Schedulers.Scheduler.Dispatch` | backend/matrix/scheduler/scheduler.py:132-168 | a publish task is left alone; any other ends success, failed with its code, or pending at the end of the cool-off, exactly as its call ended, with the loaded attempts plus one |
| `Schedulers.DispatchIsPath` | backend/matrix/scheduler/scheduler.py:132-168 | one dispatch is a path of protocol steps from its loaded state to its final one |
| `Schedulers.Scheduler.SweepIfDue` | backend/matrix/scheduler/scheduler.py:87-91 | the loop sweeps exactly when the interval has passed, and two sweeps are never closer than it |
| `Schedulers.Scheduler.Turn` | backend/matrix/scheduler/scheduler.py:83-110 | one turn is a path of the protocol: a sweep if one is due, one batch of the earliest due rows, and the dispatch of each of them, to an empty batch again |
| `Schedulers.ExecutedIffLoaded` | backend/matrix/scheduler/scheduler.py:93-104 | a turn executes exactly the tasks of its batch that are not publish tasks |
| `Schedulers.ExecutedWithinBatch` | backend/matrix/scheduler/scheduler.py:93-138 | a due task can be executed in a turn exactly if fewer rows than the batch size are due strictly earlier, and must be exactly if fewer are due no later |
| `Schedulers.PublishRowsStarve` | backend/matrix/scheduler/scheduler.py:93-138 | a batch of earlier unclaimed publish rows keeps a task from being executed |
| `Schedulers.PathKeepsInv` | backend/matrix/scheduler/scheduler.py:83-110 | every such path keeps the protocol's invariant |
| `Kpi.DimensionsAreFlat` | backend/matrix/agent/kpi.py:49-82 | the dimensions' totals, summed counter by counter over the rows, are the flat totals of the notes |
| `Kpi.EngagementByNote` | backend/matrix/agent/kpi.py:33-64 | the engagement of the totals is the sum of the notes' engagements |
| `Kpi.RatesOfRound` | backend/matrix/agent/kpi.py:26-82 | the rates of the round are those of its totals, the rates of a note those of its own counters |
| `Kpi.RateMeans` | backend/matrix/agent/kpi.py:43-46 | a rate times the views is what it is the rate of, and zero without views |
| `Kpi.DefaultsLookAtLikes` | backend/matrix/agent/kpi.py:85-121 | with the default thresholds the dimensions decide by the likes alone |
| `Kpi.GoesOnExactly` | backend/matrix/agent/kpi.py:85-121 | the dimensions go on exactly as long as no threshold that is set is met |
| `RoundKpis.GatherRoundKpi` | backend/matrix/agent/orchestrator.py:411-544 | the totals are the latest counters of the distinct resolved notes, each counted once; one row per note with metrics; the dimensions carry the same totals, their rates and those of each note |
| `RoundKpis.ResolvedInTable` | backend/matrix/agent/orchestrator.py:441-487 | the note found by run, by payload or by time window is a row of the note table |
| `RoundKpis.NoteIdsAre` | backend/matrix/agent/orchestrator.py:434-491 | the counted notes are exactly those some run of the round resolves to |
| `RoundKpis.StandsFor` | backend/matrix/agent/orchestrator.py:437-487 | which note a run resolves to, on the table alone: its first; with none of its own the one its payload names; with none of that id the newest within 300 seconds of its span |
| `RoundKpis.FallsBackIff` | backend/matrix/agent/orchestrator.py:449-487 | the two fallback queries together yield exactly that note |
| `RoundKpis.CountsOwnIff` | backend/matrix/agent/orchestrator.py:434-491 | the counted notes are exactly those the runs wrote if and only if no fallback leads to a foreign note and every later note of a run is made up for by one |
| `RoundKpis.GatheringExists` | backend/matrix/agent/orchestrator.py:411-544 | there is a KPI of this shape for every table of notes and metrics |
| `RoundKpis.LatestIsLatest` | backend/matrix/agent/orchestrator.py:493-500 | the metric used exists if and only if the note has one, and none of the note's metrics is later |
| `RoundKpis.RowsAreLatest` | backend/matrix/agent/orchestrator.py:493-518 | a counted note has a row exactly if it has a metric, and the row holds one that no other metric of the note is later than |
| `RoundKpis.OneMoreNote` | backend/matrix/agent/orchestrator.py:488-507 | counting a new note adds its counters, wherever it stands in the table |
| `RoundKpis.OrderDoesNotMatter` | backend/matrix/agent/orchestrator.py:434-491 | totals and count depend on which runs there are, not on their order or repetition |
| `Orchestrators.CountTarget` | backend/matrix/agent/orchestrator.py:114-117 | three without a setting or for zero, none for a negative one, else the setting up to 20 |
| `Orchestrators.FanoutBounded` | backend/matrix/agent/orchestrator.py:120-183 | a round opens at most the goal's number of runs and at most 20, and none only for a negative setting |
| `Orchestrators.RunsOpened` | backend/matrix/agent/orchestrator.py:120-183 | exactly when runs get slots, how many, and the candidate, the start and the style of each; otherwise as many runs as the goal asks for, without |
| `Orchestrators.OpensRound` | backend/matrix/agent/orchestrator.py:269-347 | a call on a preparing goal adds one row and those runs, running and of this round, and changes nothing else |
| `Orchestrators.Services.Allocate` | backend/matrix/scheduler/round_slot_allocator.py:60-147 | fails exactly if a slot is out of hours; else the first candidates, as many as there are and are asked for, each with its staggered time and its style |
| `Orchestrators.SlotsApart` | backend/matrix/scheduler/round_slot_allocator.py:38-47 | two slots lie a whole number of staggers apart, and share a style exactly if that number is a multiple of eight |
| `Orchestrators.SlotsDiffer` | backend/matrix/agent/orchestrator.py:301-337 | no account is given two runs of a round, and runs with slots start at least a stagger apart |
| `Orchestrators.SlotsOfDraw` | backend/matrix/scheduler/round_slot_allocator.py:86-141 | how many slots there are does not depend on the draw, and they go to the first candidates drawn |
| `Orchestrators.OneRunPerDeviceIff` | backend/matrix/scheduler/round_slot_allocator.py:86-141 | in every draw the slots lie on distinct devices if and only if there is at most one slot or no device has two candidates |
| `Orchestrators.RunsDoneExactly` | backend/matrix/agent/orchestrator.py:355-370 | the executing wait ends exactly when no run of the current round is running; older rounds do not matter |
| `Orchestrators.CollectDoneExactly` | backend/matrix/agent/orchestrator.py:382-408 | the monitoring wait ends exactly when each published note of the round is collected, has no collection time, or is six hours past it |
| `Orchestrators.WrittenIsLoaded` | backend/matrix/agent/orchestrator.py:547-578 | the KPI written for a round is the one loaded for it, and other rounds' KPIs are unaffected |
| `Orchestrators.DecidesExactly` | backend/matrix/agent/orchestrator.py:653-691 | the dimensions test and the likes test agree: the KPI is met exactly if the likes reach the goal's own target, or 500 where it sets none; a goal goes on exactly if it is not met, the deadline has not passed and rounds are left |
| `Orchestrators.InvStep` | backend/matrix/agent/orchestrator.py:714-923 | every call and every change of the world keeps the invariant: round in range, round rows exactly those opened, each monitored round measured, status matching the stored KPI |
| `Orchestrators.InvAlways` | backend/matrix/agent/orchestrator.py:714-923 | the invariant holds at every moment of every run of a goal |
| `Orchestrators.PhaseChangesExactly` | backend/matrix/agent/orchestrator.py:725-921 | the number of phase changes so far is determined by the current round and phase |
| `Orchestrators.DoneWithin` | backend/matrix/agent/orchestrator.py:725-921 | a goal of R rounds changes phase at most 5R+1 times; it is done if and only if it has made 5r+1 changes for its round r |
| `Orchestrators.StandsStillExactly` | backend/matrix/agent/orchestrator.py:775-809 | a call leaves the phase, and then the whole state, exactly if the goal is done or waits for a running run or an awaited note |
| `Orchestrators.LastKpiGathered` | backend/matrix/agent/orchestrator.py:811-862 | the KPI a goal is summarized and decided on is what its own monitoring call gathered |
| `Orchestrators.AchievedExactly` | backend/matrix/agent/orchestrator.py:893-901 | a goal ends achieved exactly if the latest likes of the distinct notes that the runs of its last round resolved to, when it was monitored, reach its own target, or 500 where it sets none |
| `Orchestrators.OfRoundIff` | backend/matrix/agent/orchestrator.py:393-408 | the notes the monitoring wait looks at are those that some run of the round wrote |
| `Orchestrators.CountsRoundIff` | backend/matrix/agent/orchestrator.py:411-491 | the notes counted are exactly the notes of the round if and only if the fallbacks stay inside it, for every table |
| `Orchestrators.AchievedByOwnNotes` | backend/matrix/agent/orchestrator.py:411-491 | if the fallbacks stay inside its last round, a goal ends achieved exactly if the latest likes of the notes of that round reach the target |
| `Orchestrators.AchievedByStranger` | backend/matrix/agent/orchestrator.py:465-487 | a whole run of a goal that ends achieved although at no moment there was a note of its round |
| `Orchestrators.MeasuredRowsKept` | backend/matrix/agent/orchestrator.py:547-561 | a round's row is never changed once it holds its KPI |
| `Orchestrators.GoalOrchestrator.PrepareRound` | backend/matrix/agent/orchestrator.py:269-347 | one run is added for each slot, with the slot, or without slots as many as the goal asks for, and one round row |
| `Orchestrators.GoalOrchestrator.WriteRoundKpi` | backend/matrix/agent/orchestrator.py:547-561 | the row of the current round, if there is one, takes the KPI and its totals |
| `Orchestrators.GoalOrchestrator.AdvanceGoal` | backend/matrix/agent/orchestrator.py:714-923 | one call is one step of the phase machine and opens at most 20 runs, only while preparing |
| `TokenBuckets.TokensBounded` | backend/matrix/scheduler/token_bucket.py:22-37 | in every history the tokens stay within zero and the capacity |
| `TokenBuckets.Potential` | backend/matrix/scheduler/token_bucket.py:32-65 | what is left plus what was granted since a moment comes out of one full bucket and the refill |
| `TokenBuckets.RateBound` | backend/matrix/scheduler/token_bucket.py:32-65 | the tokens granted in any interval [s, t] are at most capacity + rate * (t - s) |
| `TokenBuckets.TokenBucket.Refill` | backend/matrix/scheduler/token_bucket.py:32-37 | the stored tokens become those of the refilled bucket at the time read |
| `TokenBuckets.TokenBucket.TryTake` | backend/matrix/scheduler/token_bucket.py:50-55 | a refill followed by taking a token exactly if there is one, entered in the history |
| `TokenBuckets.TokenBucket.Acquire` | backend/matrix/scheduler/token_bucket.py:39-65 | a grant takes one token; fewer than timeout * rate + 1 sleeps; a lone caller with a long enough timeout is always served, after at most one sleep |
| `TokenBuckets.TokenBucket.Round` | backend/matrix/scheduler/token_bucket.py:49-65 | one turn of the waiting loop: granted, timed out exactly at a passed deadline, or slept one refill gap or up to the deadline |
| `TokenBuckets.ServedInTwo` | backend/matrix/scheduler/token_bucket.py:49-65 | a lone caller with a long enough timeout is refused at most once, before its deadline, whatever the history of the bucket |
| `TokenBuckets.EmptyTimesOut` | backend/matrix/scheduler/token_bucket.py:45-65 | for every other timeout the clock readings with which a lone caller of an empty bucket is refused until its deadline has passed |
| `TokenBuckets.LoneTimeoutIff` | backend/matrix/scheduler/token_bucket.py:39-65 | after some history of the bucket a lone caller times out if and only if its timeout is not long enough |
| `CircuitBreakers.FailuresAreTheWindow` | backend/matrix/scheduler/circuit_breaker.py:51-69 | the stored list is exactly the failures within the window of the last one |
| `CircuitBreakers.OpenExactly` | backend/matrix/scheduler/circuit_breaker.py:57-76 | the breaker is open exactly during the cool-off of a failure that completed a window of `threshold` failures |
| `CircuitBreakers.EdgesApart` | backend/matrix/scheduler/circuit_breaker.py:57-69 | two openings lie at least a cool-off apart |
| `CircuitBreakers.EdgeTrips` | backend/matrix/scheduler/circuit_breaker.py:57-69 | only a failure that completes a window opens the breaker |
| `CircuitBreakers.EdgesPaidFor` | backend/matrix/scheduler/circuit_breaker.py:57-69 | openings times threshold is at most the failures up to the last opening, when the cool-off exceeds the window |
| `CircuitBreakers.AlertsBoundedIff` | backend/matrix/scheduler/circuit_breaker.py:38-69 | exactly which configurations guarantee `threshold` failures per opening |
| `CircuitBreakers.CircuitBreaker.RecordFailure` | backend/matrix/scheduler/circuit_breaker.py:57-69 | the failure enters the history, and the answer is whether it opened the breaker |
| `CircuitBreakers.CircuitBreaker.IsOpen` | backend/matrix/scheduler/circuit_breaker.py:71-72 | open exactly as the history of failures defines it |
| `CircuitBreakers.CircuitBreaker.RetryAfter` | backend/matrix/scheduler/circuit_breaker.py:74-76 | the shortest wait after which the breaker is closed |
| `DeviceBreakers.OwnExtend` | backend/matrix/scheduler/circuit_breaker.py:98-114 | one failure extends the history of its own device and no other |
| `DeviceBreakers.OthersUnaffected` | backend/matrix/scheduler/circuit_breaker.py:79-114 | a failure of one device changes for no other whether it is in a cool-off or whether its own next failure opens its breaker |
| `DeviceBreakers.BlankIdsShare` | backend/matrix/scheduler/circuit_breaker.py:98-104 | a missing device id and an empty one share a breaker |
| `DeviceBreakers.ProjectFollows` | backend/matrix/scheduler/circuit_breaker.py:98-114 | each device's share of the history is ordered in time |
| `DeviceBreakers.PerDeviceCircuitBreaker.IsOpen` | backend/matrix/scheduler/circuit_breaker.py:106-107 | open exactly as a lone breaker fed this device's failures alone |
| `DeviceBreakers.PerDeviceCircuitBreaker.RecordFailure` | backend/matrix/scheduler/circuit_breaker.py:109-111 | answers as a lone breaker fed this device's failures alone |
| `DeviceBreakers.PerDeviceCircuitBreaker.RetryAfter` | backend/matrix/scheduler/circuit_breaker.py:113-114 | the shortest wait after which this device's own breaker is closed |
| `DeviceBreakers.OpeningsAfter` | backend/matrix/scheduler/db_task_executor.py:110-115 | one failure adds an opening of its device exactly if it opens that device's breaker, and none elsewhere |
| `DeviceBreakers.DeviceTaskExecutor.RecordFailure` | backend/matrix/scheduler/db_task_executor.py:110-115 | the failure is recorded, and an alert is sent exactly if it opened the breaker |
| `DeviceBreakers.DeviceTaskExecutor.Execute` | backend/matrix/scheduler/db_task_executor.py:72-106 | a call that no other interrupts: in a cool-off nothing is called or recorded and the wait ends it; otherwise it succeeds exactly if an adapter handles the action and says so, a failure is recorded once, and the alerts are those of an opening and of an adapter that raised |
| `DeviceBreakers.OneAlertPerOpening` | backend/matrix/scheduler/db_task_executor.py:72-115 | however calls overlap, each device's openings are its alerts and the alerts under way |
| `DeviceBreakers.OverlappingAlertsPaidFor` | backend/matrix/scheduler/db_task_executor.py:72-115 | alerts of a device times threshold is at most its failures in every interleaving, when the cool-off exceeds the window |
| `DeviceBreakers.DeviceTaskExecutor.Gate` | backend/matrix/scheduler/db_task_executor.py:75-79 | the device is gated exactly during its own cool-off, and the wait it reports ends the cool-off |
| `DeviceBreakers.AlertsStillMatch` | backend/matrix/scheduler/db_task_executor.py:110-115 | alerting exactly at an opening keeps the alerts of every device equal to its openings |
| `DeviceBreakers.AlertsPerDevice` | backend/matrix/scheduler/db_task_executor.py:110-115 | alerts of a device times threshold is at most its failures, when the cool-off exceeds the window |
| `DailyCaps.InMemoryDailyCounter.Add` | backend/matrix/scheduler/rate_limiter.py:82-87 | one counter goes up by one and its new value is returned |
| `DailyCaps.RateLimiter.CheckDaily` | backend/matrix/scheduler/rate_limiter.py:210-219 | passes exactly if the device and the account are both below their caps, and a refusal names a scope that is not |
| `DailyCaps.KindsExactly` | backend/matrix/scheduler/rate_limiter.py:192-197 | which actions count as publishing and which as interaction |
| `DailyCaps.BelowExactly` | backend/matrix/scheduler/rate_limiter.py:199-219 | which count of the device and of the account is held against which of the four caps |
| `DailyCaps.RateLimiter.Record` | backend/matrix/scheduler/rate_limiter.py:221-226 | the device's and the account's counters of the day each go up by one |
| `DailyCaps.RecordedExactly` | backend/matrix/scheduler/rate_limiter.py:221-226 | a record adds one to exactly two counts, those of its device and its account on that day |
| `DailyCaps.RateLimiter.Throttle` | backend/matrix/scheduler/rate_limiter.py:228-258 | passes exactly if the window, the breaker, both caps and the token bucket all do, and a refusal names the first that does not |
| `DailyCaps.AnswerExactly` | backend/matrix/scheduler/rate_limiter.py:228-282 | which of the answers is given, for every combination of gates and runner |
| `DailyCaps.RateLimiter.Execute` | backend/matrix/scheduler/rate_limiter.py:260-282 | callers one after the other never exceed a cap, even when a run crosses midnight; only a run that succeeds is counted |
| `DailyCaps.RecordKeepsCaps` | backend/matrix/scheduler/rate_limiter.py:210-226 | recording an admitted task keeps every counter within its cap, for both scopes together |
| `DailyCaps.StepSum` | backend/matrix/scheduler/rate_limiter.py:210-226 | one step of overlapping callers admits at most one flight, only below the cap, and recording keeps count plus admitted flights |
| `DailyCaps.CapExceededByOverlapOnly` | backend/matrix/scheduler/rate_limiter.py:210-282 | with at most m admitted and unrecorded callers a count never exceeds cap + m - 1, in every interleaving |
| `DailyCaps.CapExceededByOverlap` | backend/matrix/scheduler/rate_limiter.py:210-282 | m callers whose checks overlap bring a counter to cap + m - 1, for every open cap and every m |
| `DailyCaps.CapExceededIff` | backend/matrix/scheduler/rate_limiter.py:210-282 | for every cap and every m, some run exceeds the cap if and only if m is at least 2 and neither cap its callers meet is closed |
| `DailyCaps.NeverCounted` | backend/matrix/scheduler/rate_limiter.py:210-226 | a closed cap in one scope keeps the counters of the other at zero, however calls overlap |
| `DailyCaps.CallIsPath` | backend/matrix/scheduler/rate_limiter.py:260-282 | a call that no other interrupts is a path of the overlap protocol, with the answer and the counts of `Execute`, whoever else is in flight |
| `LlmLimiter.LLMRateLimiter.Acquire` | backend/matrix/agent/llm_rate_limiter.py:57-88 | how the call ends, and the permits, for each way either wait can end: one more after a token timeout, unchanged after any other failure, a cancelled wait for the semaphore among them |
| `LlmLimiter.LlmComplete` | backend/matrix/agent/_services.py:113-169 | success and failure alike give back the one permit; which attempts are made, how long they wait and what is returned or raised |
| `LlmLimiter.DelaysExactly` | backend/matrix/agent/_services.py:105-130 | the delays are within ten percent of one, three and then nine seconds |
| `LlmLimiter.BalanceStep` | backend/matrix/agent/llm_rate_limiter.py:57-92 | every step keeps permits + waiting + held at the initial number plus the token timeouts |
| `LlmLimiter.PermitLaw` | backend/matrix/agent/llm_rate_limiter.py:57-92 | that is the exact law of every run, and it bounds the calls at once |
| `LlmLimiter.CallGains` | backend/matrix/agent/llm_rate_limiter.py:57-88 | in every run the steps of one call, from its permit to the end of its wait, change the permits exactly as `Acquire` says, and one is out while it waits |
| `LlmLimiter.NeverTimesOut` | backend/matrix/agent/llm_rate_limiter.py:45-88 | no run with one permit and a long enough timeout has a token timeout |
| `LlmLimiter.StarvedRun` | backend/matrix/agent/llm_rate_limiter.py:57-88 | with two permits a sleeping call loses each token to another call until its deadline |
| `LlmLimiter.IntendedLawIff` | backend/matrix/agent/llm_rate_limiter.py:57-92 | some run breaks the law that permits are free or in use if and only if there are two permits, or one and a timeout that is not long enough |
| `LlmLimiter.LimitRaisedByTimeouts` | backend/matrix/agent/llm_rate_limiter.py:72-88 | with such settings, for every t, a run on one model with t token timeouts and then t calls too many at once |
| `Recency.ByRecencyIsRecency` | backend/matrix/kb/embedding.py:73-91 | the recency order lists every touched key once, by last touch |
| `Recency.MostRecentInOrder` | backend/matrix/kb/embedding.py:73-91 | the cache's keys are ordered by last touch |
| `Recency.MostRecentLists` | backend/matrix/kb/embedding.py:73-91 | a cache that is not full holds exactly the touched keys |
| `Recency.NotListedIsOlder` | backend/matrix/kb/embedding.py:88-91 | a touched key that is not cached was last touched before every cached one |
| `Recency.MostRecentDistinct` | backend/matrix/kb/embedding.py:73-91 | no key is cached twice and no more than the capacity are |
| `Recency.TouchExtends` | backend/matrix/kb/embedding.py:73-91 | moving a hit to the end, or appending and popping the head, yields the most recent keys of the longer history |
| `EmbeddingCache.EmbeddingService.Create` | backend/matrix/kb/embedding.py:52-65 | refused exactly for a batch size that is not positive or a negative capacity |
| `EmbeddingCache.EmbeddingService.CacheGet` | backend/matrix/kb/embedding.py:73-82 | a hit returns the embedder's vector and is a touch; a miss changes nothing |
| `EmbeddingCache.EmbeddingService.CachePut` | backend/matrix/kb/embedding.py:84-91 | the cache stays the most recently touched keys with the embedder's vectors, evicting one at most |
| `EmbeddingCache.EmbeddingService.ClearCache` | backend/matrix/kb/embedding.py:69-71 | the cache and its history are empty |
| `EmbeddingCache.EmbeddingService.Lookup` | backend/matrix/kb/embedding.py:116-124 | the loop answers and touches exactly the hits and lists exactly the misses |
| `EmbeddingCache.EmbeddingService.Fetch` | backend/matrix/kb/embedding.py:128-136 | the loop requests the misses batch by batch, answers each of them and puts each into the cache |
| `EmbeddingCache.EmbeddingService.EmbedBatch` | backend/matrix/kb/embedding.py:98-139 | the result is the embedder's answer text by text for any cache, capacity and duplicates; the client is asked for the misses alone, in batches; every hit and put is a touch |
| `EmbeddingCache.EmbeddingService.TakeBatch` | backend/matrix/kb/embedding.py:133-136 | the puts between two pauses, on a cache that other calls have used meanwhile |
| `EmbeddingCache.EmbeddingService.Happen` | backend/matrix/kb/embedding.py:98-139 | one stretch of one call moves that call on and no other, and keeps the cache and every call right |
| `EmbeddingCache.EmbeddingService.Overlap` | backend/matrix/kb/embedding.py:98-139 | calls that overlap in any way, with clearings between: the cache stays the most recently touched keys with the embedder's vectors, and every finished call answers text by text as if alone |
| `EmbeddingCache.EmbeddingService.EmbedOne` | backend/matrix/kb/embedding.py:93-96 | the embedder's vector for the text |
| `EmbeddingCache.MissesAre` | backend/matrix/kb/embedding.py:116-124 | the misses are exactly the texts whose key is not cached, in order, with their positions |
| `EmbeddingCache.BatchesCover` | backend/matrix/kb/embedding.py:129-133 | the requests put together are the misses in order, in ceil(misses / size) pieces of at most `size` |
| `Chunking.Chunker.Create` | backend/matrix/kb/chunker.py:43-58 | refused exactly unless 0 <= overlap < size |
| `Chunking.Chunker.Split` | backend/matrix/kb/chunker.py:68-95 | the loop returns the chunks of the slices, numbered from zero; one chunk for a short text, none for an empty one |
| `Chunking.SliceCount` | backend/matrix/kb/chunker.py:85-94 | one slice plus the least number of steps that reach the end |
| `Chunking.SliceAt` | backend/matrix/kb/chunker.py:85-94 | where each slice lies in the input |
| `Chunking.ChunkShape` | backend/matrix/kb/chunker.py:81-95 | the k-th chunk has index k and decodes its stretch of tokens; all but the last are full, the last is longer than the overlap |
| `Chunking.ShortShape` | backend/matrix/kb/chunker.py:74-79 | an empty text has no chunk, and a text that fits is one chunk as it is |
| `Chunking.SplitInvertible` | backend/matrix/kb/chunker.py:81-95 | the slices without their overlaps put together are the input |
| `Chunking.ChunksInvertible` | backend/matrix/kb/chunker.py:68-95 | the same for what `split` returns for a long text |
| `KbStores.MeanVector` | backend/matrix/kb/store.py:271-282 | the loop computes the column means, and fails exactly if a vector is longer than a non-empty first one |
| `KbStores.MeanWithin` | backend/matrix/kb/store.py:271-282 | each component of the mean lies between the extremes of that component |
| `KbStores.MeanOfOne` | backend/matrix/kb/store.py:271-282 | the mean of one vector is that vector |
| `KbStores.MeanOfMore` | backend/matrix/kb/store.py:271-282 | one more vector weighs as much as each of the others |
| `KbStores.KbStore.CreateDocument` | backend/matrix/kb/store.py:54-132 | bad type or empty content changes nothing; else version 1, rows and vector of the content's chunks, other documents' rows untouched |
| `KbStores.KbStore.UpdateDocument` | backend/matrix/kb/store.py:171-209 | fails for missing or deleted documents; else one more version and rows that index the new content; unchanged content leaves every row |
| `KbStores.KbStore.EditedExactly` | backend/matrix/kb/store.py:192-203 | an edit changes the fields it gives and no other, and the version goes up by one |
| `KbStores.KbStore.ReplaceChunks` | backend/matrix/kb/store.py:211-238 | the document's rows become those of its content, other documents' rows stay |
| `KbStores.KbStore.SoftDelete` | backend/matrix/kb/store.py:244-263 | only marks the document, and says whether it did; its rows stay |
| `KbStores.KbStore.OneReplaced` | backend/matrix/kb/store.py:54-263 | replacing one document consistently keeps the whole index consistent |
| `KbStores.KbStore.RowsNumbered` | backend/matrix/kb/store.py:113-123 | a document has exactly one row for each chunk of its content, in order, with the chunk's text and token count and the embedder's vector for it |
| `KbStores.DeletedRows` | backend/matrix/kb/store.py:213-216 | deleting one document's rows leaves every other document's rows in place |
| `KbStores.KbStore.RewrittenBy` | backend/matrix/kb/store.py:211-235 | deleting and appending gives the document exactly its new rows |
| `RankFusion.Scoreboard.Add` | backend/matrix/kb/retrieval.py:379-412 | the scoreboard holds, in order of first hit, each chunk's summed score, first hit and sources |
| `RankFusion.RrfFuse` | backend/matrix/kb/retrieval.py:358-424 | the two loops, the sort and the cut return the fused ranking |
| `RankFusion.ScoreIsSum` | backend/matrix/kb/retrieval.py:379-417 | a score is the sum of 1 / (k + rank) over all occurrences in both lists |
| `RankFusion.IdsAreFound` | backend/matrix/kb/retrieval.py:414-420 | the ranked chunks are exactly those found by some retriever |
| `RankFusion.SourcesNameFinders` | backend/matrix/kb/retrieval.py:398-408 | the sources name exactly the retrievers that found the chunk, the vector search first |
| `RankFusion.SortedRight` | backend/matrix/kb/retrieval.py:420-423 | the sort is a strict order of the same chunks |
| `RankFusion.TopKExact` | backend/matrix/kb/retrieval.py:358-424 | distinct chunks in strict order, as many as asked for or found, and none left out that precedes one returned |
| `RankFusion.FusedInOrder` | backend/matrix/kb/retrieval.py:419-423 | the results stand in descending order of score, ties by ascending chunk index, then by ascending identifier |
| `RankFusion.LeftOutExactly` | backend/matrix/kb/retrieval.py:358-424 | a found chunk is left out only if as many as asked for are returned, each before it by score, index and identifier |
| `RankFusion.ReturnedExactly` | backend/matrix/kb/retrieval.py:379-412 | each result has its score over both lists, the fields of the first hit on its chunk, and the retrievers that found it |
| `RankFusion.ScoreByPlaces` | backend/matrix/kb/retrieval.py:379-417 | in distinct lists the score is 1 / (k + rank) for the place in each list that holds the chunk |
| `RankFusion.BothAbove` | backend/matrix/kb/retrieval.py:379-424 | in distinct lists of lengths for which two last places outweigh a first, found by both ranks above found by one |
| `RankFusion.BothReturnedFirst` | backend/matrix/kb/retrieval.py:379-424 | and is returned whenever the other is, and earlier |
| `RankFusion.BothCanLose` | backend/matrix/kb/retrieval.py:379-424 | for all other lengths, lists in which a chunk found by both ranks below one found by one |
| `RankFusion.BothAlwaysAboveIff` | backend/matrix/kb/retrieval.py:379-424 | exactly for which lengths of the two lists, and which k, found by both always ranks above found by one |
| `RankFusion.ShortLists` | backend/matrix/kb/retrieval.py:379-424 | two lists of up to k + 1 hits are of such lengths |
| `RankFusion.SwapKeepsIdsIff` | backend/matrix/kb/retrieval.py:358-424 | swapping the lists keeps every cut of the ranking if and only if the first hits on chunks of equal score are ordered alike either way |
| `RankFusion.OneIndexKeepsIds` | backend/matrix/kb/retrieval.py:414-424 | so swapping changes nothing if a chunk's hits carry one chunk index |
| `RankFusion.SwapCanReorder` | backend/matrix/kb/retrieval.py:381-424 | for every k, hits that disagree on the index and a swap that changes the order |
| `AgentGraph.RunBounded` | backend/matrix/agent/state_machine.py:101-247 | every run ends within 4m + 6 node visits, within 4m + 5 without interaction after a publish |
| `AgentGraph.BoundMet` | backend/matrix/agent/state_machine.py:101-247 | some run takes exactly that many, in every configuration |
| `AgentGraph.RemainingFalls` | backend/matrix/agent/state_machine.py:101-247 | every visit lowers the bound on what is left |
| `AgentGraph.RevisionsCounted` | backend/matrix/agent/guards.py:84-107 | the attempts count the visits of REVISE, which never exceed the limit |
| `AgentGraph.PublishOnce` | backend/matrix/agent/state_machine.py:192-222 | no run publishes twice |
| `AgentGraph.PublishDominated` | backend/matrix/agent/guards.py:266-312 | PUBLISH comes right after a passed last REVIEW, a slot and a created task |
| `AgentGraph.CollectUnreachable` | backend/matrix/agent/state_machine.py:202-232 | no run visits COLLECT |
| `AgentGraph.AnalyzeNeverPublishes` | backend/matrix/agent/guards.py:257-263 | a run that starts with ANALYZE visits at most ANALYZE and IDLE |
| `AgentGraph.ReviewRoutesExclusive` | backend/matrix/agent/guards.py:78-102 | REVIEW has exactly one way out, decided by the forbidden words, the two scores and the attempts |
| `AgentGraph.PublishingRoutes` | backend/matrix/agent/guards.py:286-312 | the ways out of SCHEDULE, DISPATCH, PUBLISH and INTERACT, on the fields they read |
| `AgentGraph.ImageRoutes` | backend/matrix/agent/guards.py:171-187 | a draft goes to review without images too, unless the fallback is to stop or an image error forces an alert |
| `AgentGraph.OtherRoutes` | backend/matrix/agent/guards.py:266-320 | the ways out of RESEARCH, DRAFT, REVISE, COLLECT, ANALYZE, ALERT and IDLE |
| `AgentGraph.EntryExactly` | backend/matrix/agent/guards.py:257-263 | a run starts with the analysis exactly if its entry reads ANALYZE in either case |
| `SurrogateRepair.FixSurrogates` | backend/matrix/llm/clients.py:20-47 | the index-driven loop computes the repair |
| `SurrogateRepair.JoinExpands` | backend/matrix/llm/clients.py:38-42 | the arithmetic inverts the expansion of RFC 2781 for every pair |
| `SurrogateRepair.ExpansionJoins` | backend/matrix/llm/clients.py:38-42 | and is inverted by it for every astral code point |
| `SurrogateRepair.RepairKeepsUnits` | backend/matrix/llm/clients.py:20-47 | the repair keeps the UTF-16 code units of every string |
| `SurrogateRepair.RepairLeavesNoPair` | backend/matrix/llm/clients.py:20-47 | no adjacent high and low surrogates are left |
| `SurrogateRepair.RepairUnique` | backend/matrix/llm/clients.py:20-47 | the repair is the one pair-free string with the input's code units |
| `SurrogateRepair.RepairInvertsExpansion` | backend/matrix/llm/clients.py:20-47 | repairing the expansion gives the string back exactly if it had no pair |
| `SurrogateRepair.RepairIdempotent` | backend/matrix/llm/clients.py:20-47 | repairing twice is repairing once |
| `SurrogateRepair.LoneElementKept` | backend/matrix/llm/clients.py:20-47 | an element outside a pair is kept, displaced only by the pairs before it |

## Left out

- HTTP, sessions, SQL text, HMAC and logging: a transaction is an atomic step on maps and sequences, and a rolled-back one is no step.
- A second scheduler, and phones that report a task they have not claimed: the design has one scheduler, and the protocol assumes honest phones.
- The two statements inside `complete_task`: its read and its write are one step.
- Deleting tasks with their parents, operators who edit goals in chat, the watchdogs: operator actions outside the protocols.
- Pausing and resuming an offline device's tasks, which rewrites the `last_error` of pending rows only.
- `reset` of the breakers, `available` of the token bucket and `snapshot` of the LLM limiter: one-line accessors.
- The registry that creates one token bucket per account on first use: `Throttle` takes the bucket's answer as a parameter.
- The queue of calls at the semaphore of the LLM limiter: a call appears in the model when it obtains a permit.
- `DbDailyCounter`, which keeps the same counts in a table; the overlap protocol of the caps fixes one day.
- `TokenBuckets.Clock`, randomness, jitter and sleeping are parameters or nondeterministic choices; floating point is modelled by reals.
- SHA-256 and tiktoken: the text hash is taken to be injective, `encode` and `decode` are unknown functions, and chunking is stated on tokens.
- Embedders whose vectors differ in length: the store assumes one dimension; `MeanVector` itself covers the error.
- Turn: dispatches one after the other; the interleavings of a concurrent batch are the protocol's.
- The payload of a run beyond its slot and its note id, note titles, learning summaries, notifications and alerts of the orchestrator.
- The bodies of the agent nodes: apart from REVISE's added attempt their outputs are arbitrary.
- Writing the text of prompts, reviews, notifications and queries, pairing codes, slot picking and the shell front end: easy members.
