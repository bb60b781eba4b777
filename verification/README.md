# dbosify: a verified model

dbosify runs Temporal workflows on DBOS checkpoints. A workflow has no server-side history: the interpreter runs
the workflow code on a virtual event loop, every effect is a DBOS operation that claims the next function id, and
recovery re-runs the same sequence and reads the recorded outcomes back. This project models the protocols that make
this sound and proves what they keep.

| File | What it models |
|---|---|
| `Recovery.dfy`, `RecoveryProofs.dfy`, `DeliveryOrder.dfy`, `LoopReference.dfy` | the checkpoint log, the interpreter's main loop over it, crashes, recoveries and workflow-task rewinds, the order of deliveries, and the loop as straight-line code that the step machine refines |
| `Patches.dfy` | `patched()`: the horizon rule, the markers of several ids, and what makes answers stand |
| `Retry.dfy`, `AttemptProofs.dfy` | retry decisions, attempt deadlines, and the in-process and queued attempt loops |
| `Activities.dfy`, `ActivityProofs.dfy`, `ActivityOutcomes.dfy`, `ActivityRounds.dfy`, `ActivityLimits.dfy`, `LaunchCounts.dfy`, `ActivityHost.dfy` | the activity machine: attempts, backoff, parking, cancellation, rounds of deliveries, budget, maximum attempts |
| `Ids.dfy` | workflow, run, activity and scratch ids |
| `LatestRun.dfy`, `RunChain.dfy` | run chains, the hops that extend them, and the search for the newest run |
| `Signals.dfy`, `Carryover.dfy` | signal buffering and delivery, and what crosses to the next run |
| `Updates.dfy` | update deduplication, the two replies, and abandoned handlers |
| `ParentClose.dfy` | parent-close policies: the interpreter's sweep and the client's walk |
| `Visibility.dfy`, `Listing.dfy` | visibility queries, their database filter and post-filter, and paging |
| `Cron.dfy` | interval and calendar specifications compiled to cron |

Each step of a protocol is a function of its state. Where the source changes an object in place, a class performs the
step on its fields and each method's contract equates the new state with that function; what the source promises is
then proved of the functions, over every run.

Findings are stated as lemmas, each with its exact condition and, where it is not obvious, a run that shows it:

- `RoundFailsExactly`, `CompletionMeetsTimer`, `TimersMeet`: a round removes each done waiter from the list
  unconditionally. It finds one missing, and fails, exactly when that waiter is a park timer and an earlier item of the
  round ended the park of its activity: the activity's other park timer timed it out, or the inbox brought its external
  completion. Both can happen.
- `TaskFindsItsHandler`, `SignalMayBeLost`, `HandlerMayBeExchanged`: a signal's handler is resolved again when its task
  first runs. If its name resolves differently by then, another handler gets arguments decoded for the first, or the
  signal is gone without a trace.
- `AnswersSurviveExactly`, `AnswersFlipDown`, `FlipMovesCall`: the next execution repeats the first answers of `patched()`
  exactly when none of them was true with an id beyond its call recorded and its marker not; the first that changes turns
  from true to false. A changed answer may move the next call, so that even an answer two executions shared changes later.
- `QueryMeansItsLastClauses`, `RepeatedWorkflowIdReplaces`: a second `WorkflowId =` clause replaces the first instead of
  joining it.
- `ChainClauseAdmitsExactly`, `ChainClauseAdmitsChildren`: a `WorkflowId = X` clause also lists the runs of automatic
  descendants of later runs of X, and nothing else.
- `RefusedAfterTerminating`: a start that terminates existing runs but rejects duplicates cancels the open run and is
  refused all the same.
- `ChildIdMayBeTaken`: a user may take the id of a child to come, exactly for children of first runs of claimable ids.
- `ZeroMaximumDiffers`: a maximum interval of zero is no bound for an activity's retries (activities.py:117-122) and a
  delay of zero for a workflow's (dispatcher.py:366-367).
- `TimedOutListsNothing`: no row ever reports `TimedOut`.
- `ShortIntervalsFail`: an interval of half a second or less divides by zero.

Two places where documentation and code differ, and the model follows the code: `_forward_carryover`
(dispatcher.py:311-324) is described as mirroring the continue-as-new carryover but does not send the signals buffered
in the interpreter (`RetryHopConserves` says exactly when that loses nothing); and strict time bounds in visibility
queries are applied as inclusive ones (visibility.py:393-399).

## Model

| member | source | states |
|---|---|---|
| `RecoveryProofs.InterruptionsAreInvisible` | dbosify/_internal/interpreter.py:9-33 | for every deterministic program, any interleaving of crashes, recoveries and task-failure rewinds leaves a log that one uninterrupted execution produces, passing through the live process |
| `RecoveryProofs.LogOnlyGrows` | dbosify/_internal/dispatcher.py:558-600 | no crash, rewind, completion or step ever changes or loses a recorded entry |
| `RecoveryProofs.RecoveryNeverDiverges` | dbosify/_internal/interpreter.py:1043-1070 | a recovery never finds another operation, or an unusable race, under the id it claims |
| `RecoveryProofs.RecoveriesAgree` | dbosify/_internal/interpreter.py:1043-1070 | however the log grows afterwards, every recovery passes through the same state, clock, cursor, waiters and deliveries at each step replayed so far |
| `RecoveryProofs.RacesNameRecordedOutcomes` | dbosify/_internal/interpreter.py:1065-1070 | at every recorded race of a replay the record names at least one waiter of the list and only waiters whose own outcome is recorded |
| `RecoveryProofs.ProcessIsReplay` | dbosify/_internal/interpreter.py:9-33 | the live process is always a position of the replay of its own log |
| `RecoveryProofs.UninterruptedIsReplay` | dbosify/_internal/interpreter.py:1043-1070 | what an uninterrupted execution reached is reached again by replaying the log it wrote |
| `RecoveryProofs.UninterruptedIsSound` | dbosify/_internal/interpreter.py:1550-1646 | waiters hold increasing claimed ids, nothing is recorded beyond the cursor, and every recorded outcome answers the operation that claimed its id |
| `RecoveryProofs.RecordedEarlier` | dbosify/_internal/interpreter.py:9-33 | an operation recorded out of order, early, stays out of the way of everything recorded later |
| `RecoveryProofs.ExplainedComplete` | dbosify/_internal/interpreter.py:1793-1821 | an operation relaunched by a recovery, raced or abandoned by a cancellation, may finish at any point and the log stays one of an uninterrupted execution |
| `RecoveryProofs.ExplainedStraggle` | dbosify/_internal/interpreter.py:1793-1821 | what an attempt abandoned outlives its workflow-task rewind and may finish before the new attempt claims its id, and the log stays one of an uninterrupted execution |
| `RecoveryProofs.ExplainedRestart` | dbosify/_internal/dispatcher.py:597-600 | a crash, like the cursor rewind of a failed task, which leaves the abandoned operations running, keeps the log explained by one uninterrupted execution |
| `RecoveryProofs.PickAscends` | dbosify/_internal/interpreter.py:2032-2036 | the waiters of a race are taken in the order of their ids, whatever order the record names them in |
| `RecoveryProofs.RetireSplits` | dbosify/_internal/interpreter.py:1807-1821 | a retirement takes exactly the waiters of its kind and seq out of the list, and what is abandoned is exactly those |
| `DeliveryOrder.RoundDeliversNamed` | dbosify/_internal/interpreter.py:2032-2064 | over every replay, from one recorded race up to the next, what is delivered is, unless the process breaks, each operation the record names, once, in ascending launch order |
| `DeliveryOrder.DeliveredOnce` | dbosify/_internal/interpreter.py:2032-2036 | over every log no operation is delivered twice and a delivered one no longer waits |
| `DeliveryOrder.ClockNeverGoesBack` | dbosify/_internal/interpreter.py:2028-2030 | over every log the clock never goes back once the start time is read |
| `LoopReference.MachineRunsTheLoop` | dbosify/_internal/interpreter.py:1041-1070 | over every log and any number of passes the step machine stands where the loop written as straight-line code stands: turn, commands with what they await, re-drain on progress, outbox, close or inbox, race and deliveries down the waiter list |
| `LoopReference.PassReaches` | dbosify/_internal/interpreter.py:1042-1070 | one pass of the loop's body takes the step machine from one turn of the code to the next or to the end it comes to |
| `LoopReference.ClosingReaches` | dbosify/_internal/interpreter.py:1071-1130 | close effects, teardown of all waiters and farewell effects follow each other as in the source |
| `InterpreterLoop.Execution.ProcessCommand` | dbosify/_internal/interpreter.py:1550-1646 | one queued command performed in place is one step of the specification: a waiter launched, retired or detached, a due timer fired, or an operation awaited at its id |
| `InterpreterLoop.Execution.DeliverNext` | dbosify/_internal/interpreter.py:2032-2064 | the next done waiter, in list order, leaves the list, advances the clock only forward and resumes the code |
| `InterpreterLoop.Execution.AwaitRace` | dbosify/_internal/interpreter.py:1065-1070 | a race consumes its id and fixes the deliveries of the round in waiter-list order |
| `InterpreterLoop.Execution.EnsureInboxWaiter` | dbosify/_internal/interpreter.py:1999-2010 | an inbox waiter is launched exactly when none is in the list |
| `InterpreterLoop.Execution.EnterPhase` | dbosify/_internal/interpreter.py:1043-1064 | turn, re-drain on progress, outbox flush and close follow each other as in the loop |
| `InterpreterLoop.Execution.Execute` | dbosify/_internal/interpreter.py:987-1070 | run over a log, the loop stands exactly at a position of that log's replay, and stops early only where a record is missing |
| `Patches.RecoveriesAgree` | dbosify/_internal/interpreter.py:3224-3250 | for any workflow code with any number of patch ids, called at positions that depend on the answers before: once an execution has made its first n calls below its horizon, every later execution repeats those n answers, over any crashes, rewinds and stray completions |
| `Patches.ClaimsPinAnswers` | dbosify/_internal/interpreter.py:1640-1645 | the answers given before a command was queued are repeated by every later execution as soon as the command has claimed an id, durable or not |
| `Patches.TrueAnswersAreMarked` | dbosify/_internal/interpreter.py:1640-1645 | in every reachable state a command queued after true answers has claimed an id only once all their markers are durable |
| `Patches.SettledForGood` | dbosify/_internal/interpreter.py:1001-1007 | answers that a reader of the log would give, with their markers recorded, are settled: no execution, crash or rewind afterwards answers otherwise |
| `Patches.MarkedIsSettled` | dbosify/_internal/interpreter.py:1001-1007 | an execution's answers are settled as soon as the markers of the true ones are recorded |
| `Patches.AnswersSurviveExactly` | dbosify/_internal/interpreter.py:3215-3250 | the next execution repeats the first n answers if and only if none of them was true with its call below the highest recorded id and its marker unrecorded |
| `Patches.AnswersFlipDown` | dbosify/_internal/interpreter.py:3215-3250 | the first answer the next execution gives otherwise was true, exposed in that way, and becomes false |
| `Patches.FirstAnswerStands` | dbosify/_internal/interpreter.py:3224-3250 | one id: once a checkpoint beyond the first call is durable, every execution that begins from then on answers it by whether its marker is recorded |
| `Patches.FlipMovesCall` | dbosify/_internal/interpreter.py:3215-3250 | a reachable run of three executions in which a first answer flips, thereby moves the second call to a later position, and the second answer, repeated there once, flips in the third |
| `Patches.AnswerMayFlip` | dbosify/_internal/interpreter.py:3215-3250 | a concrete interruption after which one id's answer changes from true to false |
| `Patches.RunsStayGood` | dbosify/_internal/interpreter.py:3215-3250 | over every run of executions the answers follow from horizon, markers and memo, each recorded marker was known at the start or answers true in the execution, and a marker stands before what was queued after its call |
| `Patches.MarkersAreWrittenOnce` | dbosify/_internal/interpreter.py:1640-1645 | over every uninterrupted first execution each marker is written once under an id claimed for it, and nothing is recorded that was not claimed |
| `Patches.StraysOutliveRewinds` | dbosify/_internal/interpreter.py:1813-1820 | whatever could still be recorded before a workflow-task rewind can be recorded after it, and nothing after a crash |
| `Patches.PatchBook.Patched` | dbosify/_internal/interpreter.py:3224-3250 | the first answer for an id follows the horizon rule and is memoized; a marker is queued once for each id answered true and for no other |
| `Retry.BackoffAtLeastInitial` | dbosify/_internal/activities.py:110-121 | under a valid policy every backoff without an override lasts at least the initial interval |
| `Retry.PoliciesAtTheBounds` | dbosify/common.py:131-149 | a negative initial interval, a coefficient below one or a negative maximum makes a policy invalid, the limits themselves do not, and a policy that never retries is valid whatever else it says |
| `Retry.RetryGrantedExactly` | dbosify/_internal/activities.py:91-126 | a retry is granted if and only if the failure is not excluded and no schedule-to-close timeout, attempts are left and its delay ends within the budget; each reported state names its own cause |
| `Retry.FirstDelay` | dbosify/_internal/activities.py:110-116 | under a valid policy the first delay is exactly the initial interval, and an override is the delay |
| `Retry.NextDelay` | dbosify/_internal/activities.py:114-122 | the delay after attempt n+1 is the smaller of the coefficient times the delay after n and the cap: the maximum interval if present and not zero, else a hundred initial intervals |
| `Retry.DeadlineIsTightest` | dbosify/_internal/activities.py:129-140 | an attempt's deadline is the tightest existing bound, clamped at zero, and its label names a bound that attains it |
| `Attempts.LocalSimulatesQueued` | dbosify/_internal/activity_workflow.py:129-176 | on timely outcomes the interpreter's loop and the queued loop agree on number, deadline, label and delay of every attempt and on the final state, exactly as long as no attempt consumed was cancelled |
| `Attempts.RunQueuedActivity` | dbosify/_internal/activity_workflow.py:74-176 | the activity workflow refuses a start past schedule-to-start and otherwise runs exactly the queued loop |
| `Attempts.RunAttempts` | dbosify/_internal/activity_workflow.py:129-176 | the imperative retry loop computes the queued loop's attempts and final state |
| `Attempts.LocalReportsState` | dbosify/_internal/interpreter.py:2148-2168 | the in-process path always reports a retry state when it gives up |
| `TableAttempts.TableRunsLocally` | dbosify/_internal/interpreter.py:2073-2168 | driven by any script of outcomes, the activity table launches exactly the attempts of the local loop, with its deadlines, and ends as it ends |
| `ActivityProofs.RunsStayGood` | dbosify/_internal/interpreter.py:1421-1519 | over every run each open activity is in exactly one phase with exactly that phase's waiters, at most one start-to-close and one heartbeat park timer, under an id no other open activity has |
| `ActivityProofs.EveryDeliveryIsSafe` | dbosify/_internal/interpreter.py:2032-2168 | after the sweep any done waiter, command or external completion finds its future unresolved |
| `ActivityProofs.RunsGoForward` | dbosify/_internal/interpreter.py:2028-2030 | every activity future is resolved at most once and virtual time never goes back |
| `ActivityProofs.SweptIsAwake` | dbosify/_internal/interpreter.py:1793-1821 | after the sweep no open activity awaits a future that is already done |
| `ActivityRounds.RoundFailsExactly` | dbosify/_internal/interpreter.py:2032-2064 | a whole round of done waiters and inbox messages, in waiter-list order, finds a done waiter missing if and only if it is a park timer and an earlier item timed out, or externally completed, its activity, heartbeats of the round counted |
| `ActivityRounds.CompletionRemoves` | dbosify/_internal/interpreter.py:2396-2412 | an external completion removes exactly the park timers of the parked activity with its id and no other waiter |
| `ActivityRounds.CompletionMeetsTimer` | dbosify/_internal/interpreter.py:2032-2038 | a reachable round that fails: the completion of a parked activity from the inbox, then that activity's own park timer |
| `ActivityRounds.TimersMeet` | dbosify/_internal/interpreter.py:2096-2125 | a reachable round that fails: both park timers of one activity |
| `ActivityProofs.SecondDoneWaiterRemains` | dbosify/_internal/interpreter.py:2032-2036 | of two waiters of activities, the second is still in the list after the first's delivery exactly unless the first is a park timer of the same activity that timed it out |
| `ActivityProofs.CancelHandleGood` | dbosify/_internal/interpreter.py:1500-1519 | an explicit cancel keeps every record and waiter in order, whatever the cancellation type |
| `ActivityProofs.CompletionActsAlone` | dbosify/_internal/interpreter.py:2396-2431 | an external completion touches no other activity, closes its own with the reported outcome or backs off or fails by the policy, and leaves it no park timer |
| `ActivityProofs.SweepDropsExactly` | dbosify/_internal/interpreter.py:1793-1821 | the sweep drops exactly the cancelled activities with all their waiters and leaves everything else as it was |
| `ActivityOutcomes.QueuedRunDecides` | dbosify/_internal/interpreter.py:2170-2216 | an activity started on another task queue, enqueued and delivered the result of its retry loop there is succeeded if and only if the loop was, failed with exactly the state the loop gave up with, and cancelled exactly if that was asked for and its last attempt was cancelled |
| `ActivityOutcomes.QueuedOutcome` | dbosify/_internal/interpreter.py:2170-2216 | in any reachable table a queued result closes its activity, touching no other: succeeded, cancelled where it confirms a requested cancellation, else failed with the reported state |
| `ActivityOutcomes.AttemptOutcome` | dbosify/_internal/interpreter.py:2073-2168 | the end of an attempt succeeds, confirms a cancellation, parks or is retried or failed as the decision at the reported time says; a park lasts for the tighter of what is left of both bounds, at least 0.05 s, under that bound's name |
| `ActivityOutcomes.BackoffOutcome` | dbosify/_internal/interpreter.py:2079-2086 | a backoff's end charges exactly its length and launches exactly one attempt more, under the tighter remaining bound and its name |
| `ActivityOutcomes.DeadlineOutcome` | dbosify/_internal/interpreter.py:2045-2060 | a park's deadline charges the park and times the attempt out as the kind of bound it was, leaving no park timer |
| `ActivityOutcomes.HeartbeatOutcome` | dbosify/_internal/interpreter.py:2492-2504 | a heartbeat window is re-armed exactly if a heartbeat came, and else times the attempt out |
| `ActivityOutcomes.StartOutcome` | dbosify/_internal/interpreter.py:1421-1498 | a start is refused exactly for an id in use or an invalid policy and then spends a seq only; otherwise it adds one scheduled record under the id asked for or the seq |
| `ActivityOutcomes.DispatchOutcome` | dbosify/_internal/interpreter.py:1571-1595 | the next command launches one attempt here, awaits one enqueue elsewhere, fails the activity where the enqueue fails, or does nothing for an activity gone |
| `ActivityOutcomes.CancelOutcome` | dbosify/_internal/interpreter.py:1500-1519 | a cancel only marks a record that waits for its confirmation and is not parked, and cancels the future of any other at once |
| `ActivityOutcomes.CancelAwaitOutcome` | dbosify/_internal/interpreter.py:1484-1495 | cancelling the awaiting code cancels the future at once and tells the sweep, leaving the record to it |
| `ActivityOutcomes.NoStateMeansCancelled` | dbosify/_internal/activity_workflow.py:155-172 | the queued loop gives up without a retry state exactly when its last attempt was cancelled |
| `ActivityBudget.AttemptsAreBounded` | dbosify/_internal/interpreter.py:1867-1877 | with budget B and initial interval d no launch carries an attempt number above ceil(B/d), and each has a deadline within the remaining budget, whatever clock values attempts report |
| `ActivityBudget.RunsStayInBudget` | dbosify/_internal/interpreter.py:2079-2085 | over every run without delay overrides virtual time has been charged every backoff of every open activity |
| `ActivityBudget.BackoffCharged` | dbosify/_internal/interpreter.py:2079-2085 | a backoff served is charged to virtual time and counts against the budget |
| `ActivityLimits.AttemptsRespectMaximum` | dbosify/_internal/activities.py:108-109 | over every run of deliveries, parks, timeouts, external completions and cancels, whatever delays failures ask for, no launch carries an attempt number above its policy's maximum |
| `ActivityLimits.RunsStayLimited` | dbosify/_internal/interpreter.py:2148-2155 | every attempt made, or backed off for, stays within the maximum in every run |
| `ActivityLimits.RetryStaysWithin` | dbosify/_internal/activities.py:73-126 | a retry leaves attempts and budget, and is refused for what the policy or the failure excludes |
| `LaunchCounts.BudgetBoundsLaunches` | dbosify/_internal/interpreter.py:1867-1877 | with budget B and initial interval d an activity is launched at most ceil(B/d) times in any run without delay overrides |
| `LaunchCounts.MaximumBoundsLaunches` | dbosify/_internal/activities.py:108-109 | in any run no activity is launched more often than its policy's maximum |
| `LaunchCounts.RunsStayNumbered` | dbosify/_internal/interpreter.py:2079-2086 | in every run the launches of one activity carry its request and strictly ascending attempt numbers, and none precedes its dispatch |
| `LaunchCounts.CountedBy` | dbosify/_internal/interpreter.py:2079-2086 | some launch of an activity carries an attempt number at least the number of its launches |
| `ActivityHosting.ActivityHost.DeliverRound` | dbosify/_internal/interpreter.py:2032-2064 | a round in place keeps the invariant and fails exactly where an earlier item took a done park timer's waiter |
| `ActivityHosting.ActivityHost.StartActivity` | dbosify/_internal/interpreter.py:1421-1498 | a start is refused for an id in use or an invalid policy, else adds one scheduled record, and keeps the invariant |
| `ActivityHosting.ActivityHost.RequestCancel` | dbosify/_internal/interpreter.py:1500-1519 | waiting cancellation marks the record, any other cancels the future for the sweep |
| `ActivityHosting.ActivityHost.ProcessActivityCommand` | dbosify/_internal/interpreter.py:1571-1595 | the next activity command launches a local attempt, or enqueues the activity and awaits its result, or fails it when the enqueue fails; a command of an activity already gone does nothing |
| `ActivityHosting.ActivityHost.SweepCancellations` | dbosify/_internal/interpreter.py:1793-1821 | in place, the sweep of the specification |
| `ActivityHosting.ActivityHost.Launch` | dbosify/_internal/interpreter.py:1849-1885 | an attempt is launched with the deadline its remaining budget gives |
| `ActivityHosting.ActivityHost.DeliverWaiter` | dbosify/_internal/interpreter.py:2032-2064 | the i-th done waiter performs its delivery in place and the table stays settled |
| `ActivityHosting.ActivityHost.DeliverAttempt` | dbosify/_internal/interpreter.py:2073-2168 | backoff end, parking, success, confirmed cancellation, retry or failure, as specified |
| `ActivityHosting.ActivityHost.DeliverQueueResult` | dbosify/_internal/interpreter.py:2170-2216 | a queued result is terminal |
| `ActivityHosting.ActivityHost.ParkActivity` | dbosify/_internal/interpreter.py:2088-2125 | the park lasts the tighter remaining bound, at least 0.05 s, with a heartbeat window if one is set |
| `ActivityHosting.ActivityHost.TimeOutParked` | dbosify/_internal/interpreter.py:2470-2490 | a parked timeout retires the park timers and retries or fails |
| `ActivityHosting.ActivityHost.CheckHeartbeat` | dbosify/_internal/interpreter.py:2492-2504 | a heartbeat within the window re-arms it, none times the activity out |
| `ActivityHosting.ActivityHost.ApplyActivityResult` | dbosify/_internal/interpreter.py:2396-2431 | an external completion reaches the one parked activity of its id or nothing |
| `ActivityHosting.ActivityHost.ApplyActivityHeartbeat` | dbosify/_internal/interpreter.py:2506-2517 | a heartbeat renews the window of the one parked activity of its id or nothing |
| `Ids.ParseInvertsRunId` | dbosify/_internal/ids.py:96-109 | parse_run inverts run_dbos_id on every workflow id, automatic child ids nested to any depth included |
| `Ids.RunIndexIsExact` | dbosify/_internal/ids.py:112-121 | run_index_of finds a run's index on its own workflow and nothing on any other |
| `Ids.ActivityIdIsNoRun` | dbosify/_internal/ids.py:56-60 | an activity id never reads as a run of any chain |
| `Ids.ScratchIdIsNoRun` | dbosify/_internal/ids.py:63-72 | a scratch id never reads as a run of any chain |
| `Ids.ScratchModeIsExact` | dbosify/_internal/ids.py:75-87 | the scratch mode is read from every scratch id and from no run or activity id |
| `Ids.ActivityIdsAreDistinct` | dbosify/_internal/ids.py:56-60 | two queued activities share an id only if chain, run and seq are the same |
| `Ids.ChildIdMayBeTaken` | dbosify/_internal/ids.py:33-46 | a user may claim an automatic child's id exactly when it is a child of a first run whose workflow id a user could claim |
| `Ids.ChildIdTaken` | dbosify/_internal/ids.py:33-46 | a concrete user id that is also the id of a first run's child |
| `LatestRun.ResolveLatestRun` | dbosify/_internal/ids.py:129-182 | the returned index was found and its successor missed by some probe; none is returned only after one probe that found nothing; an answer r within 17^k + 17 and below the m-th extension of the ladder takes at most k + m + 3 probes, refinement at most k + 2 of them with at most 16 ids each |
| `LatestRun.ExtendOnce` | dbosify/_internal/ids.py:164-171 | an extension round closes the bracket between the largest rung found and the next, or multiplies the lower bound by 16 |
| `LatestRun.RefineOnce` | dbosify/_internal/ids.py:172-181 | a refinement round probes at most 16 points and keeps a found lower and a missed upper end, at a seventeenth of the width |
| `LatestRun.ProbeLadder` | dbosify/_internal/ids.py:147-163 | the bracket is the largest rung found and the next rung, at most as wide as its lower end; it stays open exactly at the ladder's top |
| `LatestRun.LadderShape` | dbosify/_internal/ids.py:147-149 | the ladder ascends, is dense up to 16 and ends at two to the twentieth |
| `CurrentRun.SearchIsLinearizable` | dbosify/_internal/ids.py:129-182 | whatever the probes, an index found whose successor was missed was the newest run at some instant between the first and the last probe |
| `CurrentRun.ResolveGrowing` | dbosify/_internal/ids.py:129-182 | run while the chain grows between probes, the search returns an index that was the newest at some instant of the call, within the probe bound, and none only if no run existed when it began |
| `CurrentRun.NothingMeansEmpty` | dbosify/_internal/ids.py:156-158 | no answer means no run existed at the first probe |
| `CurrentRun.CountsSkipNothing` | dbosify/_internal/dispatcher.py:370-403 | the number of runs never shrinks, and takes every value between two it takes |
| `CurrentRun.ResolveFixed` | dbosify/_internal/ids.py:129-182 | over a fixed set with gaps a returned run exists and the next does not; on a gapless chain it is the newest |
| `RunChain.ChainsStayProper` | dbosify/client.py:1354-1403 | under any interleaving of stale client starts, continue-as-new, retry and cron hops, the indexes stay exactly 0..n, no run is replaced, and no attempt exceeds its policy's maximum |
| `RunChain.RetryRespects` | dbosify/_internal/dispatcher.py:248-290 | a retry hop hands on an attempt number within the policy it was decided by |
| `RunChain.FailureHopsExactly` | dbosify/_internal/dispatcher.py:248-290 | a cancel ends the chain; else a failure of the newest run adds run+1 if and only if its retry policy retries the failure with attempts left, counting on, or it has a cron, beginning again at attempt 1 |
| `RunChain.OtherHopsExactly` | dbosify/_internal/dispatcher.py:217-239 | a completed cron run is followed unless cancelled, and a continued run always, at attempt 1 with the policy it asked for or its own |
| `RunChain.StartHopsExactly` | dbosify/client.py:1354-1403 | a client's start adds the next run exactly where it neither attaches nor is refused by the policies |
| `RunChain.StaleHopsChangeNothing` | dbosify/_internal/dispatcher.py:370-403 | a hop repeated after a crash, or taken from a run that is no longer the newest, changes nothing |
| `RunChain.WorkflowDelays` | dbosify/_internal/dispatcher.py:327-367 | a workflow retry is granted if and only if class, timeout kind, flag, type and attempts allow it; its delay is the override, or at first the initial interval |
| `RunChain.NextWorkflowDelay` | dbosify/_internal/dispatcher.py:364-367 | each later delay is the smaller of the coefficient times the one before and the maximum interval, zero included, or a hundred initial intervals |
| `RunChain.ZeroMaximumDiffers` | dbosify/_internal/dispatcher.py:366-367 | first delays of an activity's and a workflow's retry under one policy agree exactly unless the maximum interval is zero and the initial one is not |
| `RunChain.RefusedAfterTerminating` | dbosify/client.py:1377-1391 | an open run is terminated and the start refused exactly when duplicates are rejected and existing runs terminated |
| `RunChain.StepKeeps` | dbosify/_internal/interpreter.py:1151-1214 | each start or hop adds at most the next run and rewrites none |
| `Signals.RunsStayOrderly` | dbosify/_internal/interpreter.py:2595-2622 | under any interleaving of arrivals, handler settings, flushes and task runs every received signal is exactly one of spawned, dropped, queued and buffered, and no buffered name has a handler |
| `Signals.SettledInArrivalOrder` | dbosify/_internal/interpreter.py:2670-2719 | of each name the signals spawned or dropped are a prefix of those that arrived, all of them once the name has a handler and the queue is flushed |
| `Signals.ReceivedAsArrived` | dbosify/_internal/interpreter.py:2680-2721 | over every run the received signals are those that arrived, in order, and each settled one was spawned or dropped by whether its arguments decoded for the handler found |
| `Signals.NewNamesComeLast` | dbosify/_internal/interpreter.py:2684-2693 | a buffered signal of a new name comes last among the buffered names and one of a known name moves none |
| `Signals.TaskFindsItsHandler` | dbosify/_internal/interpreter.py:699-713 | tasks first run once each in spawn order; a task calls the handler its arguments were decoded for iff its name resolves at that point as it did when it was spawned, and its signal is gone iff the name then resolves to none |
| `Signals.OnlySettingsIntervene` | dbosify/_internal/interpreter.py:2595-2622 | between two points of a run a name resolves differently only if its own or the dynamic handler was set in between |
| `Signals.SignalMayBeLost` | dbosify/_internal/interpreter.py:705-713 | a reachable run in which a handler is unset between delivery and first run: the signal is neither dropped for its arguments nor kept for a later handler |
| `Signals.HandlerMayBeExchanged` | dbosify/_internal/interpreter.py:705-713 | a reachable run in which another handler is called with the arguments decoded for the first |
| `Signals.ApplyExtends` | dbosify/_internal/interpreter.py:2680-2719 | applying a signal puts it at the end of its name's line, as buffered, dropped or spawned |
| `Signals.SetsTidy` | dbosify/_internal/interpreter.py:2595-2622 | setting or unsetting a handler leaves only names without a handler buffered |
| `Signals.SettingsPrecede` | dbosify/_internal/interpreter.py:2539-2555 | a handler set for a name is what it resolves to, an unset name resolves as the dynamic handler does and never to its registered one, other exact settings change nothing, and a set dynamic handler serves all names without one of their own |
| `SignalDelivery.SignalDesk.DeliverSignal` | dbosify/_internal/interpreter.py:2680-2719 | in place, a delivered signal is buffered, dropped or spawned as specified and the desk stays orderly |
| `SignalDelivery.SignalDesk.SetSignalHandler` | dbosify/_internal/interpreter.py:2595-2622 | in place, a new handler takes its name's buffered signals, the dynamic one takes all |
| `SignalDelivery.SignalDesk.FlushPending` | dbosify/_internal/interpreter.py:2670-2678 | every queued signal is applied, in order, and the desk stays orderly |
| `SignalDelivery.SignalDesk.RunNextTask` | dbosify/_internal/interpreter.py:705-713 | in place, the oldest task's first run resolves its name again and calls what it finds, or loses the signal |
| `Carryover.ForwardInbox` | dbosify/_internal/interpreter.py:1216-1243 | sends the buffered signals, the outstanding cancel and the unread messages that may cross, in this order |
| `Carryover.ForwardedByName` | dbosify/_internal/interpreter.py:1216-1243 | of each name the buffered signals cross first, then the unread ones, each once and in order |
| `Carryover.EverythingCrossesOnce` | dbosify/_internal/interpreter.py:1233-1243 | every other unread message crosses once, the cancel request once more if outstanding, no activity message at all |
| `Carryover.ForwardedInOrder` | dbosify/_internal/interpreter.py:1216-1243 | what crosses are the buffered signals bucket by bucket, then the cancel request, then the unread messages but the run's own activity messages, in inbox order |
| `Carryover.NothingLost` | dbosify/_internal/interpreter.py:1092-1110 | across a continue-as-new what came to the run is what it settled followed by what its successor is sent |
| `Carryover.ChainSettlesInOrder` | dbosify/_internal/interpreter.py:1216-1243 | over any number of hops the signals of a name are settled once each in the order they came to the chain |
| `Carryover.RetryHopConserves` | dbosify/_internal/dispatcher.py:293-324 | a retry or cron hop conserves a name's signals exactly when none of that name was still buffered |
| `Updates.ClosedRunsHaveAnswered` | dbosify/_internal/interpreter.py:2819-2927 | in a closed run every seen update has one acceptance reply, accepting it if and only if the first verdict on it welcomes it; a rejected one has one rejecting result; an accepted one has one result exactly when its handler did not end the run, saying how a step finished the handler or that the run abandoned it; no result precedes its acceptance |
| `Updates.VerdictsDecide` | dbosify/_internal/interpreter.py:2819-2892 | over every run an update is seen if it arrived, its handler started if and only if the first verdict on it welcomes it, and turned away if and only if that verdict refuses it or finds no handler |
| `Updates.EndedAsFinished` | dbosify/_internal/interpreter.py:2893-2932 | over every run a handler ended as the step says that finished it |
| `Updates.RunsInSpawnOrder` | dbosify/_internal/interpreter.py:2738-2759 | over every run exactly the handlers spawned and not yet finished are running, in spawn order |
| `Updates.FirstOutcomeStays` | dbosify/_internal/interpreter.py:1304-1307 | over every run the first outcome asked for is the run's outcome |
| `Updates.AbandonsInOrder` | dbosify/_internal/interpreter.py:2761-2783 | abandoned handlers are answered in the order they were spawned |
| `Updates.NoReplyTwice` | dbosify/_internal/interpreter.py:2761-2781 | at every point no reply is written twice, and a finished handler is unanswered only once an outcome is set |
| `Updates.DuplicatesLeaveNoTrace` | dbosify/_internal/interpreter.py:2819-2823 | removing every redelivery from a run leaves the same final state |
| `Updates.CloseTallied` | dbosify/_internal/interpreter.py:2761-2781 | closing answers each running update handler once and no other |
| `Updates.RunsStayTallied` | dbosify/_internal/interpreter.py:2819-2927 | the reply counts hold over every run of deliveries, signal tasks, endings, flushes and closes |
| `UpdateDelivery.UpdateDesk.ApplyUpdate` | dbosify/_internal/interpreter.py:2819-2892 | in place, a duplicate changes nothing, a rejected update gets both replies and no handler, an accepted one its acceptance and a handler |
| `UpdateDelivery.UpdateDesk.FinishHandler` | dbosify/_internal/interpreter.py:2894-2927 | a handler's end writes its result, or sets the run's first outcome instead |
| `UpdateDelivery.UpdateDesk.FlushOutbox` | dbosify/_internal/interpreter.py:2012-2022 | queued replies are written in order and the outbox is emptied |
| `UpdateDelivery.UpdateDesk.FailAbandonedUpdates` | dbosify/_internal/interpreter.py:2761-2781 | one failure reply per running update handler, in spawn order |
| `UpdateDelivery.UpdateDesk.CloseRun` | dbosify/_internal/interpreter.py:1049-1058 | a close flushes and answers for the abandoned, a failed task drops what was not committed |
| `ParentClose.Namespace.TerminateChildTree` | dbosify/_internal/interpreter.py:2264-2287 | ends on cyclic records too, terminates exactly the open runs that terminate edges reach through open runs, once each, and serves each of their request-cancel edges once |
| `ParentClose.Namespace.SweepChildrenOnClose` | dbosify/_internal/interpreter.py:2240-2262 | terminates exactly the open runs behind the terminate edges of the started children, and sends one cancel to the current run of each request-cancel child |
| `ParentClose.Namespace.ApplyParentClosePolicies` | dbosify/client.py:1887-1916 | terminates exactly the open runs behind the terminate edges of the terminated run, and serves a request-cancel edge at most once, surely if its child stays open |
| `ParentClose.ProgressKills` | dbosify/_internal/interpreter.py:2278-2287 | after a subtree is terminated everything gone is doomed from the run and nothing gone leads to an open run |
| `ParentClose.ShutDooms` | dbosify/_internal/interpreter.py:2264-2287 | what lost its root and left no open child behind lost everything reachable from the root |
| `ParentClose.RepeatFindsNothing` | dbosify/_internal/interpreter.py:2240-2248 | repeating a termination, as a replay does, finds nothing left to terminate |
| `ParentClose.WalkKills` | dbosify/client.py:1887-1916 | cancelling a child and walking below it keeps the walk's account of runs and cancels |
| `Visibility.QueryMeansItsConjunction` | dbosify/_internal/visibility.py:188-263 | a conjunction repeating neither kind of WorkflowId clause nor an attribute name lists a row, by filter and post-filter together, iff the row satisfies every clause |
| `Visibility.QueryMeansItsLastClauses` | dbosify/_internal/visibility.py:322-416 | any conjunction lists exactly the rows that satisfy the clauses no later clause of the same slot replaces |
| `VisibilityClauses.QueryMeansItsClauses` | dbosify/_internal/visibility.py:322-416 | for every conjunction of supported clauses a row is listed if and only if every clause that no later one on the same id or attribute replaces holds of it, each field and operator meaning what its text says |
| `VisibilityClauses.ReadsSupported` | dbosify/_internal/visibility.py:322-416 | the reader accepts exactly the field, operator and value combinations of the language |
| `VisibilityClauses.FieldNamesRoundTrip` | dbosify/_internal/visibility.py:39-45 | a system field is read from its canonical name in any case and from nothing else |
| `VisibilityClauses.StatusNamesRoundTrip` | dbosify/_internal/visibility.py:49-60 | a status is read from its canonical name or second spelling in any case and from nothing else |
| `Visibility.FiltersAreExact` | dbosify/_internal/visibility.py:188-263 | database filter and row predicate together ask exactly what the query object says |
| `Visibility.StatusPushdown` | dbosify/_internal/status.py:28-55 | the pushed-down statuses admit every row wanted, and decide alone when no wanted status shares ERROR |
| `Visibility.ApplyMeans` | dbosify/_internal/visibility.py:322-416 | a clause narrows the query, or replaces its own slot and touches no other |
| `Visibility.RepeatedWorkflowIdReplaces` | dbosify/_internal/visibility.py:344-356 | a repeated WorkflowId clause lists a row the first clause excludes |
| `Visibility.TimedOutListsNothing` | dbosify/_internal/status.py:28-55 | asking for TimedOut lists nothing |
| `VisibilityQueries.VisibilityQuery.ApplyClause` | dbosify/_internal/visibility.py:322-416 | a supported clause joins the conjunction in place, any other is refused and leaves the query as it was |
| `VisibilityQueries.VisibilityQuery.ReadStatuses` | dbosify/_internal/visibility.py:358-376 | the statuses named, or none if a name is unknown |
| `Listing.SurvivorsAreWanted` | dbosify/client.py:1020-1045 | scanning with the filters and keeping what the page keeps gives the visible rows the clauses ask for, in order |
| `VisibilityClauses.PrintsAsRead` | dbosify/_internal/visibility.py:322-416 | values compared as text are read as they print: text itself, a number as printed, True and False |
| `Listing.RunsAreVisible` | dbosify/client.py:1034-1041 | every run of a workflow is visible and no replay scratch run is |
| `Listing.ChainClauseCoversTheChain` | dbosify/_internal/visibility.py:240-250 | a WorkflowId clause admits every run of the chain |
| `Listing.ChainClauseAdmitsExactly` | dbosify/_internal/visibility.py:240-250 | among the runs of all workflow ids the clause admits exactly the chain and the runs of automatic descendants of the chain's later runs |
| `Listing.ChainClauseAdmitsChildren` | dbosify/_internal/visibility.py:240-250 | a concrete automatic child of a later run of a is admitted by WorkflowId = a and is no run of a |
| `Paging.WorkflowExecutionIterator.FetchNextPage` | dbosify/client.py:1020-1051 | the page and what its token leads to are what was ahead; a token is withheld only at the end or for an empty page size |
| `Paging.WorkflowExecutionIterator.Next` | dbosify/client.py:1057-1074 | yields the first row ahead, skipping empty pages, or nothing at the end or at the limit |
| `Paging.WorkflowExecutionIterator.Drain` | dbosify/client.py:1057-1074 | iterating to the end yields every surviving row in order, up to the limit, whatever the page size |
| `Paging.SurvivorsConcat` | dbosify/client.py:1032-1041 | filtering page by page filters the whole listing |
| `Cron.ExactUnlessLogged` | dbosify/_internal/schedules.py:73-114 | for every whole-second period the expression fires at exactly the multiples of the period if and only if it was not logged as an approximation |
| `Cron.RoundIsNearest` | dbosify/_internal/schedules.py:90 | a period is rounded to the nearest second, a tie to the even one |
| `Cron.ApproximationIsNearest` | dbosify/_internal/schedules.py:91-114 | what is logged as an approximation fires every as many seconds, every whole days up to 31, or the nearest whole number of minutes and the hour from 60 on |
| `Cron.HoursAreExact` | dbosify/_internal/schedules.py:102-107 | a period of hours dividing the day fires exactly at its multiples |
| `Cron.MinutesAreExact` | dbosify/_internal/schedules.py:96-101 | a period of minutes dividing the hour fires exactly at its multiples |
| `Cron.SecondsAreExact` | dbosify/_internal/schedules.py:91-95 | a period of seconds dividing the minute fires exactly at its multiples |
| `Cron.UnevenMinutesDisagree` | dbosify/_internal/schedules.py:112-114 | an approximation at minute granularity misses or adds a firing |
| `Cron.DaysDisagree` | dbosify/_internal/schedules.py:108-111 | a step of several days restarts with the month and misses its multiples |
| `Cron.ShortIntervalsFail` | dbosify/_internal/schedules.py:82-92 | half a second or less fails by division by zero, and only that |
| `Cron.RangesToField` | dbosify/_internal/schedules.py:160-180 | the field matches exactly the domain values some range includes, and is a star exactly for unconstrained ranges |
| `Cron.CalendarToCron` | dbosify/_internal/schedules.py:125-157 | the expression fires exactly when every field admits the moment, of a constrained day and weekday one being enough |

## Left out

Assumptions of the model, and what it does not capture:

- Function ids are claimed in the order of the command list; the event loop's task scheduling that makes this so is not modelled.
- Workflow and activity bodies, interceptors, payload codecs and type hints are abstract functions; the workflow code is one deterministic version of itself, code changes enter only through patch markers.
- Postgres and DBOS are a log of entries by function id, an atomic batched lookup, an idempotent enqueue by id, and a first-in first-out inbox per run.
- The horizon check of replay forks (`_check_replay_horizon`) and the rehydrate serving loop: only ordinary executions are modelled.
- InterpreterLoop.Execution.Execute: takes a step budget, because workflow code may re-arm due timers for ever within one turn.
- The interpreter loop treats the workflow object, its handlers and its bookkeeping of activities and children as one abstract state; the activity, signal and update state are modelled apart, not inside it.
- LoopReference.MachineRunsTheLoop: speaks of passes that come to an end or to a missing record within their fuel; how far a replay gets inside a pass that does not is left to the step machine alone.
- In `Patches` workflow code is a function from the answers so far to the next call and its position: whatever else the code has read by then is durable, and executions that agree on the answers read it again.
- CurrentRun.ResolveGrowing: as for `ResolveLatestRun`, the chain's length is bounded during the call.
- LatestRun.ResolveLatestRun: needs a bound on the chain's length during the call, because the ladder is extended for as long as the chain outgrows it.
- Deletion of old runs, beyond `ResolveFixed`: resolution may answer none when no ladder index survives.
- RunChain.ChainsStayProper: keeps a run's attempt, retry policy and cron flag only; arguments, headers, memo and delays of a hop are not modelled.
- Attempts.LocalSimulatesQueued: assumes recorded end times that include the backoffs, and that no other event moves virtual time; parking of the queued path (`_await_async_completion`) is not modelled.
- Attempts.RunQueuedActivity: an attempt that completes later is the outcome its parking ended with; the park and its wait are not modelled.
- Attempts.RunAttempts: as for `RunQueuedActivity`, parking is not modelled.
- ActivityHosting.ActivityHost.SweepCancellations: retires activities only; child retirement, the events that tell an external completer, and cross-process cancel signals are not modelled.
- Wall-clock seconds are reals, so rounding of float arithmetic is not modelled; delays never overflow.
- The attempt step's watchdog, heartbeats to a running attempt and the cross-process cancel signals of the sweep are effects outside the activity table.
- ActivityHosting.ActivityHost.DeliverRound: takes the inbox waiter's message as an item of the round; waiters of timers and children are items that only move the clock.
- ActivityBudget.AttemptsAreBounded: excludes failures that override the next retry delay, since an override of zero or less is not charged.
- Digits of run indexes are ASCII; `str.isdigit` also accepts other digits. Scratch suffixes are assumed to be hexadecimal tokens.
- Carryover.ChainSettlesInOrder: assumes that no sender reaches the successor before the forwarded messages do, and that the outstanding receive had consumed nothing at the close.
- Signals whose payload fails to decode are dropped by an abstract decoding predicate. In the carryover statements a signal counts as settled once its task is spawned, also if that task then finds no handler.
- Updates: the validator's verdict is an input of the step; an update handler unset before its task first runs fails the task, which is one of the endings here; query replies share the outbox but are not modelled.
- ParentClose.Namespace.TerminateChildTree: reads run statuses and current runs as they are at the start, changed only by its own cancels.
- Search attributes of visibility rows are scalars; list-valued attributes, sort order and aggregate counts are not modelled. Rows have a status this version knows.
- The database reads a filter list as membership, an empty one as matching nothing, and time bounds as inclusive.
- The tokenizer and clause parser of visibility queries, with `GROUP BY`, are not modelled.
- Paging.WorkflowExecutionIterator.Drain: the listing does not change between pages.
- Cron expressions are token lists, their rendering to text is not modelled; years, offsets and time zones are not modelled, and of the calendar only the days of early 1970 that the counterexamples need.
- Cron.CalendarToCron: combines a constrained day and a constrained weekday as cron does, by either.
- Client start side effects (terminating the running run, with-start messages), schedule overlap policies, handles, workers, query handling and continue-as-new argument encoding.
