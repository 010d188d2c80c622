# A verified model of the demo's event pipeline, launch control and reporting folds

The repository runs a small service (an api, a worker, two queues, a database) on environments that a
public button launches and a watchdog tears down, and it publishes what every run did and cost. This
project models five of its parts in Dafny and proves what their code promises.

1. **The event pipeline** (`Events`, `Pipeline*`). A state machine whose steps are single operations: one
   transaction, one statement, one queue call. Any number of relays, workers and consumers interleave, any
   of them may die between any two steps, a send may be kept and still raise, a queue may hand a message out
   again, set it aside or have it redriven. `PipelineSafety` holds the invariant and its preservation,
   `PipelineTheorems` the safety statements over reachable states and runs, `PipelineDrain` the measure of work
   left and what each step does to it, `PipelineLiveness` a run that finishes the work from every reachable state, whatever is
   half done in it.
   `PipelineProcesses` writes the worker, the relay, the consumer and the request as the code does, with their
   counters and mutated rows, and proves that they take only steps of the machine.
2. **Launch control** (`ControlStore`, `Launch*`, `QuotaReset`). Presses interleave one store call at a time,
   and any call may fail before or after it was applied. The store's operations are conditions and
   effects on one table; the handler is proved to be a run of the press machine. The quota day is a date in an
   abstract zone.
3. **The watchdog** (`Scope`, `Sweep`, `Watchdog`, `WatchdogHandler`, `WatchdogResponse`). What it decides, the order in which its effects
   reach the store, what holds over every interleaving of its invocations, and how soon it responds.
4. **The folds** (`FoldTimeline`, `TimelineTheorems`, `NodeStates`, `NodeTheorems`, `FoldCost`, `CostAmounts`, `CostProperties`,
   `CostPhases`). An event stream folded in place into records, the join of records with the estate map, and lifetimes priced and attributed to phases.
   Money is exact reals, times are whole seconds, rounding is written out.
5. **Orphans** (`Arns`, `OrphanSweep`, `Adoption*`), **the request walk** (`AppFlow*`) and **the brace matchers** (`Block*`).

Where the code and its own words differ, the model follows the code:

- a record that completed is not reopened by a later `apply_start`, although the header of `fold-timeline.py` says that a
  start must be answered (`FoldTimeline.CompleteMeansAnswered` states exactly when the two agree);
- the first increment of a day is accepted whatever the cap is (`LaunchSafety.CapIsKeptExactly`);
- a press allowed to act for longer than its lock lasts can release the next press's lock; over presses alone every release
  is of one's own lock if and only if nobody acts later than that (`LaunchSafety.OwnReleasesExactly`);
- a teardown killed between a delete's start and its finish leaves a cost band whose high end is below its low
  end, and so does an address that was started again, later, after it had completed: even a stream in order that ran to
  its end prices 90 seconds at least and 80 at most (`CostProperties.KilledTeardownTurnsTheBand`,
  `CostProperties.RestartTurnsTheBand`). `CostProperties.BandHoldsExactly` says when a band holds, for any times, and
  `CostProperties.RecordInOrderExactly` which ordered streams fold to records in order;
- a rate published for an open row re-prices it exactly only once its creation is past and, for the high end, past the
  minimum charge (`CostProperties.RepricingIsExact`);
- a row that was never deleted, or whose deletion has no known start, is priced to one end and shared among the phases to
  another, the end of the cycle (`CostAmounts.SharedLifetimeExactly` says when the two lifetimes are one);
- overlapping phase windows count a second twice (`CostPhases.MoneyIsConservedExactly`);
- the string-blind scanners part from the string-aware one on blocks like `{k="}"}` (`Blocks.LoneBraceInAString`); they
  agree if and only if the braces hidden in strings cancel out by the end and never take away all that is open
  (`Blocks.ScannersAgreeExactly`);
- an ARN of a load balancer or a target group whose resource is named nothing but `app` makes the adoption plan raise, and
  no other does (`Adoption.RaisesExactly`, `Adoption.AnUnnamableBalancer`);
- where the clock jumps over a midnight, and not from the second before it, the quota reset is not exact
  (`QuotaReset.ResetIsExactExactly`).

The scope of a sweep tells sets of launch ids apart as long as ids hold no comma (`Scope.ScopeIsTheSet`,
`WatchdogHandler.CommasConfuseScopes`); the launch endpoint admits none that does (`WatchdogHandler.AcceptedIdsArePlain`).

`dafny verify dfyconfig.toml` checks the whole project.

## Model

| member | source | states |
|---|---|---|
| `PipelineTheorems.NoEventIsLost` | app/src/main.py:203-215 | in every reachable state an item made by `create_item` is deleted, projected, or still in an unpublished row, an items message or a report, dead letters included |
| `PipelineTheorems.ReportsTellTheReceipt` | worker/consumer/main.py:104-114 | every report ever queued and every projection carries the time and worker of the item's one receipt |
| `PipelineTheorems.ConflictFindsTheReceipt` | worker/consumer/main.py:112-114 | the row read back after a conflict always exists, so the code's unguarded `row[0]` is safe |
| `PipelineTheorems.FirstReportWins` | app/src/results.py:75-91 | along any run a live item's projection never changes once written, and a receipt never changes at all |
| `PipelineTheorems.GoneStaysGone` | app/src/main.py:314-324 | an id that was drawn and is gone is never an item again |
| `PipelineRequests.ReachableNamesDiffer` | app/src/main.py:188-223 | in every reachable state no two live items share a name |
| `PipelineRequests.CreateExactly` | app/src/main.py:188-223 | refused if and only if a live item has the name, and then only an id is lost; otherwise one item and one unpublished row more, whose event parses to it |
| `PipelineRequests.RenameExactly` | app/src/main.py:277-311 | refused if and only if the item is not there or another has the name; changes that one name and nothing else |
| `PipelineTheorems.BuiltMessagesParse` | worker/consumer/handler.py:29-90 | with no foreign sender, no message or report is ever poison |
| `PipelineTheorems.PoisonIsNeverDeleted` | worker/consumer/main.py:120-127 | poison stays on its queue along every run; it can only become a dead letter |
| `PipelineTheorems.SpentBalance` | app/src/outbox.py:41-81 | the exact per-step account of a row's copies: put on the queue, remembered, forgotten |
| `PipelineTheorems.SentOncePlusForgotten` | app/src/outbox.py:41-81 | over any run, copies queued equal one if published plus every copy a raise or a death before commit forgot |
| `PipelineTheorems.PublishedRowWasSent` | app/src/outbox.py:68-81 | a published row was queued exactly once more than the copies forgotten |
| `PipelineSafety.StepKeeps` | app/src/outbox.py:68-81 | every step of every process, crash and queue keeps the invariant |
| `PipelineSafety.ReachableKeeps` | worker/consumer/main.py:116-162 | so every reachable state has it |
| `PipelineDrain.WorkBalance` | app/src/outbox.py:41-81 | 3 per unpublished row + 2 per message + 1 per report changes by exactly what each step says: -3 a row marked, -2 a message handled, -1 a report handled, up only on a create or a copy |
| `PipelineDrain.OnlyPoisonLeftMeansProjected` | app/src/results.py:100-119 | once rows are published and both queues, dead letters included, hold nothing but poison, every live created item is projected with its receipt's time and worker |
| `PipelineDrain.NothingLeftMeansProjected` | app/src/results.py:100-119 | so it is at zero |
| `PipelineLiveness.TakeMessage` | worker/consumer/main.py:116-162 | whatever place a message that parses is in, a run handles it and leaves one unit less |
| `PipelineLiveness.TakeReport` | app/src/results.py:100-119 | a waiting report that parses can always be recorded and deleted |
| `PipelineLiveness.TakeRows` | app/src/outbox.py:68-81 | a pass over the oldest unpublished rows leaves less work |
| `PipelineLiveness.CloseEveryPass` | app/src/outbox.py:68-81 | any number of open passes can end, at no cost in work |
| `PipelineLiveness.Drains` | app/src/outbox.py:84-102 | from every state the invariant allows, open passes and poison included, a run leaves nothing but poison and changes no item; and zero work when there was no poison |
| `PipelineLiveness.EveryItemCanBeProjected` | app/src/results.py:82-91 | after any run at all, every live created item can be brought to its projection |
| `PipelineProcesses.CreateItemRequest` | app/src/main.py:188-223 | one transaction writes the item and its row, or neither; the name taken or a death writes nothing |
| `PipelineProcesses.WorkerProcess.Receipt` | worker/consumer/main.py:104-114 | the receipt written now, or the earlier one read back; both are steps of the machine |
| `PipelineProcesses.WorkerProcess.Handle` | worker/consumer/main.py:116-162 | parse, receipt, report, delete in that order; exactly one outcome of five deletes; the counters say which |
| `PipelineProcesses.WorkerProcess.Publish` | worker/consumer/main.py:140-151 | the report queued is the receipt's |
| `PipelineProcesses.WorkerProcess.Take` | worker/consumer/main.py:116-127 | the next message, parsed; nothing on any queue moves |
| `PipelineProcesses.WorkerProcess.Fail` | worker/consumer/main.py:140-151 | a report that raised leaves the message and the receipts, kept or not |
| `PipelineProcesses.WorkerProcess.GiveUpNow` | worker/consumer/main.py:128-136 | a refused receipt changes nothing shared and drops the connection |
| `PipelineProcesses.WorkerProcess.Finish` | worker/consumer/main.py:152-162 | the delete, or a death in its place, after the report |
| `PipelineProcesses.OutboxEvent.Note` | app/src/outbox.py:54-65 | a row is marked if its send returned, and counts the attempt either way |
| `PipelineProcesses.SendOne` | app/src/outbox.py:50-66 | one send: the queue takes the copies, the session alone knows the mark |
| `PipelineProcesses.RelayBatch` | app/src/outbox.py:41-65 | every row tried once, marked exactly when its send returned, counted either way; nothing committed |
| `PipelineProcesses.TryRow` | app/src/outbox.py:50-64 | one row in place: the ones before it noted, the ones after it untouched |
| `PipelineProcesses.ChangesAre` | app/src/outbox.py:41-65 | what the session holds after n rows is each row's own change |
| `PipelineProcesses.RelayOnce` | app/src/outbox.py:68-81 | a pass that dies leaves the outbox as it was, one that commits writes exactly the batch's changes |
| `PipelineProcesses.Record` | app/src/results.py:82-91 | recorded, already, gone: when each, and what each writes |
| `PipelineProcesses.HandleReport` | app/src/results.py:100-119 | a report is deleted only after its insert was answered; a refusal leaves it |
| `Events.CreatedRoundTrip` | app/src/events.py:67-82 | what the api builds, the worker parses to the same item and request |
| `Events.ProcessedRoundTrip` | app/src/results.py:42-72 | what the worker builds, the api parses to the same report |
| `Events.UnreadFieldsAreIgnored` | worker/consumer/handler.py:29-55 | a field the parser does not read changes nothing |
| `ControlStore.ControlTable.IssueNonce` | infra/self-service/src/store_dynamodb.py:38-48 | a nonce is live until its time, or the call failed before or after writing it |
| `ControlStore.ControlTable.RedeemNonce` | infra/self-service/src/store_dynamodb.py:50-73 | redeems exactly a live nonce, and a failed answer may still have spent it |
| `ControlStore.ControlTable.TakeLock` | infra/self-service/src/store_dynamodb.py:76-101 | takes exactly an absent or expired lock |
| `ControlStore.ControlTable.ReleaseLock` | infra/self-service/src/store_dynamodb.py:114-118 | deletes whatever lock is there |
| `ControlStore.ControlTable.IncrementDay` | infra/self-service/src/store_dynamodb.py:188-214 | counts when the day is absent or below the cap |
| `ControlStore.ControlTable.NoteSweep` | infra/self-service/src/store_dynamodb.py:138-158 | the record is replaced, or the call failed before or after that |
| `ControlStore.ControlTable.ClearSweep` | infra/self-service/src/store_dynamodb.py:160-166 | the record is gone, or the call failed before or after that |
| `LaunchSafety.CapIsKept` | infra/self-service/src/control.py:226-343 | over every run, launches allowed on a day are at most its counter, which is at most the cap, when the cap is at least one |
| `LaunchSafety.CapIsKeptExactly` | infra/self-service/src/store_dynamodb.py:200-206 | the counter keeps to the cap over all runs if and only if the cap is at least one |
| `LaunchSafety.NonceIsSpentOnce` | infra/self-service/src/store_dynamodb.py:50-73 | redemptions of a nonce never exceed its issues, and every allowed press redeemed one |
| `LaunchSafety.ReleaseIsOfOnesOwn` | infra/self-service/src/control.py:287-332 | over presses that act before their deadline, a release finds the releaser's own lock |
| `LaunchSafety.OneLaunchAtATime` | infra/self-service/src/launch_handler.py:227-252 | two allowed presses with overlapping lock windows: the earlier dispatch failed and gave back first |
| `LaunchSafety.OwnReleasesExactly` | infra/self-service/src/store_dynamodb.py:114-118 | over runs of presses that each act within a limit of their start, every release is of one's own lock if and only if the limit is no longer than the lock's time |
| `LaunchSafety.LateReleaseIsOfAnothers` | infra/self-service/src/store_dynamodb.py:114-118 | for every longer limit, a run within it that releases another press's lock |
| `LaunchHandler.DecideLaunch` | infra/self-service/src/control.py:174-343 | lets a press through if and only if the id is admitted, the switch is read and off, the endpoint is configured, the nonce is redeemed live, GitHub is idle, the lock is taken free or expired, and the day is counted below its cap or for the first time; the store is left where the press machine's calls leave it |
| `LaunchHandler.CountLaunch` | infra/self-service/src/control.py:312-332 | the count, and the lock given back when the cap or the store refuses it |
| `LaunchHandler.LaunchOnce` | infra/self-service/src/launch_handler.py:180-262 | launches if and only if the press is let through and its dispatch works; decision, dispatch, release on a failed dispatch: code and store are the machine's |
| `LaunchHandler.FirstFailedGuardrail` | infra/self-service/src/control.py:174-343 | the first guardrail that fails, in the order of the code and in the terms of the store's fields and the answers, is the refusal; past all of them the press comes to its dispatch |
| `LaunchHandler.AllowedExactly` | infra/self-service/src/control.py:201-343 | when a press comes to its dispatch, condition by condition, both ways |
| `LaunchHandler.LaunchingExactly` | infra/self-service/src/launch_handler.py:180-262 | when it ends in a launch, both ways |
| `LaunchHandler.LaunchingLeaves` | infra/self-service/src/control.py:226-343 | a launch leaves its nonce gone, its lock until now plus its time, its day counted once more, and nothing else changed |
| `LaunchHandler.FinishedIsARun` | infra/self-service/src/launch_handler.py:180-262 | an uninterrupted press is a run of the interleaved machine |
| `LaunchHandler.CodeTellsTheStore` | infra/self-service/src/control.py:226-343 | every code, with the first call that failed, names exactly what the press left in the store |
| `QuotaReset.QuotaResetIsExact` | infra/self-service/src/control.py:155-171 | positive; the date holds until then and is the next one there; wall-clock time left less what the clock gains, so 23- and 25-hour days are right |
| `QuotaReset.ResetIsExactExactly` | infra/self-service/src/control.py:160-171 | where dates are monotone, exact if and only if the next date begins at its midnight, shown or jumped over from the second before it |
| `QuotaReset.DateAlwaysTurns` | infra/self-service/src/control.py:155-157 | in a zone whose offsets stay within a day every date ends |
| `Scope.ScopeIgnoresOrder` | infra/self-service/src/sweep.py:84-86 | the same ids in any order and any number are one scope |
| `Scope.ScopeIsTheSet` | infra/self-service/src/sweep.py:84-86 | for comma-free non-empty ids, two scopes are equal if and only if the sets are |
| `Scope.JoinInjective` | infra/self-service/src/sweep.py:84-86 | joining by commas loses nothing |
| `WatchdogHandler.CommasConfuseScopes` | infra/self-service/src/sweep.py:84-86 | with commas in ids two different sets share a scope |
| `WatchdogHandler.AcceptedIdsArePlain` | infra/self-service/src/control.py:201-207 | every launch id the endpoint admits is comma-free and not empty |
| `Watchdog.NoTeardownUnannounced` | infra/self-service/src/watchdog_handler.py:117-140 | over every run, a set of launches torn down at t was asked about, and that recorded for the same set, at or before t minus grace |
| `WatchdogResponse.BoundedResponseOverRuns` | infra/self-service/src/sweep.py:111-161 | one scope out of time at every visit - by a tag that is missing, unreadable or not ahead, or by a lock that is gone or out of time - and no record of it: over every run of undisturbed visits up to the first past the grace period, Actions is asked once, by the first, nothing is torn down before, and that visit tears down |
| `WatchdogResponse.VisitsDoWhatIsDecided` | infra/self-service/src/watchdog_handler.py:106-140 | a run of such visits asks and tears down exactly where the decisions, each from the record the one before left, say so |
| `WatchdogResponse.VisitLeaves` | infra/self-service/src/watchdog_handler.py:106-140 | what one undisturbed invocation leaves of the record, and what it asked and tore down |
| `SweepDecision.NothingAliveExactly` | infra/self-service/src/sweep.py:122-134 | with nothing alive the lock is released if and only if it is there and its time is out, and the record is cleared if and only if there is one |
| `SweepDecision.WithinDeadlineExactly` | infra/self-service/src/sweep.py:89-144 | something alive is left alone if and only if the lock is there and in time and every tag is readable and ahead |
| `SweepDecision.OverdueExactly` | infra/self-service/src/sweep.py:136-179 | anything else alive is asked for without a readable record of this scope, waited for within the grace period and torn down after it, with exactly these effects |
| `WatchdogHandler.Handler` | infra/self-service/src/watchdog_handler.py:91-143 | the decided effects in order under every failed call, and the calls made are a run of the machine; with nothing alive a lock in time is kept and one out of time released; it stays within the deadline, and changes nothing, if and only if something is alive, its lock in time and every tag readable and ahead |
| `WatchdogHandler.Execute` | infra/self-service/src/watchdog_handler.py:117-140 | the decided effects, in order, each failed call leaving what it leaves |
| `WatchdogHandler.Observe` | infra/self-service/src/watchdog_handler.py:150-198 | the resources with a Launch tag, in order |
| `Watchdog.Observed` | infra/self-service/src/watchdog_handler.py:197-198 | every resource with a Launch tag is seen, and no other |
| `WatchdogHandler.BluntTeardown` | infra/self-service/src/watchdog_handler.py:240-280 | what worked, kind by kind, one failure not stopping the next |
| `WatchdogHandler.DeleteKind` | infra/self-service/src/watchdog_handler.py:243-280 | one kind: every resource of it attempted, the ones that worked listed in order |
| `WatchdogHandler.EverythingIsAttempted` | infra/self-service/src/watchdog_handler.py:240-280 | every live resource is attempted exactly once |
| `WatchdogHandler.DeletedExactly` | infra/self-service/src/watchdog_handler.py:240-280 | what a run reports as deleted are the ids of what was alive and could be deleted, and only when it tears down |
| `FoldTimeline.Operation.ConsumeHook` | scripts/fold-timeline.py:274-315 | one record updated in place is what the whole stream says of every address |
| `FoldTimeline.Operation.Consume` | scripts/fold-timeline.py:203-272 | the fields always are what the events seen so far say |
| `FoldTimeline.Operation.Read` | scripts/fold-timeline.py:155-201 | blank and unparsed lines are skipped and counted, parsed ones folded in order |
| `FoldTimeline.Operation.ToJson` | scripts/fold-timeline.py:347-378 | the published operation, records in order of first mention |
| `FoldTimeline.CompleteExactly` | scripts/fold-timeline.py:318-331 | complete if and only if exit code 0, a terminal summary, and every hooked address ends completed |
| `FoldTimeline.RecordIsComplete` | scripts/fold-timeline.py:302-315 | a record is complete if and only if its address's last completed-or-errored event is a completion |
| `FoldTimeline.CutShortIsNotComplete` | scripts/fold-timeline.py:318-331 | no prefix before its summary, and no stream without an exit code, is complete |
| `FoldTimeline.CompleteMeansAnswered` | scripts/fold-timeline.py:302-315 | the record says what the header says if and only if nothing was started again after it completed |
| `FoldTimeline.TimelineCompleteExactly` | scripts/fold-timeline.py:397-405 | a timeline is complete if and only if it has operations and all ran to their end |
| `TimelineTheorems.ErroredExactly` | scripts/fold-timeline.py:318-331 | an operation is errored if and only if the process returned and with an error of its own or one that stands on some address; incomplete if and only if it did not return, or returned zero with nothing errored and no summary or an address that never ended |
| `TimelineTheorems.TimelineStatusExactly` | scripts/fold-timeline.py:397-405 | a timeline is incomplete if and only if it has no operations or one of them is; errored if and only if it is not that and one of them is |
| `TimelineTheorems.RecordIsErrored` | scripts/fold-timeline.py:302-315 | a record is errored if and only if the last completed-or-errored event on its address is an error |
| `TimelineTheorems.RecordTells` | scripts/fold-timeline.py:274-315 | each field of a record is that of one event: the last start, the last outcome, the last progress, the last completion |
| `TimelineTheorems.RecordIsSilent` | scripts/fold-timeline.py:274-315 | and is empty when no such event came |
| `TimelineTheorems.RecordIsAsFirstMet` | scripts/fold-timeline.py:274-300 | module, kind and name are those of the first event on the address |
| `TimelineTheorems.ActionStands` | scripts/fold-timeline.py:274-300 | the action is the last that was named |
| `TimelineTheorems.ActionAsFirstMet` | scripts/fold-timeline.py:274-300 | or, where none was, what the first event had |
| `TimelineTheorems.PlannedExactly` | scripts/fold-timeline.py:203-272 | what is planned of an address is what its last plan says, and nothing is where none was made |
| `TimelineTheorems.SummaryTells` | scripts/fold-timeline.py:203-272 | the command reached and its counts are those of the last apply or destroy summary |
| `TimelineTheorems.NoSummaryTells` | scripts/fold-timeline.py:203-272 | without one there are no counts, and no more was reached than a plan |
| `TimelineTheorems.LinesAreRead` | scripts/fold-timeline.py:155-201 | reading one stretch of lines after another reads both, in order |
| `FoldTimeline.Build` | scripts/fold-timeline.py:408-442 | status, window and totals of the operations; `TimelineTheorems.TotalsCount` says what the totals count |
| `TimelineTheorems.TotalsCount` | scripts/fold-timeline.py:408-442 | a total is the number of places, operation and record, whose record completed with an action that creates, or deletes |
| `FoldTimeline.TimelineEncloses` | scripts/fold-timeline.py:408-433 | the folded window encloses every time of every record |
| `FoldTimeline.OperationEncloses` | scripts/fold-timeline.py:209-214 | the window of one operation encloses the times of its records |
| `NodeTheorems.IndexIsTakenOut` | scripts/node-states.py:118-122 | the first index of an address is taken out whole, with its brackets, and what is before it stays |
| `NodeTheorems.UnchangedExactly` | scripts/node-states.py:118-122 | exactly the addresses with no index stay as they are |
| `NodeTheorems.StrippedHasNoIndex` | scripts/node-states.py:118-122 | an address stripped of its indices has none left |
| `NodeStates.Classify` | scripts/node-states.py:298-330 | each list holds exactly its bucket's records, in order |
| `NodeStates.BucketsSumToTheInput` | scripts/node-states.py:298-330 | the four totals sum to the input |
| `NodeStates.CountPlans` | scripts/node-states.py:270-296 | planned counts per node; no plan is not a plan of nothing |
| `NodeStates.StateOf` | scripts/node-states.py:332-377 | measured if and only if all records completed and they number at least the plan; the identifier is of a longest member |
| `NodeStates.DominantOf` | scripts/node-states.py:338-350 | the first of the longest members that finished and carry an id |
| `NodeStates.SpanPhases` | scripts/node-states.py:407-434 | each phase has the flat first start and last finish of its contributing nodes, and counts them |
| `NodeStates.IndexMembers` | scripts/node-states.py:199-211 | the last node of the environment to claim an address has it |
| `NodeTheorems.MembersExactly` | scripts/node-states.py:157-211 | a stripped address is indexed to the last node of this environment, and of no other, that has a member with the same stripped address; to none when there is no such node |
| `NodeTheorems.PhaseOfExactly` | scripts/node-states.py:174-239 | a node of the environment's estate that some phase creates is drawn in the last such phase; any other in the last phase whose cycle draws it; else in none |
| `NodeTheorems.TeardownExactly` | scripts/node-states.py:242-247 | the teardown is that of the first phase that has one for the environment |
| `NodeTheorems.FirstDestroyExactly` | scripts/node-states.py:242-247 | and in that phase the first such node |
| `NodeTheorems.RecordLandsExactly` | scripts/node-states.py:298-330 | from the map itself: when a record is a read, lands on a node - a delete on the teardown, anything else on the last node with its stripped address - is left undrawn, or is unknown |
| `NodeTheorems.BucketKeeps` | scripts/node-states.py:298-330 | each bucket holds its records as often as they came |
| `NodeTheorems.PlansExactly` | scripts/node-states.py:275-281 | what is counted as planned is what the operations' plans name |
| `NodeTheorems.PlannedAsObserved` | scripts/node-states.py:275-330 | a plan counts by the rule the records are sorted by: carried out in full, each node was planned exactly what it then has |
| `NodeTheorems.DurationKnownExactly` | scripts/node-states.py:334-369 | a duration is known if and only if some record has a start and some record a finish |
| `NodeTheorems.DurationIsTheSpan` | scripts/node-states.py:334-369 | and is the time from the first start to the last finish |
| `NodeStates.Join` | scripts/node-states.py:250-434 | all of it for one timeline: every record in the bucket of its stripped address, every node's state from its records and its plan, every phase's span |
| `FoldCost.PairingRefusals` | scripts/fold-cost.py:121-176 | every reason two timelines are not one cycle, and no other |
| `FoldCost.ResourcesFound` | scripts/fold-cost.py:95-102 | the last acting record of each address, in order of first mention |
| `FoldCost.FoundIsTheLast` | scripts/fold-cost.py:95-102 | what a dictionary holds under an address is the last record of it that acts |
| `FoldCost.PriceIsLinear` | scripts/fold-cost.py:105-118 | a price is one rate times the seconds, and whether it can be given does not depend on them |
| `FoldCost.ComponentCost` | scripts/fold-cost.py:105-118 | is the cost that `CostAmounts.CostExactly` states in figures, or the refusal |
| `CostAmounts.QuantityExactly` | scripts/fold-cost.py:110-114 | a quantity is the stated one times the product of the figures it asks for; there is none if and only if the shape lacks one of them |
| `CostAmounts.CostExactly` | scripts/fold-cost.py:105-118 | a component costs its quantity, times its figures, times its price, for each 3600 seconds or each 730 times 3600; refused if and only if the price or a figure is unknown |
| `CostAmounts.OneUnitCosts` | scripts/fold-cost.py:64-118 | 3600 seconds of an hourly component, and 730 times 3600 of a monthly one, cost exactly quantity times figures times price |
| `CostAmounts.PricesAddUp` | scripts/fold-cost.py:246-247 | the price of two lists of components is the sum of theirs, refused if and only if one of them is |
| `CostAmounts.PriceRefusedExactly` | scripts/fold-cost.py:105-118 | a price is refused if and only if some component's price or figure is unknown |
| `FoldCost.PriceRow` | scripts/fold-cost.py:192-278 | one created address: its bucket, state, band, rate, and what it adds before rounding |
| `CostAmounts.BilledExactly` | scripts/fold-cost.py:228-244 | from creation's end to deletion's start at least, from start to end at most, to the asking time where not deleted, never below the minimum |
| `FoldCost.PriceAll` | scripts/fold-cost.py:192-278 | every row in order and the exact sum, or a refusal when one price is missing |
| `FoldCost.RoundIsClose` | scripts/fold-cost.py:250-250 | rounding half to even is off by at most half a unit |
| `CostAmounts.RoundsToTheNearest` | scripts/fold-cost.py:250-251 | the nearest whole number, and of two as near the even one |
| `CostAmounts.PrintedDigits` | scripts/fold-cost.py:251-270 | dollars are whole millionths, within half of one; rates within half a millionth of that |
| `FoldCost.BuildCost` | scripts/fold-cost.py:179-319 | refused exactly when not one cycle or a price is missing; else one row per created address and their exact sum, rounded once |
| `CostProperties.NothingIsClamped` | scripts/fold-cost.py:159-167 | in two folded timelines accepted as a pair, every low lifetime is the plain difference of its two times |
| `CostProperties.BandHoldsExactly` | scripts/fold-cost.py:228-242 | for any times at all, low is at most high if and only if the start and the high end are known and the start is no later than the finish by more than the deletion took, or the low lifetime is within the minimum |
| `CostProperties.RecordInOrderExactly` | scripts/fold-timeline.py:302-315 | for events in order on an address, the folded record is in order if and only if the last start does not come, later, after the last outcome |
| `CostProperties.BandIsOrdered` | scripts/fold-cost.py:228-278 | from the captured streams: events in order, nothing restarted later and both outer times known give 0 <= low <= high for seconds, row costs and totals |
| `CostProperties.RepricingIsExact` | scripts/fold-cost.py:237-278 | asked d seconds later, each end rises by exactly d times the rate if and only if its end is past |
| `CostProperties.PrintedRowsSumToTheTotal` | scripts/fold-cost.py:244-306 | n printed row costs sum to the printed total within n + 1 half units |
| `CostPhases.AttributeToPhases` | scripts/fold-cost.py:322-359 | each bucket is what the rows gave its window, rounded once |
| `CostAmounts.SharedLifetimeExactly` | scripts/fold-cost.py:228-345 | a row is shared over the lifetime it was priced for if and only if both end together or there is none of either |
| `CostPhases.CoveredFits` | scripts/fold-cost.py:87-92 | disjoint windows never cover more seconds than a lifetime has |
| `CostPhases.OneMoreSecond` | scripts/fold-cost.py:87-92 | lengthening an interval by a second adds one for each window that holds it: overlap counts seconds |
| `CostPhases.Share` | scripts/fold-cost.py:347-351 | one row is given to every window in place, by the seconds it shares with each |
| `CostPhases.MoneyIsConserved` | scripts/fold-cost.py:334-352 | over disjoint windows, phases plus outside equal the low cost of every priced row with a positive lifetime |
| `CostPhases.MoneyIsConservedExactly` | scripts/fold-cost.py:334-352 | over any windows never less, and equal if and only if no lifetime is covered more than it has |
| `AppFlow.Walk.Draw` | scripts/generate-app-flow.py:151-156 | a numbered arrow is the next step and carries its number; any other carries none |
| `AppFlow.Walk.Visit` | scripts/generate-app-flow.py:203-241 | terminates; draws exactly the trail: own arrows, then each queue and its consumers, then each reader, every arrow with or without its number, in that order |
| `AppFlow.VisitExplores` | scripts/generate-app-flow.py:203-241 | along that trail what is newly visited is reached from the part, closed under links, visited once, and draws its own arrows once each |
| `AppFlow.JourneyVisitsTheReached` | scripts/generate-app-flow.py:201-247 | the walk visits exactly the parts reachable through publish-to-consume and write-to-read links, each once; its arrows are theirs and no others |
| `AppFlow.JourneyCountsUp` | scripts/generate-app-flow.py:151-156 | the numbered edges of the picture are its steps in order of meeting, numbered 1..n |
| `AppFlowOrder.JourneyInOrder` | scripts/generate-app-flow.py:201-241 | each reached part draws all its own arrows in order and with their steps - one write in a step, several in a transaction's, the answer, the publishes - and no other part any; no part draws before a delivery just drawn meets it or a part whose writes it reads has drawn all of its own; no delivery comes before its queue was published to |
| `AppFlowOrder.VisitInOrder` | scripts/generate-app-flow.py:203-241 | the same of one visit from any point of the walk |
| `AppFlowOrder.ReadBacksExactly` | scripts/generate-app-flow.py:251-263 | the way back is a step for each table the answering part looks at, does not write and another writes, as often as it looks at it |
| `AppFlowOrder.ConsumersExactly` | scripts/generate-app-flow.py:158-161 | who takes from a queue, in the order of the parts, each as often as it names it |
| `AppFlow.IndexConsumers` | scripts/generate-app-flow.py:158-161 | who takes from each queue, in order, as often as named |
| `AppFlow.Build` | scripts/generate-app-flow.py:149-263 | refuses if and only if some loop is not reached, naming each; otherwise the picture is the journey and the way back, arrow by arrow |
| `Blocks.TopologyBody` | scripts/generate-topology.py:96-116 | the body up to the brace that closes outside strings; an unclosed block loses its last character |
| `BlockTheorems.InStringExactly` | scripts/generate-topology.py:104-110 | a place is inside a string if and only if an odd number of quotes with no backslash before them stand before it |
| `BlockTheorems.AwareDepthExactly` | scripts/generate-topology.py:104-113 | the depth is what opened outside strings less what closed |
| `BlockTheorems.DepthExactly` | scripts/generate-schema.py:138-159 | and, for the scanners that know no strings, all that opened less all that closed |
| `BlockTheorems.InLineExactly` | scripts/generate-topology.py:77-93 | the same as in a block, for one line, whose first character nothing escapes |
| `Blocks.SchemaBody` | scripts/generate-schema.py:138-159 | the body up to the first balancing brace, refused if there is none |
| `Blocks.ModuleBlock` | scripts/sizing.py:84-99 | the first file whose module block opens and closes |
| `Blocks.Find` | scripts/sizing.py:88-90 | the first place a marker occurs, or none |
| `Blocks.ScannersAgreeExactly` | scripts/generate-topology.py:96-116 | the blind scanners close a closed block at the same brace if and only if the braces hidden in its strings cancel out and never take away all that is open |
| `Blocks.ScannersAgree` | scripts/generate-topology.py:96-116 | strings balanced in themselves: all three close at the same brace and the body is balanced |
| `Blocks.SameBody` | scripts/generate-schema.py:138-159 | so their bodies are one body |
| `Blocks.StripLine` | scripts/generate-topology.py:77-93 | cuts at the first comment outside strings, and nowhere else |
| `Blocks.StrippedHasNoComment` | scripts/generate-topology.py:77-93 | a stripped line has nothing more to strip |
| `Blocks.MetaAtTop` | scripts/generate-topology.py:119-141 | true if and only if `count` or `for_each` is given outside every string and nested block |
| `Arns.ParseReadsBack` | scripts/arns.py:45-80 | what an ARN was written with is what it is read as, for either separator, queues included |
| `Arns.MalformedReadsAsNothing` | scripts/arns.py:61-63 | fewer than five colons reads as nothing |
| `OrphanSweep.Walker.Walk` | scripts/sweep_orphans.py:103-131 | the walk finds exactly the spellings of every `arn` and `id` |
| `OrphanSweep.NothingIsTooDeep` | scripts/sweep_orphans.py:103-131 | an identifier at the end of any path is found |
| `OrphanSweep.NothingIsInvented` | scripts/sweep_orphans.py:103-131 | and every identifier found is a spelling of an `arn` or an `id` at the end of some path |
| `OrphanSweep.SpellingsExactly` | scripts/sweep_orphans.py:113-118 | a text is known under itself and without a `:*` at its end, and under nothing else |
| `OrphanSweep.ManagedExactly` | scripts/sweep_orphans.py:134-149 | managed if and only if held as it is, without its `:*`, or under the id it ends in, behind a colon, a slash or nothing |
| `OrphanSweep.CleanExactly` | scripts/sweep_orphans.py:172-257 | refuse, orphans, clean: when each, and what is reported |
| `OrphanSweep.NotPresentExactly` | scripts/sweep_orphans.py:222-231 | what is counted as not present: discovered, not there, and not left unchecked |
| `OrphanSweep.FatesKeep` | scripts/sweep_orphans.py:222-231 | each orphan is reported as often as it was discovered |
| `OrphanSweep.RefusalNamesTheSilent` | scripts/sweep_orphans.py:197-220 | a refusal names exactly the channels that answered nothing |
| `OrphanSweep.EachHasOneFate` | scripts/sweep_orphans.py:222-231 | orphan, managed, unchecked, not there: the four sum to what was discovered |
| `OrphanSweep.SortedKeeps` | scripts/sweep_orphans.py:231-231 | sorting keeps every ARN as often as it was there |
| `OrphanSweep.SortedIsInOrder` | scripts/sweep_orphans.py:231-231 | sorted is in order |
| `AdoptionPlan.MakePlan` | scripts/adopt_orphans.py:556-598 | collisions resolved in place give the settled plan; it raises if and only if some orphan is a load balancer or target group named nothing but `app` |
| `Adoption.RaisesExactly` | scripts/adopt_orphans.py:133-136 | planning one orphan raises exactly on those, whatever its tags and the prefix |
| `Adoption.AnUnnamableBalancer` | scripts/adopt_orphans.py:133-136 | `loadbalancer/app` is one, `loadbalancer/x/app` is not |
| `AdoptionPlan.Resolve` | scripts/adopt_orphans.py:573-579 | in place, every contested entry and no other becomes unadoptable |
| `AdoptionPlan.OneMoreVerdict` | scripts/adopt_orphans.py:568-571 | claimants are kept per address, in order |
| `AdoptionPlan.SeveralClaimantsContest` | scripts/adopt_orphans.py:568-579 | an address is resolved away exactly when two orphans claim it |
| `AdoptionTheorems.EachOrphanOnce` | scripts/adopt_orphans.py:566-598 | every orphan is adopted or unadoptable, once, as often as reported |
| `AdoptionTheorems.NoAddressIsAdoptedTwice` | scripts/adopt_orphans.py:581-598 | no address twice among the adopted, dependents included |
| `AdoptionTheorems.SecondSweepReportsOnlyTheUnadoptable` | scripts/sweep_orphans.py:134-257 | the sweep over the imported state reports only orphans the plan could not adopt |
| `AdoptionTheorems.UnindexedNames` | scripts/adopt_orphans.py:481-509 | the names in order, each with its ARN |
| `AdoptionTheorems.WiredRolesAreAskedAbout` | scripts/adopt_orphans.py:481-509 | exactly the roles whose module the environment calls |
| `AdoptionTheorems.UnindexedNamesComeBack` | scripts/adopt_orphans.py:481-509 | each such ARN parses, and plans back to the address of its own wired role under its own name |
| `AdoptionTheorems.RoleComesBack` | scripts/adopt_orphans.py:512-553 | every role's ARN is planned to that role's address with its name as import id |
| `AdoptionRoundTrips.NamedComesBack` | scripts/adopt_orphans.py:227-292 | roles, ECS clusters, databases, subnet groups and EKS clusters, from any place: the ARN that ends in the prefixed key is planned to the key's address under that name |
| `AdoptionRoundTrips.TaggedComesBack` | scripts/adopt_orphans.py:195-226 | the kinds of EC2: named by the Name tag, imported by the id in the ARN |
| `AdoptionRoundTrips.TaggedArnComesBack` | scripts/adopt_orphans.py:260-305 | secrets and OIDC providers: named by the tag, imported by the whole ARN |
| `AdoptionRoundTrips.ServiceComesBack` | scripts/adopt_orphans.py:139-236 | an ECS service is named by its last part and imported as cluster/service |
| `AdoptionRoundTrips.BareServiceComesBack` | scripts/adopt_orphans.py:139-236 | and in the short form by its name |
| `AdoptionRoundTrips.BalancerComesBack` | scripts/adopt_orphans.py:133-241 | a load balancer, `app/<name>/<hash>`, is imported by its ARN |
| `AdoptionRoundTrips.GroupComesBack` | scripts/adopt_orphans.py:133-248 | a target group, `<name>/<hash>`, likewise |
| `AdoptionRoundTrips.NodeGroupComesBack` | scripts/adopt_orphans.py:154-297 | a node group, `<cluster>/<name>/<uuid>`, is imported as `<cluster>:<name>` |
| `AdoptionRoundTrips.LogGroupComesBack` | scripts/adopt_orphans.py:145-259 | a log group ending in `app`, behind any folders and before any slashes, is imported by its whole path |
| `AdoptionRoundTrips.QueueComesBack` | scripts/adopt_orphans.py:166-315 | a queue is imported by the URL of its region, account and name |
| `AdoptionRoundTrips.KindComesBack` | scripts/adopt_orphans.py:195-316 | each kind's rule is found by the service and resource type AWS spells it with |
| `AdoptionRoundTrips.KeysAreDistinct` | scripts/adopt_orphans.py:195-316 | no kind uses a name twice |
| `AdoptionRoundTrips.AddressTellsTheKey` | scripts/adopt_orphans.py:195-316 | no two names, of one kind or of two, share an address |
| `AdoptionRoundTrips.LeftExactly` | scripts/adopt_orphans.py:522-553 | why an orphan is left: a subnet; no rule for its kind; a tagged kind without a tag; a name that no key is left of - each if and only if |
| `AdoptionRoundTrips.ManagedReadsBack` | scripts/adopt_orphans.py:364-448 | a managed policy's import id is the role, a slash and the policy's ARN |
| `AdoptionRoundTrips.InlineReadsBack` | scripts/adopt_orphans.py:364-448 | an inline one's is the role, a colon and its own name behind the prefix |
| `Adoption.DependentsAreOwn` | scripts/adopt_orphans.py:364-448 | the dependents table gives each policy one role |

## Left out

- JSON text, log lines, message wording and metrics: values stand for texts.
- boto3, psycopg2, SQLAlchemy, GitHub calls and token minting: each is a call that may fail before or after it took effect.
- The receive loops around the handlers (`Worker.run`, `Relay.run`, `Consumer.run`), their stop flags, heartbeats and sleeps: a batch handed out and a death at any point cover what they can do to the data.
- Queue retention: a message never expires; a message from elsewhere enters only as poison, a body the parsers refuse; one from elsewhere that parses is not modelled.
- A report whose time is text that PostgreSQL cannot read as a timestamp: only foreign reports could hold one, and the insert's error is then handled by nothing in the code.
- Items written by `app/scripts/seed.py` have no outbox row and are not among the created items the invariants speak of.
- PipelineProcesses.WorkerProcess.Handle: the worker's name is not empty, as the environment sets it.
- LaunchSafety.ReleaseIsOfOnesOwn: over presses alone; the watchdog and the destroy workflow delete the lock without being its holder.
- LaunchSafety.OneLaunchAtATime: asks that each press acts before its own deadline, which is the time limit of the function, not of this code.
- WatchdogResponse.BoundedResponseOverRuns: over visits that nothing disturbs, from one that finds no record of the scope; a lost record or a failed call starts it again.
- Watchdog.NoTeardownUnannounced: for launch ids without commas, the only ones the endpoint admits.
- ControlStore: a lock whose deadline cannot be read as a number counts as expired in the code; every lock of the model has a number, as every lock the store writes does.
- The kill switch's own handler, the quota page and the nonce-issuing page: reads and single writes of the same table.
- Time zones are functions from instants to offsets; the zone database and a missing zone's refusal are not here.
- FoldTimeline: the tool's version, diagnostics and counts of event types are carried through by the code and prove nothing; `reason` repeats `status` in words.
- NodeStates.Join: the `deleting` board, the cycle block and the deduplicated counts for display.
- FoldCost.BuildCost: free-text reasons and notes, and the `counts` block, which count the rows.
- CostProperties.BandIsOrdered: one direction, for whole costs; the exact conditions are per row and per stream, in `CostProperties.BandHoldsExactly` and `CostProperties.RecordInOrderExactly`.
- AppFlow.Build: sentences, notes, the failure and credential arrows, the layout check, and a queue that no event in the manifest names.
- Blocks.MetaAtTop: letters and blanks beyond ASCII are not told apart.
- Blocks.SchemaBody: begins at the opening brace; the patterns that find where a block begins are not here.
- Adoption: which modules an environment calls is a parameter; it is read with a pattern from a file.
- AdoptionTheorems.SecondSweepReportsOnlyTheUnadoptable: every import is taken to succeed.
- The rendering scripts, the check scripts, the rate fetcher, the topology's editorial tables, Terraform and the tests.
