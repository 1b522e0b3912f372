# Models of the Nelomai client's protocols

Dafny models of five parts of the Nelomai desktop and Android client whose correctness rests on
every interleaving, every crash or every input:

* the Android **start/stop projection coordinator** and the foreground enrichment that races with it
  (`Coordinator`, `CoordinatorObjects`, `Enrichment`);
* the desktop **automatic diagnostics queue**: sessions, seals, report files, uploads and pruning
  (`ReportNames`, `RetryRotation`, `DiagnosticsQueue`, `DiagnosticsHistory`, `SessionHistory`, `UploadOrder`,
  `ReportConservation`, `RepeatedUploads`, `AutomaticDiagnostics`);
* the **class-file reader** of the Android collision check (`ClassText`, `ClassFile`);
* the **connection metrics** and the **stall limiter** (`OrderStatistics`, `ConnectionMetrics`, `StallLimiter`);
* the common owner's **native operation fence** (`NativeOperations`).

`dafny verify dfyconfig.toml` checks the whole project. Nothing here executes the original program.

## How the models are built

Every locked section of the source is one atomic event, and a call that works outside the lock is several:
recording an uploaded report is a move of its file, a save of the state and a pruning. A function `Next` gives
the state an event leaves behind and a predicate `Accepts` the answer it gives. The classes hold the source's
fields, and each method is proved to take exactly the step of its event or events. A history (or world, or record) adds what the callers were given
and did: tickets, writes, dispatches, drawn identifiers, leases. A run is a sequence of histories, and the
theorems are about every run: `IsRun(hs, es)` says that the events `es` produce the histories `hs` from the
initial state. Clocks, the native side, the journal, the outcome of writing a file and the damage of a file are
inputs of the events, and may be anything.

Counters of the coordinator are unbounded naturals. Times, totals and sequence numbers keep the source's 64-bit
saturation. Text is a sequence of code points; the order of code points is the order of their UTF-8 bytes, by
which the source sorts file names.

## What does not hold as one might expect

* **Class names.** The Java Virtual Machine Specification stores names in modified UTF-8, and the reader decodes
  them as UTF-8. It returns the name exactly when the name has no zero unit and no surrogate; every other name
  fails to decode (`ClassFile.ReturnsThisClass`, both directions). The reader also accepts a pool whose last
  long or double runs one index past the count; `Layout.Valid` says what it reads, `Layout.Conforms` what
  section 4.1 asks for.
* **Acknowledging without preparing.** The check behind the provisioning gate and the two checks before the quick
  plan skip what they guard without an error. If only a native answer was missing at one of them and is back at
  the final check, the worker acknowledges the change although nothing was provisioned, or although a wanted plan
  was not prepared. `Enrichment.UnpreparedAcknowledgement` says exactly when, for both effects, and three lemmas
  give such runs from any state, one for each check.
* **Recording a report as uploaded twice.** If the process ends after a report's file is written and before the
  state is saved, the report can be uploaded and moved to the sent ones while its seal still waits, written again
  for that seal, and moved again. A report that was just moved can be moved again exactly when its seal is still
  pending at that moment (`RepeatedUploads.MovedAgainExactly`, both directions, over all continuations of a run),
  and there is such a run for every device (`RepeatedUploads.MovedTwiceHappens`). This is about what the queue
  records. The server may also receive a report again because its acceptance was never recorded: the process
  ended, the answer was lost, or the move failed (src-tauri/src/lib.rs, lines 527 to 541). The report then still
  waits and is tried again.
* **The announced next attempt.** An attempt is admitted exactly when the announced time has come, except at the
  ends of the 64-bit range: the announcement is cut off at the latest time and the window at the earliest.
  `StallLimiter.AdmittedExactlyWhenAnnounced` states the law as an equivalence with those two cases taken out.
* **Report names** are injective up to the time they print: all times before 1970 print as zero
  (`ReportNames.NamesAreInjective`, both directions).

## Model

| member | source | states |
|---|---|---|
| Coordinator.RunKeepsInvariant | src-tauri/src/commands.rs:124-510 | every reachable history: issued tickets are behind the counters, pending is the open action, a current Start is not cancelled, the projection is what the pending action allows, writes and dispatches are in order |
| Coordinator.AcceptedWritesNeverGoBack | src-tauri/src/commands.rs:337-460 | over every interleaving the accepted writes of the projection are nondecreasing by epoch, then begin, observations by sequence, commit; the projection is the last of them |
| Coordinator.PendingExactlyWhileOpen | src-tauri/src/commands.rs:181-283 | pending is set exactly while the current projection epoch is the ticket of a begun action that has neither committed nor finished, and names its kind |
| Coordinator.CompletionAcceptedExactlyWhileLive | src-tauri/src/commands.rs:209-371 | a commit or finish takes effect exactly when nothing else began since its action and it was not completed before; refused, it changes nothing |
| Coordinator.OthersCannotComplete | src-tauri/src/commands.rs:357-371 | with nothing begun since, completions of other tickets leave the newest ticket current |
| Coordinator.EpochStandsExactly | src-tauri/src/commands.rs:173-179 | the projection epoch is the same at two points of a run exactly when nothing began and nothing was completed between them, so epochs never recur |
| Coordinator.CountersGrow | src-tauri/src/commands.rs:157-179 | the start epoch, the projection epoch and the applied sequence never go down |
| Coordinator.PendingActionHoldsProjection | src-tauri/src/commands.rs:373-510 | whatever polls arrive: during a pending Start the projection is not Stopped, during a Toggle it is Unknown, during a Stop or Clear it is its value at the begin or Stopped |
| Coordinator.PollCurrentExactly | src-tauri/src/commands.rs:488-500 | a poll is current exactly while nothing began or ended and no newer poll was applied since its ticket |
| Coordinator.PollAcceptedExactly | src-tauri/src/commands.rs:373-460 | a poll's answer is taken exactly when the poll is current and agrees with the open action |
| Coordinator.DispatchesFollowTickets | src-tauri/src/commands.rs:297-335 | native requests of actions leave in strictly increasing ticket order |
| Coordinator.StartEpochStandsExactly | src-tauri/src/commands.rs:234-261 | the start epoch is the same at two points of a run exactly when no Stop or Clear was dispatched between them |
| Coordinator.StartAdmittedExactlyUntilStopped | src-tauri/src/commands.rs:512-526 | a Start passes its first poll, the poll of a plain side effect and the final check exactly when no Stop or Clear was dispatched since its ticket, and commits only then |
| Coordinator.CommitStartRefinesCommitAction | src-tauri/src/commands.rs:209-232 | in every reachable state the commit of a Start succeeds exactly when the plain commit would, and leaves the same state |
| CoordinatorObjects.DesiredActiveProjection.ObserveConfirmed | src-tauri/src/commands.rs:66-75 | a confirmed observation decides the projection |
| CoordinatorObjects.DesiredActiveProjection.ObserveSnapshot | src-tauri/src/commands.rs:77-87 | an unchanged snapshot leaves the projection, a changed one without an answer makes it Unknown |
| Coordinator.NoIntentOnlyAfterConfirmedStop | src-tauri/src/commands.rs:89-95 | in every reachable state no intent is reported exactly when the newest accepted answer was that none is wanted, and never while a Start or a Toggle is pending |
| CoordinatorObjects.StartStopCoordinator.constructor | src-tauri/src/commands.rs:136-146 | a new coordinator is at the initial state of every run |
| CoordinatorObjects.StartStopCoordinator.StartTicket | src-tauri/src/commands.rs:153-155 | the event `TakeStartTicket`: the ticket is the start epoch |
| CoordinatorObjects.StartStopCoordinator.ProjectionTicket | src-tauri/src/commands.rs:157-171 | the event `TakeObservation`: a fresh sequence number under the current epoch |
| CoordinatorObjects.StartStopCoordinator.BeginProjectedStart | src-tauri/src/commands.rs:181-194 | the event `PollStart`, with its ticket exactly when the start epoch stands |
| CoordinatorObjects.StartStopCoordinator.CommitProjectedStart | src-tauri/src/commands.rs:209-232 | the event `CommitStart` and its answer |
| CoordinatorObjects.StartStopCoordinator.DispatchProjectedStop | src-tauri/src/commands.rs:297-307 | the event `DispatchStop` |
| CoordinatorObjects.StartStopCoordinator.DispatchProjectedClear | src-tauri/src/commands.rs:309-319 | the event `DispatchClear` |
| CoordinatorObjects.StartStopCoordinator.DispatchProjectedToggle | src-tauri/src/commands.rs:321-335 | the event `DispatchToggle` |
| CoordinatorObjects.StartStopCoordinator.CommitProjectedAction | src-tauri/src/commands.rs:337-355 | the event `CommitAction` and its answer |
| CoordinatorObjects.StartStopCoordinator.FinishProjectedAction | src-tauri/src/commands.rs:357-371 | the event `FinishAction` |
| CoordinatorObjects.StartStopCoordinator.ObserveProjectedStatus | src-tauri/src/commands.rs:373-398 | the event `ObserveStatus` and its answer |
| CoordinatorObjects.StartStopCoordinator.ObserveProjectedSnapshot | src-tauri/src/commands.rs:400-429 | the event `ObserveSnapshot` and its answer; an unchanged snapshot is accepted without a look at the ticket |
| CoordinatorObjects.StartStopCoordinator.FinalizeProjectedStatus | src-tauri/src/commands.rs:431-460 | the event `FinalizeStatus`, its answer and the fallback read from the projection it leaves |
| CoordinatorObjects.StartSideEffect.PollOnce | src-tauri/src/commands.rs:674-692 | only the first poll can be cancelled, exactly when the start epoch moved; the coordinator is untouched |
| CoordinatorObjects.ProjectedStartSideEffect.PollOnce | src-tauri/src/commands.rs:609-656 | the first poll begins the Start or cancels without touching anything; a failing request finishes the action, within the first poll or later |
| Enrichment.EpochStandsExactly | src-tauri/src/commands.rs:2405-2419 | the epoch of the fence is the coordinator's exactly while nothing began or ended since its ticket |
| Enrichment.FencePassesExactly | src-tauri/src/commands.rs:2405-2419 | a fence check passes exactly when both native answers match and nothing began or ended since the ticket |
| Enrichment.PollsNeverDisturb | src-tauri/src/commands.rs:2405-2419 | any number of polls leaves the fence check to the native answers alone |
| Enrichment.EffectsOnlyWhenUndisturbed | src-tauri/src/commands.rs:2444-2476 | provisioning starts, the quick plan is prepared and the change is acknowledged only after a check at which both native answers matched and no Start, Stop, Toggle or Clear had begun or ended since the ticket |
| Enrichment.PhaseTellsTheStory | src-tauri/src/commands.rs:2342-2366 | the phase tells which effects the worker had, and an effect that was skipped has a missed check behind it |
| Enrichment.UnpreparedAcknowledgement | src-tauri/src/commands.rs:3057-3097 | the worker acknowledges without having provisioned exactly when a native answer did not match behind the gate, and without a wanted quick plan although it provisioned exactly when one did not match at a check before the plan |
| Enrichment.MissedStaysMissed | src-tauri/src/commands.rs:2342-2366 | what a missed check skipped stays undone |
| Enrichment.UnprovisionedAcknowledgementHappens | src-tauri/src/commands.rs:2342-2346 | from every coordinator state there is a run that acknowledges without provisioning |
| Enrichment.UnplannedAcknowledgementHappens | src-tauri/src/commands.rs:3063-3065 | and one that provisions and acknowledges without the wanted plan, by the check before its options |
| Enrichment.UnplannedAfterOptionsHappens | src-tauri/src/commands.rs:3077-3079 | and one by the check after them |
| DiagnosticsHistory.RunKeepsInvariant | src-tauri/src/automatic_diagnostics.rs:138-410 | every reachable world: saved state, session, seal, chapters, identifiers, file owners, report times and the live candidates agree, with crashes between any two writes |
| SessionHistory.SessionsAreTiled | src-tauri/src/automatic_diagnostics.rs:138-205 | the reports of a session are numbered from one and tile the time since it was opened, clocks going back included; all but the last cover six hours or more; every report file covers one of these intervals or the pending one |
| SessionHistory.EachIntervalHasOneName | src-tauri/src/automatic_diagnostics.rs:233-254 | two files, waiting or sent, that report the same number of the same session have the same name, below the largest number |
| SessionHistory.SessionStaysOpen | src-tauri/src/automatic_diagnostics.rs:256-265 | a session stays open on its connection, whatever checkpoints and restarts pass, until a seal that says its tunnel has stopped is finished |
| SessionHistory.SessionAfter | src-tauri/src/automatic_diagnostics.rs:256-265 | a finished seal moves the session to its end exactly when the tunnel runs, and ends it otherwise; nothing else moves it |
| SessionHistory.SealTellsTheObservation | src-tauri/src/automatic_diagnostics.rs:174-198 | a pending seal says that the tunnel runs exactly when the observation that drew it still saw the session's connection |
| DiagnosticsHistory.FinishingExtendsTheChapter | src-tauri/src/automatic_diagnostics.rs:233-269 | a finished seal becomes the next interval of its session, and the session goes on from its end |
| SessionHistory.SealsAlwaysHaveTheirSession | src-tauri/src/automatic_diagnostics.rs:256-262 | the missing session and the malformed name are unreachable answers of materialize |
| SessionHistory.CurrentDeviceIsWellFormed | src-tauri/src/automatic_diagnostics.rs:290-295 | the malformed device is an unreachable answer when an intent report is queued |
| SessionHistory.FinishedSealHasItsReport | src-tauri/src/automatic_diagnostics.rs:246-254 | a finished seal leaves its own report waiting, even if the file was there from before a crash |
| SessionHistory.FinishedAtMostOnce | src-tauri/src/automatic_diagnostics.rs:233-269 | at most one materialize of a seal succeeds; any later one changes neither state nor files, crashes and uploads in between included |
| SessionHistory.IdentityStaysSettled | src-tauri/src/automatic_diagnostics.rs:211-231 | an identity once frozen, or never to be captured, stays what it is across restarts |
| SessionHistory.OnlyTheOpeningProcessIsAsked | src-tauri/src/automatic_diagnostics.rs:43-45 | a seal asks for an identity only in the process that opened its session |
| ReportConservation.NoWaitingReportIsLost | src-tauri/src/automatic_diagnostics.rs:311-395 | a waiting report keeps waiting with its contents, unless its file is damaged, until it is uploaded and stands among the uploaded ones with them |
| ReportConservation.EveryReportIsAccountedFor | src-tauri/src/automatic_diagnostics.rs:369-457 | at any later time a report waits, is among the uploaded ones, or three with greater names are |
| ReportConservation.FirstSuccessFindsTheReport | src-tauri/src/automatic_diagnostics.rs:369-373 | the first success a holder reports finds its report still waiting and moves it, and only it, with its contents |
| ReportConservation.AtMostOneLiveCandidate | src-tauri/src/automatic_diagnostics.rs:311-336 | however many candidates are given out, at most one is live, and the upload flag is set exactly then |
| ReportConservation.CandidatesTakeTurns | src-tauri/src/automatic_diagnostics.rs:65-73 | between two candidates given out, the first was released or the process ended |
| RepeatedUploads.MovedAgainExactly | src-tauri/src/automatic_diagnostics.rs:233-269 | a report that was just moved to the sent ones can be moved there again by some continuation of the run exactly when its seal is still pending |
| RepeatedUploads.MovedTwiceOnlyWhileSealWaits | src-tauri/src/automatic_diagnostics.rs:369-375 | in every run, a report moved twice had its seal pending at the first move |
| RepeatedUploads.CanBeUploaded | src-tauri/src/automatic_diagnostics.rs:338-367 | from every idle queue a readable report of the device can be reached by ordinary attempts and moved, whatever waits before it and whatever was tried last |
| RepeatedUploads.MovedTwiceOnlyAfterInterruption | src-tauri/src/automatic_diagnostics.rs:233-269 | a report is moved twice only if the process once ended between the write of its file and the save |
| RepeatedUploads.MovedTwiceHappens | src-tauri/src/automatic_diagnostics.rs:247-254 | for every device there is a run that moves a report to the sent ones twice |
| DiagnosticsHistory.NameTellsItsReport | src-tauri/src/automatic_diagnostics.rs:476-487 | a file name belongs to one report identifier |
| UploadOrder.NoReportStarves | src-tauri/src/automatic_diagnostics.rs:338-367 | while the waiting reports stay the same, as many ordinary attempts as there are reports try each exactly once, over any run, restarts and unreadable files included |
| UploadOrder.BacksOffAfterFailure | src-tauri/src/automatic_diagnostics.rs:397-410 | after a failure, and until the next attempt is rescheduled by another outcome or an empty queue, no ordinary attempt chooses a report before the delay has passed, across restarts |
| UploadOrder.SpacesOutUploads | src-tauri/src/automatic_diagnostics.rs:377-391 | after a recorded success with more reports waiting, and until the next attempt is rescheduled, no ordinary attempt chooses a report before the spacing has passed, across restarts |
| UploadOrder.DelayFollowsFailures | src-tauri/src/automatic_diagnostics.rs:397-410 | the delay is that of the number of failures since the last recorded success or empty queue, up to the longest, across restarts |
| UploadOrder.LogoutChoosesTheLatest | src-tauri/src/automatic_diagnostics.rs:351-355 | in every run the report chosen at logout ended, or was generated, no earlier than any other waiting report of the device, as far as times are printed; for a report of a session that time is the end of its interval |
| UploadOrder.PruningKeepsTheGreatest | src-tauri/src/automatic_diagnostics.rs:441-457 | pruning keeps the three greatest names, or all when there are fewer, with their contents, and every other kind of file |
| UploadOrder.PruningDropsTheFirst | src-tauri/src/automatic_diagnostics.rs:452-456 | having fewer than three greater names is the same as not being among the first of the sorted ones |
| UploadOrder.SentLeavesOnlyByPruning | src-tauri/src/automatic_diagnostics.rs:441-457 | an uploaded report is removed only when three with greater names stay |
| UploadOrder.PruningLeavesThree | src-tauri/src/automatic_diagnostics.rs:98-114 | a success and every start of the process leave at most three uploaded reports |
| UploadOrder.PruningKeepsThreeGreater | src-tauri/src/automatic_diagnostics.rs:441-457 | pruning never lets the number of greater names fall below three |
| UploadOrder.InterruptedPruningIsCompleted | src-tauri/src/automatic_diagnostics.rs:452-456 | a pruning that was cut short is completed by the next one |
| ReportNames.SortedNames | src-tauri/src/automatic_diagnostics.rs:430-439 | the names of a set, each once, in increasing order |
| ReportNames.PaddedOrder | src-tauri/src/automatic_diagnostics.rs:480-486 | text order of zero-padded numbers is numeric order, and equal text means equal numbers |
| ReportNames.UuidRoundTrip | src-tauri/src/automatic_diagnostics.rs:478-479 | parsing a printed identifier gives it back |
| ReportNames.ScopeRoundTrip | src-tauri/src/automatic_diagnostics.rs:489-497 | the device is recovered from every printed name |
| ReportNames.NamesAreInjective | src-tauri/src/automatic_diagnostics.rs:476-487 | two names are equal exactly when printed time, device and identifier are |
| ReportNames.NamesSortByTime | src-tauri/src/automatic_diagnostics.rs:480-486 | names sort by time first, whatever the devices and identifiers |
| RetryRotation.FirstAfter | src-tauri/src/automatic_diagnostics.rs:499-504 | the first place whose name is after the last attempted one |
| RetryRotation.EveryReportHasItsTurn | src-tauri/src/automatic_diagnostics.rs:499-504 | as many attempts as reports try those after the last one in order, then the others |
| RetryRotation.PickedFollowsTheRotation | src-tauri/src/automatic_diagnostics.rs:338-367 | attempts that are remembered, with anything in between, follow the rotation |
| AutomaticDiagnostics.DesktopAutomaticDiagnostics.constructor | src-tauri/src/automatic_diagnostics.rs:98-114 | opening reads the state file and prunes the uploaded reports |
| AutomaticDiagnostics.DesktopAutomaticDiagnostics.SetCurrentDevice | src-tauri/src/automatic_diagnostics.rs:120-128 | the event `SetDevice`; a malformed device is refused |
| AutomaticDiagnostics.DesktopAutomaticDiagnostics.ClearCurrentDevice | src-tauri/src/automatic_diagnostics.rs:130-136 | the event `ClearDevice` |
| AutomaticDiagnostics.DesktopAutomaticDiagnostics.ObserveTunnel | src-tauri/src/automatic_diagnostics.rs:138-205 | the event `Observe`; the answer says whether a seal is pending and which interval was opened |
| AutomaticDiagnostics.DesktopAutomaticDiagnostics.FreezeIdentity | src-tauri/src/automatic_diagnostics.rs:211-231 | the event `Freeze`; the answer is the pending seal with that identifier, if any |
| AutomaticDiagnostics.DesktopAutomaticDiagnostics.MaterializeSeal | src-tauri/src/automatic_diagnostics.rs:233-269 | the event `Materialize` with each of its answers |
| AutomaticDiagnostics.DesktopAutomaticDiagnostics.QueueConnectionIntentReport | src-tauri/src/automatic_diagnostics.rs:279-309 | the event `QueueIntent` with each of its answers; a queued report is waiting under its name |
| AutomaticDiagnostics.DesktopAutomaticDiagnostics.ChooseName | src-tauri/src/automatic_diagnostics.rs:345-355 | the chosen report, which is waiting |
| AutomaticDiagnostics.DesktopAutomaticDiagnostics.BeginUploadCandidate | src-tauri/src/automatic_diagnostics.rs:311-367 | the event `Candidate`; a found candidate is a waiting report with its contents, and none is found without an error exactly when nothing was chosen |
| AutomaticDiagnostics.DesktopAutomaticDiagnostics.ReleaseCandidate | src-tauri/src/automatic_diagnostics.rs:69-73 | the event `Release` |
| AutomaticDiagnostics.DesktopAutomaticDiagnostics.MoveToSent | src-tauri/src/automatic_diagnostics.rs:371-375 | the event `Move`; it fails exactly when the report is not waiting |
| AutomaticDiagnostics.DesktopAutomaticDiagnostics.RecordUpload | src-tauri/src/automatic_diagnostics.rs:377-390 | the event `RecordSuccess` |
| AutomaticDiagnostics.DesktopAutomaticDiagnostics.UploadSucceeded | src-tauri/src/automatic_diagnostics.rs:369-395 | the three events in a row, or an error and no change when the report is not waiting |
| AutomaticDiagnostics.DesktopAutomaticDiagnostics.UploadFailed | src-tauri/src/automatic_diagnostics.rs:397-410 | the event `Fail` and its delay |
| AutomaticDiagnostics.DesktopAutomaticDiagnostics.PruneSent | src-tauri/src/automatic_diagnostics.rs:441-457 | the removal loop leaves exactly the reports with fewer than three greater names |
| ClassText.DecodeOfModified | scripts/android/check-runtime-collisions.py:86 | decoding modified UTF-8 as UTF-8 gives the name back, or fails, exactly by whether it has a zero unit or a surrogate |
| ClassFile.NextConstant | scripts/android/check-runtime-collisions.py:68-83 | one turn of the loop reads what one constant of the pool is, with each of its errors |
| ClassFile.ClassName | scripts/android/check-runtime-collisions.py:58-86 | the loop over the pool computes the reader's answer on all bytes, with each of its errors |
| ClassFile.ReadsWhatWasLaidOut | scripts/android/check-runtime-collisions.py:66-84 | laid-out constants are read back at their own indices, long and double entries taking two |
| ClassFile.PoolWasLaidOut | scripts/android/check-runtime-collisions.py:66-84 | a pool that reads is the encoding of constants with that table |
| ClassFile.KindOf | scripts/android/check-runtime-collisions.py:64-65 | the sizes the reader knows are those of section 4.4, for the same tags |
| ClassFile.AcceptsExactlyTheLayouts | scripts/android/check-runtime-collisions.py:58-86 | the reader returns a name exactly for the encodings of laid-out class files whose pool gives that name |
| ClassFile.ReturnsThisClass | scripts/android/check-runtime-collisions.py:58-86 | for every conforming class file the answer is the name of `this_class` with dots for slashes, or a decoding failure, exactly by the name |
| OrderStatistics.MedianIsUnique | src-tauri/src/connection_metrics.rs:190-200 | measurements have one median, in whatever order they came |
| ConnectionMetrics.ReportedTotalsGrow | src-tauri/src/connection_metrics.rs:158-173 | the totals a snapshot reports never go down while the lease stays the same, whatever the counters do |
| ConnectionMetrics.TotalsGrow | src-tauri/src/connection_metrics.rs:158-173 | the total of a lease never decreases along its history, across restarts of the counter |
| ConnectionMetrics.CountsOneMore | src-tauri/src/connection_metrics.rs:158-173 | one sample keeps offset, previous value and total the saturated functions of all samples |
| ConnectionMetrics.NewestDropsTheOldest | src-tauri/src/connection_metrics.rs:175-180 | the newest n of a history are the newest n + 1 without the oldest |
| ConnectionMetrics.RoundedLoss | src-tauri/src/connection_metrics.rs:201-208 | the loss is the nearest whole percentage and at most 92, so the clamp at 100 never takes effect |
| ConnectionMetrics.ConnectionMetricsTracker.ShouldProbe | src-tauri/src/connection_metrics.rs:115-140 | a probe is due by the history of the lease alone |
| ConnectionMetrics.ConnectionMetricsTracker.RecordSample | src-tauri/src/connection_metrics.rs:142-181 | after any history the session's fields are the functions of the samples on its lease |
| ConnectionMetrics.ConnectionMetricsTracker.MedianLatency | src-tauri/src/connection_metrics.rs:190-200 | the median of the successes, within 32 bits without the clamp |
| ConnectionMetrics.ConnectionMetricsTracker.Snapshot | src-tauri/src/connection_metrics.rs:183-215 | totals are the sum before each reset plus the latest sample, cut at 64 bits; latency and loss are the median and the rounded loss of the last twelve probes |
| ConnectionMetrics.ConnectionMetricsTracker.ClearSession | src-tauri/src/connection_metrics.rs:217-219 | clearing ends the lease's history |
| StallLimiter.StallRecoveryLimiter.BeginAttempt | src-tauri/src/connection_metrics.rs:53-71 | the loop drops the expired attempts; the answer says whether fewer than two are left |
| StallLimiter.StallRecoveryLimiter.CancelAttempt | src-tauri/src/connection_metrics.rs:73-77 | only the newest attempt on the lease is taken back |
| StallLimiter.StallRecoveryLimiter.NextAttemptAtUnix | src-tauri/src/connection_metrics.rs:80-88 | the announced time of the next attempt |
| StallLimiter.StallRecoveryLimiter.Reset | src-tauri/src/connection_metrics.rs:90-93 | nothing is remembered |
| StallLimiter.AdmittedExactlyWhenAnnounced | src-tauri/src/connection_metrics.rs:53-88 | an attempt is admitted exactly when none is announced or the announced time has come, but for exactly two cases at the ends of the 64-bit range |
| StallLimiter.AnnouncementHoldsAfterAnyCalls | src-tauri/src/connection_metrics.rs:53-93 | the same law after any calls at all, clocks going back included |
| StallLimiter.AttemptsAreSpacedOut | src-tauri/src/connection_metrics.rs:53-77 | over every run with nondecreasing in-range times on a lease, any three uncancelled admitted attempts span at least 600 seconds, forgotten ones included |
| NativeOperations.ReceiptMeansQuiet | src-tauri/src/container.rs:77-130 | in every reachable state a receipt or a replacement means that no Start or Rebind was admitted since the last acknowledged stop, and that the tunnel is down |
| NativeOperations.CriticalStepsFindTunnelStopped | src-tauri/src/container.rs:647-747 | installation begins and is recorded, an installer is launched and the process exits only with the tunnel stopped |
| NativeOperations.CommittedIsForGood | src-tauri/src/container.rs:83-94 | from then on no Start or Rebind is admitted and the tunnel stays down |
| NativeOperations.ReceiptStandsExactly | src-tauri/src/container.rs:77-130 | the receipt stands exactly while no Start or Rebind was admitted and no stop went unacknowledged since an acknowledged stop; refused ones leave it |
| NativeOperations.UpdateOperationIsFixed | src-tauri/src/container.rs:647-676 | once an installation has begun, its proof never changes |
| NativeOperations.StopSkippedOnlyAfterInstallation | src-tauri/src/container.rs:95-116 | finish skips the stop only for the update whose installation was recorded, and then the tunnel is down |
| NativeOperations.CommonOwner.BeginStart | src-tauri/src/container.rs:83-94 | admitted exactly when neither an update nor a replacement fences it; an admitted start drops the receipt |
| NativeOperations.CommonOwner.EngineExchange | src-tauri/src/container.rs:610-637 | the event `Exchange` and its answer |
| NativeOperations.CommonOwner.StopLocally | src-tauri/src/container.rs:120-129 | the event `StopLocal`: the receipt stands exactly when the helper acknowledged |
| NativeOperations.CommonOwner.BeginInstall | src-tauri/src/container.rs:647-676 | the event `BeginInstallation` and its answer |
| NativeOperations.CommonOwner.InstallSucceeded | src-tauri/src/container.rs:678-705 | the event `InstallationSucceeded` and its answer |
| NativeOperations.CommonOwner.HandOverToInstaller | src-tauri/src/container.rs:707-747 | the event `HandOver`; the runtime is gone before the authority is checked |
| NativeOperations.CommonOwner.RestartProof | src-tauri/src/container.rs:95-116 | the receipt and the journal together prove the installed update |
| NativeOperations.CommonOwner.FinishOnce | src-tauri/src/container.rs:169-236 | a second finish returns at once; otherwise the runtime ends, then the tunnel is stopped or proven stopped, then the process leaves, and any failure allows another try |

## Left out

- SessionHistory.SessionsAreTiled: the sequence number is capped at the largest 64-bit value, as in the source, so two reports past that number share it.
- StallLimiter.AttemptsAreSpacedOut: asks for times that do not go back on a lease and whose window stays in the 64-bit range; the spacing is in the clock the caller passes.
- Failing saves of the state file, quarantine of a corrupt state file and real file-system durability: a save is one atomic write that succeeds.
- The repair of reports written by older versions in `read_report`, and the size limits of reports: a file is readable or not, and a write succeeds or not.
- Wrap-around of the coordinator's 64-bit counters.
- Methods of the coordinator that exist for its tests only, among them `run_stop`, which moves the start epoch without the projection epoch.
- What the quick plan holds, and the callers that prepare one without a fence.
- Queueing an intent report reads the device under the lock and writes the file after it; here both are one step.
- The upload flag is taken before the lock, so a call can be turned away by one that finds nothing; here a call for a candidate is one step.
- The executor, cancellation of futures and time-outs, except that a worker may stop between any two of its steps.
- The generation of identifiers: they are taken as fresh.
- The server that receives reports: an upload is known here only by the move of its file.
- `NativeApplication`, `CommonHost`, the update journal and the states of `RuntimeExitOwner`: their answers are inputs, and only Start and RebindUdp are assumed to make the tunnel run.
- `before_native_tunnel_start` in `engine_exchange`: it is asked before the operation lock is taken and only adds refusals.
- `mark_observed` and `is_observed` of the metrics tracker.
- `dex_classes`, ZIP reading, XML parsing, `readelf` output and Unicode normalisation in the collision check.
- `connection_intent.rs`, the Tauri commands, tray, Dock, WebView and launch code, packaging and signing scripts, and the TypeScript helpers.
