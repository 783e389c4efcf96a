# Smart SRun core: a verified model

Smart SRun keeps OpenWrt routers logged in to campus networks. This project models
the daemon's concurrent core in Dafny and proves what it promises, for every input,
every run and every answer of the outside world.

| files | what they model |
|---|---|
| `Actions`, `Text`, `Wrappers` | action kinds and states, the request fingerprint, request validation, string rules |
| `Ambient` | the daemon closures the coordinator calls: line resolution, admission, the manual-logout pause, switch finalization |
| `Schedule` | every step of the coordinator loop as a function on the loop-owned state |
| `ScheduleInvariant`, `ScheduleSteps` | the inductive invariant and its preservation by every step |
| `ScheduleRuns`, `SchedulePause`, `ScheduleOrder` | safety over whole runs; the logout pause; dispatch order and deadlines |
| `ScheduleMeaning` | what each operation promises, stated without the functions that compute it |
| `Coordinator` | the class whose methods compute those functions in place |
| `Wizard`, `WizardSafety`, `WizardEnds`, `WizardScenarios` | the Wi-Fi setup wizard, its lease and its recoverable transaction, interleaved with handlers, workers, saves and restarts |
| `AuthWorker`, `Identity` | one authentication attempt against an arbitrary gateway; reading whose session is on the line |
| `Bindings` | binding generations and the pool of clients bound to them |
| `Mailbox`, `Maintenance` | the mailbox of finished actions, and the maintenance loop that waits on it |
| `ConfigRules`, `ConfigValidate`, `ConfigRepository`, `ConfigChanges` | the configuration document, its validation, the compare-and-set repository over a failing file write, the account changes |
| `Quiet`, `Observe`, `LogStore` | quiet-hours arithmetic, the observation store, the log's cursor window |

Objects whose methods update fields are classes; each method is proved against a
function on the class's abstract value, and the theorems are about that function.
Protocols that interleave several goroutines are state machines whose steps are the
critical sections of the source. Clocks, workers, gateways, file-system faults and
scheduling are parameters or events, universally quantified.

## Where code and text disagree

The model follows the code. Each case has a lemma with the exact condition.

- The comment on `fingerprint` says different requests cannot collide. They can, exactly
  when an account id, hotspot id or owner holds a NUL (`Actions.CollisionExactlyWhenNul`).
- `nextDeadline` and `NextBoundary` use the zero instant for "none yet". Each is exact if
  and only if the true answer is not that instant (`ScheduleOrder.ZeroDeadlineHappens`,
  `Quiet.ZeroTimeIsABoundary`).
- The pool says a worker arriving late with an older binding is told to re-resolve. It is
  served when no client of a newer generation was built yet
  (`Bindings.ServedUnlessNewerClient`, `Bindings.LateWorkerIsServed`).
- `Page.Cursor` is documented as the last record returned. It is the newest sequence, and
  this is what makes a following reader complete. The first page after a Clear, or with a
  cursor from before a restart, can skip records without the Dropped flag
  (`LogStore.SilentLossExactlyWhen`).
- The repository's comments say a reader never sees a configuration that is not on disk.
  A file that is not in canonical form is normalised in memory only, so memory and file
  differ until the first visible save (`ConfigRepository.MemoryMatchesFileExactlyWhen`).
- The wizard's error path rolls back whatever it finds on file. A start that fails inside
  BeginGroup and whose record cannot be read ends as failed, unblocked, with its record
  kept (`WizardEnds.FailedStartLeavesARecordExactlyWhen`).
- `SetRevision` refuses older observations from then on, and leaves an older one already
  stored visible (`ObserveStore.RaisingKeepsFloorExactlyWhen`).

## Model

| member | source | states |
|---|---|---|
| `Actions.RedactionKeepsFingerprint` | core/internal/application/action.go:191-197 | erasing the private draft when an action is filed leaves its fingerprint unchanged, so a late retry is still recognised |
| `Actions.FingerprintIdentifiesWork` | core/internal/application/action.go:191-197 | a NUL-free request shares its fingerprint only with requests asking for the same work |
| `Actions.ValidatedText` | core/internal/application/action.go:200-239 | a validated request can hold a NUL only in its account id, hotspot id or owner |
| `Actions.CollisionExactlyWhenNul` | core/internal/application/action.go:191-197 | a validated request collides with different work if and only if one of those three fields holds a NUL |
| `Actions.TwoValidatedLoginsCollide` | core/internal/application/action.go:191-197 | two concrete, different, validated logins share a fingerprint |
| `Actions.FormatIDInjective` | core/internal/application/action.go:352 | distinct ordinals of one instance render as distinct identifiers |
| `Ambient.LinesMatchResources` | core/internal/daemon/daemon.go:448-481 | two requests get one scheduling key exactly when they occupy the same radio, interface or unknown account |
| `Ambient.FinalizeKeepsPause` | core/internal/daemon/manual_pause.go:139-152 | finalizing an action keeps an account's pause unless it moves the revision or is a successful login, relogin or campus switch of that account |
| `Ambient.SwitchCommitsSelection` | core/internal/daemon/switch.go:24-53 | a switch that ends in success leaves its choice selected, in the same configuration or in one exactly one revision on with nothing else changed |
| `ScheduleInvariant.InitialGood` | core/internal/application/coordinator.go:163-214 | a new coordinator satisfies the whole invariant |
| `ScheduleInvariant.RetireKeeps` | core/internal/application/schedule.go:441-461 | filing an action and evicting the oldest keeps queue, running and history a disjoint cover of the index, with keys in bijection |
| `ScheduleSteps.StepKeeps` | core/internal/application/coordinator.go:235-280 | every event of the loop, with any answers from outside, keeps the invariant and only moves actions forward in life |
| `ScheduleSteps.RunsFirstTotal` | core/internal/application/schedule.go:318-326 | the queue order is strict, and of two different actions exactly one runs first |
| `ScheduleSteps.RunsFirstTransitive` | core/internal/application/schedule.go:318-326 | the queue order is transitive |
| `ScheduleSteps.TakenIsLeast` | core/internal/application/schedule.go:271-304 | the action taken is queued, eligible and precedes every other eligible action; a switch is taken only when nothing runs |
| `ScheduleRuns.WorkersExclude` | core/internal/application/schedule.go:107-117 | in every reachable state no two workers, cancelled ones included, share a line; the line map is the inverse of the running set; a switch runs alone; at most one refresh runs |
| `ScheduleRuns.MemoryBounded` | core/internal/application/schedule.go:441-461 | the index is the disjoint union of queue, running and history, and its size and the key map are bounded by the limits |
| `ScheduleRuns.RunEvolves` | core/internal/application/action.go:291-303 | along a run an action only advances: queued, running, filed, forgotten; its identity and decided fields never change |
| `ScheduleRuns.EachHappensOnce` | core/internal/application/schedule.go:127-193 | dispatch, completion and filing each happen at most once to an action in any run |
| `ScheduleRuns.TerminalIsFinal` | core/internal/application/action.go:291-303 | a terminal state never changes and a forgotten identifier never returns |
| `ScheduleRuns.SequencesIncrease` | core/internal/application/schedule.go:329-336 | an action dispatched later carries a larger sequence |
| `ScheduleRuns.IdentifiersAreNew` | core/internal/application/schedule.go:75-88 | a new action's identifier is above every one given out earlier in the run, remembered or forgotten |
| `ScheduleRuns.DispatchNumbers` | core/internal/application/schedule.go:247-267 | only dispatch adds a worker, straight from the queue, least among the eligible and with the next number |
| `ScheduleRuns.StepConfiguration` | core/internal/application/coordinator.go:399-417 | the configuration changes only in a step that leaves no worker behind, by one revision |
| `ScheduleRuns.OneConfigurationPerWorker` | core/internal/application/schedule.go:253-265 | a worker sees one configuration from start to exit, exactly the pinned revision when its request names one |
| `ScheduleRuns.RepeatedKey` | core/internal/application/schedule.go:27-42 | over any run, while the first action is remembered, its key answers equal work with the same id and no change, and different work with Conflict and no change |
| `ScheduleRuns.ShutdownInterrupts` | core/internal/application/coordinator.go:296-312 | the step that begins the shutdown leaves every undecided action interrupted and every action terminal |
| `ScheduleRuns.StopOutranksVerdicts` | core/internal/application/coordinator.go:253-272 | whatever order the stop and completions are seen in, work running when the stop was requested never gets its worker's verdict |
| `ScheduleRuns.ShutdownIsFinal` | core/internal/application/coordinator.go:296-346 | everything undecided when shutdown begins ends interrupted and stays so |
| `SchedulePause.LogoutPauses` | core/internal/application/schedule.go:53-73 | admitting a manual logout leaves no automatic action of the account queued, and any that still runs is terminal with its worker's context cancelled |
| `SchedulePause.StepKeepsPause` | core/internal/daemon/manual_pause.go:82-120 | every step keeps the pause unless it moves the revision or finalizes a lifting action |
| `SchedulePause.PauseOverRun` | core/internal/daemon/daemon.go:339-350 | from the admission to the event that ends the pause, in every state of the run, no automatic work of the account waits, and none runs without its worker's context cancelled |
| `SchedulePause.PausedNeverDispatches` | core/internal/application/schedule.go:253-265 | while the pause holds, no automatic action of the account is handed to a worker |
| `ScheduleOrder.DispatchIsMaximal` | core/internal/application/schedule.go:247-267 | when dispatch returns the slots are full, a switch runs or is the least eligible action waiting for drain, or nothing queued is eligible |
| `ScheduleOrder.TakenPrecedes` | core/internal/application/schedule.go:271-304 | nothing is dispatched past an eligible action or waiting switch that precedes it |
| `ScheduleOrder.QuietExpire` | core/internal/application/schedule.go:381-409 | before the earliest deadline expire changes nothing |
| `ScheduleOrder.LateExpire` | core/internal/application/schedule.go:381-409 | at or after a deadline its queued action is failed, or its worker marked overdue and cancelled |
| `ScheduleOrder.DeadlinesAreExact` | core/internal/application/schedule.go:381-409 | expire does something at an instant if and only if some deadline is due by then |
| `ScheduleOrder.SomethingDueIffWorkOutstanding` | core/internal/application/schedule.go:422-432 | a least deadline exists exactly while something is queued, or runs and is not yet overdue |
| `ScheduleOrder.WakesIffLeast` | core/internal/application/schedule.go:415-434 | an answer under which expire does nothing before it and something from it on is exactly the least deadline; one under which expire never does anything is exactly that there is none |
| `ScheduleOrder.ZeroDeadlineHappens` | core/internal/application/schedule.go:416-421 | a valid loop whose one queued action falls due at the zero instant |
| `ScheduleMeaning.SubmissionIs` | core/internal/application/schedule.go:27-89 | a new key is accepted exactly when guard, wizard, revision, pause, queue room and the logout conditions allow; the action then waits last in the queue with its request's line and the time; a refusal changes nothing |
| `ScheduleMeaning.AlwaysPlaced` | core/internal/application/schedule.go:75-88 | over every run each waiting or running action holds the line of what its request occupies under the configuration in force |
| `ScheduleMeaning.WorkersOccupyDistinctResources` | core/internal/application/schedule.go:284-291 | over every run two workers, cancelled ones included, occupy two different resources: radio, interface or unknown account |
| `ScheduleMeaning.FailureIsFiled` | core/internal/application/schedule.go:151-178 | a failure the worker reports is filed as failed with its code and touches nothing else of the daemon |
| `ScheduleMeaning.SuccessIsFiledAsFinalized` | core/internal/application/schedule.go:159-178 | a reported success is filed as its finalization ends: succeeded with the result, or failed with the finalization's code |
| `ScheduleMeaning.OddReportIsInternal` | core/internal/application/schedule.go:153-168 | any other report, or a result beyond 32 KiB, is filed as an internal failure |
| `ScheduleMeaning.LateReportIsIgnored` | core/internal/application/schedule.go:143-150 | an overdue action fails with the deadline and a decided one keeps its decision; neither is finalized |
| `ScheduleMeaning.SuccessLiftsThePause` | core/internal/daemon/manual_pause.go:139-152 | a login, relogin or campus switch filed as succeeded leaves its account not paused |
| `ScheduleMeaning.OnlyItsCompletionFreesAWorker` | core/internal/application/schedule.go:104-117 | a worker keeps its slot until its own completion is seen, whatever else happens |
| `ScheduleMeaning.CancellationIs` | core/internal/application/schedule.go:93-124 | cancelling waiting work files it at once; cancelling running work decides it, cancels its context and leaves it slot and line |
| `ScheduleMeaning.DispatchIs` | core/internal/application/schedule.go:253-265 | an action taken is started now under the next number exactly when guard, revision, pause and wizard allow, and otherwise filed as failed with the first reason's code |
| `ScheduleMeaning.WhoGoesFirst` | core/internal/application/action.go:87-98 | user actions, then the quiet boundary, then maintenance, then the preset refresh; among equals arrival, then submission |
| `ScheduleMeaning.ExclusiveKindsRunAlone` | core/internal/application/action.go:82-85 | over every run a logout, switch, scheduled transition or wizard step that runs is all that runs |
| `ScheduleMeaning.SupersededExactly` | core/internal/application/schedule.go:53-73 | a switch calls off the scheduled switches, a logout all automatic work of its own account, and nothing else is called off |
| `ScheduleMeaning.HistoryKeepsTheNewest` | core/internal/application/schedule.go:447-460 | finished actions are remembered newest last and the oldest is forgotten first |
| `CoordinatorLoop.Coordinator.constructor` | core/internal/application/coordinator.go:163-214 | defaults fill the limits and the loop starts empty and valid |
| `CoordinatorLoop.Coordinator.OnSubmit` | core/internal/application/schedule.go:27-89 | the object follows the submission step and answers as that step does |
| `CoordinatorLoop.Coordinator.OnCancel` | core/internal/application/schedule.go:93-124 | the object follows the cancellation step; an unknown id is NotFound and changes nothing |
| `CoordinatorLoop.Coordinator.OnFinish` | core/internal/application/schedule.go:127-193 | the object follows the completion step, finalization and filing included |
| `CoordinatorLoop.Coordinator.OnPhase` | core/internal/application/schedule.go:201-214 | progress is recorded only for an action still running |
| `CoordinatorLoop.Coordinator.Take` | core/internal/application/schedule.go:271-304 | the scan of the queue returns the specified action and removes exactly it |
| `CoordinatorLoop.Coordinator.StartAction` | core/internal/application/schedule.go:329-341 | the object follows the start step |
| `CoordinatorLoop.Coordinator.DispatchAll` | core/internal/application/schedule.go:247-267 | the loop starts or refuses exactly the actions the dispatch function does |
| `CoordinatorLoop.Coordinator.ExpireAll` | core/internal/application/schedule.go:381-409 | both passes together are the expiry step |
| `CoordinatorLoop.Coordinator.NextDeadline` | core/internal/application/schedule.go:415-434 | the loop that sleeps until the answer misses nothing and never wakes for nothing, exactly when the least deadline is not the zero instant |
| `CoordinatorLoop.Coordinator.RetireAction` | core/internal/application/schedule.go:441-461 | filing and the eviction loop are the retire function |
| `CoordinatorLoop.Coordinator.Reconfigure` | core/internal/application/coordinator.go:399-417 | a change is refused with Busy unless queue and running set are empty |
| `CoordinatorLoop.Coordinator.Shutdown` | core/internal/application/coordinator.go:296-346 | queue and workers are interrupted before a pending completion is applied |
| `WizardSafety.StepKeeps` | core/internal/daemon/wizard.go:201-328 | every step of every party, restarts included, keeps the wizard's invariant |
| `WizardSafety.NeverBothConfirmedAndUndone` | core/internal/daemon/wizard_handlers.go:160-254 | in every run no transaction is both confirmed and rolled back; a confirmed one belongs to an account document that became visible; one whose account is visible is not rolled back |
| `WizardSafety.VerdictIsFinal` | core/internal/wireless/group.go:325-343 | a verdict once reached is the only one the transaction ever gets, however the run and its restarts go on |
| `WizardSafety.UnfinishedSaveStopsAll` | core/internal/daemon/wizard.go:95-124 | while a saved account's transaction is still on file no worker starts, no other configuration is written and no rollback touches it |
| `WizardSafety.LeaseHolderIsKept` | core/internal/daemon/wizard_handlers.go:40-51 | the lease holder is always in the job table, which never exceeds 64 jobs |
| `WizardSafety.StepOnward` | core/internal/daemon/wizard.go:136-168 | no step takes a verdict or a visible configuration back, and a lease passes to another job only through nobody |
| `WizardSafety.LeasedGroupIsUndecided` | core/internal/daemon/wizard_handlers.go:260-300 | with the device free, the lease holder's transaction is the one on file, awaiting confirmation and undecided |
| `WizardSafety.RecoverKeeps` | core/internal/wireless/group.go:325-343 | recovery after a restart confirms only what was saved, rolls back only what was not, and otherwise blocks |
| `WizardEnds.EveryEndIsHonest` | core/internal/daemon/wizard.go:258-280 | over every run a job published as cancelled had its change rolled back and its record gone, one published as done had it confirmed and gone, one published as failed had it rolled back and gone or the wizard was blocked |
| `WizardEnds.SavedAccountIsVisible` | core/internal/daemon/wizard_handlers.go:246-252 | over every run an account recorded as saved is in a configuration that became visible |
| `WizardEnds.UndoDecides` | core/internal/daemon/wizard.go:306-328 | an undo rolls the held change back before anything is published; success is published as cancelled, failure blocks |
| `WizardEnds.BlockedBeforePublished` | core/internal/daemon/wizard.go:318-324 | blocking is set before a failed end is published |
| `WizardEnds.PublishedIs` | core/internal/daemon/wizard.go:136-149 | what is published is the job's mark, no transaction left with it, and the lease given back |
| `WizardEnds.FailedStartLeavesARecordExactlyWhen` | core/internal/daemon/wizard.go:258-280 | a failed start published without blocking leaves a record on file exactly when BeginGroup returned no group and the record could not be read |
| `WizardEnds.StrangersChangeNothing` | core/internal/daemon/wizard_handlers.go:94-105 | another session's start, cancel, preparation or save under a job's name changes nothing |
| `WizardEnds.SaveNeedsTheLease` | core/internal/daemon/wizard_handlers.go:180-185 | a save reaches the configuration only for the leased, unblocked, uncancelled, unexpired job of its owner that is being saved |
| `WizardEnds.CancelledStartPlansNothing` | core/internal/daemon/wizard.go:211-221 | a start whose job was cancelled or lost its lease never plans a change |
| `WizardEnds.LateCancelIsHonoured` | core/internal/daemon/wizard.go:281-297 | a cancel that arrives while the change is applied sends the job straight to its undo |
| `WizardScenarios.SomeRunConfirms` | core/internal/daemon/wizard_handlers.go:14-254 | a run in which a job is started, applied, saved and confirmed exists, so the theorems are not vacuous |
| `WizardScenarios.AnotherJobRollsBackTheOrphan` | core/internal/daemon/wizard.go:258-267 | a run in which a job loses its lease to a failed submission while its change is applied, and the next job's refused start rolls that change back |
| `WizardScenarios.AnUnreadableRecordStays` | core/internal/daemon/wizard.go:261-278 | a run in which BeginGroup fails half-way, its record cannot be read back, and the job ends failed, unblocked, with the record on file |
| `GatewayIdentity.SameAccountMeans` | core/internal/auth/result.go:217-256 | two names are one account exactly when both are given, the bare accounts agree and no two stated realms differ; the relation is symmetric |
| `GatewayIdentity.SameAccountBreaksOnlyAcrossRealms` | core/internal/auth/result.go:217-240 | the relation fails to be transitive exactly when two differing realms are joined by a name without one |
| `GatewayIdentity.SilentNameJoinsCarriers` | core/internal/auth/result.go:217-240 | for any account and two carriers, the bare name matches both and they do not match each other |
| `GatewayIdentity.SeparateRealmDecides` | core/internal/auth/result.go:105-112 | a realm reported in its own field takes part in the comparison as if written in the name |
| `GatewayIdentity.NobodyIsEvidence` | core/internal/auth/result.go:163-200 | "nobody" is reported exactly on a positive offline answer or a successful unnamed one; self and other follow the comparison |
| `AuthWorker.Authenticate` | core/internal/application/authworker.go:231-255 | for every gateway: at most two logins and one logout, each login fresh, each logout earned, no send after a refusal; maintenance logs in only after the line answered nobody; the system route is asked only where it may be; success means a proven session, the association as wanted and the configured evidence; every failure's code and state is explained by the end of the trace |
| `AuthWorker.AttemptLogin` | core/internal/application/authworker.go:362-380 | credentials go out only with the challenge just issued and the line re-read unchanged |
| `AuthWorker.SettleAlreadyOnline` | core/internal/application/authworker.go:314-348 | an existing session is adopted, reported or cleared once, as its owner and the intent allow |
| `AuthWorker.ClearAndRetry` | core/internal/application/authworker.go:383-420 | one logout, and at most one more login |
| `AuthWorker.VerifyOnce` | core/internal/application/authworker.go:267-298 | one check asks at most once, sends nothing, and succeeds only on a proven session of this account |
| `AuthWorker.TerminalChecks` | core/internal/application/terminal.go:56-86 | only confirmation is retried, without a login or logout, and exactly as long as the reason is passing, the line holds and the limit allows |
| `AuthWorker.CheckLimitIs` | core/internal/application/terminal.go:57-60 | the limit is the configured attempts between 1 and 20 for users and scheduled transitions, one otherwise |
| `AuthWorker.RetryableIs` | core/internal/application/terminal.go:20-30 | a transport failure, a DNS failure and a deadline are worth another look, nothing else |
| `AuthWorker.LogoutOnce` | core/internal/application/terminal.go:32-50 | a logout is confirmed only by an empty answer and then an unchanged line |
| `AuthWorker.VerifyConnectivity` | core/internal/application/connectivity.go:80-152 | success needs the configured evidence and an unchanged line; a failed probe never erases the identity check's trace |
| `AuthWorker.MeasureInternet` | core/internal/application/connectivity.go:84-113 | the system route speaks only where it is allowed, and Internet access is claimed only when measured |
| `AuthWorker.Logout` | core/internal/application/authworker.go:454-492 | one query first; a logout is sent exactly when it named this account's session, or anybody's to a user who asked, and names that session; success only on an empty unchanged line; every failure's code and state is explained by the trace |
| `AuthWorker.ProvenWitness` | core/internal/application/authworker.go:284-286 | a proven session means an answer naming this account, then an unchanged line, with no login, logout or other answer since |
| `AuthWorker.ProvenExactly` | core/internal/application/authworker.go:284-286 | the converse: any such trace is a proven session |
| `AuthWorker.CountsArePositions` | core/internal/application/authworker.go:362-420 | the login and logout counts are the numbers of trace positions that send one |
| `AuthWorker.EachLoginHasItsOwnChallenge` | core/internal/application/authworker.go:350-380 | two logins never share a challenge |
| `AuthWorker.AutomaticEndsNobody` | core/internal/application/authworker.go:328-347 | an automatic attempt sends a logout only after the line answered nobody, and only for its own account |
| `Bindings.Lines.ObserveLine` | core/internal/application/authworker.go:564-602 | the object follows the observation function; a failure carries the stamp it failed under |
| `Bindings.Lines.InvalidateLine` | core/internal/application/authworker.go:608-619 | only the binding of that generation is dropped, with its clients |
| `Bindings.Lines.ConfirmUnchanged` | core/internal/application/authworker.go:639-656 | the line is unchanged exactly when it resolves to the held line; otherwise the held binding is invalidated |
| `Bindings.Lines.Retire` | core/internal/transport/pool.go:128-145 | exactly the account's clients of older generations are closed and counted |
| `Bindings.Lines.GetClient` | core/internal/transport/pool.go:68-121 | the object follows the pool's rule for serving, building and retiring |
| `Bindings.GenerationIdentifiesBinding` | core/internal/application/authworker.go:564-632 | of two successful observations with anything between, the generations are equal exactly when the line is the same and nothing ended the binding; otherwise the later is greater |
| `Bindings.StaleInvalidationIsHarmless` | core/internal/application/authworker.go:608-619 | invalidating an ended binding changes nothing |
| `Bindings.NoClientOutlivesItsBinding` | core/internal/application/authworker.go:592-619 | over every serialized run each client belongs to the binding its account is on |
| `Bindings.RetireTouchesOneAccount` | core/internal/transport/pool.go:134-145 | retiring closes exactly the older clients of that account |
| `Bindings.AccountsAreIndependent` | core/internal/application/authworker.go:564-619 | what happens to one account's line leaves every other account's binding and clients alone |
| `Bindings.ServedUnlessNewerClient` | core/internal/transport/pool.go:96-121 | over every run of the pool, a request is served exactly when its client is still there or no client of a newer generation was built since the pool was closed |
| `Bindings.StaleClientSurvives` | core/internal/transport/pool.go:100-121 | a client served for an ended binding outlives the next observation of the unchanged line |
| `Bindings.LateWorkerIsServed` | core/internal/transport/pool.go:100-121 | a run in which the line moves to generation 2 and a request of generation 1 is then served |
| `Mailbox.MailBox.Observe` | core/internal/application/maintenance_results.go:15-70 | purge, coalescing and wake token follow the deposit function |
| `Mailbox.MailBox.Purge` | core/internal/application/maintenance_results.go:46-55 | exactly the current results and the manual switch stay |
| `Mailbox.MailBox.TakeResults` | core/internal/application/maintenance_results.go:72-88 | the box is emptied and everything in it returned once, in order of publication |
| `Mailbox.DepositOrders` | core/internal/application/maintenance_results.go:56-63 | publication orders stay distinct and bounded by the counter |
| `Maintenance.StepKeeps` | core/internal/application/maintain.go:184-224 | every step of loop, coordinator and mailbox keeps the invariant |
| `Maintenance.NoResultIsLost` | core/internal/application/maintenance_results.go:10-65 | an action the loop waits for under the current revision whose end was published is still in its slot or in hand, and an idle loop has a wake token |
| `Maintenance.NonEmptyBoxIsNoticed` | core/internal/application/maintenance_results.go:66-69 | a non-empty mailbox always has a token, an observer about to send one, or the loop about to look |
| `Maintenance.InHandIsApplied` | core/internal/application/maintain.go:351-383 | a result in hand frees its slot by the end of the batch, whatever else the batch holds |
| `Maintenance.OnlyItsOwnReportFreesASlot` | core/internal/application/maintain.go:351-380 | applying frees a slot only for the final report, of the current revision, of exactly the action it waits for |
| `Maintenance.ItsOwnReportFreesTheSlot` | core/internal/application/maintain.go:364-380 | and that report does free it, and no other slot |
| `Maintenance.OwnerIsKeptUntilReleased` | core/internal/application/maintain.go:217-224 | over every run an owned slot keeps its action until that action's own report is applied, a new revision is noticed, or the loop gives it up |
| `ConfigRules.NormalizeIsIdempotent` | core/internal/config/normalize.go:25-168 | normalising twice is normalising once |
| `ConfigRules.NormalIsCanonical` | core/internal/config/normalize.go:25-168 | the fixed points of normalisation are exactly the documents in canonical form: names trimmed, enum-like values in one case, one spelling of an open network, the unused half of every account empty, only declared extra keys |
| `ConfigRules.NormalizeKeepsCredentials` | core/internal/config/normalize.go:10-24 | user ids, passwords, suffixes and overrides survive in every account, SSID and key in every wireless one and hotspot; no entry is added, dropped or reordered |
| `ConfigRules.RepairPointerLoop` | core/internal/config/mutations.go:341-351 | the loop returns the first candidate that names something |
| `ConfigRules.RepairMeans` | core/internal/config/mutations.go:301-336 | for accounts and hotspots alike a pointer that names something is kept, else the default takes over, else the first entry, and a dangling default follows the active one; all four pointers resolve |
| `ConfigRules.RepairIsIdempotent` | core/internal/config/mutations.go:301-336 | repairing twice is repairing once |
| `ConfigRules.RepairKeepsNormal` | core/internal/config/mutations.go:301-336 | repair keeps the canonical form |
| `ConfigValidate.Validate` | core/internal/config/validate.go:19-42 | the list of problems is empty exactly when the document is valid |
| `ConfigValidate.CheckCampusAccounts` | core/internal/config/validate_account.go:11-52 | no problem exactly when accounts are valid, identifiers distinct, no line has two managed accounts and the counts fit |
| `ConfigValidate.CheckCampus` | core/internal/config/validate_account.go:54-125 | no problem exactly when the account is valid for its access mode |
| `ConfigValidate.CheckWireless` | core/internal/config/validate_account.go:127-149 | no problem exactly when the wireless half is valid |
| `ConfigValidate.CheckHotspots` | core/internal/config/validate.go:82-104 | no problem exactly when hotspots are valid and their identifiers distinct |
| `ConfigValidate.CheckSelection` | core/internal/config/validate.go:106-134 | no problem exactly when all four pointers resolve |
| `ConfigValidate.CheckExtra` | core/internal/config/validate.go:136-161 | no problem exactly when keys and values fit and are few enough |
| `ConfigValidate.CheckTuning` | core/internal/config/validate.go:44-80 | no problem exactly when every protocol default and number is in range |
| `ConfigValidate.CheckSuffix` | core/internal/config/validate_account.go:85-104 | no problem exactly when the suffix is short, confirmed and free of blanks and @ |
| `ConfigValidate.CheckBSSID` | core/internal/config/validate_account.go:156-193 | accepted exactly when it is a unicast, non-zero, lower-case colon MAC |
| `ConfigValidate.NextIsFree` | core/internal/config/mutations.go:475-497 | one past the highest number in use is never taken, whatever identifiers users chose |
| `ConfigValidate.NextID` | core/internal/config/mutations.go:475-497 | the search ends, at its first candidate, with an identifier nobody has |
| `ConfigRepository.Repository.WriteAtomic` | core/internal/config/store.go:142-215 | for a fault at any step, the file is wholly old or wholly new as the result says, and no temporary file stays |
| `ConfigRepository.Repository.UpdateConfig` | core/internal/config/repository.go:102-162 | the object follows the update function, and reports success exactly for a durable commit |
| `ConfigRepository.OpenRepository` | core/internal/config/repository.go:43-58 | a missing file opens on normalised defaults, a decodable one on its normal form if that is valid, anything else not at all; the file is left alone |
| `ConfigRepository.UpdateIsAllOrNothing` | core/internal/config/repository.go:102-162 | from any store an update changes nothing, or makes visible a valid, canonical, repaired document, the one now in memory, exactly one revision on |
| `ConfigRepository.UpdateGoesThroughExactlyWhen` | core/internal/config/repository.go:102-162 | with the revision just read, room for one more, an edit made, a valid outcome and no fault up to the rename the outcome is in memory and on file; otherwise nothing changes |
| `ConfigRepository.CanonicalEditIsWritten` | core/internal/config/repository.go:125-128 | a canonical edit whose pointers need no repair is written as it is, one revision on |
| `ConfigRepository.MemoryIsCanonical` | core/internal/config/store.go:38-48 | over every run from every start memory is canonical, and valid once there is a file |
| `ConfigRepository.MemoryMatchesFileExactlyWhen` | core/internal/config/repository.go:138-154 | over every run from every start memory equals the visible file exactly when some update became visible or the file found was already canonical; until then the file is what was found and memory its normal form |
| `ConfigRepository.MemoryCanDifferFromFile` | core/internal/config/repository.go:43-50 | a hand-edited file with a space before its interface name, from which a refused update leaves memory and file different |
| `ConfigRepository.SameRevisionWinsOnce` | core/internal/config/repository.go:111-119 | from any store, of two writers that read one revision at most one changes the file, whatever runs between |
| `ConfigRepository.RevisionCountsCommits` | core/internal/config/repository.go:117-128 | from any store the revision grows by the number of visible commits, and one that fits 64 bits always will |
| `ConfigRepository.CandidateIsCanonical` | core/internal/config/repository.go:125-128 | whatever a change did, the document to be written is canonical with resolved pointers |
| `ConfigRepository.PreparedDocumentIsWritten` | core/internal/daemon/wizard_handlers.go:199-223 | the document the wizard announces before saving is exactly the one the repository writes |
| `ConfigChanges.CreateIsFresh` | core/internal/config/mutations.go:168-194 | a new account is refused exactly when the list is full; otherwise it gets a free identifier, leaves the others as they were, and is selected if it is the first |
| `ConfigChanges.EditTouchesOne` | core/internal/config/mutations.go:160-198 | editing changes one account and no identifier, and keeps every field the patch does not carry, password and key included; an unknown identifier is refused |
| `ConfigChanges.PatchIs` | core/internal/config/mutations.go:353-403 | field by field an absent value keeps what is stored and a present one replaces it; nothing crosses over |
| `ConfigChanges.UpsertAppliesThePatch` | core/internal/config/mutations.go:160-198 | an edit is the patch over the stored account, a new account the patch over a blank wired one |
| `ConfigChanges.RemoveTakesOne` | core/internal/config/mutations.go:202-213 | removal takes exactly the named account |
| `ConfigChanges.RemovalLandsOnDefault` | core/internal/config/mutations.go:320-331 | through the whole transaction, from any loaded or saved document: the active account stays unless removed or unset, else the surviving default takes over, else the first account; the default likewise |
| `Quiet.ContainsIsPhase` | core/internal/domain/clocktime.go:103-134 | membership is one comparison on the day rotated to the start minute, and the occurrence began that phase ago |
| `Quiet.BoundaryIsExact` | core/internal/domain/clocktime.go:140-159 | membership is constant up to the boundary, flips exactly there, within 24 hours |
| `Quiet.SameOccurrenceIffContiguous` | core/internal/domain/clocktime.go:121-134 | two inside instants share an occurrence exactly when the window is never left between them |
| `Quiet.NextBoundary` | core/internal/domain/clocktime.go:140-159 | the search finds the boundary exactly when it is not the zero instant |
| `Quiet.ZeroTimeIsABoundary` | core/internal/domain/clocktime.go:150-158 | a window and instant whose boundary is the zero instant |
| `ObserveStore.Store.AcceptObservation` | core/internal/observe/store.go:181-218 | the object follows the acceptance function and names the reason for a drop |
| `ObserveStore.Store.RaiseRevision` | core/internal/observe/store.go:161-167 | the floor only rises |
| `ObserveStore.OnlyCurrentAnswersAreShown` | core/internal/observe/store.go:171-178 | while the floor moves only by a reset, over every run nothing observed under an older configuration is shown |
| `ObserveStore.RaisingKeepsFloorExactlyWhen` | core/internal/observe/store.go:161-167 | SetRevision keeps that exactly when it does not pass a stored observation |
| `ObserveStore.RaisingCanLeaveAnOldAnswer` | core/internal/observe/store.go:161-167 | a run in which an answer of revision 1 stays visible under floor 2 |
| `ObserveStore.NoNoteBesideARunningAction` | core/internal/observe/store.go:244-262 | over every run of every operation the last action's note is never shown beside a running action |
| `ObserveStore.RoutineKeepsTheNote` | core/internal/observe/store.go:203-206 | routine observation, of this account or another, never replaces the note or the running action |
| `ObserveStore.LateNoteIsIgnored` | core/internal/observe/store.go:264-282 | a cancelled action's late result changes nothing while another action runs |
| `ObserveStore.FinishedLeavesItsNote` | core/internal/observe/store.go:269-282 | an action that ends while it is the running one, or none is, leaves its note and nothing running |
| `ObserveStore.StartedIsShown` | core/internal/observe/store.go:250-262 | a new action is shown running without the last one's note; repeating it changes nothing |
| `ObserveStore.ViewIsGreatest` | core/internal/observe/store.go:181-242 | after any arrivals in any order each account shows a lexicographic maximum of what is stored and what arrived at or above the floor; nothing else moves |
| `ObserveStore.ArrivalOrderDoesNotMatter` | core/internal/observe/store.go:181-242 | with distinct triples any two orders end in the same view |
| `ObserveStore.EqualTriplesLastWins` | core/internal/observe/store.go:227-242 | for equal triples the later stays, so the order shows exactly when their contents differ |
| `ObserveStore.NeverGoesBack` | core/internal/observe/store.go:181-242 | over runs of every operation without a reset or removal of the account, a stored triple never decreases |
| `LogStore.Store.EmitRecord` | core/internal/logstore/store.go:151-168 | an event passing the threshold gets the next sequence, and the window keeps the newest 500 |
| `LogStore.ThresholdIs` | core/internal/domain/enums.go:85-101 | each level passes exactly the thresholds at or below it; ALL is never an event's level |
| `LogStore.NextReadShowsTheEvent` | core/internal/logstore/store.go:151-168 | a reader that is up to date sees exactly the next event's line, if its filter wants it |
| `LogStore.Store.TailPage` | core/internal/logstore/store.go:323-359 | the page is the wanted part of the window after the cursor, cut to the newest lines, flagged when lines were cut or a gap precedes the window |
| `LogStore.Store.ClearLog` | core/internal/logstore/store.go:406-413 | the window empties and the sequence keeps counting |
| `LogStore.PageShowsTheRest` | core/internal/logstore/store.go:332-358 | for every cursor, what left the window plus an unflagged page is exactly everything the reader has not seen, and the cursor moves to the newest sequence |
| `LogStore.SilentLossExactlyWhen` | core/internal/logstore/store.go:333-338 | for every cursor, an unflagged page misses unseen wanted records if and only if some exist and the window is empty or the cursor is beyond the newest sequence, or the cursor is zero and wanted records left the window |
| `LogStore.RestartHidesRecords` | core/internal/logstore/store.go:333-343 | a cursor from before a restart skips two records of the new process, unflagged |
| `LogStore.ClearHidesARecord` | core/internal/logstore/store.go:400-413 | a concrete unflagged loss after a Clear |
| `LogStore.ReaderSeesEachOnce` | core/internal/logstore/store.go:323-359 | absent Clear, over any run and from any cursor, a reader has received each wanted record after its origin exactly once and in order while no page was flagged and no read from zero came after records left the window; the origin is its first cursor, or the log's length at its first read when that was shorter |

## Left out

- Action identifiers are natural numbers; the instance prefix and 64-bit wrap-around of the identifier and sequence counters are not modelled.
- End times, timings, messages, the forwarding of observations and `onList` are not part of the coordinator model.
- Actions are values in the index; the source shares one heap object per action, so aliasing of a published copy is not captured.
- `time.Sub` saturates in Go; instants here are unbounded integers.
- SHA-256 is a function parameter of the coordinator; nothing about collisions is assumed beyond equality of inputs giving equal digests. In the wizard the salted digest of a document stands for the document.
- The policy package's `Plan`, `Sweep` and `EvaluateQuiet` are not modelled; priorities are ranked constants.
- Wizard and WizardSafety: the wizard is modelled on values, one step per critical section; entry objects are map entries, a process panic is a restart, and the update guard, which can skip recovery at startup, is not modelled.
- Wizard lease liveness is not claimed: a cancel action that expires in the queue is not observed by the wizard.
- The per-package journals inside a transaction group appear only as outcomes of Begin, Apply, Rollback and Confirm.
- A power cut that reverts a visible but unsynced file is not modelled; a restart keeps what was visible.
- AuthWorker.Authenticate: begins after `prepare`, as does AuthWorker.Logout; moving the radio, resolving the gateway and the wording of messages are not part of the model.
- The wire format of challenge, login and logout, and the "already online" marker list, are answers of the gateway.
- Case folding is ASCII; trimming follows Go's Unicode white space.
- The maintenance loop's backoff, conflicts and wake time are not modelled; a general claim that the loop never spins is not made, because a refused Submit leaves an overdue account due.
- The configuration's JSON decoding, backup import and schema are not modelled; `school_extra` values are strings.
- ConfigValidate.NextID: does not model the 64-bit limit of `strconv.Atoi`.
- The textual rendering of an occurrence is represented by its start instant.
- The log file, its rotation and download, and the wrap of the log's own sequence counter are not modelled; the wrap of a reader's cursor arithmetic is.
- Sockets, ubus, uci, HTTP, the CLI, LuCI and the build scripts are not modelled.
