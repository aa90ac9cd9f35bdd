# Verification model of n8n's execution and activation services

This Dafny project models four parts of the n8n workflow automation server and proves
properties of them:

- the registry of active executions (`packages/cli/src/active-executions.ts`): which object is
  stored under which id, when promises settle, when deferred finalizers give concurrency capacity
  back, and how a shutdown empties the registry;
- the active workflow manager (`packages/cli/src/active-workflow-manager.ts`): activating and
  removing workflows, the queue of retries with its timers, the webhook table, the leader and its
  followers in a multi-main setup;
- the transitive parents of a credential type (`packages/cli/src/credential-types.ts`), computed by
  recursion inside a loop over an array that grows while it is iterated;
- the HTML escaping of the end-to-end page objects (`cypress/pages/ndv.ts`).

## Layout

| file | content |
|---|---|
| `common.dfy` | `Option`, distinct elements, counting in a sequence, substring search |
| `execution_registry.dfy` | the registry as a state machine: calls, steps of `add`, finalizers |
| `execution_registry_laws.dfy` | capacity accounting, which registrations can be finished, resumptions |
| `registry_calls.dfy` | what each call and step does to the fields, and that promises settle once |
| `shutdown_sweep.dfy` | the sweep of a shutdown and the wait after it |
| `active_executions.dfy` | the class `ActiveExecutions`, tied call by call to the state machine |
| `workflow_activation.dfy` | one manager as a state machine |
| `activation_outcomes.dfy` | what each operation of a manager does and answers, by mode, role and services |
| `activation_laws.dfy` | timers, queue, registered errors, removal |
| `retry_backoff.dfy` | the delays of the retries |
| `activation_order.dfy` | activating all workflows, in batches of interleaved activations |
| `multi_main.dfy` | several managers, commands in flight, one leader |
| `lasting_removal.dfy` | when a removal lasts in a multi-main setup |
| `active_workflow_manager.dfy` | the class `ActiveWorkflowManager`, tied to the state machine |
| `webhook_registration.dfy` | storing and clearing the webhook rows of a workflow |
| `credential_types.dfy` | `GetParentTypes` and what it computes |
| `escaping.dfy` | `AsEncodedHTML` and its inverse |

A class and its state machine are tied by `View()`: each method's postcondition says that the new
view is the matching step of the old view, and the theorems are about all runs of those steps.
Asynchronous functions are split where they wait, except where "Left out" says otherwise. Answers of
other services (throttling, database, external services, triggers) are parameters, failed lookups and
failed calls included, and the theorems hold for all of them; the few calls that are assumed not to fail
are named under "Left out".

## Where the code does less than its documentation says

Each of these comes with a concrete run or input and with the exact condition under which the promised
property does hold.

- A waiting execution that is stopped before its promise settles is deleted without its finalizer ever
  running: the comment at `active-executions.ts:166-167` assumes this away, and no code does. See
  `UndisciplinedStopLosesCapacity`; exactly when no registration is lost: `TrackedExactlyWhenDisciplined`.
- `setStatus` on a waiting entry whose finalizer has run makes an entry that nothing deletes, and no
  shutdown after that ends. See `DisciplinedRunsMayNotDrain`; exactly when the wait ends:
  `ShutdownDrainsExactly`.
- `storeWebhook` is an upsert, so a taken method and path does not fail: it overwrites the row of the
  other workflow, and the roll-back then deletes it. The comment at
  `active-workflow-manager.ts:199-202` and the `WebhookPathTakenError` expect a failing insert. See
  `TakenPathIsLost`; exactly when the other workflows keep their rows: `OthersAreSparedExactly`. Errors
  after the loop (lines 230-232) are not rolled back: `NoRowIsLeftExactly`.
- The catch block of a retry overwrites the timer handle of its queue entry. If the workflow was queued
  anew meanwhile, two timers are armed for it. See `QueueingInFlightArmsTwo`; exactly which steps and
  which runs keep one timer per workflow: `StepKeepsOneTimerExactly`, `OneTimerThroughoutExactly`.
- A retry that fails after line 605 has removed its own queue entry: the catch block then throws itself,
  and the workflow is not tried again. Exactly which failed retries are: `RetriedAgainExactly`.
- `saveStaticData` runs outside the try block of `add` (line 620), so a failure there at the start of an
  instance queues a workflow for which no error is registered. See `ActivateAgreesExactly`.
  `clearAllActivationErrors`, which nothing calls, would have the same effect on all queued workflows: `StepAgreesExactly`.
- A retry that is in flight while its workflow is removed starts the triggers again. See
  `RetryRevivesRemoved`; exactly when a removal lasts in single-main: `ActivationLaws.RemovalLastsExactly`.
- In multi-main a retry only publishes a command: its queue entry stays behind with a spent timer. See
  `RetryPursuesExactly`.
- In multi-main a removal leaves the queue entry and its timer behind, and `handleAddWebhooksTriggersAndPollers`
  does not look at the active flag, so a retry that is armed on any instance, or in flight, and an
  activation command that is still on its way start the triggers of a workflow that was removed. See
  `RetryUndoesRemoval`; exactly when a removal lasts in multi-main: `LastingRemoval.RemovalLastsExactly`.
- `activateWorkflow` looks its workflow up outside its `try` block (line 451), so a lookup that fails is
  neither registered nor queued, and rejects the whole batch: the others of that batch run to their ends,
  and no later batch is attempted. With two workflows and batches of one, a failed lookup of the first
  leaves the second out; with batches of two the second is activated. See `BatchSizeDecides`; exactly
  which workflows are attempted: `AttemptedExactly`, `AllAttemptedExactly`; exactly when the batch size
  matters: `BatchSizeMattersExactly`. A batch size below one activates no workflow at all.

## Model

| member | source | states |
|---|---|---|
| `ExecutionRegistryLaws.ExactAccounting` | `packages/cli/src/active-executions.ts:68-120` | In every regular-mode run and for every execution mode: granted throttles = releases + registrations whose finalizer has not run + adds between throttle and commit or whose repository write failed |
| `ExecutionRegistryLaws.GrantedAccountExactly` | `packages/cli/src/active-executions.ts:71-74` | In either mode of execution that account is off by the number of calls of `add` for a new execution in queue mode, so it is exact if and only if there is no such call |
| `ExecutionRegistryLaws.QueueModeSkips` | `packages/cli/src/active-executions.ts:71-74` | Adding a new execution in queue mode is such a call: it is admitted without asking |
| `ExecutionRegistryLaws.AccountingStep` | `packages/cli/src/active-executions.ts:68-120` | Every step of every call, of `add` and of a finalizer keeps the account balanced |
| `ExecutionRegistryLaws.TrackedExactlyWhenDisciplined` | `packages/cli/src/active-executions.ts:157-174` | A step keeps every registration that still needs its entry reachable by id if and only if it obeys the discipline: no stop of an unsettled waiting entry, no commit over an entry that is still needed |
| `ExecutionRegistryLaws.FinalizerRemovesOnlyItself` | `packages/cli/src/active-executions.ts:111-120` | A finalizer captures an object and deletes by id; under the discipline the entry it deletes is its own, and every other entry survives |
| `ExecutionRegistryLaws.DisciplinedRunsTrack` | `packages/cli/src/active-executions.ts:92-120` | Over whole disciplined runs every unsettled registration is the current entry of its id |
| `ExecutionRegistryLaws.CanFinishExactly` | `packages/cli/src/active-executions.ts:177-196` | Some continuation lets the finalizer of a registration run if and only if its promise is settled or the map still holds it |
| `ExecutionRegistryLaws.LostForever` | `packages/cli/src/active-executions.ts:166-168` | An unsettled registration that the map no longer holds is never finalized again, whatever is called |
| `ExecutionRegistryLaws.AllCanFinish` | `packages/cli/src/active-executions.ts:105-120` | From a tracked state one run finishes every registration, and leaves the adds under way as they were |
| `ExecutionRegistryLaws.NoCapacityIsLost` | `packages/cli/src/active-executions.ts:92-120` | After any disciplined run there is a continuation in which releases have caught up with admissions, but for the adds still under way or failed |
| `ExecutionRegistryLaws.UndisciplinedStopLosesCapacity` | `packages/cli/src/active-executions.ts:165-168` | The counterexample without the discipline: marking any unsettled entry waiting and stopping it makes its finalizer unreachable |
| `ExecutionRegistryLaws.ResumptionsKeepIdentity` | `packages/cli/src/active-executions.ts:92-103` | Through any number of waits and resumptions without removal the start time is the first one and the response promise is the one attached last |
| `ExecutionRegistry.CallFrame` | `packages/cli/src/active-executions.ts:131-196` | A call by id changes at most the object under that id, removes at most that id, and never unsettles a promise |
| `ExecutionRegistry.StepWellFormed` | `packages/cli/src/active-executions.ts:103-120` | Ids point to objects of that id, and only settled registrations are finalized, after every step |
| `RegistryCalls.FirstOutcomeWins` | `packages/cli/src/active-executions.ts:93-120` | In every run each promise, of an execution or of a response, keeps the first outcome it gets, whatever is called afterwards |
| `RegistryCalls.AddBegins` | `packages/cli/src/active-executions.ts:46-79` | A call of `add` waits for capacity in regular mode and for an existing execution, and can neither commit nor fail its write before; else it is let through and recorded as unasked |
| `RegistryCalls.AddGoesOn` | `packages/cli/src/active-executions.ts:71-90` | Granting lets exactly one waiting call through and is logged; a failed write ends a call for good, with no registration |
| `RegistryCalls.CommitStoresFresh` | `packages/cli/src/active-executions.ts:92-103` | Whatever was under the id, the entry is then a new object: running, its promise open, no workflow execution, not finalized; a resumed execution hands over its start time and response promise only |
| `RegistryCalls.CommittedCanBeStopped` | `packages/cli/src/active-executions.ts:92-174` | A commit and a stop of that id right after it reject the new promise and let its finalizer run |
| `RegistryCalls.StopRejects` | `packages/cli/src/active-executions.ts:157-174` | The response promise is rejected if open; a waiting entry goes with its promise untouched; of any other the workflow is asked to cancel and the promise is rejected if open, and the entry stays |
| `RegistryCalls.FinalizeResolves` | `packages/cli/src/active-executions.ts:177-196` | Only the promise of that id changes, to resolved, and only if it was open |
| `RegistryCalls.ResponsesResolve` | `packages/cli/src/active-executions.ts:142-145` | Only the response promise changes, to resolved, and only if it was open; the variant for forms leaves a waiting execution alone |
| `RegistryCalls.FieldsAreSet` | `packages/cli/src/active-executions.ts:131-140` | Setting status, workflow execution or response promise changes that field of that object and nothing else |
| `RegistryCalls.FinalizerReleases` | `packages/cli/src/active-executions.ts:111-120` | A finalizer cannot run again, reports one release in its own mode, and drops the workflow execution of a waiting object or the entry of any other |
| `ShutdownSweep.SweepAllIsSweep` | `packages/cli/src/active-executions.ts:261-273` | Walking a snapshot of the keys while entries are deleted reads no missing entry, and in any order amounts to one simultaneous sweep; the collected ids are the cancelled ones, each once |
| `ShutdownSweep.SweepSurvivors` | `packages/cli/src/active-executions.ts:263-273` | Who survives: exactly the entries that are neither waiting nor (new and not cancelled); a surviving new entry has been settled, an entry not cancelled is untouched |
| `ShutdownSweep.ToCancelExactly` | `packages/cli/src/active-executions.ts:264-268` | The collected ids are those of entries with a response promise, and all ids in regular mode when all are cancelled |
| `ShutdownSweep.SweepEntriesExactly` | `packages/cli/src/active-executions.ts:263-273` | An entry survives exactly when it does not wait and, being new, has a response promise or is cancelled with all; survivors keep their objects, and no capacity is reported |
| `ShutdownSweep.SweepRegistrationsExactly` | `packages/cli/src/active-executions.ts:263-273` | Exactly the open promises of cancelled entries that do not wait become rejected; no other field of any object changes |
| `ShutdownSweep.SweepResponsesExactly` | `packages/cli/src/active-executions.ts:263-268` | Exactly the open response promises of entries become rejected; settled ones keep their outcome |
| `ShutdownSweep.SweepCancelsExactly` | `packages/cli/src/active-executions.ts:263-268` | Exactly the workflow executions of cancelled entries that do not wait are asked to cancel |
| `ShutdownSweep.PlainShutdownWaits` | `packages/cli/src/active-executions.ts:263-286` | Unless all are cancelled in regular mode, a running execution without a response promise keeps its entry and its whole object, and only executions with a response promise are asked to cancel |
| `ShutdownSweep.SweepAnswersAll` | `packages/cli/src/active-executions.ts:264-268` | No response promise of an entry stays open over a shutdown |
| `ShutdownSweep.DrainShrinks` | `packages/cli/src/active-executions.ts:111-120` | After any sweep each pending finalizer of an entry strictly shrinks the map and takes out no other entry |
| `ShutdownSweep.DrainRun` | `packages/cli/src/active-executions.ts:277-286` | Whatever is called meanwhile but a commit or a change of status: with no finalizer pending the map is empty if and only if no entry was stuck and all executions have ended |
| `ShutdownSweep.ShutdownDrainsExactly` | `packages/cli/src/active-executions.ts:253-286` | For shutdowns of either kind in either mode: once no finalizer is pending, the map is empty if and only if all executions in it have ended and, before the sweep, every entry it leaves still had its finalizer to run; cancelling all in regular mode ends them |
| `ShutdownSweep.ReviveAfterFinalizer` | `packages/cli/src/active-executions.ts:244-246` | Setting the status of a waiting entry whose finalizer has run makes a state that does not drain |
| `ShutdownSweep.DisciplinedRunsMayNotDrain` | `packages/cli/src/active-executions.ts:244-246` | A disciplined run from the start leads to such a state: an execution is added, waits, ends, runs its finalizer and is marked as running |
| `ShutdownSweep.ShutdownThenSleep` | `packages/cli/src/active-executions.ts:277-286` | One sleep in which all finalizers run decides whether the wait loop ends |
| `ShutdownSweep.RunFinalizersIsARun` | `packages/cli/src/active-executions.ts:105-120` | Letting all settled promises run their continuations is a feasible run of the state machine with nothing pending at its end |
| `ActiveExecutions.ActiveExecutions.BeginAdd` | `packages/cli/src/active-executions.ts:46-79` | A running `add` asks for capacity, unless it is a new execution in queue mode |
| `ActiveExecutions.ActiveExecutions.ThrottleGranted` | `packages/cli/src/active-executions.ts:71-79` | Capacity is granted to one waiting `add` and to no other |
| `ActiveExecutions.ActiveExecutions.Commit` | `packages/cli/src/active-executions.ts:92-103` | A new object with an unsettled promise replaces the entry of the id and inherits start time and response promise from it |
| `ActiveExecutions.ActiveExecutions.RunFinalizer` | `packages/cli/src/active-executions.ts:111-120` | Capacity is released once; a waiting object stays and drops its workflow execution, any other loses the entry of its id |
| `ActiveExecutions.ActiveExecutions.StopExecution` | `packages/cli/src/active-executions.ts:157-174` | The response promise is rejected first; a waiting entry is deleted, any other is cancelled and its promise rejected |
| `ActiveExecutions.ActiveExecutions.FinalizeExecution` | `packages/cli/src/active-executions.ts:177-196` | The promise of a known id is resolved unless it has settled already |
| `ActiveExecutions.ActiveExecutions.AttachWorkflowExecution` | `packages/cli/src/active-executions.ts:131-133` | The execution is attached to the object of a known id, and an unknown id is reported |
| `ActiveExecutions.ActiveExecutions.AttachResponsePromise` | `packages/cli/src/active-executions.ts:135-140` | The response promise of a known id is replaced, and an unknown id is reported |
| `ActiveExecutions.ActiveExecutions.ResolveResponsePromise` | `packages/cli/src/active-executions.ts:142-145` | The response promise of a known id is resolved unless it has settled already |
| `ActiveExecutions.ActiveExecutions.ResolveExecutionResponsePromise` | `packages/cli/src/active-executions.ts:199-212` | The same, but not for a waiting execution |
| `ActiveExecutions.ActiveExecutions.SetStatus` | `packages/cli/src/active-executions.ts:244-246` | The status of a known id is set, and an unknown id is reported |
| `ActiveExecutions.ActiveExecutions.ShutdownSweep` | `packages/cli/src/active-executions.ts:253-275` | The loop over the key snapshot has the effect of one simultaneous sweep, collects exactly the ids with a response promise or, when all are cancelled in regular mode, all ids, and disables concurrency control in regular mode only |
| `ActiveExecutions.ActiveExecutions.AwaitEmpty` | `packages/cli/src/active-executions.ts:277-286` | With no other caller the wait ends after at most one sleep, or never |
| `ActivationLaws.StepKeepsExactly` | `packages/cli/src/active-workflow-manager.ts:754-816` | A single-main step keeps the invariant (armed timers are the handles of their entries, every entry is armed or has its retry in flight, no workflow has two retries in flight) if and only if it does not queue a workflow whose retry is in flight, or an inactive one in a mode that skips it |
| `ActivationLaws.OneTimerPerWorkflow` | `packages/cli/src/active-workflow-manager.ts:754-816` | In every disciplined single-main run from a fresh instance each workflow has at most one armed timer, held by its queue entry |
| `ActivationLaws.RearmKeepsOneTimerExactly` | `packages/cli/src/active-workflow-manager.ts:768-788` | The catch block keeps one timer per workflow if and only if the entry is gone or its handle is spent |
| `ActivationLaws.QueueingInFlightArmsTwo` | `packages/cli/src/active-workflow-manager.ts:768-807` | A run that arms two timers: the workflow is queued anew while its retry is in flight, and the retry fails |
| `ActivationLaws.FinishRetryKeeps` | `packages/cli/src/active-workflow-manager.ts:767-793` | A retry that runs to its end restores the invariant, whether it succeeds, fails, or finds its entry gone |
| `ActivationLaws.StepKeepsOneTimerExactly` | `packages/cli/src/active-workflow-manager.ts:754-816` | A single-main step keeps one armed timer per workflow, the one its entry holds, if and only if it is not a retry that fails before its entry is removed and finds an armed timer in it |
| `ActivationLaws.OneTimerThroughoutExactly` | `packages/cli/src/active-workflow-manager.ts:754-816` | It holds at every moment of a single-main run if and only if no step of the run is of that kind |
| `ActivationLaws.RetriedAgainExactly` | `packages/cli/src/active-workflow-manager.ts:604-616` | A failed retry leaves its workflow queued with an armed timer if and only if its entry was there and webhooks or triggers had failed; after a later failure nothing is queued or armed |
| `ActivationLaws.AddEnds` | `packages/cli/src/active-workflow-manager.ts:525-623` | An activation ends in one of three ways: entry and error cleared, failed with the error registered and the queue as it was, or skipped with nothing changed; other workflows are never touched |
| `ActivationLaws.RetryPursuesExactly` | `packages/cli/src/active-workflow-manager.ts:533-540` | After a retry its workflow is out of the queue or pursued further if and only if the setup is single-main; in multi-main a command is published and the entry stays with a spent timer |
| `ActivationLaws.StepAgreesExactly` | `packages/cli/src/active-workflow-manager.ts:604-620` | A single-main step keeps "every queued workflow has a registered error" if and only if it is neither an activation at the start in which only the last write fails nor the clearing of all errors over a queue |
| `ActivationLaws.ActivateAgreesExactly` | `packages/cli/src/active-workflow-manager.ts:604-620` | The same for one activation at the start or on a change of leadership |
| `ActivationLaws.QueuedHaveErrors` | `packages/cli/src/active-workflow-manager.ts:447-485` | In single-main runs without such steps every queued workflow has a registered error |
| `ActivationLaws.CompletedIsClean` | `packages/cli/src/active-workflow-manager.ts:604-623` | A workflow whose activation completed is neither queued nor in error, and its triggers run if the instance is the leader |
| `ActivationOutcomes.AddIsPublished` | `packages/cli/src/active-workflow-manager.ts:533-540` | In multi-main an activation that may be published sends one command, changes nothing else and answers that nothing was added |
| `ActivationOutcomes.NotLoadedFails` | `packages/cli/src/active-workflow-manager.ts:547-554` | A missing workflow and a failed lookup fail the activation with their own messages, which are registered, and change nothing else |
| `ActivationOutcomes.InactiveIsSkipped` | `packages/cli/src/active-workflow-manager.ts:556-563` | At the start and on a change of leadership an inactive workflow is skipped with no change and no error |
| `ActivationOutcomes.FirstErrorIsRegistered` | `packages/cli/src/active-workflow-manager.ts:576-616` | Setup, webhooks, triggers: the first of them to fail decides what is thrown and registered; queue and timers stay, and memory changes only as the failed start left it |
| `ActivationOutcomes.StartedIsCleared` | `packages/cli/src/active-workflow-manager.ts:587-623` | Once they are up, the triggers run exactly on the leader, entry, timer and error go, and the answer tells webhooks and triggers apart; a failed count is registered, a failed save is not |
| `ActivationOutcomes.ActivationStoresRows` | `packages/cli/src/active-workflow-manager.ts:587-594` | On init, and on the leader in every mode but a change of leadership, every listed path has a row of the workflow afterwards if nothing is refused |
| `ActivationOutcomes.StoredRowsAreAnswered` | `packages/cli/src/active-workflow-manager.ts:587-623` | And the activation answers that webhooks were added, and triggers exactly on a leader with triggers |
| `ActivationOutcomes.ActivationRegisters` | `packages/cli/src/active-workflow-manager.ts:587-594` | In these cases the table changes by one call of `addWebhooks`, which passes over failed queries exactly on init |
| `ActivationOutcomes.OtherwiseNoRowsChange` | `packages/cli/src/active-workflow-manager.ts:958-968` | In every other case the table is left alone and the answer does not claim webhooks |
| `ActivationOutcomes.TriggerFailureIsRegistered` | `packages/cli/src/active-workflow-manager.ts:370-394` | The message of the trigger is registered, its workflow leaves memory if its triggers close, and a retry is armed for one second later |
| `ActivationOutcomes.RemovalTakesAll` | `packages/cli/src/active-workflow-manager.ts:834-871` | In multi-main exactly one command is published; in single-main exactly the error, entry, timer and, if they close, triggers of the workflow go |
| `ActivationOutcomes.StopsAndClears` | `packages/cli/src/active-workflow-manager.ts:498-502` | Stopping all keeps exactly the triggers that do not close; clearing the queue stops exactly the timers its entries hold |
| `ActivationLaws.RemoveLeavesNothing` | `packages/cli/src/active-workflow-manager.ts:834-871` | With no retry in flight, removal leaves no entry, timer, error or trigger if and only if the triggers close or none ran |
| `ActivationLaws.RemovedStaysRemoved` | `packages/cli/src/active-workflow-manager.ts:761-816` | No sequence of timer firings, retries, failures or activations of other workflows brings a removed workflow back |
| `ActivationLaws.RetryRevivesRemoved` | `packages/cli/src/active-workflow-manager.ts:761-768` | A retry in flight during the removal does bring it back |
| `ActivationLaws.RemovalLastsExactly` | `packages/cli/src/active-workflow-manager.ts:834-871` | A removed workflow stays out of memory in every single-main run that does not name it if and only if its triggers close, or none ran, and no retry of it is in flight but one that would skip it |
| `ActivationLaws.StepLetsSleep` | `packages/cli/src/active-workflow-manager.ts:754-816` | In single-main and multi-main, no step that does not name a sleeping workflow wakes it or publishes an activation of it |
| `RetryBackoff.DelayClosedForm` | `packages/cli/src/active-workflow-manager.ts:771-774` | The delay after n failures in a row is min(1000 * 2^n, 86400000) milliseconds |
| `RetryBackoff.DelayIsMonotone` | `packages/cli/src/active-workflow-manager.ts:771-774` | A longer streak of failures never makes the delay shorter, nor longer than one day |
| `RetryBackoff.DelayReachesCap` | `packages/cli/src/constants.ts:68-69` | One day is reached at the seventeenth failure in a row and never left |
| `RetryBackoff.TotalDelayClosedForm` | `packages/cli/src/active-workflow-manager.ts:771-787` | The first k delays add up to 1000 * (2^k - 1), and beyond seventeen to one more day each |
| `RetryBackoff.RunWaits` | `packages/cli/src/active-workflow-manager.ts:754-808` | In every single-main run the entry of a workflow holds the closed-form delay of its failures in a row since it was queued anew |
| `ActivationOrder.ActivateIsLocal` | `packages/cli/src/active-workflow-manager.ts:447-485` | What activating a workflow does to it depends on its own state, the role and the active flags only |
| `ActivationOrder.ActivateSparesOthers` | `packages/cli/src/active-workflow-manager.ts:447-485` | Activating a workflow leaves trigger, queue entry and error of every other as they were |
| `ActivationOrder.EachAsIfAlone` | `packages/cli/src/active-workflow-manager.ts:436-442` | Activating a list without repeats one after the other leaves each listed workflow as if it alone had been activated, and the others alone |
| `ActivationOrder.FinishIsActivate` | `packages/cli/src/active-workflow-manager.ts:447-485` | An activation taken from wait to wait, and not interrupted, is one call of `activateWorkflow` |
| `ActivationOrder.StretchesTouch` | `packages/cli/src/active-workflow-manager.ts:525-623` | Each stretch of an activation changes one thing: nothing, memory, queue, error, error, queue |
| `ActivationOrder.StagesInOrder` | `packages/cli/src/active-workflow-manager.ts:525-623` | The stretches follow each other in that order, and an error is registered before it is thrown |
| `ActivationOrder.TurnsAdvance` | `packages/cli/src/active-workflow-manager.ts:437-441` | Every turn of a schedule takes an activation one stretch on, so that six turns bring any to its end |
| `ActivationOrder.InterleaveKeepsOutlook` | `packages/cli/src/active-workflow-manager.ts:437-441` | While the activations of a batch take turns at their awaits, what each workflow will look like in the end does not change |
| `ActivationOrder.BatchesAsIfAlone` | `packages/cli/src/active-workflow-manager.ts:436-442` | Over all batches and all interleavings, up to and with the first batch that is rejected, each workflow ends as if it alone had been activated; workflows that are not reached are left alone |
| `ActivationOrder.BatchesAndOrderDoNotMatter` | `packages/cli/src/active-workflow-manager.ts:434-442` | For every batch size and interleaving, the running triggers, queue entry and error of every workflow are those of activating the reached ids one by one |
| `ActivationOrder.BatchSizeMattersExactly` | `packages/cli/src/active-workflow-manager.ts:434-442` | Two batch sizes give a workflow the same running triggers, queue entry and error if and only if both reach it, or neither does, or its activation would change none of them |
| `ActivationOrder.BatchSizeDecides` | `packages/cli/src/active-workflow-manager.ts:451` | The input on which they do not: two active workflows, the lookup of the first fails, and the second is activated in a batch of two and not in a batch of one |
| `ActivationOrder.ChunkLosesNothing` | `packages/cli/src/active-workflow-manager.ts:434` | Batches are nonempty, no larger than the size, and hold the whole list in order; a size below one gives none |
| `ActivationOrder.BatchesAreFull` | `packages/cli/src/active-workflow-manager.ts:434` | All batches but the last have exactly the batch size |
| `ActivationOrder.AttemptedExactly` | `packages/cli/src/active-workflow-manager.ts:434-442` | An id is attempted if and only if no lookup of an id in an earlier batch fails |
| `ActivationOrder.AllAttemptedExactly` | `packages/cli/src/active-workflow-manager.ts:425-445` | Every active id is attempted if and only if there is none, or the batch size is at least one and every failed lookup falls into the last batch |
| `ActivationOrder.ThrowsExactly` | `packages/cli/src/active-workflow-manager.ts:425-445` | The activation of all workflows is rejected if and only if the batch size is at least one and some lookup fails |
| `ActivationOrder.FatesOfActivation` | `packages/cli/src/active-workflow-manager.ts:451-484` | A listed workflow is missing, cannot be looked up, is skipped, activated and clean, dropped for an authorization error, or queued with the initial delay; the error of a failure is registered unless only the last write failed, and a failed lookup leaves nothing behind |
| `MultiMain.AdvanceKeepsExactly` | `packages/cli/src/active-workflow-manager.ts:492-502` | A step of the cluster keeps "triggers run on the one leader only" if and only if it is neither a stepdown that fails to close a running trigger nor a takeover while another instance leads |
| `MultiMain.OneRunnerExactly` | `packages/cli/src/active-workflow-manager.ts:492-502` | It holds at every moment of a run if and only if no step of the run is of these two kinds |
| `MultiMain.AtMostOneRunner` | `packages/cli/src/active-workflow-manager.ts:525-602` | In no run of calls, deliveries, retries, takeovers and clean stepdowns does a workflow run its triggers on two instances or on a follower |
| `MultiMain.DeliveryLightens` | `packages/cli/src/active-workflow-manager.ts:646-678` | Handling a command takes more weight out of flight than it puts in and puts no activation or removal command in flight |
| `MultiMain.CascadesEnd` | `packages/cli/src/active-workflow-manager.ts:873-885` | With no new calls, timers or role changes at most as many messages are handled as those in flight weigh |
| `MultiMain.ActivationIsAnswered` | `packages/cli/src/active-workflow-manager.ts:650-678` | The leader answers an activation command with one broadcast: activation with the error cleared, or the error with the active flag taken back |
| `MultiMain.RemovalIsAnswered` | `packages/cli/src/active-workflow-manager.ts:873-885` | The leader answers a removal command by taking back the error and the triggers, with one broadcast, or with none if a trigger does not close; the queue entry and its timer stay |
| `MultiMain.CopiesReach` | `packages/cli/src/scaling/pubsub/subscriber.service.ts:85-91` | A command reaches every instance, and its sender if and only if it is an activation or removal command |
| `MultiMain.CommandsReach` | `packages/cli/src/scaling/constants.ts:16-19` | Activation and removal commands reach every instance with the sender, all others every instance but the sender |
| `MultiMain.RemoveCallIsSent` | `packages/cli/src/active-workflow-manager.ts:845-850` | Calling for a removal on any instance sends one removal command to each instance and changes no instance, error or flag |
| `MultiMain.AddCallIsSent` | `packages/cli/src/active-workflow-manager.ts:533-540` | So does calling for an activation, with activation commands |
| `MultiMain.RemoveCallReachesLeader` | `packages/cli/src/active-workflow-manager.ts:845-885` | From the call to the effect: delivered to the leader, whose triggers close, it takes the workflow out of its memory and out of the errors |
| `MultiMain.OnlyLeadersHandle` | `packages/cli/src/scaling/pubsub/pubsub.registry.ts:28-35` | A follower lets every command pass, and a leader all display commands |
| `MultiMain.TakeoverActivates` | `packages/cli/src/active-workflow-manager.ts:492-495` | An instance that takes over leads, and every listed workflow ends as if alone activated on it; no other instance changes |
| `MultiMain.StepdownStops` | `packages/cli/src/active-workflow-manager.ts:497-502` | An instance that steps down keeps only triggers that do not close, and sends nothing |
| `LastingRemoval.DormantStays` | `packages/cli/src/active-workflow-manager.ts:525-602` | In no run, clean or not, does a workflow that no event names come back into memory, once it is out of all memories with no retry armed or in flight and no activation on its way |
| `LastingRemoval.StaysOutExactly` | `packages/cli/src/active-workflow-manager.ts:525-602` | A workflow stays out of all memories in every clean run that does not name it if and only if it is out now, no instance, leader or follower, has a retry of it, and no activation of it is on its way to an instance |
| `LastingRemoval.RemovalLastsExactly` | `packages/cli/src/active-workflow-manager.ts:873-885` | A removal that the leader handles lasts if and only if the triggers close, or none ran, and before it no instance had a retry and no activation was on its way |
| `LastingRemoval.RetryComesBack` | `packages/cli/src/active-workflow-manager.ts:533-540` | A retry on any instance publishes an activation that the leader receives, and the leader starts the triggers with no look at the active flag |
| `LastingRemoval.RetryUndoesRemoval` | `packages/cli/src/active-workflow-manager.ts:873-885` | The run that shows it: after a removal has been handled, a timer that is still armed on any instance brings the workflow back into the memory of the leader |
| `ActiveWorkflowManager.ActiveWorkflowManager.Add` | `packages/cli/src/active-workflow-manager.ts:525-623` | All outcomes of an activation: publishing in multi-main, workflow not found or not readable, skipped, failed with the error registered, or completed with entry and error cleared; the webhook table changes exactly when webhooks are added; no queue entry but that of the workflow is dropped |
| `ActiveWorkflowManager.ActiveWorkflowManager.AddQueuedWorkflowActivation` | `packages/cli/src/active-workflow-manager.ts:754-806` | An older timer of the workflow is cleared before one with the initial delay is armed |
| `ActiveWorkflowManager.ActiveWorkflowManager.RetryAgain` | `packages/cli/src/active-workflow-manager.ts:769-788` | The entry is updated in place with the doubled and capped delay and a new handle; without an entry nothing is armed |
| `ActiveWorkflowManager.ActiveWorkflowManager.FinishRetry` | `packages/cli/src/active-workflow-manager.ts:761-793` | A retry activates the workflow it was queued with and arms itself again on failure |
| `ActiveWorkflowManager.ActiveWorkflowManager.Resume` | `packages/cli/src/active-workflow-manager.ts:525-623` | An activation runs on to its next await: loaded and webhook rows written, triggers started, dequeued, error cleared, failure registered, retry queued, or rejected for a failed lookup |
| `ActiveWorkflowManager.ActiveWorkflowManager.AddActiveWorkflows` | `packages/cli/src/active-workflow-manager.ts:425-445` | The loop over batches, with the activations of a batch taking turns in any way until all have ended, leaves every workflow that is reached as if it alone were activated, stops after a batch with a failed lookup and is rejected then; webhook rows of other workflows under other paths stay, and on a change of leadership all rows stay |
| `ActiveWorkflowManager.ActiveWorkflowManager.EmitError` | `packages/cli/src/active-workflow-manager.ts:370-394` | A failing trigger stops its workflow, registers the error and queues the workflow |
| `ActiveWorkflowManager.ActiveWorkflowManager.Remove` | `packages/cli/src/active-workflow-manager.ts:834-871` | The webhook rows of the workflow go first, or stay if that fails; then in single-main error, queue entry, timer and triggers go, and in multi-main a command is published and nothing else happens |
| `ActiveWorkflowManager.ActiveWorkflowManager.RemoveAllQueuedWorkflowActivations` | `packages/cli/src/active-workflow-manager.ts:821-825` | Removing entry after entry empties the queue and clears exactly the timers the entries held |
| `ActiveWorkflowManager.ActiveWorkflowManager.HandleAddWebhooksTriggersAndPollers` | `packages/cli/src/active-workflow-manager.ts:646-678` | The leader activates without publishing the command again, and reports the outcome |
| `ActiveWorkflowManager.ActiveWorkflowManager.HandleRemoveTriggersAndPollers` | `packages/cli/src/active-workflow-manager.ts:873-885` | The leader forgets the error, stops the triggers and reports, unless a trigger does not close |
| `WebhookRegistration.WebhookRegistrar.AddWebhooks` | `packages/cli/src/active-workflow-manager.ts:157-239` | The first blocking webhook ends the loop with its own error, after a roll-back of all rows of the workflow if that succeeds; without one every listed webhook has been attempted, and an error of the work after the loop is thrown |
| `WebhookRegistration.WebhookRegistrar.ClearWebhooks` | `packages/cli/src/active-workflow-manager.ts:245-278` | The rows of the workflow, and only those, are deleted, unless it is missing or an external deletion fails |
| `WebhookRegistration.PutAllRows` | `packages/cli/src/webhooks/webhook.service.ts:114-118` | For every key the row is the one written last, or the old one |
| `WebhookRegistration.NoRowIsLeftExactly` | `packages/cli/src/active-workflow-manager.ts:193-232` | A call of `addWebhooks` leaves no row of the workflow if and only if a webhook blocked and the roll-back succeeded, or there was no row before and none was written; so an error after the loop leaves the rows |
| `WebhookRegistration.ThrowsExactly` | `packages/cli/src/active-workflow-manager.ts:197-229` | `addWebhooks` throws if and only if there is a webhook and some attempt fails, other than by a failed query on init, or the work after the loop fails |
| `WebhookRegistration.FirstFailureIsThrown` | `packages/cli/src/active-workflow-manager.ts:197-227` | The first attempt that fails, other than by a failed query on init, decides the message: taken path for a failed query, else the detail or message of the error |
| `WebhookRegistration.FirstFailureRollsBack` | `packages/cli/src/active-workflow-manager.ts:193-215` | The webhooks up to it have been written, and all rows of the workflow are removed if it is found and all its external webhooks are deleted, and else none |
| `WebhookRegistration.OneWebhookStored` | `packages/cli/src/active-workflow-manager.ts:193-196` | A webhook is in the table afterwards exactly when storing it did not fail, even if the external service refuses it |
| `WebhookRegistration.RegisteredKeeps` | `packages/cli/src/active-workflow-manager.ts:168-196` | A call leaves every row alone that is neither under a path it lists nor of its workflow |
| `WebhookRegistration.OthersAreSparedExactly` | `packages/cli/src/active-workflow-manager.ts:193-215` | A call leaves the rows of all other workflows as they were if and only if it wrote none of their keys |
| `WebhookRegistration.TakenPathIsLost` | `packages/cli/src/webhooks/webhook.service.ts:114-118` | The input on which it does not: the path is taken and the external service refuses, and the row of the other workflow is gone |
| `WebhookRegistration.RollBackSparesOthersExactly` | `packages/cli/src/active-workflow-manager.ts:193-215` | Storing any webhooks and removing all rows of the workflow gives the other rows back if and only if no key of another workflow was written |
| `WebhookRegistration.SuccessStoresAll` | `packages/cli/src/active-workflow-manager.ts:168-196` | Without errors every listed webhook is stored for the workflow, with its own data if no key repeats |
| `WebhookRegistration.RepeatedRunChangesNothing` | `packages/cli/src/active-workflow-manager.ts:198-205` | A second run leaves the table unchanged, also when the database refuses any part of it and no key repeats |
| `WebhookRegistration.RepeatedCallChangesNothing` | `packages/cli/src/active-workflow-manager.ts:198-205` | Calling `addWebhooks` again after a complete call leaves the table unchanged, also when on init the database refuses any of the inserts and no key repeats |
| `WebhookRegistration.RestartChangesNothing` | `packages/cli/src/active-workflow-manager.ts:198-205` | After a complete registration one on init whose queries fail in any places throws nothing and leaves every listed webhook its row |
| `WebhookRegistration.RowsExactly` | `packages/cli/src/active-workflow-manager.ts:174-191` | A row is stored under its method and stripped path; webhook id and path length are recorded exactly for paths with a parameter on nodes with an id |
| `WebhookRegistration.SlashesStripped` | `packages/cli/src/active-workflow-manager.ts:181-186` | One slash is taken off each end where there is one, and a lone slash leaves the empty path |
| `WebhookRegistration.ParameterExactly` | `packages/cli/src/active-workflow-manager.ts:188` | A path has a parameter exactly when one of its segments starts with a colon |
| `WebhookRegistration.SegmentsExactly` | `packages/cli/src/active-workflow-manager.ts:190` | The path length is the number of slash-free segments that joined by slashes give the path |
| `CredentialTypes.GetParentTypes` | `packages/cli/src/credential-types.ts:26-38` | With a bounded call stack: it returns if and only if all `extends` chains fit the stack, and then with the unfolding of the ancestors |
| `CredentialTypes.ShallowIffAcyclic` | `packages/cli/src/credential-types.ts:26-38` | Some call depth suffices if and only if no `extends` cycle is reachable, and then the number of known types does |
| `CredentialTypes.StackSuffices` | `packages/cli/src/credential-types.ts:33-35` | A stack of any size that suffices proves that no cycle is reachable, and one larger than the number of known types suffices for every type that reaches none |
| `CredentialTypes.ChainsAreShort` | `packages/cli/src/credential-types.ts:33-35` | A call that returns within a depth has no longer chain to follow |
| `CredentialTypes.DeepHasLongChain` | `packages/cli/src/credential-types.ts:33-35` | A call that does not return has a chain longer than the depth |
| `CredentialTypes.ParentTypesAreAncestors` | `packages/cli/src/credential-types.ts:27-37` | The result holds exactly the types reached by one or more `extends` edges, never the type itself, and starts with the direct parents in order |
| `CredentialTypes.ParentTypesLength` | `packages/cli/src/credential-types.ts:31-37` | The length is the summed cost of the direct parents, where a type costs one more than its own result |
| `Escaping.EncodingIsOnePass` | `cypress/pages/ndv.ts:353-360` | Five sequential replacements equal one map over the characters |
| `Escaping.CharactersEncoded` | `cypress/pages/ndv.ts:355-359` | The five characters have their entities of HTML, and every other character stands for itself |
| `Escaping.EncodingIsPiecewise` | `cypress/pages/ndv.ts:353-360` | The encoding of a text is that of its parts one after the other |
| `Escaping.EncodedIsClean` | `cypress/pages/ndv.ts:353-360` | No angle bracket, double quote or space is left |
| `Escaping.RoundTrip` | `cypress/pages/ndv.ts:353-360` | Undoing the replacements in reverse order recovers every input |
| `Escaping.EncodingIsInjective` | `cypress/pages/ndv.ts:353-360` | Different texts have different encodings |
| `Escaping.OrderMatters` | `cypress/pages/ndv.ts:355-356` | Replacing the ampersand after the angle bracket breaks the one-pass reading |

## Left out

- ActiveExecutions.ActiveExecutions.AwaitEmpty: leaves the wait loop after `patience` sleeps, because a loop that may run forever has no contract; `ShutdownDrainsExactly` says when it does.
- The asynchronous `add` of executions is `BeginAdd`, `ThrottleGranted`, `WriteFails` and `Commit`, one per stretch between two awaits; the repository calls only succeed or fail.
- The manager's `add`, handlers and role changes are atomic with respect to each other: the role guard is read once, and only the activations of one batch are interleaved at their awaits. A retry is two steps, its firing and its end, with anything in between.
- `GetParentTypes` looks types up in a map: names that JavaScript objects inherit, such as `constructor`, are not known types here. Its call stack is a number of frames.
- Internals of the concurrency control service, which is disabled in queue mode (`concurrency-control.service.ts:57-63`), so that releases do nothing there: grants are oracles, releases are logged as calls, and `disable` and `removeAll` have no effect on the log.
- The concrete `ActiveWorkflows`, database, cache and publisher: trigger start and close, webhook creation and deletion, repository writes and commands are parameters or values. A trigger that keeps running after a failed start is not tracked.
- ActiveWorkflowManager.ActiveWorkflowManager.EmitError: the removal from memory and the registration of the error, which the source does not await, take effect at once.
- Writes that register or deregister an error or take the active flag back, publishing a command, and starting an error workflow do not fail.
- MultiMain.AtMostOneRunner: speaks of runs in which every takeover finds no other leader, as the leader key is meant to ensure, and every stepdown closes all triggers; `OneRunnerExactly` says that both are needed.
- ShutdownSweep.ShutdownDrainsExactly: excludes commits of `add` and changes of status during the wait, which may bring new entries to wait for.
- ActiveWorkflowManager.ActiveWorkflowManager.AddActiveWorkflows: does not say whose webhook row is left when two listed workflows use the same path, which the interleaving decides; `addWebhooks` itself is one stretch.
- `getAllActiveIds` is a parameter: if it fails, nothing is activated. What is thrown is an error with a message.
- The theorems about several instances leave the webhook table out; it is shared by all and no property there speaks of it.
- Messages published to other instances are delivered at most once each, in any order, or dropped; debouncing is not modelled.
- The order in which `Object.keys` lists ids is arbitrary here; start times are opaque numbers.
- `removeAll`, `init` beyond its activation of all workflows, and the readers `getStatus`, `getPostExecutePromise`, `getActiveExecutions`, `isActive`: projections or repetitions of modelled operations.
- `checkIfWorkflowCanBeActivated` and `countTriggers`: their outcomes are parameters.
- The normal `emit` of triggers and pollers, `executeErrorWorkflow`, static data, streaming responses, pushes to browsers and logging: effects outside the state modelled here.
- The workflow data kept in a queue entry is reduced to its id and `active` flag.
