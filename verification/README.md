# Opsle control plane: a verified model

Opsle is a durable, multi-process control plane. Every fact is a JSON file, every writer is a process
that may die between two writes, and safety rests on three file primitives: `link` for create-once, a
`mkdir`-guarded compare-and-swap, and `rename` of a lock directory. This project models the protocols
built on them in Dafny and proves what they guarantee over whole runs.

`dafny verify dfyconfig.toml` checks everything.

## How the models are built

Where several processes interleave, the model is a state machine: the state holds the durable files and,
for each process, a program counter with its local variables. One step is one file operation (or one
outside observation), a process may die between any two steps, and what comes from outside (the clock, the
session binding, probes, failures) is an argument of the step. A run is a sequence of states
(`Common.IsRun`); invariants are kept step by step and lifted to runs by `Common.Invariance` and
`Common.Persistence`. Steps return small effects, so that each proof speaks of one write. Where a property
says why something was done, the run carries the action of each step (`Acted`), and the property names the
earlier step, the values read in it, and the clock, generation and binding that its process was given.

Where one process works alone on variables, the model is a method with the source's loop: the claim calls
(`Claims.ClaimStore`, with other processes acting between any two file operations), the transport cleanup
(`CleanupRun.Cleaner`), upgrade quiescence, and the two measurements of packets. What the outside
world answers in them is a havoc, and ghost traces record what was asked and signalled.

| module | models |
|---|---|
| `Common`, `JsonText` | runs, options, removal of duplicates; UTF-8 lengths and decimal numbers |
| `WakeProtocol`, `WakeInvariant`, `WakeSteps`, `WakeTheorems`, `WakeReceipts`, `WakeWitness` | wake delivery: request, lease, decision, transport, receipt, consumption |
| `WakeLeases`, `WakeFences`, `WakeSettlement`, `WakeCommits`, `WakeConsumption` | why, in a run of that protocol, a lease is replaced, a claim made, a transport started, a decision settled, a receipt written or marked, and a wake consumed |
| `WaitReducer` | the reducer of wake events of one wait |
| `Cas` | compare-and-swap and create-once, one file operation at a time |
| `HostLock`, `HostLockRaces`, `HostLockCalls` | the directory lock with stale takeover |
| `Claims` | fenced task claims over the claim index |
| `Registry`, `RegistryTheorems`, `RegistryCalls`, `RegistryAlone` | ownership of repositories across hosts |
| `Runner`, `RunnerRaces`, `RunnerResults` | runner requests and worker spawns across service restarts |
| `Evaluation`, `EvaluationOutcome`, `EvaluationRuns`, `EvaluationCommits`, `EvaluationReruns`, `EvaluationLocks`, `EvaluationWitness` | the immutable decision and its nine projections, and evaluators that die anywhere |
| `Cleanup`, `CleanupRun` | the cleanup loop of a transport and the validator of its evidence |
| `Quiesce` | quiescence of managed processes before an upgrade |
| `ResumePacket`, `ContextPacket` | the two packets that print their own length |

Identifiers drawn at random are fresh, a digest is injective (so contents are compared in its place), and a
process identity (PID, start ticks, executable) is never used again.

## What does not hold, and when it does

* A compare-and-swap that expects no file does not always find none: a create-once may land between its
  look and its rename, and is overwritten (`Cas.OverwriteHappens`). `Cas.SwapExactly` says that this is the
  only way, and that it never happens to a swap that expects a content. The comment at
  `src/io.js:118-121` promises exactness without this exception; the model follows the code.
* The host lock does not exclude: two contenders can each win the election in their own view
  (`HostLock.TwoHoldersHappen`). `HostLock.TwoHolders` says that two live holders exist only after a takeover
  moved a record other than the one it had observed, which `HostLock.CorruptExactly` identifies with CORRUPT,
  and `HostLock.OnlyRivalsCollide` gives the cause: two takeovers at once between confirming the same stale
  record and moving it. Where there are two such, they can always collide (`HostLockRaces.RivalsCollide`).
* The host lock can become unusable without a further death: a contender that writes its candidate record just after a
  rival has retired the stale lock leaves a directory without an owner (`HostLockRaces.WedgeHappens`), which
  nobody installs over or takes over any more (`HostLockRaces.WedgedForever`).
* Not every crash of an evaluator can be repaired by a rerun. One that dies inside the swap of a file leaves its lock
  directory, which nobody removes (`Cas.OrphanForever`); if the file was not swapped yet, no evaluation completes any
  more (`EvaluationWitness.OrphanForEver`). `EvaluationReruns.RerunCompletesExactly` says that nothing else
  stands in the way.
* So a lock can be seized from a live holder. `Registry` and `EvaluationRuns` have that as a step and count it.
  What they prove of their locks holds of every run without a seizure; with one, two hosts can map a repository
  (`RegistryTheorems.TwoHostsMap`) and a decision can be logged twice (`EvaluationWitness.LoggedTwice`). The first
  committed decision and the distinct workspaces of a registry need no lock.
* A runner result is final, and an attempt spawned once, only with one service at a time:
  `Runner.FailedOverwritten` and `Runner.SpawnedTwice` give the runs of two, and `RunnerRaces` the exact overlap
  that can lead to a second spawn.
* An evaluator that loses the race between its two looks at the commit (`src/cli.js:1104` and
  `src/cli.js:1131`) keeps its own, uncommitted decision; it then fails under the projection lock, and
  touches nothing (`EvaluationRuns.CrashEquivalence`).

## Model

| member | source | states |
|---|---|---|
| WakeTheorems.AtMostOneStart | src/wakeup.js:1058-1138 | in every run of any number of workers, helpers, reconcilers and consumers, with crashes, lease expiry, takeover and retries, the native transport of an event starts at most once |
| WakeTheorems.ReclaimableNeverStarted | src/wakeup.js:1185-1246 | a decision marked TRANSPORT_NOT_STARTED, the only kind that can be claimed again, belongs to an event none of whose claims ever started a transport |
| WakeTheorems.ReceiptAgreesForever | src/wakeup.js:1436-1488 | once a receipt exists, in every later state the event still has it with the same fence, its decision carries the same decision, lease, token, delivery and attempt and is not retryable, and that claim's transport did start |
| WakeTheorems.KeptForever | src/wakeup.js:1690-1747 | no step takes back a receipt, a consumption or a request; the cleanup update rewrites no field of the receipt fence; lease and start histories only grow |
| WakeTheorems.ConsumedForever | src/wakeup.js:194-218 | a consumed wake is reported consumed in every later state, also after the cleanup update, with the same record |
| WakeConsumption.ConsumesAgree | src/wakeup.js:2425-2531 | every consume call that succeeds, first or repeated, by whatever process, returns the one durable record, and the event's decision is then delivered, under the claim of that delivery and generation |
| WakeConsumption.ConsumedWasDelivered | src/wakeup.js:2470-2482 | from the state in which a wake is consumed on, for good, the event's decision is delivered, under the claim that its receipt carries |
| WakeConsumption.ConsumerWasEntitled | src/wakeup.js:2450-2469 | a process whose consume call has succeeded was given the event and the delivery of the record it returns, and has found since a receipt of that delivery in the generation of the supervisor file and of the request, under the binding of the session |
| WakeConsumption.ConsumeExactly | src/wakeup.js:2425-2531 | undisturbed, a consume call succeeds if and only if the receipt is of the presented delivery, of the generation read and requested and of the binding, and the decision is delivered under its claim; it leaves the wake reported consumed, calls itself a duplicate exactly when it was consumed before, and otherwise changes no file |
| WakeTheorems.LeaseFencing | src/wakeup.js:1039-1056 | each newly written lease has a larger token than all earlier ones, and a lease that passes the fence check is the newest of the run |
| WakeLeases.LeaseTakenOnlyWhenFree | src/wakeup.js:962-1037 | in every run the activation lease changes only in two ways: its owner gives it back; or a process writes its own next lease, with the next token, having read at an earlier step of its own that the lease, which is still the same, was none, released, of another generation than the one it read beside it, or expired at its clock, and the new lease is of that generation and expires after that clock reading |
| WakeLeases.RefusedLeavesLease | src/wakeup.js:977-988 | an acquirer that reads another's lease as owned, of its generation and unexpired is refused: the call ends, and nothing else changes |
| WakeLeases.FreeLeaseIsTaken | src/wakeup.js:989-1012 | an acquirer that reads a replaceable lease gets it when nobody changes it before its swap, for its event, in the generation it read |
| WakeLeases.ReleaseGivesBack | src/wakeup.js:1019-1037 | a process that is done with its current lease gives it back when nobody changes it in between, and then ends or goes on to commit its receipt |
| WakeFences.ClaimsAreFenced | src/wakeup.js:1058-1119 | in every run a claim is made only under the lease it names, which its process had read at an earlier step as its own, owned, of the generation of the file and unexpired at its clock, with the request in that generation; a claim that replaces another has a second such reading, in which the replaced decision was there and retryable, and records it in its history |
| WakeFences.StartsAreFenced | src/wakeup.js:2080-2240 | in every run a transport is started only for a claim whose worker has read the lease named in the claim as current in two earlier steps, one after the claim was made and one when the journal of the attempt was there |
| WakeSettlement.DeliveredExplained | src/wakeup.js:1121-1138 | in every run a decision becomes delivered only when its claim has its receipt, or its worker has read its own lease as current with the confirmation in hand, or a later delivery has read the cleaned evidence of that attempt as its own, under its binding, and found it confirmed |
| WakeSettlement.NotStartedExplained | src/wakeup.js:1185-1246 | in every run a decision becomes not started only when it was uncertain and a reconciler has read its evidence as never requested and never confirmed and after that found no receipt, or when its own worker has failed the last check before the launch |
| WakeSettlement.WorkerDelivers | src/wakeup.js:2248-2422 | undisturbed, a worker that finds the receipt of its claim marks the decision delivered, and one that has the confirmation under its current lease marks it delivered and goes on to commit the receipt |
| WakeCommits.ReceiptsAreFenced | src/wakeup.js:1436-1488 | in every run a receipt is written only by a process that had read, at an earlier step, the decision as the receipt's own claim, claimed or delivered, with the receipt's owner alive and the wake requested; a helper's receipt is of its own claim, which it had seen unsettled before that |
| WakeCommits.CommitterBrings | src/wakeup.js:1783-1955 | in every run a receipt about to be committed is late exactly when it is brought by a late confirmation, whose journal it repeats; any other is the committing process's own, under a binding it was given |
| WakeCommits.CommitAlone | src/wakeup.js:1436-1488 | undisturbed, a commit writes its receipt if and only if the decision is its claim, claimed or delivered, its owner is alive, the wake is requested and there is no receipt yet; it changes no other file |
| WakeCommits.MarksAreFinal | src/wakeup.js:1690-1747 | in every run an existing receipt changes only by the mark of its cleanup, once and for good, and says PROVEN only when its helper has left evidence of a complete cleanup under that attempt |
| WakeCommits.MarkAlone | src/wakeup.js:1690-1747 | undisturbed, a receipt that is not marked yet is marked PROVEN or INTERVENTION_REQUIRED by what its helper's cleanup came to, and no other field or file changes |
| WakeReceipts.ChecksWereCurrent | src/wakeup.js:1583-1628 | every fence check that the confirmed path passed was one step of the run: there the lease of the checked claim, by identifier and token, was the durable one, owned, its owner alive, and unexpired at the clock reading of that check, the claim's transport had started, and its event had no receipt |
| WakeReceipts.ConfirmedPastCurrentLease | src/wakeup.js:1556-1688 | a receipt committed by the confirmed path has behind it the fence check of that very claim: a step after the start and before any receipt, in which the claim's own lease and token were current and unexpired at the time read by the check |
| WakeReceipts.UncommittedUndelivered | src/wakeup.js:1556-1688 | while a started helper has not committed, its event has no receipt, its evidence is not cleaned up, and no other process is about to bring a receipt for it |
| WakeWitness.DeliveryHappens | src/wakeup.js:2080-2240 | the protocol does deliver: a run with one start, a confirmed receipt whose cleanup is proven, a delivered decision and a consumed wake |
| WakeWitness.RetryHappens | src/wakeup.js:1058-1138 | after a proven non-start the event can be claimed again, under a new lease with a larger token, with the first claim in the retry history |
| WaitReducer.ReadyMeansTerminal | src/wakeup.js:105-143 | folding events over a fresh registration gives READY exactly when some first-seen event for this wait is terminal, and the stored wake is then the earliest such event |
| WaitReducer.ReadyHoldsEarliest | src/wakeup.js:105-143 | a READY wait holds the wake of an event that is the earliest terminal one |
| WaitReducer.SeenIsDedup | src/wakeup.js:105-113 | the seen identifiers are those of the events in order, with later duplicates removed |
| WaitReducer.InteractionsRecorded | src/wakeup.js:118-129 | the recorded human interactions are exactly the first-seen ones for this wait before the terminal event, in order |
| WaitReducer.ReadyForever | src/wakeup.js:112-116 | after READY no event changes anything but the seen identifiers, which grow |
| WaitReducer.RedeliveryHarmless | src/wakeup.js:110-113 | delivering an event again, anywhere later, leaves the final wait unchanged |
| WaitReducer.RegisteredWait | src/wakeup.js:87-143 | a registration is accepted exactly when none of its five fields is blank, and whatever events follow it keeps its identity, records exactly the distinct identifiers and the human interactions, and is READY exactly when some first-seen event for it is terminal |
| Cas.Linearizable | src/io.js:122-148 | the concurrent calls take effect one after the other, each on the content the previous one left, with the effect and the answer of the atomic operation, except a swap that expected no file and overwrote one |
| Cas.SwapExactly | src/io.js:122-148 | a successful swap replaced exactly the content it expected if and only if no create-once took effect between its look and its rename; with an expected content it always did |
| Cas.EveryCallOnce | src/io.js:87-148 | a finished call has exactly one effect, the one it reports; a call that found the lock directory busy has none |
| Cas.NeverMixed | src/io.js:61-83 | whoever died and wherever, the file holds its first content or one complete value, never a mix |
| Cas.OrphanForever | src/io.js:122-131 | a call that dies holding the lock directory stops every later swap for good, while create-once still works |
| Cas.FinishedCleanly | src/io.js:87-148 | a finished call has released the lock directory and removed its temporary file |
| Cas.OverwriteHappens | src/io.js:87-148 | a reachable state in which a swap that expected no file has overwritten one that a create-once made |
| HostLock.TwoHolders | src/host-lock.js:82-149 | two live processes hold the lock only after some takeover moved a record other than the one it observed, and the record of one of the two was moved away by another process against its own expectation |
| HostLock.HolderInPlace | src/host-lock.js:157-200 | while no takeover has moved a wrong record, the directory carries the record of whoever holds or is releasing the lock |
| HostLock.CorruptExactly | src/host-lock.js:61-76 | CORRUPT is reported by exactly the processes that moved a wrong record, and by no release before some takeover did |
| HostLock.TwoHoldersHappen | src/host-lock.js:103-149 | a run with two live holders: both contenders are elected, and the second moves the record the first has installed |
| HostLock.OnlyRivalsCollide | src/host-lock.js:103-149 | as long as no two takeovers stood at one moment between confirming the same stale record and moving it, no takeover moved a wrong record, nobody reported CORRUPT, and at most one live process owns the lock |
| HostLock.OneContenderExcludes | src/host-lock.js:82-149 | if at most one process at a time is taking the lock over, no two live processes hold it |
| HostLockCalls.ReleaseFrees | src/host-lock.js:61-76 | while no takeover has moved a wrong record, an owner that is idle after the next step has found its record in place and left no lock |
| HostLockCalls.ReleaseAlone | src/host-lock.js:192-198 | undisturbed, a holder's release frees the lock and is done |
| HostLockCalls.AcquireAlone | src/host-lock.js:175-203 | undisturbed, an acquisition succeeds at once if and only if there is no lock or an empty directory, and otherwise leaves the lock as it is |
| HostLockCalls.InstallsWhereFree | src/host-lock.js:179-203 | in every run a process comes to hold the lock only where there was none, or an empty directory, and puts its own record there |
| HostLockCalls.OnlyDeadOrOwn | src/host-lock.js:61-149 | in every run, whoever moves the lock directory means its own record, or that of a process that has died |
| HostLockCalls.TakesOverAlone | src/host-lock.js:82-149 | a contender that nobody disturbs takes over the lock of a dead owner, whatever candidates the dead have left in it |
| HostLockRaces.WrongMoveExactly | src/host-lock.js:129-145 | a takeover moves a wrong record, and reports CORRUPT, if and only if since its confirmation another process has retired the stale record and by now a directory stands there again |
| HostLockRaces.RivalsCollide | src/host-lock.js:103-149 | wherever two takeovers stand between confirming the same stale record and moving it, the run can go on to two live holders |
| HostLockRaces.WedgedForever | src/host-lock.js:157-216 | while nobody is about to move it, a lock directory without an owner that is not empty stays so for good, and nobody becomes an owner any more |
| HostLockRaces.WedgeHappens | src/host-lock.js:82-103 | a run that ends so with nobody dead but the stale owner: a contender's candidate record recreates the directory that a rival has just retired |
| Claims.ExclusiveUntilReleased | src/pipeline.js:301-382 | from a successful acquisition until the release of that same claim, the index entry of its task is that claim, unchanged and ACTIVE, and no other claim of the task is unreleased |
| Claims.ReleasesOwnClaim | src/pipeline.js:349-382 | a release changes the entry of exactly the claim its caller presented, fence included, and no claim is released twice |
| Claims.FencesIncrease | src/pipeline.js:315-339 | fences strictly increase in the order of acquisition, and next_fence exceeds them all |
| Claims.NeverRecurs | src/pipeline.js:335-341 | no content of the index file ever recurs, so a compare-and-swap on its hash has no ABA |
| Claims.ClaimStore.AcquireClaim | src/pipeline.js:301-347 | with any interference between its file operations, the call returns a claim that one transition of the run acquired for this task, attempt and owner and that was written to its file, or a conflict that stood in some state during the call, or refuses a stale authority, or lost 256 rounds, each to an index write by another process or to a swap that found its lock directory held, by somebody alive or dead |
| Claims.ClaimStore.ReleaseClaim | src/pipeline.js:349-382 | the call returns a claim of the presented identity with the requested status that one transition of the run released and that was written to its file, the record read as active from that file with the status and a time of completion, or ends with an answer (already so, missing, ambiguous, stale fence, already terminal, not indexed) that the files gave in some state during the call, or lost 256 rounds, each to an index write by another process or to a swap that found its lock directory held, by somebody alive or dead |
| RegistryTheorems.MappedNamesOwner | src/opsled-registry.js:384-446 | while no lock has been seized from a live holder: a repository mapped in a host's registry always has a pointer naming that host, so no two hosts map it, with any hosts registering, unregistering, refreshing and repairing and dying anywhere |
| RegistryTheorems.WorkspacesDistinct | src/opsled-registry.js:227-251 | within each registry no two repositories share a Herdr workspace, whatever locks were seized |
| RegistryTheorems.RegistrationHappens | src/opsled-registry.js:384-446 | a repository that nobody owned can be registered: pointer and mapping in place, locks free |
| RegistryTheorems.OwnershipNotTaken | src/opsled-registry.js:448-479 | while no lock has been seized from a live holder: a pointer disappears or changes host only in a state in which no registry maps the repository |
| RegistryCalls.SuccessWasAchieved | src/opsled-registry.js:384-479 | while no lock has been seized from a live holder, a call that reports success has achieved it at a step of its own: a registration left the host's pointer and the mapping, both with its binding; an unregistration neither pointer nor any mapping; a refresh the new binding in the host's pointer; a repair a pointer that names the host |
| RegistryCalls.FailureTakesBack | src/opsled-registry.js:443-446 | a registration that found no owner and fails to map the repository takes its pointer back, and nobody maps the repository |
| RegistryCalls.UpdatesExactly | src/opsled-registry.js:415-442 | a valid registry takes a registration exactly when no other repository has the workspace, a refresh exactly when besides the repository is mapped, and every removal; no other mapping changes |
| RegistryCalls.LocksReleasedByOwner | src/host-lock.js:192-198 | whatever was seized, the lock of a process that has not died leaves it only by a seizure or by its own step |
| RegistryAlone.RegisterAlone | src/opsled-registry.js:384-450 | undisturbed, a registration is refused without a trace exactly when another host owns the repository, succeeds with pointer and mapping in place exactly when besides no other repository has the workspace, and otherwise leaves the mappings as they are and an absent pointer absent |
| RegistryAlone.UnregisterAlone | src/opsled-registry.js:452-479 | undisturbed, an unregistration is refused exactly when another host owns the repository, and otherwise leaves neither pointer nor mapping and nothing else changed |
| RegistryAlone.RefreshAlone | src/opsled-registry.js:481-517 | undisturbed, a refresh fails exactly when the repository is not mapped, not owned by the host, or its new workspace belongs to another repository, and otherwise leaves the new binding in pointer and mapping |
| RegistryAlone.RepairAlone | src/opsled-registry.js:186-225 | undisturbed, a repair restores the pointer of a mapped repository that has none, changes nothing else, and succeeds on an existing pointer exactly when it is the host's with the mapping's binding |
| RegistryTheorems.TwoHostsMap | src/opsled-registry.js:384-446 | a run with one seizure of the ownership lock, after which two hosts both map the repository |
| Runner.LaunchAtMostOnce | src/opsled-runner.js:252-270 | over any services, overlapping, dying and restarting, a request id triggers launch at most once |
| Runner.SpawnAtMostOnce | src/runner.js:513-540 | with one service at a time, an attempt's worker is spawned at most once, under any number of requests |
| Runner.FinalResultsAbsorb | src/opsled-runner.js:200-250 | with one service at a time, a result that is FAILED, TERMINAL, UNKNOWN or TIMED_OUT never changes |
| Runner.FailedOverwritten | src/opsled-runner.js:271-287 | with two services, a launcher still at work can overwrite FAILED with RUNNING |
| Runner.SpawnedTwice | src/runner.js:513-540 | with two services and two requests, one attempt can be spawned twice |
| RunnerResults.ResultsExplained | src/opsled-runner.js:194-287 | in every run, with any services, the result of a request changes only so: it appears as LAUNCHING with its launch; its launcher concludes FAILED, or RUNNING with the worker's record published; or a service records what it was told at an earlier step, the status that supervision returned, or FAILED for an adoption that failed or a launch that never published a worker |
| RunnerResults.SupervisedIsRecorded | src/opsled-runner.js:236-244 | what supervision returns is recorded as it is, when the supervising service lives on |
| RunnerResults.ExecuteAlone | src/opsled-runner.js:194-251 | undisturbed and with no failure, executing a request that has a result publishes the record of an unpublished worker, records the status that supervision returns for a LAUNCHING or RUNNING one with a record, FAILED for a LAUNCHING one with neither worker nor record, and leaves any other as it is |
| RunnerResults.LaunchAlone | src/opsled-runner.js:252-287 | undisturbed and with no failure, executing a request without a result launches its attempt once if it was queued: worker spawned, record published, RUNNING; otherwise the result is FAILED and nothing is spawned |
| RunnerRaces.SpawnedOnceUnlessOverlap | src/runner.js:513-540 | over any number of services and requests, an attempt is spawned at most once as long as no two services, for two requests, were at one moment bound to spawn it: having read it as queued, not having lost the result file, and not having spawned yet |
| RunnerRaces.OverlapSpawnsTwice | src/opsled-runner.js:252-287 | wherever two services are so bound, the run can go on to two spawns of the attempt |
| Evaluation.CleanContents | src/cli.js:960-1080 | one uninterrupted evaluation completes exactly when the task can be judged and an accepted task names known requirements, and leaves exactly the stated files and no others: one decision line more, one event or two with their files, and new contents of attempt, task, named requirements and lifecycle state |
| EvaluationOutcome.CompletesExactly | src/cli.js:996-1003 | state by state: the run completes on a task that awaits its verdict or has completed, on an ACCEPTED one only for ACCEPT and on a REJECTED one only for REJECT, on no other, and only if an accepted task names known requirements |
| EvaluationOutcome.VerdictLands | src/cli.js:975-1005 | ACCEPT leaves the task ACCEPTED and REJECT leaves it REJECTED; the attempt carries decision, verdict, rationale and time; the decision log ends with the decision |
| EvaluationOutcome.RequirementsAfter | src/cli.js:939-966 | a rejection changes no requirement, an acceptance exactly the named ones: open or implemented ones become implemented without justification, verified, deferred and not applicable ones stay so, the evidence is the old and the new, each piece once in order of first mention, and the time changes exactly when the requirement was open, or was implemented and its evidence changed |
| EvaluationOutcome.LifeAfter | src/cli.js:1020-1054 | while another task is active the lifecycle state stays; otherwise the task is no longer active, a pause asked for after the current task takes effect by this decision with its time and reason, and any other stays |
| EvaluationOutcome.LifeAfterVerdict | src/cli.js:1039-1053 | an acceptance records the task as the latest accepted one, clears the issue and derives the next action; a rejection leaves the issue and the next action that say so |
| EvaluationOutcome.EventsAfter | src/cli.js:1007-1068 | the event log gains the event of the decision and, exactly when the decision applied a pause, that of the pause with the terminal state of the task and the reason, each with its file |
| Evaluation.Redo | src/cli.js:849-982 | on the files left by any cut of an uninterrupted run, making any of the projections already made changes nothing |
| Evaluation.ImplementTwice | src/cli.js:951-982 | marking a requirement implemented with its evidence is idempotent, update time included |
| EvaluationRuns.FirstDecisionFinal | src/cli.js:1126-1134 | the first committed decision is never replaced, whatever locks were seized |
| EvaluationCommits.AcceptedWasSatisfied | src/cli.js:1110-1112 | in every run, seizures or not, a committed ACCEPT is of an attempt that the Acceptance gate had found satisfied |
| EvaluationCommits.CommitExplained | src/cli.js:1094-1131 | in every run the decision is committed once, by an evaluator called with its verdict and rationale, which had drawn it, with evidence, time and generation of that step, when none was committed, after finding all delivered wakes of the attempt consumed |
| EvaluationCommits.CreatedExactly | src/cli.js:1102-1147 | in every run a call that answers says that it has committed the decision exactly when it has |
| EvaluationRuns.AlwaysAPrefix | src/cli.js:984-1080 | while the projection lock has not been seized from a live holder: whatever evaluators ran with whatever verdicts and wherever they died, the files are those of one uninterrupted run of the committed decision, cut off after some projection |
| EvaluationRuns.CrashEquivalence | src/cli.js:1082-1147 | when any evaluator completes, it returns the committed decision and the files are, as long as the lock has not been seized from a live holder, exactly those of one uninterrupted run, each log line and event once |
| EvaluationReruns.RerunCompletes | src/cli.js:984-1147 | from every state reached without such a seizure, with a decision committed that the original files admit, the projection lock free or left by the dead, and no orphaned swap lock on a file that its projection would still change, a new evaluator of either verdict can run to completion and ends with the files of one uninterrupted run |
| EvaluationReruns.RerunCompletesExactly | src/io.js:122-148 | with the decision committed and the projection lock free or left by the dead, a new evaluator can be brought to completion with those files if and only if the original files admit the decision and no dead evaluator has left the swap lock of a file that its projection would still change |
| EvaluationReruns.OrphanBlocks | src/cli.js:838-850 | once such an orphan stands, no evaluator completes in any later state, neither one at work nor a later one, and whatever is seized |
| EvaluationReruns.PendingMeans | src/cli.js:1008-1065 | whether a projection that swaps a file would still change it can be read off the file: the attempt does not yet hold the judgement, the task is not yet terminal, some requirement is not yet marked, the task is still the active one |
| EvaluationWitness.OrphanForEver | src/io.js:122-148 | a run in which one evaluator dies inside the swap of the attempt file, after which no evaluator ever completes although the decision is committed and admissible, nothing was seized and nobody alive holds the projection lock |
| EvaluationRuns.LandsResult | src/cli.js:838-863 | a projection written to the files it was computed from leaves exactly what was computed, though the write itself only appends, swaps one file or creates one |
| EvaluationLocks.EndsUnlocked | src/cli.js:1077-1080 | in every run, seizures or not, an evaluator that has completed or failed holds neither the projection lock nor any swap lock |
| EvaluationLocks.SwapsReplace | src/cli.js:838-863 | the projections that take a swap lock are exactly those that replace the attempt, the task, the requirements or the lifecycle state; all others only add to a log or create an event file |
| EvaluationLocks.SwapExactly | src/cli.js:838-850 | whatever was seized, a swap replaces its file by what was computed exactly when the file is still the one read, and no other file changes |
| EvaluationLocks.AtMostFortyTries | src/cli.js:838-850 | an evaluator counts at most forty swaps of a file that came to nothing, and begins none after them |
| EvaluationRuns.CompletesOnlyIfClean | src/cli.js:1008-1018 | without such a seizure, no evaluator completes when the committed decision cannot be projected onto the original files |
| EvaluationWitness.LoggedTwice | src/cli.js:852-863 | a run with one seizure of the projection lock, after which the decision log holds the decision twice and no evaluator can project it any more |
| CleanupRun.Cleaner.Run | src/codex-resume-transport.js:590-769 | under any behaviour of the process table: only known groups are signalled, the launcher's own or one that an earlier scan showed for a frontend with a PID, start ticks and a proper group that was not there before the spawn; the tracked groups are exactly those known at the end, the frontend groups exactly those shown, the invalid identities exactly the inexact rows shown; SIGKILL goes only to a group with members in an earlier scan of the round, or to the launcher's before its exit is seen; no signal goes to the host's captured group or to a group where the host was just seen, none at all if the host was lost beforehand, each of SIGTERM and SIGKILL is sent at most once to a group; before the last look every group known by then has had SIGTERM, and what its last round found alive SIGKILL, unless blocked for a stated reason; counts, duplicates, launcher exit and host continuity in the evidence are what the last look saw; cleanup_proven is said exactly when all of it is clear, and then the trace ends, after the last signal, with an exact scan without frontends, one scan without members of each tracked group, and the same host in its captured group, and every frontend ever shown was in a tracked group; such evidence is accepted by the validator when a host was supplied and the scans list it while it lives |
| CleanupRun.Cleaner.Round | src/codex-resume-transport.js:690-711 | one round ends clean exactly when the launcher has exited, every tracked group was found empty and the round's scan showed no frontend of ours; every tracked group has had SIGTERM or is blocked, and after a round that is not clean SIGKILL has been tried on every group that remains, or it is blocked |
| CleanupRun.Cleaner.Conclude | src/codex-resume-transport.js:711-769 | the evidence states what the last look saw, entry by entry, and says proven exactly when nothing failed, is left, invalid or blocked, the launcher has exited and the host continues |
| CleanupRun.GoneWhenProven | src/codex-resume-transport.js:711-769 | proven evidence means that the last look saw no frontend, no member of any tracked group, and the same host in its captured group |
| CleanupRun.Cleaner.DiscoverFrontends | src/codex-resume-transport.js:613-642 | a scan adds to the tracked and the frontend groups exactly those of rows with a PID, start ticks and a proper group that were not there before the spawn, and to the invalid identities exactly the other rows that were not there before; none is found exactly when every row was there before |
| CleanupRun.Cleaner.SignalGroup | src/codex-resume-transport.js:653-680 | signalling one tracked group tries the signal or blocks the group, and keeps the host out of reach |
| CleanupRun.Accepted | src/wakeup.js:1749-1781 | evidence that is proven and states an empty last look, with its groups sorted and the host listed while it lives, passes every clause of the validator |
| Cleanup.CompleteExactly | src/wakeup.js:1749-1781 | the validator accepts exactly the evidence that is proven with every flag set and nothing counted, left, invalid or blocked, with increasing positive groups, those of launcher, frontends and signals tracked and that of the host not |
| CleanupRun.HostUntracked | src/codex-resume-transport.js:716-731 | if the last look found every tracked group empty and after that the host alive in its captured group, that group is not tracked |
| Cleanup.SortedProcessGroups | src/codex-resume-transport.js:262-264 | the groups of a set in strictly increasing order |
| Quiesce.QuiesceManagedRuntime | src/runtime-upgrade.js:330-385 | on every return, each signal went to a long-lived process that the latest scan showed live, immediately after a lookup that found exactly that process, and each live long-lived process of every completed scan was looked up and signalled if still exact; on normal return no scan had failures, the last scan shows nothing live, each process seen live in any scan (same kind, repository, authority and exact identity) is retired exactly once, and the trace ends with one lookup of each retired entry, so that every process ever seen live was looked up after the last scan and not found; BUSY counts the transient and the long-lived entries of the last scan |
| Quiesce.VerifyAbsent | src/runtime-upgrade.js:365-381 | each captured process is looked up once, in order, its flag tells what that lookup found, and the call fails exactly when some process is still there |
| Quiesce.StopLongLived | src/runtime-upgrade.js:296-310 | every live long-lived process of the scan is looked up, and signalled exactly when the lookup found it, until a signal fails; nothing else is signalled |
| Quiesce.CaptureLive | src/runtime-upgrade.js:336-341 | after a scan the captured entries were all seen live, differ pairwise in kind, repository, authority or exact identity, and include every process seen live so far |
| ResumePacket.Packet.Measure | src/reconstruction.js:621-634 | the loop returns the first text that a pass leaves unchanged, with the two fields printing its own byte and character counts, and throws exactly when twelve passes find none; below 2^53 bytes it never throws and takes at most six passes, five when the fields start as safe integers |
| ResumePacket.Converges | src/reconstruction.js:621-634 | for every packet below 2^53 bytes and any starting fields the sixth pass repeats the text, so the loop never throws |
| ResumePacket.ConvergesSooner | src/reconstruction.js:621-634 | when the two fields start as safe integers, five passes are enough |
| ResumePacket.FiveAreNeeded | src/reconstruction.js:621-634 | five passes are needed for every packet with 96 bytes and 95 characters around two zeros |
| ResumePacket.SixAreNeeded | src/reconstruction.js:621-634 | six passes are needed for every packet with 94 bytes and 93 characters around fields that start with a thousand characters |
| ContextPacket.MeasureContextPacket | src/runner.js:405-441 | the call returns the packet with the same evidence that tells the truth about itself, or fails exactly when there is none; the check for internal inconsistency never fires |
| ContextPacket.ValidateMeasurement | src/runner.js:443-452 | validation accepts a packet and a size exactly when the packet is measured and the size is its serialized length |
| ContextPacket.MeasuredUnique | src/runner.js:405-441 | two measured packets with the same evidence are equal, so measuring is idempotent |
| ContextPacket.MeasuredExists | src/runner.js:405-441 | a packet can be measured exactly when it names the supported schemas, has a safe raw size and stays below 2^53 bytes |
| ContextPacket.Conservation | src/runner.js:416-417 | compact plus suppressed bytes equal the larger of raw and compact |
| ContextPacket.SelfField | src/runner.js:430-436 | the self field is sixteen digits that read as the exact serialized length |
| ContextPacket.RatioWithinAMillionth | src/runner.js:422-427 | a ratio, rounded to a double and then to six decimals, is within a millionth of the true quotient, up to quotients of 2^32 |
| ContextPacket.RatioPrinted | src/runner.js:422-427 | a ratio is printed as its whole part and, unless it is whole, a point and at most six digits that do not end with a zero and read as the millionths |

## Left out

- Files and the machine below them: fsync, permissions, full disks and input/output errors in general. A replacing
  write, a create-once and an append take effect in one step, and `Cas` justifies this for the first two. So does a
  compare-and-swap, but a death inside one leaves its lock directory: `Cas` and `EvaluationRuns` model that, while in
  the wake models and `Claims` a swap may find its lock busy at any time.
- Wake delivery: discovery and refresh of the session binding are one binding value that may change at every
  step; the checkpoint written just before spawning is taken to succeed, all others may fail silently.
- Wake delivery: timestamps other than those of leases, receipts and consumptions, legacy receipts and
  decisions without the fields of the current schemas, and the hashes stored beside the compared records.
- Wake delivery: supervisor generations are numbers read from a file that only grows, and a read may be stale.
- Wake delivery: the rollout parser is one answer of the transport, and its cleanup one flag; the loop itself is
  `CleanupRun`.
- HostLock: candidate names are ordered as numbers, not as strings; any total order would do.
- Claims.ClaimStore.ReleaseClaim: takes the statuses COMPLETED and FAILED that its callers pass.
- EvaluationRuns: a seizure frees the lock of a live holder at any moment; which takeovers do that is what `HostLock`
  proves. Nobody else writes the projected files or takes their swap locks, each projection reads its files in one
  step, and the derivation of the next action is a parameter.
- Registry: a seizure frees the lock of a live holder at any moment, as in `EvaluationRuns`; registries start at the
  current schema, and failures of a write after it took effect are not modelled.
- Runner: the worker, its handshake and the supervision of a published record are answers of the environment.
- CleanupRun: the public list of frontend identities and the timestamps of the evidence; the clock is a number of
  rounds.
- Quiesce: the inventory taken once more after the processes were verified absent.
- ContextPacket: ratios of nine thousand million and more, of which a double no longer holds six decimals; strings that
  need escaping are opaque JSON; packets are compared as values, canonical JSON being injective.
- ResumePacket: the packet around its two measured fields, and the compaction of packets above the ceiling.
- Command line, status and watch output, schema validators, routing tables, prompts and release manifests: many
  branches, each settled by reading one of them.
