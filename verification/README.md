# Verification of the SAP BTP service operator

The operator keeps two stores consistent: custom resources in the Kubernetes API server, and the service
instances and bindings they stand for in SAP Service Manager (SM).  Reconciles may be cut off between any
two remote calls, every remote call may be rejected or may work while its answer is lost, and users, the
garbage collector, the secret controller and SM itself act in between.  This project models the operator's
controllers over such interleavings and proves what they guarantee, and where the guarantees end.

Run `dafny verify dfyconfig.toml` in this directory to verify everything.

## How the project is organised

*Service bindings and credential rotation* (`Binding*.dfy`).  `BindingWorld` holds the binding resources of
a namespace, SM's bindings, the credential secrets and the reconciles under way; each of its functions is
one atomic API-server or SM call.  `BindingReconciler` is the reconciler as a transition system, one call
per step.  `BindingInvariant` states what every reachable world satisfies.  The proof is a rely-guarantee
argument: `BindingRely` shows that what a reconcile knows survives the steps of others, `BindingEffects` and
`BindingSmEffects` show that every call respects what others rely on, `BindingSteps`, `BindingPolls` and
`BindingRotations` treat the reconciler call by call, `BindingRuns` puts runs together.  `BindingSafety`
states the guarantees.  `BindingBackups`, `BindingBackupCalls` and `BindingBackupSteps` follow the credentials a
rotation puts aside through every call, and `BindingContinuity` proves exactly when they stay live.
`BindingProgress`, `BindingEnds` and `BindingLater` compute the reconciles of a rotation, and `BindingConverges`
proves that they end it in any order and number, whether SM works at once or later.  `BindingPasses` and
`BindingAnswers` compute the other reconciles: creation, recovery, cleanup, maintenance, the states no reconcile
mends, and what one call answered in its own way leaves.  `BindingTold` follows what statuses record through every
call; on these, `BindingSettles` proves exactly which bindings become ready for certain, and `BindingDeletes` that
every binding marked for deletion goes, however often SM refuses.  `BindingLimits` proves the hypotheses on
deletions, by hand, by garbage collection and past a missing service instance, and on the time to live exact,
and `BindingScenarios` reaches each of the failing situations by an allowed run from empty stores.
`BindingRetries` puts the retry store beside the reconciler.

*Service instances* (`Instance*.dfy`).  The same structure for one instance resource.  `InstanceSafety` and
`InstanceGenerations` need no hypothesis.  That Succeeded never hides a missed specification is proved in
two layers: `InstanceSpecs` and `InstanceTruth` show which facts each call rests on, and `InstanceLedger`,
`InstanceLedgerSteps`, `InstanceLedgerCalls` and `InstanceLedgerRuns` derive those facts from the log of the
requests SM accepted, for every lawful run.  `InstanceExactness` proves for each kind of unlawful call exactly
when the report is still true.  `InstanceConvergence` computes whole reconciles, `InstanceRank` ranks states,
and `InstanceConverges` proves convergence, with the exact condition, for reconciles interleaved in any way
with an SM that finishes its operations.  `InstancePasses` states field by field what each reconcile leaves, and
what decides between them; `InstanceDeletes` proves that an instance marked for deletion goes, however often SM
refuses.  `InstanceRetries` puts the retry store beside the reconciler.
`InstanceScenarios` reaches each of the failing situations by a run from an empty cluster.

*Parameter secrets* (`SecretWatch`, `InstanceWatches`, `SecretController`, `WakeUp`, `SecretWakes`).  Which
instances watch which secrets, and how a change of a secret's data reaches SM: `WakeUp` runs the secret
controller beside the instance reconciler of `InstanceReconciler`, and `SecretWakes` ties what `SecretController`
writes to the flag write there.

*Conditions* (`Conditions`, `ConditionSetters`): the condition list as an algebra, and the setters that edit
it in place.

*Data and arithmetic* (`RetryStore`, `Parameters`, `SecretDescriptor`, `LimitedWriter`, `OperationUrl`).

## Assumptions

SM calls are atomic and SM's lists are up to date.  There is one reconcile at a time per resource.  API
updates use optimistic concurrency, and `Update` brings back the stored status.  SM refuses an update of an
instance that is busy, shows credentials for every binding it finished creating, and does not remove
anything unasked.  External names do not change.  The hash of a specification is injective.  The hypotheses
of the binding guarantees are the predicate `Allowed` of `BindingRuns`: random suffixes and new names are
fresh; a backup is deleted by hand, or by garbage collection once its original is gone, only when its
original neither holds nor shows its binding and either the backup has its finalizer or SM attributes nothing
to it; a backup's time to live outlasts the write that clears its original's id; and a deletion takes the
short way of a missing service instance only when SM attributes nothing to the binding.  That the secret of a
backup shows live credentials has one hypothesis more, `Spares` of `BindingBackupSteps`: no original is unbound
while a backup that is not marked for deletion carries its id.  The hypotheses of
the truth of Succeeded are the predicate `LawfulCall` of `InstanceLedger`: no error of the SM client or of
`Status()` during an operation for another specification, no migration of the hash unless the recorded
requests, or all of them, were for the specification at hand, no recovery of an instance that was asked for
with another specification, no change of secret labels before a creation while the hash of another
specification is stored that decides on updates, and no sharing after an accepted update for another
specification whose record was lost.

## What is not true, and exactly when

Where a name ends in `Reached`, `Misreports` or `WakeUp`, it is a run from empty stores into the failure.

* A binding that is neither marked nor rotating becomes ready for certain exactly when it is not stuck and no
  cleanup of it is left unrecorded.  Stuck is one whose id SM does not know while no removal is recorded, one
  that SM holds and that is not ready with nothing under way, and one that would adopt what SM failed to create.
  When the asynchronous cleanup of a failed creation is cut off before its status write, the resource may be left
  recording the creation of a binding that SM removes, and is then polled for ever (`SettlesExact`,
  `RacingReached`).

* The time to live of a backup protects nothing by itself: retiring the backup revokes the credentials its
  ready original shows exactly when the original still has the labelled id (`RetirementExact`,
  `RetirementReached`).
* Deleting a backup by hand revokes them on the same condition (`DiscardExact`, `DiscardReached`).
* The old credentials are not kept until the backup's time to live ends when the original is deleted before it
  has given up their id: the deletion unbinds what an unmarked backup shows.  Over every allowed run the
  credentials of all unmarked backups stay live exactly when no original is unbound while an unmarked backup
  carries its id, which can be looked up before the call (`ContinuityExact`, `UnbindGuard`, `UnbindExact`,
  `BackupSecretReached`).
* A backup has no finalizer before its first reconcile; deleting it then, by hand or by garbage collection,
  leaves an orphan in SM exactly when SM still attributes a binding to it (`BackupDeletionExact`,
  `CollectExact`, `BackupDeletionReached`, `CollectReached`).
* A deletion without id whose service instance is gone leaves an orphan exactly when SM attributes a
  binding to it that no other resource holds (`BypassExact`, `BypassReached`).
* An error of `Status()`, and as the code stands also one of creating the SM client, makes the success of a
  running operation be reported for the present generation; that is true exactly when the latest request asked
  for the specification at hand, which a hash in the present format tells (`StatusErrorExact`,
  `StatusErrorMisreports`).
* Recovering an instance whose creation was not recorded reports the truth exactly when the creation failed
  or asked for the specification at hand (`RecoveryExact`, `RecoveryMisreports`).
* Sharing aligns an earlier success with the present generation.  That is true exactly when no accepted
  update whose status write was lost was for another specification: an update that is cut off before its
  status write, and an edit back, end in a success that is not one (`SharingExact`, `SharingMisreports`).
* Migrating the hash after an edit lets no update follow.  When sharing comes next, its report is true exactly
  when the last request that SM carried out, and one under way, asked for the specification at hand
  (`MigrationExact`, `MigrationMisreports`).
* A change of secret labels during a creation brings the stored hash back, so that an edit to the specification
  of that hash sends no update and sharing reports success.  No edit leads to a false report exactly when the
  stored hash is that of the specification created, or decides on nothing (`RelabellingExact`,
  `RelabellingMisreports`).
* An instance converges exactly when SM knows what its status names and no subscription keeps it from a
  sharing still to be done (`ConvergenceExact`).  A subscribed instance whose sharing differs from its
  specification is updated again and again and never shared, because the subscription is looked at before
  sharing (`NeverShared`, `StarvedReached`).  When the status write after a synchronous cleanup conflicts, the
  status keeps naming an instance that is gone; it is then polled for ever and never created again
  (`OrphansStay`, `OrphanReached`).
* A wake-up that finds the instance already flagged does not bump its version and can be lost to a
  concurrent status write (`FlagExact`, `LostWakeUp`).
* A failed creation whose cleanup runs as an operation has its attempts forgotten once that succeeds, so that
  the backoff starts over; a cleanup done at once keeps them (`CleanupsForget`).
* After the reset for a resource missing in SM the Succeeded condition never returns to the first place,
  which the print columns show (`LostForGood`).
* The backoff is the capped exponential except where the product is exactly 2^63 ns (`BackoffExact`).
* The descriptor of a secret is complete exactly when no credential is itself called `.metadata`
  (`GetSecretDefaultData`).
* Skipping the update of an instance's labels is sound exactly when every reference carries the name it is
  made of (`SkipExact`).

## Model

| member | source | states |
|---|---|---|
| `BindingSafety.CredentialContinuity` | controllers/servicebinding_controller.go:966-1024 | over every allowed run, the secret of an original not marked for deletion shows credentials of an SM binding created for it that nobody asked SM to remove |
| `BindingContinuity.SecretContinuity` | controllers/servicebinding_controller.go:966-1063 | the same for every binding not marked for deletion, original or backup: over allowed runs that never unbind an original while an unmarked backup carries its id, a backup's secret shows exactly the credentials it was made for, live and created for its original |
| `BindingContinuity.ContinuityExact` | controllers/servicebinding_controller.go:966-1063 | over every allowed run and for every SM binding, the credentials of its unmarked backup are live between any two actions if and only if the run never unbinds an original that holds them while the backup is unmarked |
| `BindingContinuity.BackupContinuity` | controllers/servicebinding_controller.go:1044-1063 | after such a run SM holds what the backup was made for under the backup's names, live, whether the backup shows it yet or not, so that its recovery query can find it |
| `BindingContinuity.UnbindExact` | controllers/servicebinding_controller.go:348-372 | when an original is unbound, at once or later, with or without an answer, what the unmarked backups show stays live if and only if none of them shows the original's id |
| `BindingContinuity.UnbindGuard` | controllers/servicebinding_controller.go:348-372 | before the call: the credentials of unmarked backups survive it if and only if none of them is labelled with the original's id, and no backup with that label at all is enough |
| `BindingBackupSteps.StepBacked` | controllers/servicebinding_controller.go:86-246 | every allowed action of controller, users, collector or SM that spares the backups of a binding keeps them, their secrets and what every reconcile knows of them |
| `BindingScenarios.BackupSecretReached` | controllers/servicebinding_controller.go:348-372 | an allowed run to the unbind of a deleted original, after which SM no longer holds what the secret of its unmarked backup shows |
| `BindingSafety.NoOrphan` | controllers/servicebinding_controller.go:524-549 | every SM binding is the id in some resource's status or the one answer to the recovery query of a resource without id, with crashes and lost answers between any two calls |
| `BindingSafety.AtMostOne` | controllers/servicebinding_controller.go:542-548 | SM never holds two bindings with one _k8sname, so the case of two or more query results is unreachable |
| `BindingSafety.BackupAgrees` | controllers/servicebinding_controller.go:990-1016 | at most one backup per rotated id, and SM shows that id under exactly the backup's name, _k8sname and original |
| `BindingSafety.NoSharing` | controllers/servicebinding_controller.go:256-320 | two originals never hold the same SM binding |
| `BindingSafety.FinalizerWhileHeld` | controllers/servicebinding_controller.go:175-180 | while SM holds a binding of an original, under its id or its name, the original carries the finalizer |
| `BindingSafety.FinalizerReleased` | controllers/servicebinding_controller.go:322-383 | whatever happens, a finalizer goes only in a world where SM holds nothing of the resource and its secret is gone |
| `BindingSafety.OneSlot` | controllers/servicebinding_controller.go:437-459 | operation URL and type come and go together and address the resource's own id |
| `BindingSafety.SlotExclusive` | controllers/servicebinding_controller.go:146-153 | while an operation runs on a resource not marked for deletion, the only call that can change SM is the cleanup of that binding after its failure |
| `BindingSafety.OnlyMutators` | client/sm/client.go:230-304 | every call of the reconcile outside the five mutating ones leaves SM as it was |
| `BindingRuns.StepKeeps` | controllers/servicebinding_controller.go:86-246 | every allowed action of controller, users, collector or SM keeps the invariant, whatever the answers |
| `BindingRuns.Reached` | controllers/servicebinding_controller.go:86-246 | every allowed run from empty stores, of any length and interleaving, ends in the invariant |
| `BindingProgress.RotationCompletes` | controllers/servicebinding_controller.go:966-1063 | one undisturbed pass gives the resource and its secret a new binding, and leaves a backup with the old id under the names SM now shows for it, and nothing else changed |
| `BindingEnds.AdoptionCompletes` | controllers/servicebinding_controller.go:1103-1119 | one undisturbed pass of a new backup makes it hold and show exactly the old binding |
| `BindingEnds.DeletionCompletes` | controllers/servicebinding_controller.go:322-372 | one undisturbed pass over a resource marked for deletion removes it, its SM binding and its secret, and nothing else |
| `BindingEnds.RotationEnds` | controllers/servicebinding_controller.go:966-1101 | five undisturbed reconciles, adoption and retirement included, leave the resource with a new binding and no rotation condition, and no trace of the backup or the old binding in any store |
| `BindingProgress.RotationStarts` | controllers/servicebinding_controller.go:284-299 | when SM creates the new binding later, one undisturbed pass leaves the backup in place, the resource with the operation recorded, and the old credentials in its secret |
| `BindingLater.CreationSeen` | controllers/servicebinding_controller.go:460-476 | the exact outcome of the poll that finds the new binding created |
| `BindingLater.DeletionSeen` | controllers/servicebinding_controller.go:477-494 | the exact outcome of the poll that finds the binding of a resource marked for deletion removed: resource and secret are gone, and nothing else is changed |
| `BindingLater.RetirementWaits` | controllers/servicebinding_controller.go:1065-1101 | a backup whose time is up stays while its original is not ready, and says so |
| `BindingDeletes.DeletionEnds` | controllers/servicebinding_controller.go:322-494 | from every reachable world, any mixture of undisturbed reconciles of a binding marked for deletion and of operations that SM ends, well or badly, removes the resource, its secret, the SM binding it holds and what SM attributes to it, as soon as three reconciles have found SM idle and two more for each operation that ended badly; no other resource, secret or SM binding changes but by what SM ends |
| `BindingDeletes.DeletionRefused` | controllers/servicebinding_controller.go:437-459 | the poll that finds the removal refused leaves no operation recorded, the id and the secret kept and Succeeded false, so that the next pass unbinds again |
| `BindingDeletes.DeletionFinds` | controllers/servicebinding_controller.go:326-337 | a resource marked for deletion without an id records the binding SM shows under its names, to be removed by the next pass |
| `BindingDeletes.DeletionUnfound` | controllers/servicebinding_controller.go:339-347 | if SM shows none, the resource and its secret go in that pass |
| `BindingLater.DeletionStarts` | controllers/servicebinding_controller.go:348-366 | when SM removes later, the pass leaves the removal asked for and recorded, and the secret as it was |
| `BindingTold.RemovalAsked` | controllers/servicebinding_controller.go:348-366 | in every reachable world a recorded removal was asked of SM: it is running, refused or done, and addresses the id of the resource |
| `BindingSettles.SettlesExact` | controllers/servicebinding_controller.go:86-246 | from every reachable world, an original neither marked for deletion nor rotating ends up ready, reporting success and showing the binding it holds, for every mixture of undisturbed reconciles and of recorded operations that SM ends, with four reconciles that find SM idle and three more for each bad end, if and only if it is not stuck and does not record the creation of a binding SM is removing |
| `BindingSettles.PassProgress` | controllers/servicebinding_controller.go:86-246 | no reconcile of such a resource raises what it has left to do, one that finds SM idle lowers it, and none leaves it stuck |
| `BindingSettles.StuckStays` | controllers/servicebinding_controller.go:155-173 | a stuck resource is never shown ready, whatever the reconciles and whatever SM ends |
| `BindingScenarios.RacingReached` | controllers/servicebinding_controller.go:497-522 | an allowed run to a failed creation whose asynchronous cleanup is not recorded, from which becoming ready is not certain |
| `BindingPasses.CreationStarts` | controllers/servicebinding_controller.go:284-299 | when SM creates later: a pass from no binding leaves one pending under the resource's names, the finalizer, and the creation recorded with Succeeded false |
| `BindingPasses.CreationCompletes` | controllers/servicebinding_controller.go:302-320 | when SM creates at once: the same pass leaves the resource ready and its secret showing the new binding |
| `BindingPasses.RecoveryAdopts` | controllers/servicebinding_controller.go:609-637 | a binding found in SM is adopted in the state SM shows: creation or removal recorded while running, success when done, failure when failed, the secret written when it was created |
| `BindingPasses.FailureCleans` | controllers/servicebinding_controller.go:437-447 | the poll that finds a creation, or its cleanup, failed reports that and removes the binding: at once, with its id, or as a recorded operation |
| `BindingPasses.CleanupSeen` | controllers/servicebinding_controller.go:477-494 | the poll that finds the cleanup done removes secret, finalizer, id and operation, and keeps the report |
| `BindingPasses.LossReported` | controllers/servicebinding_controller.go:155-173 | a binding SM no longer knows leaves a lone Ready condition that is false, and the id |
| `BindingPasses.UnreadyStays` | controllers/servicebinding_controller.go:208-246 | a binding that SM holds and that is not ready, with nothing under way, gets its finalizer and nothing else |
| `BindingPasses.UnknownStays` | controllers/servicebinding_controller.go:421-423 | a creation SM no longer knows stays recorded, with Succeeded false |
| `BindingPasses.AbsenceReported` | controllers/servicebinding_controller.go:1121-1134 | without its instance a resource not marked for deletion only reports that it is blocked, whatever it records |
| `BindingPasses.UnreadinessReported` | controllers/servicebinding_controller.go:182-197 | while its instance goes away or is not ready, a resource without an operation gets its finalizer and reports that it is blocked |
| `BindingPasses.DeserterGoes` | controllers/servicebinding_controller.go:130-136 | marked for deletion, without id and without its instance, the resource goes with its secret and SM is not asked |
| `BindingAnswers.MissingSecretRestored` | controllers/servicebinding_controller.go:562-592 | maintenance of an observed generation changes nothing while the secret is there, and writes a missing one again from what SM holds |
| `BindingAnswers.SecretRefreshed` | controllers/servicebinding_controller.go:562-592 | maintenance of a generation not yet observed writes the secret and reports success |
| `BindingAnswers.UnshownKept` | controllers/servicebinding_controller.go:580-592 | maintenance of a binding for which SM shows no credentials leaves the secret alone and writes the status as it is |
| `BindingAnswers.ForeignReported` | controllers/servicebinding_controller.go:155-173 | a binding that SM no longer shows for the instance is reported lost, even if SM holds it |
| `BindingAnswers.RotationPrepared` | controllers/servicebinding_controller.go:1154-1173 | a ready resource with rotation switched on prepares to rotate when the time has come or the annotation asks for it, and only records that |
| `BindingAnswers.RotationResumes` | controllers/servicebinding_controller.go:990-1024 | a rotation that finds its backup gives up the old id without a second backup, takes the annotation off and creates a new binding in its place, at once or later |
| `BindingAnswers.RotationAbandoned` | controllers/servicebinding_controller.go:985-988 | a rotation without a binding to rotate drops condition and annotation, and the same pass asks for a binding |
| `BindingAnswers.RotationGoesOn` | controllers/servicebinding_controller.go:973-983 | a rotation that has lost its new binding asks for another in one pass and stays a rotation |
| `BindingAnswers.PolicylessStops` | controllers/servicebinding_controller.go:1044-1063 | without a rotation policy no backup can be made: the reconcile ends there, whatever would be answered |
| `BindingAnswers.RotationRetried` | internal/utils/controller_util.go:132-147 | a rotation whose PATCH or backup is refused for good is prepared again, with the rest of the status as it was |
| `BindingAnswers.BereftRetires` | controllers/servicebinding_controller.go:1065-1083 | a due backup whose original is gone, or that names none, marks itself for deletion |
| `BindingAnswers.BrokenPollProbed` | controllers/servicebinding_controller.go:391-419 | when the poll of a removal is answered with 500 and the binding is gone, resource and secret go; if it is there the failure is reported and the operation kept |
| `BindingAnswers.RejectionReported` | internal/utils/controller_util.go:116-130 | the rejection of any call is written as Succeeded false with id, operation and readiness kept, or ends the reconcile without a trace, as the code does for that call |
| `BindingAnswers.RejectionHarmless` | client/sm/client.go:230-304 | a rejected call, whichever it is, changes neither store |
| `BindingAnswers.LostIsBoth` | client/sm/client.go:230-304 | a write whose answer is lost has all of its effect, and the reconcile goes on as if it had none |
| `BindingAnswers.ClientlessReported` | controllers/servicebinding_controller.go:140-143 | without an SM client a resource, marked or not, reports the failure and goes no further |
| `BindingAnswers.DescriptionReported` | controllers/servicebinding_controller.go:424-435 | a running operation that SM describes is reported as under way and stays recorded |
| `BindingAnswers.TakenReported` | controllers/servicebinding_controller.go:221-226 | when the name of the secret is taken, that is reported and SM not asked for a binding |
| `BindingAnswers.UnreadableReported` | controllers/servicebinding_controller.go:260-264 | when the parameters cannot be read, that is reported and SM not asked for a binding |
| `BindingConverges.RotationConverges` | controllers/servicebinding_controller.go:966-1101 | once the original has begun, undisturbed reconciles of original and backup, mixed in any order and number with an SM that finishes its operations, end the rotation, all with the same outcome: as soon as one of the original, two if the new binding is created later, find it created, and three of the backup, four if the old one may be removed later, find its time up, its original ready and SM done |
| `BindingConverges.RotationConvergesAtOnce` | controllers/servicebinding_controller.go:966-1101 | with an SM that does everything at once, any order and number will do that holds one reconcile of the original and three of the backup after its time is up |
| `BindingConverges.MoveKeeps` | controllers/servicebinding_controller.go:208-246 | no reconcile of either resource, and no operation that SM finishes, raises what a rotation has left to do; one of the original that finds the new binding created lowers what the original has left, and one of the backup that finds its time up, its original ready and SM done what the backup has left |
| `BindingLimits.RetirementExact` | controllers/servicebinding_controller.go:1065-1087 | retiring a backup keeps the credentials its ready original shows if and only if the original has another id by then |
| `BindingLimits.DiscardExact` | controllers/servicebinding_controller.go:322-372 | deleting a finalized backup by hand keeps the credentials its ready original shows if and only if the original has another id by then |
| `BindingLimits.BackupDeletionExact` | controllers/servicebinding_controller.go:1044-1063 | deleting a backup whose original moved on leaves no orphan if and only if it has its finalizer or SM attributes nothing to it |
| `BindingLimits.CollectExact` | controllers/servicebinding_controller.go:1044-1050 | garbage collection of a backup through its owner reference leaves no orphan on the same condition |
| `BindingLimits.BypassExact` | controllers/servicebinding_controller.go:130-136 | deleting a binding or backup without id whose instance is gone leaves no orphan if and only if another resource holds whatever SM attributes to it; for an original, if and only if SM attributes nothing to it |
| `BindingScenarios.RetirementReached` | controllers/servicebinding_controller.go:1065-1087 | an allowed run to a backup whose time is up while its ready original still holds the labelled id |
| `BindingScenarios.DiscardReached` | controllers/servicebinding_controller.go:1044-1063 | an allowed run to a finalized backup at rest whose ready original still holds the labelled id |
| `BindingScenarios.BackupDeletionReached` | controllers/servicebinding_controller.go:1044-1063 | an allowed run to a backup without finalizer whose deletion orphans the old binding |
| `BindingScenarios.CollectReached` | controllers/servicebinding_controller.go:1044-1050 | an allowed run to such a backup whose original is gone |
| `BindingScenarios.BypassReached` | controllers/servicebinding_controller.go:130-136 | an allowed run to a deletion that is about to skip an SM binding of its own |
| `BindingPolls.FetchInstanceOk` | controllers/servicebinding_controller.go:117-157 | finding the service instance, missing or not, and dispatching to poll, delete or create keeps the invariant |
| `BindingPolls.PollStatusOk` | controllers/servicebinding_controller.go:385-459 | reading the operation, with every outcome and error, keeps the invariant |
| `BindingPolls.PollStoreOk` | controllers/servicebinding_controller.go:460-476 | storing the credentials of a binding whose creation succeeded keeps the invariant |
| `BindingPolls.PollRemoveFinalizerOk` | controllers/servicebinding_controller.go:477-494 | removing secret and finalizer after an asynchronous deletion keeps the invariant, though the Update brings back the stored status |
| `BindingPolls.CleanupOk` | controllers/servicebinding_controller.go:497-522 | unbinding what could not be created, at once or later, keeps the invariant |
| `BindingPolls.QueryExact` | controllers/servicebinding_controller.go:524-549 | the recovery query finds exactly what SM attributes to the resource, and at most one binding |
| `BindingPolls.DeleteQueryOk` | controllers/servicebinding_controller.go:328-346 | looking for a lost binding before the finalizer goes keeps the invariant |
| `BindingPolls.DeleteUnbindOk` | controllers/servicebinding_controller.go:348-372 | unbinding during deletion, at once or as an operation, keeps the invariant |
| `BindingPolls.DeleteRemoveFinalizerOk` | controllers/servicebinding_controller.go:854-861 | removing the finalizer at the end of a deletion keeps the invariant |
| `BindingRotations.CheckExistsOk` | controllers/servicebinding_controller.go:155-173 | writing the lone NotFound condition for a binding SM lost keeps the invariant |
| `BindingRotations.RotateListOk` | controllers/servicebinding_controller.go:990-996 | searching for a backup, and planning one under a fresh suffix if there is none, keeps the invariant |
| `BindingRotations.RenameFirstOk` | client/sm/client.go:270-287 | the first PATCH of a rename, which leaves the binding without _k8sname, keeps the invariant |
| `BindingRotations.RenameSecondOk` | client/sm/client.go:288-304 | the second PATCH keeps the invariant, and a failure between the two is survived |
| `BindingRotations.CreateBackupOk` | controllers/servicebinding_controller.go:1044-1063 | creating the backup, or failing to, keeps the invariant |
| `BindingRotations.RotateSaveOk` | controllers/servicebinding_controller.go:1018-1024 | giving up the id once the backup exists keeps the invariant |
| `BindingRotations.ReadyCheckOk` | controllers/servicebinding_controller.go:208-246 | choosing between retirement, rotation, maintenance and creation keeps the invariant |
| `BindingRotations.FetchOriginalOk` | controllers/servicebinding_controller.go:1065-1101 | retiring a backup keeps the invariant under the time-to-live hypothesis |
| `BindingRotations.QueryOk` | controllers/servicebinding_controller.go:228-242 | recovering by query before creation keeps the invariant |
| `BindingRotations.BindOk` | controllers/servicebinding_controller.go:256-302 | asking SM for a binding, at once or later, keeps the invariant |
| `BindingRotations.RecoverStoreOk` | controllers/servicebinding_controller.go:1103-1119 | storing the credentials of a recovered binding keeps the invariant |
| `BindingRotations.ResyncShape` | controllers/servicebinding_controller.go:609-637 | adopting a binding in the state SM shows yields a status with one operation slot and the adopted id |
| `BindingRotations.MaintainOk` | controllers/servicebinding_controller.go:551-592 | maintaining the secret keeps the invariant |
| `BindingRely.RelyKeeps` | controllers/servicebinding_controller.go:86-246 | everything a reconcile knows survives the steps of other reconciles, users and SM |
| `InstanceSafety.StepKeeps` | controllers/serviceinstance_controller.go:76-199 | every action, with no hypothesis, keeps the invariant of an instance |
| `InstanceSafety.AtMostOne` | controllers/serviceinstance_controller.go:173-186 | SM never holds two instances for one name, whatever was lost or crashed |
| `InstanceSafety.NoOrphan` | controllers/serviceinstance_controller.go:501-524 | what SM holds belongs to a resource with the finalizer that names it, or has no id and would list it |
| `InstanceSafety.FinalizerReleased` | controllers/serviceinstance_controller.go:303-354 | the finalizer of an instance goes only when SM holds nothing |
| `InstanceDeletes.DeletionEnds` | controllers/serviceinstance_controller.go:303-354 | from every reachable world, any mixture of answered passes over an instance marked for deletion and of operations that SM ends, well or badly, leaves neither the resource nor anything in SM, as soon as three passes have found SM done and two more for each operation that ended badly |
| `InstanceDeletes.DeletionAtOnce` | controllers/serviceinstance_controller.go:330-351 | when SM deletes at once, or does not know the instance, one pass removes the resource and the instance |
| `InstanceDeletes.DeletionStarts` | controllers/serviceinstance_controller.go:324-342 | when SM deletes later, the pass records the operation SM has just begun, with Succeeded false for the generation at hand |
| `InstanceDeletes.DeletionSeen` | controllers/serviceinstance_controller.go:449-453 | the poll that finds the deletion done removes the resource |
| `InstanceDeletes.DeletionRefused` | controllers/serviceinstance_controller.go:417-443 | the poll that finds the deletion failed forgets the operation, keeps the id and reports no success |
| `InstanceDeletes.DeletionUnlisted` | controllers/serviceinstance_controller.go:309-323 | without an id, and with nothing listed in SM, the resource goes |
| `InstanceDeletes.DeletionFinds` | controllers/serviceinstance_controller.go:309-319 | without an id, the instance SM lists is recorded, to be deleted by the next pass |
| `InstanceSafety.OneSlot` | controllers/serviceinstance_controller.go:247-254 | operation URL and type come and go together, address the instance's own id and an operation SM knows |
| `InstanceSafety.SlotExclusive` | controllers/serviceinstance_controller.go:417-434 | while an operation runs on an instance not marked for deletion, only the cleanup of that instance after its failure can change SM |
| `InstanceSafety.ObservedGeneration` | internal/utils/controller_util.go:52-57 | the stored observed generation is that of the Succeeded condition and never exceeds the object's |
| `InstanceGenerations.PollKeepsGeneration` | controllers/serviceinstance_controller.go:390-491 | a whole poll whose calls are answered, cleanup and its writes included and with any actions of others in between, never raises the stored observed generation |
| `InstanceSteps.PollStatusOk` | controllers/serviceinstance_controller.go:390-459 | reading the operation, with every outcome and error, keeps the invariant |
| `InstanceSteps.CleanupOk` | controllers/serviceinstance_controller.go:466-491 | cleaning up a failed asynchronous creation keeps the invariant |
| `InstanceSteps.DeleteCallOk` | controllers/serviceinstance_controller.go:318-342 | deprovisioning during deletion keeps the invariant |
| `InstanceSteps.QueryOk` | controllers/serviceinstance_controller.go:173-187 | recovery by query, or going on to create, keeps the invariant |
| `InstanceSteps.RecoveredWritable` | controllers/serviceinstance_controller.go:526-578 | the status recovery writes has one operation slot, names what SM holds and observes no future generation |
| `InstanceSteps.BuildOk` | controllers/serviceinstance_controller.go:621-628 | building the parameters, with the label update that reloads the status, keeps the invariant |
| `InstanceSteps.ProvisionOk` | controllers/serviceinstance_controller.go:220-260 | provisioning, at once or later, keeps the invariant |
| `InstanceSteps.UpdateOk` | controllers/serviceinstance_controller.go:263-301 | updating, at once or later, keeps the invariant |
| `InstanceSteps.ShareOk` | controllers/serviceinstance_controller.go:356-388 | sharing and unsharing, with their errors, keep the invariant |
| `InstanceLedgerRuns.NoMissedSpec` | controllers/serviceinstance_controller.go:659-709 | over every lawful run a true Succeeded condition for the current generation means SM applies the current specification, even if it was edited during an operation |
| `InstanceLedgerRuns.StepSound` | controllers/serviceinstance_controller.go:76-301 | every lawful step keeps the invariant, the truth of the reports, and the agreement of status, hash and SM with the log of accepted requests |
| `InstanceLedger.ShareFaithful` | controllers/serviceinstance_controller.go:192-195 | when sharing is about to align a success, SM applies the specification if and only if no unrecorded accepted request was for another one |
| `InstanceSpecs.DoneTrue` | controllers/serviceinstance_controller.go:435-463 | a finished create or update that was recorded truly yields a true success |
| `InstanceExactness.SharingExact` | internal/utils/condition_utils.go:216-239 | after a run lawful so far the success that sharing reports is true if and only if no accepted request without a record was carried out or runs for another specification |
| `InstanceExactness.RecoveryExact` | controllers/serviceinstance_controller.go:526-573 | recovering an instance reports the truth and keeps its operation on track if and only if its unrecorded creation failed or asked for the specification at hand |
| `InstanceExactness.StatusErrorExact` | internal/utils/condition_utils.go:183-208 | after an error of Status() or of the SM client, the success reported once the operation is done is true if and only if the latest request asked for the specification at hand; with a hash in the present format that decides on updates, if and only if that hash is of the specification |
| `InstanceExactness.MigrationExact` | controllers/serviceinstance_controller.go:121-129 | after the migration of the hash and the sharing that follows it, the success reported is true if and only if the last request carried out, and one under way, asked for the specification at hand |
| `InstanceExactness.RelabellingExact` | controllers/serviceinstance_controller.go:621-625 | after a creation during which the labels changed, done at once or as an operation polled any number of times, no edit during or after it makes the next pass report a false success if and only if the stored hash, if it decides on updates, is that of the specification created |
| `InstanceScenarios.SharingMisreports` | controllers/serviceinstance_controller.go:356-388 | a run: update accepted, status write lost, edit back, share; the report is false |
| `InstanceScenarios.RecoveryMisreports` | controllers/serviceinstance_controller.go:526-573 | a run: the answer to the creation is lost, edit, recovery; the report is false |
| `InstanceScenarios.StatusErrorMisreports` | controllers/serviceinstance_controller.go:390-396 | a run: edit during an update, error of Status(), end of the update; the report is false |
| `InstanceScenarios.MigrationMisreports` | controllers/serviceinstance_controller.go:121-129 | a lawful run to the migration of the hash after an edit; sharing then reports a false success |
| `InstanceScenarios.RelabellingMisreports` | controllers/serviceinstance_controller.go:604-625 | a run: a subscribed creation fails, the subscription is given up, which drops the labels during the next creation, and the specification edited back; the report is false and no update was sent |
| `InstanceConverges.Converges` | controllers/serviceinstance_controller.go:76-199 | from every reachable resting state of an instance that SM knows and no subscription keeps from being shared, any interleaving of answered passes and finishing operations in which thirteen passes find SM done ends in a state that no later pass changes |
| `InstanceConverges.ConvergenceExact` | controllers/serviceinstance_controller.go:76-199 | every such interleaving converges if and only if SM knows the instance and no subscription keeps it from a sharing still to be done |
| `InstanceConverges.PassProgress` | controllers/serviceinstance_controller.go:76-199 | a pass never raises the rank of what SM will have finished, busy or not; finding SM done it lowers the rank, or changes neither store when the rank is zero |
| `InstanceConvergence.PassWaits` | controllers/serviceinstance_controller.go:404-416 | the exact outcome of a poll that finds the operation running: written for the generation observed if SM describes it, else nothing |
| `InstanceConvergence.PassUpdates` | controllers/serviceinstance_controller.go:263-301 | the exact outcome of a pass that updates |
| `InstanceConvergence.PassCreates` | controllers/serviceinstance_controller.go:208-260 | the exact outcome of a pass that creates, with first conditions and finalizer |
| `InstanceConvergence.PassRecovers` | controllers/serviceinstance_controller.go:173-183 | the exact outcome of a pass that recovers what SM holds |
| `InstanceConvergence.PassCleans` | controllers/serviceinstance_controller.go:466-491 | the exact outcome of a pass that cleans up a failed creation |
| `InstanceConvergence.PassShares` | controllers/serviceinstance_controller.go:356-388 | the exact outcome of a pass that shares or unshares |
| `InstanceConvergence.PassFinal` | controllers/serviceinstance_controller.go:630-657 | the exact outcome of a pass over the final state: a missing hash is filled in, else nothing is written |
| `InstancePasses.CreationLeaves` | controllers/serviceinstance_controller.go:208-260 | field by field: a pass that finds nothing in SM leaves one new instance with the specification at hand, recorded as an operation or as a success, and its hash unless the labels changed |
| `InstancePasses.RecoveryLeaves` | controllers/serviceinstance_controller.go:526-578 | a pass that finds an instance adopts it: ready unless its creation has not succeeded, the operation recorded while it runs, success or failure for the generation at hand, and the Shared condition of a shared one |
| `InstancePasses.UpdateLeaves` | controllers/serviceinstance_controller.go:689-709 | an update is asked for when a secret has changed, the instance follows its secrets, its hash differs, or an update is still due, and then SM has the specification, the flag is off and the hash recorded |
| `InstancePasses.RefusalLeaves` | controllers/serviceinstance_controller.go:263-301 | an update that SM refuses as busy records the hash and stays due only when SM was out of capacity |
| `InstancePasses.SharingLeaves` | controllers/serviceinstance_controller.go:356-388 | a sharing that is due, with no update before it, makes SM's sharing and the Shared condition what the specification asks for |
| `InstancePasses.SharingRejected` | internal/utils/controller_util.go:241-267 | a rejected sharing ends in Shared false, with a reason that rules further attempts out exactly for an instance that cannot be shared; a rejected unsharing keeps Shared true |
| `InstancePasses.NothingDue` | controllers/serviceinstance_controller.go:630-657 | with nothing due a pass writes nothing but a missing hash |
| `InstancePasses.QuietExact` | controllers/serviceinstance_controller.go:659-733 | on an instance SM holds and is done with, no pass changes anything if and only if the generation was seen with a hash and the sharing right, or neither an update nor a sharing is due |
| `InstancePasses.SuccessLeaves` | controllers/serviceinstance_controller.go:444-463 | the poll that finds a creation or update done reports success for the generation it was asked for and forgets the operation |
| `InstancePasses.FailureLeaves` | controllers/serviceinstance_controller.go:417-443 | the poll that finds an update failed forgets the operation and reports the failure for that generation |
| `InstancePasses.CleanupLeaves` | controllers/serviceinstance_controller.go:466-491 | the poll that finds a creation or its cleanup failed removes the instance, at once with its id or as a recorded operation, and reports the failure |
| `InstancePasses.ForgettingLeaves` | controllers/serviceinstance_controller.go:449-463 | the poll that finds the cleanup done forgets id and operation and takes the finalizer off |
| `InstancePasses.MigrationLeaves` | controllers/serviceinstance_controller.go:121-129 | a hash of the former kind is replaced by that of the specification, and nothing else done |
| `InstancePasses.LossLeaves` | controllers/serviceinstance_controller.go:131-150 | an instance SM no longer knows leaves a lone Ready condition that is false, and the id |
| `InstancePasses.RejectionReported` | internal/utils/controller_util.go:116-130 | the rejection of a call is written as no success for the generation at hand, with id, operation, flag and Shared kept; only a rejected update records the hash that was sent |
| `InstancePasses.UnwatchingFails` | controllers/serviceinstance_controller.go:334-342 | when SM has deleted the instance and a secret cannot be unwatched, the reconcile ends with the status still naming it |
| `InstancePasses.LostIsBoth` | client/sm/client.go:150-228 | a write whose answer is lost has all of its effect, and the reconcile goes on as if it had none |
| `InstanceConverges.OrphansStay` | controllers/serviceinstance_controller.go:466-491 | an instance SM lost behind its status stays so under every interleaving, is rewritten by every pass and never created again |
| `InstanceConverges.NeverShared` | controllers/serviceinstance_controller.go:689-709 | a subscribed instance whose sharing differs is never shared or unshared, and no interleaving comes to rest |
| `InstanceScenarios.OrphanReached` | controllers/serviceinstance_controller.go:466-491 | a run to an instance that SM no longer holds behind a status that names it |
| `InstanceScenarios.StarvedReached` | controllers/serviceinstance_controller.go:689-709 | a run to a subscribed instance that is never shared |
| `SecretWatch.ReferenceCounting` | internal/utils/controller_util.go:181-231 | any sequence of watches and unwatches refines a set of UIDs; the label is there exactly while the set is nonempty, with the finalizer, and nothing else changes |
| `SecretWatch.SecretStore.AddWatch` | internal/utils/controller_util.go:181-206 | adds annotation, label and finalizer, and writes only if something is missing |
| `SecretWatch.SecretStore.RemoveWatch` | internal/utils/controller_util.go:208-231 | removes the annotation, and label and finalizer with the last one; a missing secret is fine |
| `InstanceWatches.WatchingInstance.SyncWatches` | controllers/serviceinstance_controller.go:580-628 | for any labels: on success the parameter secrets watch if subscribed, those that dropped references are labelled with do not, and the labels are written, as the references to exactly those secrets, if and only if a reference was missing or too many |
| `InstanceWatches.AgreementKept` | controllers/serviceinstance_controller.go:580-628 | with references that carry their names, a secret carries this UID exactly when the labels refer to it, before and after, and no other UID is touched |
| `InstanceWatches.SkipExact` | controllers/serviceinstance_controller.go:586-622 | skipping the update of labels with equal keys is sound if and only if every reference carries the name it is made of |
| `InstanceWatches.SyncedAt` | controllers/serviceinstance_controller.go:590-619 | whatever the labels say, each secret is asked to watch exactly when referred to now, and after that to stop exactly when a dropped reference is labelled with its name |
| `InstanceWatches.RelabelledIs` | controllers/serviceinstance_controller.go:604-625 | the labels are written exactly when a reference is missing or one is there that should not be |
| `SecretController.ApiServer.Reconcile` | controllers/secret_controller.go:47-80 | succeeds exactly when reading, listing and every write do; then every listed instance labelled with a reference to the secret has ForceReconcile set and the observed generation of its Succeeded condition, every other field and instance as before, and a secret being deleted loses its finalizer; an instance whose write was refused keeps what was stored |
| `SecretWakes.FlaggedIsWoken` | controllers/secret_controller.go:64-71 | what Reconcile stores of an instance is what the flag write of `WakeUp` leaves in the cluster, where nothing but the flag and the version changes |
| `WakeUp.NoLostWakeUp` | controllers/secret_controller.go:57-71 | beside the full instance reconciler, once a flag write finds the instance not flagged, in every later quiescent state of that resource SM has accepted a request with data at least that new |
| `WakeUp.FlagExact` | controllers/secret_controller.go:64-71 | a flag write racing with a reconcile about to clear the flag is effective if and only if the instance was not flagged or the reconcile read that data |
| `WakeUp.LostWakeUp` | controllers/secret_controller.go:64-71 | a run from an empty cluster in which a change of data is never sent because the instance was flagged already |
| `Conditions.ConditionsStayConsistent` | internal/utils/condition_utils.go:56-239 | over any sequence of setters, edits and writes: unique types, Succeeded first, Ready second and true exactly when ready, nothing newer than the object observed |
| `Conditions.SetterKeeps` | internal/utils/condition_utils.go:56-239 | each setter keeps the shape, the agreement of Ready and the bound on the observed generation |
| `Conditions.SucceededSays` | internal/utils/condition_utils.go:56-239 | for every setter the Succeeded condition it leaves: status, reason and observed generation, which for an asynchronous one is the generation observed before |
| `Conditions.ReadySays` | internal/utils/condition_utils.go:56-239 | for every setter the readiness and the Ready condition it leaves, with status, reason and generation |
| `Conditions.OthersSay` | internal/utils/condition_utils.go:56-239 | for every setter the conditions of all other types: Failed is gone where it is dropped, Shared, CredRotation and PendingTermination are what their own setters say and untouched by others |
| `Conditions.FirstTwo` | internal/utils/condition_utils.go:56-129 | in a list that was set up these are the first and the second condition after every setter |
| `Conditions.SucceededTellsLast` | internal/utils/condition_utils.go:56-198 | over any run Succeeded is true exactly when the last setter that reported, reported success |
| `Conditions.LostForGood` | controllers/serviceinstance_controller.go:139-149 | after the NotFound reset no setter brings Succeeded back to the first place |
| `ConditionSetters.SetStatusCondition` | internal/utils/condition_utils.go:85-86 | replaces in place by type, else appends |
| `ConditionSetters.RemoveStatusCondition` | internal/utils/condition_utils.go:71-73 | removes every condition of a type and keeps the order |
| `ConditionSetters.Resource.SetInProgressConditions` | internal/utils/condition_utils.go:56-90 | the loopwise setter has the effect of an operation under way, spelled out in the same place: Succeeded false with the in-progress reason, Failed dropped |
| `ConditionSetters.Resource.SetSuccessConditions` | internal/utils/condition_utils.go:92-129 | the setter has the effect of a success, which `Conditions.SucceededSays` and `ReadySays` spell out: both true for the generation observed, and ready |
| `ConditionSetters.Resource.SetFailureConditions` | internal/utils/condition_utils.go:147-181 | the setter has the effect of a failure, which `Conditions.SucceededSays` and `ReadySays` spell out: Succeeded false with the failed reason, readiness kept |
| `ConditionSetters.Resource.SetOperationFailure` | internal/utils/condition_utils.go:183-198 | the conditions of a failed operation are as specified |
| `ConditionSetters.Resource.SetBlockedCondition` | internal/utils/condition_utils.go:210-214 | writing the reason through a pointer has the effect specified for it |
| `ConditionSetters.Resource.SetCredRotationInProgressConditions` | internal/utils/condition_utils.go:131-145 | the rotation condition has the effect specified for it |
| `ConditionSetters.Resource.SetSharedCondition` | internal/utils/condition_utils.go:216-239 | aligning every other condition in a loop has the effect specified for it |
| `ConditionSetters.Resource.InitConditions` | internal/utils/condition_utils.go:16-20 | not ready, in progress, and written |
| `ConditionSetters.Resource.UpdateStatus` | internal/utils/controller_util.go:52-57 | copies exactly the generation of the Succeeded condition |
| `RetryStore.BackoffExact` | internal/utils/retry_store.go:68-80 | the delay is min(base*2^attempt, max) if and only if the product is not exactly 2^63 or converts to the cap or more |
| `RetryStore.CappedMonotone` | internal/utils/retry_store.go:68-80 | delays never shrink and never exceed the cap |
| `RetryStore.UncappedTotal` | internal/utils/retry_store.go:68-80 | the first n uncapped delays sum up to base*(2^(n+1)-2) |
| `RetryStore.FailuresTakeTime` | internal/utils/retry_store.go:46-80 | n failures let through by the gate without a reset take at least the sum of the n delays |
| `RetryStore.NextAttemptWaits` | controllers/serviceinstance_controller.go:78-88 | an attempt that the gate lets through comes that sum after the first failure |
| `InstanceRetries.BackoffRespected` | controllers/serviceinstance_controller.go:76-92 | with the store beside the reconciler, over any events every call but the cleanup after a failure comes after the sum of the delays of all failures since the last success |
| `InstanceRetries.CleanupsForget` | controllers/serviceinstance_controller.go:417-463 | a cleanup done at once keeps the failures counted; the poll that sees an asynchronous one through forgets them |
| `InstanceRetries.RetriesExact` | controllers/serviceinstance_controller.go:417-463 | a call counts as a failure exactly when the reconcile goes on to clean up, and the failures are forgotten exactly when a creation done at once or a polled operation has ended well; no other call touches the entry |
| `BindingRetries.BackoffRespected` | controllers/servicebinding_controller.go:86-97 | with the store beside the binding reconciler, whatever happens to any resource, every call but the cleanup after a failure comes after the sum of the delays of all failures since the last success |
| `BindingRetries.RetriesExact` | controllers/servicebinding_controller.go:437-494 | a call counts as a failure exactly when the reconcile goes on to clean up, and the failures are forgotten exactly when a creation is stored or a removal polled to its end; no other call touches the entry |
| `RetryStore.Store.CalculateBackoff` | internal/utils/retry_store.go:68-80 | computes the specified delay |
| `RetryStore.Store.RegisterFailure` | internal/utils/retry_store.go:46-60 | counts one attempt more, sets the next retry that many delays on, keeps the first correlation id and every other key |
| `RetryStore.Store.Reset` | internal/utils/retry_store.go:62-66 | forgets one key and keeps every other |
| `Parameters.Build` | internal/utils/parameters.go:22-69 | succeeds exactly when all sources are readable and no key comes twice, `shared` in a secret not counting; then the parameters hold every key of every secret but `shared` and every key of the specification, `shared` included, with its value, and nothing else, and are absent when empty |
| `Parameters.OrderIndependent` | internal/utils/parameters.go:26-48 | success and result do not depend on the order of the sources |
| `Parameters.UnionUnique` | internal/utils/parameters.go:49-69 | the union is one value, whatever the order of keys |
| `Parameters.MergeOne` | internal/utils/parameters.go:34-44 | one source merges exactly when it brings no key that is there, in any order of its keys |
| `Parameters.KeptKeys` | internal/utils/parameters.go:34-44 | what a merge takes over is every key with its value, except `shared` of a secret |
| `SecretDescriptor.GetSecretDefaultData` | controllers/servicebinding_controller.go:694-747 | unless another credential of the same normalised name or the instance information takes its key, a string credential is stored as its text and listed as text, any other as its JSON and listed as json; with a secret key the one entry is the raw JSON, listed as a container; the instance keys hold what the instance says; and the names listed are exactly the secret's other keys if and only if no credential is called .metadata |
| `SecretDescriptor.NormalizeCredentials` | internal/utils/controller_util.go:59-81 | a credential that no other collides with is stored under its normalised name, as text if it is a string and as JSON otherwise, with an entry that says which; every value and entry comes from a credential of that name, and every name is listed, also when names collide |
| `SecretDescriptor.AddInstanceInfo` | controllers/servicebinding_controller.go:918-964 | the instance keys hold name, guid, plan, offering and the merged tags, listed as text and json, and every other value is kept; without an instance nothing is added |
| `SecretDescriptor.MergeInstanceTags` | controllers/servicebinding_controller.go:1179-1188 | every tag of either list once, in the order of first occurrence |
| `LimitedWriter.Writer.Write` | api/common/utils/limit_writer.go:27-53 | passes on what the allowance permits, reports the writer's error before a short write and that before the limit, and keeps allowance plus bytes written constant |
| `LimitedWriter.PrefixWritten` | api/common/utils/limit_writer.go:27-53 | over any writes up to the first error the bytes passed on are a prefix of the input, and without error all of it |
| `LimitedWriter.ConverterKeeps` | api/common/utils/limit_writer.go:55-60 | with a converter that keeps errors, no error means nothing was cut off |
| `LimitedWriter.LimitExact` | api/common/utils/limit_writer.go:27-50 | the limit is reported exactly when something is cut off or nothing was left before |
| `OperationUrl.RoundTrip` | client/sm/client.go:567-607 | taking a built URL apart gives the id back if and only if /operations/ does not occur in / followed by the operation id; a newline gives the empty string |
| `OperationUrl.ExtractorsRoundTrip` | client/sm/client.go:567-607 | both extractors give the id back from the URL the client builds, exactly under that condition |
| `OperationUrl.ExtractorsApart` | client/sm/client.go:567-603 | the URL of an instance names no binding, nor the other way round |

## Left out

- The reconcilers are modelled on values, as steps between calls, not as classes updated in place: other
  reconciles, users and SM act between any two calls, and a crash discards the copy in memory.  Aliasing of
  Go slices and maps inside one reconcile is therefore not captured there.
- BindingRuns.StepKeeps: secrets are keyed by the binding resource, so two resources naming the same secret,
  and the creation of a secret that exists already, are not modelled.
- BindingSafety.CredentialContinuity: says nothing about a binding whose secret is missing, because the
  cleanup of a failed asynchronous creation removes the secret even while a rotation still has live old
  credentials.
- BindingContinuity.SecretContinuity: says nothing about when a backup gets its secret; `AdoptionCompletes` does,
  for an undisturbed pass.
- BindingRotations.FetchOriginalOk: users do not remove the labels and annotations of a backup, and clocks
  and time limits are arbitrary answers of the outside world.
- WakeUp.NoLostWakeUp: one secret and one instance; it states that a request with the data is accepted before
  quiescence, not how soon, nor that SM carries out an asynchronous one.
- InstanceExactness.RelabellingExact: one edit, and every call after it is answered without error.
- InstanceConverges.Converges: operations that SM runs end well, as the guarantee presupposes.
- BindingConverges.RotationConverges: every call is answered without error, operations end well, and nobody else
  writes the two resources; what happens otherwise is covered by the invariant alone.
- InstanceWatches.AgreementKept: users do not write reference labels that carry another name than their own.
- RetryStore.BackoffExact: the base delay is taken to be scaled exactly by powers of two, which a 64-bit float
  does for whole numbers of nanoseconds up to 2^53.
- SecretDescriptor.GetSecretDefaultData: secrets with a root key or a template have no descriptor and are not
  modelled; the JSON of a credential is given with it, the encoding of tag lists is a parameter, and neither can fail.
- BindingSettles.SettlesExact: operations that the status does not record do not end in between, and nobody else
  writes the resource; a rotating original is the subject of `RotationConverges`.
- BindingDeletes.DeletionEnds: the service instance is there, every call is answered without error, and nobody else
  writes the resource or removes its bindings.
- Conditions.SucceededSays: a failure of an unknown operation kind keeps the reason found in the first place, which
  has to exist.
- Subaccounts, user information, events, logs and texts of messages play no part in
  the protocols.
- Watching the secrets of an instance in its final state, and unwatching them when it is deleted, are answers
  of the outside world in the instance model; the asynchronous deletion of an instance never unwatches.
- HTTP, OAuth, paging of SM lists, the choice of the SM credentials, plan lookup, webhooks, templates,
  informers and leader election are not part of this model.
