# Bare metal fulfillment: a verified model

The operator leases physical hosts to Kubernetes objects. A `BareMetalInstance` asks for one host,
a `BareMetalPool` keeps a number of instances per host type, and an inventory backend (OpenStack
Ironic or Metal3) records who owns which host. This project models the four pieces of controller
logic that share this state and proves what they keep. Check it with
`dafny verify dfyconfig.toml --resource-limit 2000000 --verification-time-limit 0`.

**Allocation and release.** `Fleet` is the whole operator as a step system: objects on the API
server, owner records, the lock table, and a program counter for each pass in flight. Reading a
record, checking it, writing it, persisting the object and unlocking are separate steps; every write
may be refused, or be applied and still be reported as failed. `FleetInvariant` is the inductive
invariant, `Lease` the safety results over runs, `LeaseWitness` the run that shows what they need,
`Pairing` the pairing of provisioning and deprovisioning, `Allocation` the termination measure,
`Teardown` and `TeardownRuns` the end of a pool. `Reconcile` and `PoolReconcile` are the controllers'
passes in the form of the program, calling the lock table of `Locks`, and are proved to be runs of
that system. Their environment keeps on record what it answered; `Passes` and `PoolPasses` say, for
every sequence of answers, which steps a pass takes, and the methods are proved against that. `Writes`
shows that no edit is lost by a pass that writes the copy it read.

**Power and restart.** `Power` says what one management pass does for every status and every reply;
`PowerController` is the same in the form of the program and is proved equal to it. `PowerFields`
says field by field what a pass leaves, without naming these functions. `PowerRuns` has
the results over runs, with lost status writes; `Metal3Power` closes the loop with the Metal3 host.

**Pool scaling.** `HostSets` has the int32 arithmetic and the sorted status list, `PoolScaling` the
loops over a map of slices, in any iteration order and with any call failing.

**Inventory records.** `Inventory` holds the interface, the controller's label maps and the laws of
leasing; `Pointer` and `JsonPatch` are RFC 6901 and RFC 6902 on the strings the program builds;
`OpenStackInventory` and `Metal3Inventory` are the two backends, `Backends` relates them to each
other and to the step system. `Shuffling`, `Sums`, `JsonValue` and `Wrappers` are shared helpers.

## What the results say about the program

- The exclusive lease does not hold on every run. `UnassignHost` is not told who calls it
  (internal/inventory/client.go:58-59), so an instance that lost the race for a host, and is deleted
  before it clears its tentative host ID, frees the winner's record. `LeasesHoldIff` says exactly
  which runs are affected, `TwoLeasesOneHost` shows one.
- A persistent label is documented to remain on the host and to override a transient one with the
  same key (api/v1alpha1/baremetalinstance_types.go:69-71). It does override it, but is then removed
  with it; a pool's instance loses a persistent label under the pool's key, and on OpenStack one under
  the owner's key. The code is followed; `PersistentLabelStaysIff` of `OpenStackInventory` and of
  `Metal3Inventory` have the conditions, `PersistentLabelLost` of either a failing lease.
- A restart request that arrives while a power transition is on record is acknowledged without a
  restart, because one condition records both. `EarnedIff` has the condition.
- A pool's status differs from the live instances when a generated name was already in use, because
  AlreadyExists counts as success, when a create or delete call takes place but is answered with an
  error, because the slice is then left alone, and when somebody else deletes a listed instance, because
  the slice is not read again. `TruthfulIff` has the exact condition, `LostCreateMisleads`,
  `ForeignDeleteMisleads` and `MisleadingWitness` failing inputs.
- A pool pass can report Ready although it created instances: their own controller may be faster.
  A Ready pass created nothing exactly when no type had fewer live instances than replicas when they
  were listed (`CreatedNothingIff`); `RacingPass` shows the race.
- A template may be edited at any time. Clearing it after provisioning makes the deletion skip
  deprovisioning: `PairedIff` has the condition, `UnclearedRunsAreKept` a way to stay clear of it, and
  `ClearingBreaks` the failing runs.
- On OpenStack a label under the owner's own key overwrites the claim, and the claimant then refuses
  itself (`OwnerReadsBackIff`); an `osac_labels` that is present but no object makes every claim fail
  (`AssignHost`).
- On Metal3 the pool ID is written under the key ending in bareMetalPoolId and read under the one
  ending in pool-id (`PoolReadsBackIff`).
- The selector is documented as key/value pairs that determine the hosts (README.md:112,
  api/v1alpha1/baremetalinstance_types.go:59-60). Only managedBy and provisionState have an effect on
  OpenStack, only managedBy on Metal3 (`OnlyTwoKeysSelect`, `OnlyOneKeySelects`).

## Assumptions

- At most one pass per object runs at a time, objects are identified by UID, and UIDs are not reused.
- A pass works on the object as it was when the pass started. `Update` writes metadata and spec and
  fails if the object has changed since; `Status().Update` writes the status only.
- Only the operator writes `ExternalHostID`, `HostClass` and the owner record of a host; a new object
  may name a host already. The configured host class is not empty, and no label uses the owner's key
  where `Fleet` is concerned. Which hosts match an instance is fixed, as host type and selector are.
- Only a pool creates instances with its label, and within one pass a name is not used again. Others may
  delete the pool's instances, and the readiness of these may change, between any two calls.
- The lock table belongs to one process (README.md:75-80 says as much). In `Fleet` a search
  answers for one moment; `OpenStackInventory` has the search over a changing inventory.
- Requeue intervals are positive (internal/controller/baremetalinstance_controller.go:68-82), so a
  requeue is only told apart from no requeue. Replicas are within 0 and 2^31 - 1.
- The provisioning library, clocks and random names are arbitrary replies. A deprovisioning job that
  was skipped counts as done.
- `extra` of an Ironic node is a JSON object, as Ironic stores it.

## Model

| member | source | states |
|---|---|---|
| `FleetInvariant.LocalStep` | internal/controller/baremetalinstance_controller.go:178-302 | whatever step an instance pass takes next, in either phase: what the pass believes about its object and host stays true, its own claim stays backed, and the host record changes only under the lock, to the caller when it was free or to free |
| `FleetInvariant.StepInv` | internal/controller/baremetalinstance_controller.go:104-132 | one step of anybody (user, instance pass, pool pass, failed or half-failed writes included) keeps the whole invariant |
| `FleetInvariant.RunsKeepInv` | internal/controller/baremetalinstance_controller.go:104-132 | so the invariant holds in every state of every run from the empty system |
| `Lease.StepLeases` | internal/controller/baremetalinstance_controller.go:239-289 | from a state where every fulfilled, not deleting instance is the recorded owner of its host, a step keeps this if and only if it is not an unassign write that reaches the record of a host another instance leases |
| `Lease.LeasesHoldIff` | internal/inventory/client.go:58-59 | over whole runs: leases are recorded in all states if and only if no step is such a stray release; UnassignHost is not told on whose behalf it is called |
| `Lease.GuardedRunsAreExclusive` | internal/controller/baremetalinstance_controller.go:746-773 | if each unassign write finds the host unowned or owned by the caller, no two instances ever lease the same host |
| `LeaseWitness.TwoLeasesOneHost` | internal/controller/baremetalinstance_controller.go:746-773 | the premise is needed: a concrete run, free of faults and overlapping passes, ends with two instances leasing one host, after the deletion of a third that had lost the race for it |
| `Lease.ClaimsAreBacked` | internal/controller/baremetalinstance_controller.go:740-784 | no leaked claim, with no premise: in every reachable state the owner of a host exists, has the inventory finalizer and names exactly that host |
| `Lease.OneHostEach` | internal/controller/baremetalinstance_controller.go:190-302 | an instance never owns two hosts |
| `Lease.LockedIffHeld` | internal/inventory/lock.go:30-46 | a host is locked if and only if exactly one pass in flight lies between its TryLock and its return |
| `Lease.UnlockFindsLock` | internal/inventory/lock.go:39-46 | a deferred Unlock always finds its host locked by its own pass, and nobody holds it afterwards |
| `Lease.RecordStable` | internal/inventory/openstack.go:271-317 | while a pass holds the lock of a host, no step of anybody else changes who owns it |
| `Lease.ReadStaysValid` | internal/inventory/openstack.go:358-402 | hence the owner AssignHost or UnassignHost read is still the owner when the same pass writes, any number of foreign steps later |
| `Locks.HostLocks.TryLock` | internal/inventory/lock.go:34-37 | succeeds if and only if nobody holds this host; afterwards it is held either way, and no other host is affected |
| `Locks.HostLocks.Unlock` | internal/inventory/lock.go:42-46 | needs the lock held (the mutex panics otherwise) unless the host was never seen, and frees this host only |
| `Reconcile.LockedAfter` | internal/controller/baremetalinstance_controller.go:239-244 | the set of locked hosts grows by TryLock, shrinks by the deferred unlock, and by nothing else |
| `Allocation.StepMeasure` | internal/controller/baremetalinstance_controller.go:199-302 | while nothing is being deleted, and whatever step comes next, failed calls, half-failed writes and edits included, only creations and deletions of instances left out: the measure (per unfulfilled instance: twice the hosts it may still get, plus its stage) never rises, and drops with every applied write of the phase, a lost claim included |
| `Allocation.WritesBounded` | internal/controller/baremetalinstance_controller.go:199-302 | hence in any interleaving of any length, whatever fails, the number of applied allocation writes is bounded by the measure at the start |
| `Allocation.PassEndsByWriteOrPoll` | internal/controller/baremetalinstance_controller.go:217-242 | a fault-free pass of an unfulfilled instance is over only after such a write, a busy lock or an empty search |
| `Allocation.Progress` | internal/controller/baremetalinstance_controller.go:190-302 | from every state between passes, an instance that is neither fulfilled nor out of hosts has an undisturbed pass that writes and lowers the measure |
| `Allocation.AllocationCompletes` | internal/controller/baremetalinstance_controller.go:178-302 | from every reachable state between passes, fault-free passes lead to one where each instance is fulfilled or every matching host is owned |
| `Allocation.QuiescentIffSettled` | internal/controller/baremetalinstance_controller.go:217-227 | between passes, no interleaving without creations and deletions, whatever fails or is edited in it, ever writes again if and only if each instance is fulfilled or has its finalizer, names no host, and finds all matching hosts owned |
| `SoloPass.ReleasePass` | internal/controller/baremetalinstance_controller.go:701-784 | an uninterrupted deletion pass removes the object and frees the record of the host it names, whoever owned it |
| `Teardown.GonePoolLeavesNothing` | internal/controller/baremetalpool_controller.go:485-545 | in every reachable state a pool that does not exist has no instance with its label, terminating ones included, and no inventory host is owned by one |
| `Teardown.DropFinalizerLeavesNothing` | internal/controller/baremetalpool_controller.go:507-545 | the write that removes the finalizer removes the pool, and nothing was left before it either |
| `Teardown.TeardownCompletes` | internal/controller/baremetalpool_controller.go:469-549 | from any reachable state between passes, error-free passes remove a pool that is being deleted with all its instances and their claims |
| `Teardown.SomethingToTearDown` | internal/controller/baremetalpool_controller.go:155-241 | a run on which a pool creates an instance and is then deleted, so that the teardown results are about something |
| `PoolReconcile.PoolOperator.Reconcile` | internal/controller/baremetalpool_controller.go:102-130 | a pool pass in source form, in any environment, with what it heard and did related as module PoolPasses allows: without a bad reply or a missing provider, a deletion pass marks every instance and asks to be run again or the pool is gone, and an update pass leaves the finalizer stored |
| `PoolReconcile.PoolOperator.HandleDeletion` | internal/controller/baremetalpool_controller.go:469-549 | every instance that was unmarked when listed is deleted, up to the first error; a pool whose instances are not all gone asks to be run again; only then come the teardown job and the finalizer |
| `PoolReconcile.PoolOperator.DeleteAll` | internal/controller/baremetalpool_controller.go:495-505 | the deletion loop, in any order and with foreign steps between the calls: one call for each unmarked instance, up to the first error, and after the last of them none is left unmarked |
| `PoolReconcile.PoolOperator.DropFinalizer` | internal/controller/baremetalpool_controller.go:513-545 | the finalizer is written exactly when the pool has no workflow, or there is a provider and the teardown is reported done |
| `PoolPasses.DroppedOnlyWhenTornDown` | internal/controller/baremetalpool_controller.go:507-545 | whichever calls fail, a deletion pass writes the finalizer only if it found no instance and, for a pool with a workflow, heard that the teardown is done; and it is the last thing it does |
| `PoolPasses.GoodDeletionDrops` | internal/controller/baremetalpool_controller.go:485-545 | without a bad reply or a missing provider, a deletion pass asks to be run again if it listed an instance, and drops the finalizer if not |
| `PoolPasses.ScaledOnlyBehindFinalizer` | internal/controller/baremetalpool_controller.go:155-205 | an update pass creates or deletes an instance only with a usable spec and behind the finalizer, found or confirmed |
| `PoolPasses.PoolsWritten` | internal/controller/baremetalpool_controller.go:155-545 | of all steps of a pool pass only the two finalizer writes, when applied, touch a pool as it is stored |
| `PoolReconcile.PoolOperator.HandleUpdate` | internal/controller/baremetalpool_controller.go:155-241 | a missing provider or an invalid profile ends the pass without a call; instances are only created or deleted once the finalizer is stored, and the finalizer outlives the pass |
| `Power.ReadyIff` | internal/controller/baremetalinstance_controller.go:304-412 | a pass reports Ready if and only if the provisioning gate is open, the trigger is settled and, for a specified run strategy, the condition was not False before and both readings show the host at rest in the wanted state; without a run strategy one successful reading is enough |
| `Power.GateOpensIff` | internal/controller/baremetalinstance_controller.go:316-334 | a pass gets beyond provisioning if and only if there is no template, or the library's reply has no error and no requeue and the template succeeded or is not known to have failed or to be incomplete |
| `Power.ReadyIsTruthful` | internal/controller/baremetalinstance_controller.go:389-411 | every Ready pass issued no command, and its status shows the spec's trigger and, for a specified strategy, the spec's run strategy and PowerSynced True |
| `Power.AcknowledgesIff` | internal/controller/baremetalinstance_controller.go:587-666 | status.restartTrigger moves, and then to the spec's value, if and only if a change is pending and the instance is halted or a transition on record is found complete |
| `Power.RestartsIff` | internal/controller/baremetalinstance_controller.go:614-698 | a pass asks for a restart if and only if a change is pending, the host is wanted up and no transition is on record; it is then the only command |
| `Power.SetPowerOnlyWhenAcknowledged` | internal/controller/baremetalinstance_controller.go:343-373 | a power command is only issued with the trigger acknowledged, towards the wanted state, on a settled host that is not in it |
| `PowerFields.PhaseIff` | internal/controller/baremetalinstance_controller.go:146-412 | every pass ends Failed, Progressing or Ready, and Failed in exactly the listed situations: no provider, a refused finalizer, a bad template, a failing restart, a failing reading or power command |
| `PowerFields.ErrorIff` | internal/controller/baremetalinstance_controller.go:146-412 | which passes return an error: the same, except a missing provider and a template that merely failed |
| `PowerFields.RequeueIff` | internal/controller/baremetalinstance_controller.go:146-412 | which passes are looked at again: when the library asks for it, and when a restart or the power state is under way or to be verified |
| `PowerFields.ObservedIff` | internal/controller/baremetalinstance_controller.go:554-571 | the observed run strategy follows the last reading of a pass whose calls succeed, and stays otherwise |
| `PowerFields.PowerSyncedIff` | internal/controller/baremetalinstance_controller.go:543-585 | the power condition after every pass: unchanged before the gate, the reason of what failed, in progress, or True for a settled host that is as wanted |
| `PowerFields.ProvisionedIff` | internal/controller/baremetalinstance_controller.go:478-524 | the template condition after every pass: a failure is recorded and not overwritten by "in progress", a success stays unless the library asks to be polled |
| `PowerFields.CommandsIff` | internal/controller/baremetalinstance_controller.go:343-373 | the backend gets a restart, one power command towards the wanted state, or nothing, and when |
| `PowerFields.ActsOnlyWhenProvisioned` | internal/controller/baremetalinstance_controller.go:316-334 | a templated instance is commanded or reported Ready only with a provider, no error, no requeue and its template condition absent or True |
| `PowerRuns.RestartAccounting` | internal/controller/baremetalinstance_controller.go:587-698 | if the trigger only grows, status writes persist and the completion check does not fail, accepted restarts never exceed acknowledgements by more than the one under way |
| `PowerRuns.ChangesCoalesce` | internal/controller/baremetalinstance_controller.go:614-634 | a change during a restart starts no second one, and one acknowledgement covers them all |
| `PowerRuns.AcknowledgementEarned` | internal/controller/baremetalinstance_controller.go:590-666 | if no transition is on record when a change is first seen, it is acknowledged only strictly after an accepted restart and on a true completion check, whichever calls and writes fail |
| `PowerRuns.EarnedIff` | internal/controller/baremetalinstance_controller.go:614-663 | with a completion check that does not fail, an acknowledged change was restarted for if and only if no transition was on record when it was first seen |
| `PowerController.Reconciler.HandleUpdate` | internal/controller/baremetalinstance_controller.go:146-176 | the pass in source form ends with exactly the status, requeue, error and commands the laws above are about, and with the management finalizer unless the provider is missing |
| `PowerController.Reconciler.ReconcileManagement` | internal/controller/baremetalinstance_controller.go:304-412 | the same for reconcileManagement with its early returns |
| `PowerController.Reconciler.ReconcileProvisioning` | internal/controller/baremetalinstance_controller.go:316-334 | the provisioning gate, for every reply of the provisioning library: it stops the pass exactly when the gate is not open, and what it leaves then |
| `PowerController.Reconciler.ReconcileRestartTrigger` | internal/controller/baremetalinstance_controller.go:587-666 | the restart trigger, for every reply of the backend |
| `PowerController.Reconciler.Trigger` | internal/controller/baremetalinstance_controller.go:668-698 | exactly one restart call; accepted and postponed restarts are looked at again, a failed one is an error, and the condition records which |
| `PowerController.Reconciler.ReconcilePowerState` | internal/controller/baremetalinstance_controller.go:353-411 | both readings, the drive between them and the final decision |
| `PowerController.Reconciler.Drive` | internal/controller/baremetalinstance_controller.go:417-452 | reconcilePower: at most one power command, and the requeue it asks for |
| `Metal3Power.Metal3Client.GetPowerState` | internal/management/metal3.go:113-132 | the power of the stored host, transitioning exactly while it is not as asked; an error exactly for an ID that names no host of the namespace, or a failing call |
| `Metal3Power.Metal3Client.SetPowerState` | internal/management/metal3.go:134-172 | refused while the host is changing; accepted, it asks for the target and changes nothing else; nothing is sent when nothing is to change; an error exactly for an unknown host or a failing call |
| `Metal3Power.Metal3Client.TriggerRestart` | internal/management/metal3.go:174-197 | refused while the reboot annotation is there; accepted, it adds it and changes nothing else; an error exactly for an unknown host or a failing call |
| `Metal3Power.Metal3Client.IsRestartComplete` | internal/management/metal3.go:199-208 | true if and only if the reboot annotation is gone; an error exactly for an unknown host or a failing call |
| `Metal3Power.ConvergesInFive` | internal/controller/baremetalinstance_controller.go:304-412 | controller and Metal3 host in a loop, host settling between passes: from any status, condition, pending restart and host, five rounds reach Ready, and every later round changes nothing and commands nothing |
| `Metal3Power.FourAreNotEnough` | internal/controller/baremetalinstance_controller.go:304-412 | a start from which four rounds do not reach Ready |
| `HostSets.SortSorted` | internal/controller/baremetalpool_controller.go:712-714 | sorting entries of distinct host types gives strictly increasing host types |
| `PoolScaling.PoolReconciler.DesiredReplicas` | internal/controller/baremetalpool_controller.go:344-352 | the last entry of a type wins, and types that have instances but no entry are wanted at zero |
| `PoolScaling.PoolReconciler.ScaleUp` | internal/controller/baremetalpool_controller.go:373-394 | n creations accepted and n placeholders appended, n being the delta unless a call is answered with an error, which makes the pool Failed; nothing else stops it or changes the phase; other types untouched |
| `PoolScaling.PoolReconciler.ScaleDown` | internal/controller/baremetalpool_controller.go:397-424 | the slice is cut to a prefix and exactly the names cut off are deleted, last first; an error of a call, and nothing else, stops it and makes the pool Failed; no placeholder is ever deleted |
| `PoolScaling.PoolReconciler.ScaleAll` | internal/controller/baremetalpool_controller.go:356-369 | in whatever order the map is visited and wherever a call fails: every type is between where it started and its replicas, the accepted calls account for the difference, and it stops, with phase Failed, exactly when a call is answered with an error |
| `PoolScaling.PoolReconciler.UpdateStatusHostSets` | internal/controller/baremetalpool_controller.go:702-717 | one positive entry per non-empty slice, strictly sorted by host type |
| `PoolScaling.TruthfulUnique` | internal/controller/baremetalpool_controller.go:702-717 | there is only one truthful status |
| `Pointer.EscapeIsEscapeEach` | internal/inventory/openstack.go:404-407 | the two successive replacements are the one-pass character map of section 3 of RFC 6901 |
| `Pointer.UnescapeEscape` | internal/inventory/openstack.go:404-407 | decoding by section 4 of RFC 6901 gives the key back, for every string |
| `Pointer.EscapeInjective` | internal/inventory/openstack.go:404-407 | distinct keys have distinct paths |
| `JsonPatch.LabelPathTokens` | internal/inventory/openstack.go:297-308 | the path built for a label is read by RFC 6901 as the member with exactly that key under extra.osac_labels |
| `JsonPatch.AddLabel` | internal/inventory/openstack.go:293-312 | an add of a label is applicable (section 4.1 of RFC 6902) if and only if osac_labels is an object, and then sets that key only |
| `JsonPatch.RemoveLabel` | internal/inventory/openstack.go:384-394 | a removal is applicable (section 4.2 of RFC 6902) if and only if the label exists, and then takes off that key only |
| `OpenStackInventory.OpenStackClient.BuildAssign` | internal/inventory/openstack.go:293-314 | in any order of the labels, the request adds exactly owner and labels when osac_labels is an object, and is refused as a whole otherwise |
| `OpenStackInventory.OpenStackClient.BuildUnassign` | internal/inventory/openstack.go:365-395 | for any key list, with duplicates or the owner key, every removal targets a member that is present when it is applied, and there is none exactly when the node has none of the keys |
| `OpenStackInventory.AssignRefinesIff` | internal/inventory/openstack.go:281-317 | a claim on a node is the interface's claim if and only if no label uses the owner's key |
| `OpenStackInventory.UnassignRefines` | internal/inventory/openstack.go:358-402 | a release of a node is the interface's release, always |
| `OpenStackInventory.OtherMembersKept` | internal/inventory/openstack.go:281-395 | assigning and unassigning touch no other member of extra |
| `OpenStackInventory.OwnerReadsBackIff` | internal/inventory/openstack.go:276-279 | the owner reads back as the claimant if and only if no label overwrites it; another value there makes the claimant's next AssignHost refuse itself |
| `OpenStackInventory.NestedLabelIff` | internal/inventory/openstack.go:409-419 | a label reads as present exactly when osac_labels is an object that has the key with a text value |
| `OpenStackInventory.LeaseRefinesIff` | internal/inventory/openstack.go:263-402 | a whole lease of a node follows the label laws if and only if the owner's key is not a lasting label |
| `OpenStackInventory.OpenStackClient.ScanPage` | internal/inventory/openstack.go:193-241 | for every shuffle: the first node in the shuffled order that is free under the wanted manager, or none only if the page has none |
| `OpenStackInventory.ReleasedIsFoundIff` | internal/inventory/openstack.go:212-222 | which selectors find a released node, down to the manager label that survived |
| `OpenStackInventory.ClaimedIsHidden` | internal/inventory/openstack.go:202-208 | a claimed node is found by no selector, unless a label blanks its owner |
| `OpenStackInventory.OnlyTwoKeysSelect` | internal/controller/baremetalinstance_controller.go:200-212 | of a spec's selector only managedBy and provisionState select nodes |
| `Shuffling.Shuffle` | internal/inventory/openstack.go:198-200 | the array ends as these random numbers make it, which is a permutation |
| `Shuffling.EveryOrder` | internal/inventory/openstack.go:198-200 | every permutation comes out for some random numbers, so no host is kept from being tried first |
| `Metal3Inventory.ParseHostIDIff` | internal/inventory/metal3.go:283-289 | an ID parses to a namespace and name if and only if it is the one bmhToHost writes for them |
| `Metal3Inventory.OneLockPerObject` | internal/inventory/metal3.go:283-289 | two host IDs of one object are equal, so the lock by ID is a lock by object |
| `Metal3Inventory.Metal3Client.Overlay` | internal/inventory/metal3.go:226-231 | in any order of the labels, exactly the prefixed labels are laid over the old ones |
| `Metal3Inventory.Metal3Client.Strip` | internal/inventory/metal3.go:270-272 | exactly the prefixed keys are taken off, duplicates and missing keys included |
| `Metal3Inventory.Metal3Client.AssignHost` | internal/inventory/metal3.go:204-257 | a confirmed claim sets consumer and labels of this host only and returns it under the same ID, field by field as its record says, with the client's classes and the claimant; a refused one had another consumer; an error exactly for a bad argument, an unknown host or a failing call, which leaves the host as it was or claimed |
| `Metal3Inventory.Metal3Client.UnassignHost` | internal/inventory/metal3.go:259-281 | success removes the consumer, whoever it is, and the prefixed keys; an error exactly for a bad ID, an unknown host or a failing call |
| `Metal3Inventory.Metal3Client.Candidates` | internal/inventory/metal3.go:167-190 | exactly the hosts that are OK, available, without consumer and under the wanted manager |
| `Metal3Inventory.Metal3Client.PickAny` | internal/inventory/metal3.go:195-200 | the host that the random numbers put first |
| `Metal3Inventory.Metal3Client.FindFreeHost` | internal/inventory/metal3.go:142-202 | for every shuffle: a host is returned only if it is eligible, under an ID that parses back to it and field by field as its record says; none only if no host of the namespace is; an error exactly after a failing call |
| `Metal3Inventory.AssignRefines` | internal/inventory/metal3.go:222-250 | a claim on a Metal3 host is the interface's claim, always |
| `Metal3Inventory.UnassignRefines` | internal/inventory/metal3.go:270-274 | a release is the interface's release, always |
| `Metal3Inventory.ClaimedIsHidden` | internal/inventory/metal3.go:167-189 | a claimed host is found by no selector, and a host that is found can be claimed by anybody |
| `Metal3Inventory.OtherLabelsKept` | internal/inventory/metal3.go:222-274 | labels outside the prefix are the same after a claim and after a release |
| `Metal3Inventory.LeaseRefines` | internal/inventory/metal3.go:204-281 | a whole lease of a Metal3 host follows the label laws, always |
| `Metal3Inventory.PoolReadsBackIff` | internal/inventory/metal3.go:307-317 | the pool is written under one key and read under another: the new pool ID is returned if and only if that other key happens to hold it |
| `Metal3Inventory.ManagerMovesIff` | internal/inventory/metal3.go:181-187 | a claim changes who is seen to manage the host if and only if a label under managed-by says so; one under managedBy, the key selectors use, plays no part |
| `Metal3Inventory.OnlyOneKeySelects` | internal/inventory/metal3.go:149-160 | of a spec's selector only managedBy selects Metal3 hosts; provisionState changes nothing |
| `Inventory.CombineLabels` | internal/controller/baremetalinstance_controller.go:246-262 | persistent labels override transient ones and the pool ID overrides both, for every map order |
| `Inventory.CollectRemoved` | internal/controller/baremetalinstance_controller.go:756-766 | the keys to remove are those of the transient labels and, for a pool's instance, the pool key |
| `Inventory.LeaseLeaves` | internal/controller/baremetalinstance_controller.go:246-269 | assign then unassign leaves the old labels overlaid with the persistent ones, minus the removed keys, and no owner |
| `Inventory.LeaseIsCleanIff` | internal/controller/baremetalinstance_controller.go:756-768 | a lease undoes everything but the persistent labels if and only if no removed key was in use |
| `Inventory.LeasesAreClean` | internal/controller/baremetalinstance_controller.go:246-269 | any number of leases whose removed keys are disjoint from base and persistent keys leave the base overlaid with the persistent maps in order |
| `Inventory.LastLeaseDecides` | internal/controller/baremetalinstance_controller.go:756-768 | without that premise: each key ends up as the last lease that touches it left it |
| `Inventory.RepeatingChangesNothing` | internal/controller/baremetalinstance_controller.go:264-290 | a claim or a release repeated after a lost reply is accepted and changes nothing more |
| `Backends.BackendsAgree` | internal/inventory/client.go:47-60 | two hosts of different backends that look alike look alike after any sequence of calls, refusals included |
| `Backends.ReadForAssignAgrees` | internal/inventory/openstack.go:271-279 | the owner check lets a pass go on to its write exactly when the interface says the host can be claimed |
| `Backends.OwnerMovesAsInFleet` | internal/inventory/client.go:51-59 | an applied claim or release moves the recorded owner, on either backend, as the step system says |
| `Pairing.OwesIff` | internal/controller/baremetalinstance_controller.go:316-334 | what counts as provisioned and as deprovisioned: from the first such step of this instance on, and by nothing else |
| `Pairing.StepPaired` | internal/controller/baremetalinstance_controller.go:705-738 | a step keeps every pair of provisioning and deprovisioning if and only if it is not the write by which a pass that read no template drops the management finalizer while deprovisioning is owed |
| `Pairing.PairedIff` | internal/controller/baremetalinstance_controller.go:705-784 | over whole runs: who owes deprovisioning is still there, held by its management finalizer, in all states if and only if no pass that read no template drops the finalizer while deprovisioning is owed |
| `Pairing.ProvisionedIsKept` | internal/controller/baremetalinstance_controller.go:740-784 | on such a run an instance that owes deprovisioning exists and its own pass neither unassigns its host nor drops the inventory finalizer, whichever writes fail |
| `Pairing.UnclearedRunsAreKept` | internal/controller/baremetalinstance_controller.go:711-731 | a run that never clears a template while deprovisioning is owed, or under a pass that read it, gives no finalizer up |
| `Pairing.ClearingBreaks` | internal/controller/baremetalinstance_controller.go:711-738 | from every state between passes in which an instance owes deprovisioning, clearing its template and deleting it lets one undisturbed pass remove it and free its host with deprovisioning still owed |
| `Reconcile.Operator.Reconcile` | internal/controller/baremetalinstance_controller.go:104-132 | a pass in source form, with any foreign steps between its calls, is a run of the step system that ends with the pass over and its lock released; whichever calls fail, what it heard and what it did are related as module Passes allows for the object it read; a templated object without a provider is left alone; and if every reply is good, the steps are exactly those the object asks for |
| `Reconcile.Operator.HandleUpdate` | internal/controller/baremetalinstance_controller.go:146-176 | a templated object without a provider gets no call and no step but the return; otherwise unfulfilled objects get allocation and fulfilled ones management, whichever calls fail |
| `Reconcile.Operator.ReconcileInventory` | internal/controller/baremetalinstance_controller.go:178-302 | every outcome of the phase with the replies that lead to it: the finalizer, or a host found and stored, or none found, or a busy lock, or, between TryLock and Unlock, a claim, a refusal or an error, and what follows each |
| `Reconcile.Operator.PickHost` | internal/controller/baremetalinstance_controller.go:199-237 | an error ends the pass and nothing else makes it give up; no host ends it too; a host that matches is stored |
| `Reconcile.Operator.FindFreeHost` | internal/inventory/openstack.go:150-165 | the answer the allocation protocol relies on: a matching host nobody owns, or none only when every matching host is owned, or an error only after a failing call; after an authentication failure the search is repeated once, with foreign steps in between |
| `Reconcile.Operator.ClaimHost` | internal/controller/baremetalinstance_controller.go:264-301 | between TryLock and Unlock: nothing after an error, the host cleared after a refusal, HostClass stored after a confirmed claim |
| `Reconcile.Operator.AssignHost` | internal/inventory/openstack.go:247-317 | read, check and write are separate steps; it is repeated once exactly when a call of the first attempt fails for authentication and reconnecting works, also when the write was applied; success means a confirmed claim |
| `Reconcile.Operator.HandleDeletion` | internal/controller/baremetalinstance_controller.go:701-784 | management cleanup; then, only if that is over, release; each with every outcome and the replies that lead to it; the object is gone once the last finalizer write is confirmed |
| `Reconcile.Operator.CleanUpManagement` | internal/controller/baremetalinstance_controller.go:705-738 | goes on exactly when there was no management finalizer or its removal is confirmed, which a templated object reaches only with a provider and a job reported done |
| `Reconcile.Operator.ReconcileDeprovisioning` | internal/controller/baremetalinstance_controller.go:786-824 | goes on exactly when the object read has no template, or there is a provider and the job is reported done (skipped counts as done) |
| `Reconcile.Operator.ReleaseHost` | internal/controller/baremetalinstance_controller.go:750-781 | between TryLock and Unlock of a deletion: the finalizer is written exactly when the unassign is confirmed, directly after it |
| `Reconcile.Operator.UnassignHost` | internal/inventory/openstack.go:342-402 | read and write are separate steps, repeated once exactly when a call of the first attempt fails for authentication and reconnecting works; success means a confirmed unassign |
| `Passes.GoodPass` | internal/controller/baremetalinstance_controller.go:104-132 | if every reply is good and a needed provider is there, a pass takes exactly the steps its object asks for |
| `Passes.NoProviderNoWork` | internal/controller/baremetalinstance_controller.go:150-169 | without a provider a templated object is neither allocated nor provisioned nor deprovisioned: no call, no step but the return |
| `Passes.ReleasedOnlyWhenDone` | internal/controller/baremetalinstance_controller.go:711-738 | a deletion pass of an object that needs deprovisioning gets beyond it only with the job reported done, and to the host only with the management finalizer confirmed gone, whichever calls fail |
| `Passes.StoredOnlyWhenClaimed` | internal/controller/baremetalinstance_controller.go:264-289 | whichever calls fail, HostClass is stored directly after a confirmed claim and at no other time |
| `Passes.DroppedOnlyWhenReleased` | internal/controller/baremetalinstance_controller.go:740-781 | whichever calls fail, the inventory finalizer is written directly after a confirmed unassign, or when no host is named, and at no other time |
| `Writes.NoLostUpdate` | internal/controller/baremetalinstance_controller.go:190-301 | whatever others did since a pass read its object: an applied Update changes one field of the object as it is stored now, no other object changes, and the object is removed exactly with its last finalizer |
| `Writes.QuitWritesNothing` | internal/controller/baremetalinstance_controller.go:150-169 | a pass that returns at its start leaves objects, owner records, locks and pools as they are |
| `Allocation.PassesBounded` | internal/controller/baremetalinstance_controller.go:199-302 | and so is the number of passes of the allocation phase that end without a fault and do more than poll, whatever other passes meet |
| `Teardown.TeardownBounded` | internal/controller/baremetalpool_controller.go:469-549 | once a pool is closing, whatever happens and fails, it gains no instance and the number of marks and removals left is bounded from the start |
| `TeardownRuns.DeletionPassRemoves` | internal/controller/baremetalinstance_controller.go:701-784 | a fault-free deletion pass ends at a busy lock or by the write that removes its instance |
| `TeardownRuns.DeletionPassesBounded` | internal/controller/baremetalinstance_controller.go:701-784 | in every interleaving, whatever fails or still runs and whatever users, pools and other instances do, the deletion passes of given instances that end without a fault and not at a busy lock number at most the marks, finalizers and objects there were; passes that wait for a job or meet an error may come in between, any number of times |
| `TeardownRuns.UntouchedIffEmpty` | internal/controller/baremetalpool_controller.go:495-511 | between passes, no error-free schedule marks or removes anything of a pool being deleted if and only if the pool has no instance left; and then no schedule does, whatever fails in it |
| `PowerRuns.ReadyNeedsVerification` | internal/controller/baremetalinstance_controller.go:336-411 | over runs, lost status writes included: between a pass that ends with PowerSynced not True and the next Ready there is a pass that ended Progressing with PowerSynced True |
| `PowerRuns.UnearnedAcknowledgement` | internal/controller/baremetalinstance_controller.go:614-629 | a run of two passes: the first powers the host on, the second takes the finished power-on for the restart requested meanwhile and acknowledges it without one |
| `PowerRuns.LostPassLeaves` | internal/controller/baremetalinstance_controller.go:487-524 | of a pass whose status write is lost nothing is stored but what the library stored itself; a failed template is |
| `Metal3Power.SecondReadingIsTheHost` | internal/management/metal3.go:113-172 | the second reading of a pass in the loop is that of the host as the pass's own power command left it |
| `PoolScaling.PoolReconciler.ListAndGroup` | internal/controller/baremetalpool_controller.go:305-337 | the grouped slices stand one to one for the live instances, terminating ones left out; a failing List changes no slice |
| `PoolScaling.PoolReconciler.ReconcileInstances` | internal/controller/baremetalpool_controller.go:340-370 | success leaves every listed type at its replicas and every other at zero; on every exit, others deleting instances between any two calls, the status is sorted, describes the slices, and equals the live counts if and only if collisions, lost replies and deletions by others cancel out for every type |
| `PoolScaling.PoolReconciler.CheckReady` | internal/controller/baremetalpool_controller.go:427-466 | true if and only if every live instance is Ready, and Progressing otherwise; a failing List, and nothing else, makes the pool Failed |
| `PoolScaling.PoolReconciler.HandleUpdate` | internal/controller/baremetalpool_controller.go:199-241 | a pass succeeds if and only if no call fails, the pool's own provisioning does not stop it and every live instance is Ready; the phase it leaves in each case (Ready, Failed after a failing call or job, Progressing while instances are not Ready, else unchanged); a Ready pass has every type at its replicas but for names in use and instances deleted by others; no pass creates anything if no type has fewer live instances than replicas at the start, and a Ready pass created nothing only then |
| `PoolScaling.TruthfulIff` | internal/controller/baremetalpool_controller.go:354-367 | a status that describes the slices is truthful if and only if, for every type, colliding creations, deletions with a lost reply and instances deleted by others together number as many as creations with a lost reply |
| `PoolScaling.LostCreateMisleads` | internal/controller/baremetalpool_controller.go:635-638 | one creation that took place but was answered with an error makes the status wrong, whatever the pool was |
| `PoolScaling.ForeignDeleteMisleads` | internal/controller/baremetalpool_controller.go:351-354 | one deletion by somebody else after the List makes the status wrong, whatever the pool was |
| `PoolScaling.MisleadingWitness` | internal/controller/baremetalpool_controller.go:354-388 | the smallest input of either kind |
| `PoolScaling.CreatedNothingIff` | internal/controller/baremetalpool_controller.go:340-370 | a pass that leaves every type at its replicas created nothing if and only if, when the instances were listed, no type had fewer live ones than replicas |
| `PoolScaling.CreatesOnlyForNeed` | internal/controller/baremetalpool_controller.go:356-394 | wherever a call fails: if no type is short of live instances when they are listed, nothing is created |
| `PoolScaling.RacingPass` | internal/controller/baremetalpool_controller.go:448-465 | a pass that reports Ready and has created an instance, which its own controller made Ready in the meantime |
| `OpenStackInventory.OpenStackClient.AssignOnce` | internal/inventory/openstack.go:263-340 | one attempt: a confirmed claim sets owner and labels and nothing else and returns the node field by field as its record says, with the client's classes and the claimant; a refused one changes nothing and had a foreign owner; an error exactly for a bad argument, an unknown node, labels that are no object, or a broken call, which leaves the node as it was, initialised or claimed |
| `OpenStackInventory.TwoAttempts` | internal/inventory/openstack.go:247-261 | whatever a failed attempt left, a second one does what the first would have done, but for a claim refused by its own label |
| `OpenStackInventory.OpenStackClient.AssignHost` | internal/inventory/openstack.go:247-340 | the same of the attempt and its repetition together, except that a claim with a lost reply may be refused by its own label under the owner's key; it is repeated once exactly when authentication failed and reconnecting works |
| `OpenStackInventory.OpenStackClient.UnassignHost` | internal/inventory/openstack.go:342-402 | success, in one attempt or two, leaves the node without owner and keys and otherwise as it was; an error exactly for an unknown node or a broken call; it is repeated once exactly when authentication failed and reconnecting works; no request is ever inapplicable; nothing is sent when nothing is to be removed |
| `OpenStackInventory.OpenStackClient.FindFreeHost` | internal/inventory/openstack.go:150-244 | for every paging, shuffle, failing page and repetition, with others changing the inventory between pages: a host is returned only if it was eligible when its page was served, field by field as its record said then; none only if every node was ineligible at some moment of the search; an error only after a failing listing, and after an authentication failure only if the repetition fails, too |
| `OpenStackInventory.PersistentLabelStaysIff` | internal/inventory/openstack.go:365-395 | a persistent label is on the node after the lease if and only if its key is neither a transient label's nor the pool's nor the owner's |
| `OpenStackInventory.PersistentLabelLost` | internal/inventory/openstack.go:365-395 | the smallest leases that lose one: a key that is persistent and transient, and the owner's key |
| `Metal3Inventory.PersistentLabelStaysIff` | internal/inventory/metal3.go:226-274 | a persistent label is on the host after the lease if and only if its key is neither a transient label's nor the pool's |
| `Metal3Inventory.PersistentLabelLost` | internal/inventory/metal3.go:226-274 | the smallest lease that loses one: a key that is persistent and transient |

## Left out

- Allocation.AllocationCompletes: shows that a fault-free schedule settles the system; for every other schedule, faults included, PassesBounded bounds the passes that do more than poll and QuiescentIffSettled says where they end, but fairness of the scheduler is not modelled.
- Teardown.TeardownCompletes: shows an error-free schedule that finishes; for every other schedule, faults and running jobs included, DeletionPassesBounded bounds the passes that come to their end and UntouchedIffEmpty says where they end, but fairness of the scheduler is not modelled.
- Metal3Power.ConvergesInFive: for instances without a provisioning template, a fixed spec and no API errors, with a host that settles between two passes.
- PowerRuns.RestartAccounting: needs persisted status writes and a completion check that does not fail; after a failed check the condition no longer records the restart and a second one is requested.
- Inventory.LeasesAreClean: its premise is sufficient only, since a later lease may put back what an earlier one removed; LeaseIsCleanIff is exact for one lease and LastLeaseDecides for each key of any number of leases.
- Reconcile.Operator.Reconcile: management is a single step here; its calls and status are in PowerController.
- Reconcile.Operator.FindFreeHost: each search answers for one moment; the search while the inventory changes is in OpenStackInventory.
- PoolReconcile.PoolOperator.HandleUpdate: which instances are created and deleted is left open here; it is decided in PoolScaling.
- PoolScaling.PoolReconciler.HandleUpdate: begins with the first List call; provider, profile and finalizer checks before it are in PoolReconcile.
- OpenStackInventory.OpenStackClient.AssignOnce: as for AssignHost, the node is not changed by others between Get and Update.
- OpenStackInventory.OpenStackClient.AssignHost: the node is not changed by others between Get and Update; that the lock ensures this is proved in Lease. An array in osac_labels counts as a value without members.
- Metal3Inventory.Metal3Client.AssignHost: the record is not changed by others between Get and Update; that the lock ensures this is proved in Lease.
- The OpenStack management backend, HTTP, Keystone, Kubernetes clients and reconnecting: every call has a success, error or refused outcome instead.
- RunProvisioningLifecycle, RunDeprovisioningLifecycle and ComputeDesiredConfigVersion: the library is not part of this model; its replies are arbitrary.
- Several processes, leader election and stale caches.
- Phase and Allocated condition during allocation, condition messages and timestamps, logs, poll durations: they decide nothing.
- Profiles, templates' parameters, manager setup, flags, generated code, manifests and helper scripts: no state worth a proof.
