# Verification of the tenant syncer

A model, in Dafny, of the tenant syncer's reconcile pass and TenantCluster teardown (`internal/syncer`), of the KubeVirt
volume listing it relies on (`internal/kubevirt/hotplug.go`) and of the hostname authority (`internal/hostname`), with
proofs of what they guarantee. `dafny verify dfyconfig.toml` checks all of it.

## How it is organised

**Storage attach, move and delete.** `StorageMachine` is the protocol between its four parties: the syncer, which acts on
listings taken earlier in the pass; KubeVirt, where a volume goes from queued add to spec to instance status to gone; the
guest's attach/detach controller; and the tenant. Every list call and every API call is a step, so anybody may move between
any two. `StorageCore` is the inductive invariant of every run and `StorageInvariant` what good runs keep beyond it;
`StorageSafety` has the theorems over whole runs. `StorageGuard` says when deleting a disk is safe, exactly, and
`StorageOrphans` shows the path on which it may not be. `StorageProgress` proves that a deleting attachment is let go of in
the end, and `StorageExample` runs one from beginning to end. `StoragePlan` and `StoragePass` are the code itself: methods that
change the pass's state and issue calls while the other parties interfere and any call fails, each proved to take only steps
of the protocol, and to do what its listings call for, said without the code's own branches. `Hotplug` is the listing they decide from.

**TenantCluster teardown.** `TeardownMachine` is the same kind of protocol for deleting a TenantCluster, `TeardownPass` the
code as a class, `TeardownSafety` what it guarantees when a disk goes and when the finalizer drops, and `TeardownProgress` the
proof that it does drop, with `TeardownExample` for one teardown from beginning to end; `KubeVirtProgress` is the ranking
function over volume stages.

**The rest of the pass.** `DesiredState` gathers what the host is to hold and withdraws endpoints over the address limit
(`AddressLimit` has the admission itself, `Ordering` the sorting). `HostPass` and `HostSlice` apply and prune; `HostStore` is
the object store that all tenants and other users share. `PassEnd` joins the halves. `Leaks` and `LeakPass` are the finalizer
discipline around them.

**Translations.** `Services`, `Ingresses`, `Routes` turn guest objects into host objects; `Hostname` decides which names a
guest may publish; `Names` and `Ownership` are what host objects are called and whose they are; `Filters`, `Text` and
`Wrappers` are shared tools.

Code that works step by step is modelled by methods with loops over fields, proved against functions; the lemmas are about
the functions and the state machines. Failing calls are nondeterministic choices. A ghost history in the classes records
the steps taken, which is what makes the run theorems theorems about the methods.

## What is assumed

- The attach/detach controller creates a VolumeAttachment only if none exists for the volume and the claim is not being
  deleted; nobody else takes off our finalizers, deletes our PVs or adds our volumes; deleting a VM drops its volumes.
- For the theorems over good runs, and no others: classes stay offered while a claim uses them, nobody else deletes our host
  PVCs, and finalizer writes on claims that are live succeed. `StorageGuard.DeleteExactly` says what is left of unplug-before-delete without it, and
  `Leaks.LeakFreeExactly` what is left of leak freedom.
- For teardown: nobody else plugs in volumes of this tenant. That it ends also needs, as long as the finalizer is there, passes
  without failures in which no other tenant's volume is found without its claim. `TeardownExample.FairExists` has such a case.
- That a deleting attachment is let go of needs, as long as it is held, passes that do for it what their listings call for,
  as `StoragePass.StorageSlice.Run` does without problems, and a KubeVirt that works. `StorageExample.FairExists` has such a case.
- An API call that fails has no effect. Writes to a listed object land only if it is still as listed; updates carry a
  resource version and deletes a UID.
- A disk serial and a truncated host name tell their inputs apart (SHA-256 is a constructor here).
- The API server keeps names and UIDs unique, gives each kind its own type, and rejects Services with clashing ports.

## Where code and comments disagree

- The address limit "stops the tenant growing" (`internal/syncer/pass.go:346-348`): not if a new claim sorts before a
  published one. `AddressLimit.OvershootExactly` says when, `AddressLimit.PassWithinLimit` when not.
- Lowering a limit "must not tear anything down" (`internal/syncer/pass.go:347-348`): it does when the read that would have found
  the endpoint fails, since a failed read counts as absent (`internal/syncer/pass.go:432-434`): `AddressLimit.FailedReadRefuses`
  is such a case, `AddressLimit.LoweringExactly` and `AddressLimit.PublishedRefusedExactly` say when it happens.
- Prune "never deletes a host PVC while any VM still carries its volume" (`internal/syncer/storage_pass.go:449-450`): the
  orphan branch does not look at the attachments, so after a failed finalizer write, say, it can
  (`StorageOrphans.FailedPinUnsafe`). `StorageGuard.DeleteExactly` is the exact condition, and
  `StorageGuard.GuardedUnplugBeforeDelete` shows that the missing look would be enough.
- `deleteOwned` says that labels changing between list and delete are caught (`internal/syncer/pass.go:889-897`); the check
  is on the listed copy, so they are not: `HostStore.RelabelRace`, and `HostStore.DeletesForeignExactly` for exactly when. For
  host PVCs, listed first and deleted last, that is a whole pass: `HostStore.ClaimRelabelRace`.
- Pinning before host state is created means "deletion can never race cleanup" (`internal/syncer/writeback.go:22-23`): not
  after a failed write, which does not stop the pass. See `Leaks.FailedPinLeaks`; `Leaks.LeakFreeExactly` is the condition.
- The branch for volumes "already mid-unplug" (`internal/syncer/storage_pass.go:593-595`) needs a claim without InSpec, which
  `Hotplug.MergeMeaning` shows the listing never produces.

## Model

| member | source | states |
|---|---|---|
| `Hotplug.VMs` | internal/kubevirt/hotplug.go:158-243 | the three loops over spec, queue and instance status compute the merge that the lemmas below are about, for any listings |
| `Hotplug.MergeMeaning` | internal/kubevirt/hotplug.go:165-239 | one VM: a volume is reported iff spec, queue or status names it; it counts as desired iff spec or a queued add holds it; the first non-empty claim wins, spec before queue; the last status phase wins; a claim comes only with InSpec |
| `Hotplug.ListingMeaning` | internal/kubevirt/hotplug.go:158-243 | the same for whole listings with unique names: every listed VM is there, and each of its volumes has the membership, InSpec, claim precedence and last phase of that VM's own spec, queue and instance |
| `Hotplug.InstancesMerged` | internal/kubevirt/hotplug.go:215-241 | an instance adds its statuses to the VM of its name and to no other, and one without a VM object invents none |
| `Hotplug.OnlyMachinesListed` | internal/kubevirt/hotplug.go:165-209 | the listed VMs are exactly the VM objects |
| `StorageCore.CoreStep` | internal/syncer/storage_pass.go:85-566 | every step of every party (tenant, attach/detach controller, KubeVirt, host users, each list and API call of the syncer), failed finalizer writes, un-offered classes and lost disks included, keeps the core: one attachment per volume, and what a VM carries is backed by a VolumeAttachment that holds our finalizer |
| `StorageInvariant.InvStep` | internal/syncer/storage_pass.go:85-566 | in good runs every step also keeps what depends on finalizer writes: attached claims are pinned, with their PV and disk there and their class offered |
| `StorageCore.SnapshotKeepsCore` | internal/kubevirt/hotplug.go:158-243 | the two list calls of VMs() may see different moments, and the merged snapshot still shows every volume that is carried |
| `StorageCore.AddKeepsCore` | internal/syncer/storage_pass.go:343-349 | an addvolume decided from an old snapshot never gives a volume to a second VM |
| `StorageCore.ReleasedIsOff` | internal/syncer/storage_pass.go:307-319 | in every run, when a VolumeAttachment is released the volume is off every VM now, not only in the snapshot |
| `StorageInvariant.TeardownIsUnattached` | internal/syncer/storage_pass.go:504-522 | in good runs a claim or orphan that prune tears down has no live attachment and no VM carrying it |
| `StorageInvariant.UnpinsOnlyTornDown` | internal/syncer/writeback.go:43-58 | while classes stay offered, a claim is released only after its teardown is complete |
| `StorageCore.NoZombies` | internal/syncer/storage_pass.go:280-297 | the branch for attachments without a PV is not reachable while nobody deletes our PVs |
| `StorageSafety.SingleAttachment` | internal/syncer/storage_pass.go:268-355 | over every run, whatever finalizer writes fail, whatever classes come and go and whatever disks are lost: no volume is queued for, in the spec of, or reported by two VMs |
| `StorageGuard.DeleteExactly` | internal/syncer/storage_pass.go:449-473 | unplug before delete, exactly: in every run, after a deletion the volume stays off every VM in every continuation if and only if at the deletion no VM carried it and no attachment of it was live |
| `StorageGuard.GuardedUnplugBeforeDelete` | internal/syncer/storage_pass.go:461-473 | in every run in which no listed attachment of a volume is active whenever its disk is deleted (the check the orphan branch lacks), no VM carries the volume once it is deleted, then or ever after |
| `StorageGuard.UnplugBeforeDelete` | internal/syncer/storage_pass.go:449-566 | over every good run the check always holds, so: once the syncer has deleted a host PVC no VM carries its volume, then or ever after, on live state |
| `StorageGuard.ExposedReturns` | internal/syncer/storage_pass.go:329-349 | from any reachable state in which a volume is on a VM or has a live attachment, some continuation without another deletion has it on a VM: there already, or plugged in by the next pass, also when its VM was gone in between |
| `StorageGuard.DeadStep` | internal/syncer/storage_pass.go:85-566 | a volume that is off every VM, unattached and unserved stays so under every step of every party |
| `StorageSafety.SurpriseNeedsOrphan` | internal/syncer/storage_pass.go:307-354 | over every run: removevolume for a volume that the pass lists as actively attached comes only from the orphan branch, or from the sweep when the disk is gone |
| `StorageSafety.NoSurpriseUnplug` | internal/syncer/storage_pass.go:307-354 | over every good run: no path (attachment, claim teardown, orphan PVC, sweep) issues removevolume for a volume that the pass lists as actively attached |
| `StorageSafety.AttachedWasReady` | internal/syncer/storage_pass.go:350-354 | over every run: an attachment is reported attached only after its VM reported the volume Ready |
| `StorageSafety.ReleasedClaimLeavesNothing` | internal/syncer/storage_pass.go:500-545 | over every run: when a deleting claim is released, host PVC, PV, attachments and hotplugs are gone from the live stores |
| `StorageSafety.OnlyDeletingReleased` | internal/syncer/writeback.go:43-58 | over every good run: no other claim is released |
| `StorageSafety.AttachedClaimIsHeld` | internal/syncer/storage_pass.go:178-181 | over every good run: while an attachment exists its claim is pinned and its PV and disk are there |
| `StorageSafety.LiveClaimKeepsDisk` | internal/syncer/storage_pass.go:461-473 | over every run: the disk of a claim that is not being deleted is never deleted |
| `StorageOrphans.OrphanPathExactly` | internal/syncer/storage_pass.go:461-473 | one pass on current listings with nobody else moving: it leaves a deleted disk wanted by a VM if and only if the listing shows an active attachment of the orphan to a listed VM |
| `StorageOrphans.OrphanServed` | internal/syncer/storage_pass.go:329-349 | with such an attachment the orphan is plugged in and its disk deleted in the same pass |
| `StorageOrphans.OrphanReleased` | internal/syncer/storage_pass.go:280-319 | otherwise at most a finalizer is released and no VM changes |
| `StorageOrphans.FailedPinUnsafe` | internal/syncer/writeback.go:30-35 | a concrete run: one failed finalizer write, and a disk is deleted while the same pass plugs it in |
| `StoragePlan.AttachmentCalls` | internal/syncer/storage_pass.go:274-349 | which calls an attachment leads to, each with its condition on the listings, and that there are no others |
| `StoragePlan.ProvisionCalls` | internal/syncer/storage_pass.go:213-266 | a scheduled claim without a host PVC gets one, and a claim with a host PVC and no PV gets its PV; nothing else |
| `StoragePlan.RemovalCalls` | internal/syncer/storage_pass.go:504-566 | a volume that is to go is asked off exactly the VMs that have it in their spec; once it is off all of them its disk and its PV go, where they exist |
| `StoragePass.StorageSlice.Gather` | internal/syncer/storage_pass.go:85-190 | the listings one call at a time, others moving in between; wanted are exactly the provisionable claims; a failed guest listing ends the pass, a failed host listing leaves it without storage and blocks every release |
| `StoragePass.StorageSlice.EnsurePins` | internal/syncer/writeback.go:24-37 | one finalizer write for every wanted claim and no other, before anything is made; each that fails is a problem, and the pass goes on |
| `StoragePass.StorageSlice.ProvisionPVC` | internal/syncer/storage_pass.go:213-266 | issues the calls of its plan in order, all of them unless one fails; a failure is recorded |
| `StoragePass.StorageSlice.ReconcileAttachment` | internal/syncer/storage_pass.go:274-355 | issues only what the listings call for, and all of it unless a call fails: a deleting attachment is unplugged while its VM has the volume in its spec and released once no VM shows it; an active one is pinned and plugged in; records the status to write: attached with the disk serial exactly when the snapshot shows Ready, not attached with an error that names the node exactly when no VM backs it |
| `StoragePass.StorageSlice.VolumeUnplugged` | internal/syncer/storage_pass.go:549-566 | true iff no VM of the snapshot shows the volume; asks every VM that has it in spec, and no other, to let go |
| `StoragePass.StorageSlice.DeleteHostPVC` | internal/syncer/pass.go:889-908 | the delete either takes effect or blocks finalizer release |
| `StoragePass.StorageSlice.TeardownGuestPVC` | internal/syncer/storage_pass.go:504-545 | waits for attachments, then unplugs, then deletes disk and PV in that order; keeps the claim wanted exactly while work is left |
| `StoragePass.StorageSlice.TeardownClaims` | internal/syncer/storage_pass.go:457-459 | afterwards every deleting claim is either still wanted or torn down completely; without failures everything that the unattached ones call for was done |
| `StoragePass.StorageSlice.PruneOrphans` | internal/syncer/storage_pass.go:461-473 | every orphan that is off all VMs is deleted and every other asked off its VMs, unless a call fails |
| `StoragePass.StorageSlice.SweepVolumes` | internal/syncer/storage_pass.go:475-484 | asks for the removal of exactly the in-spec volumes named after their claim, sparing only claims that exist or calls that fail |
| `StoragePass.StorageSlice.ReleaseClaims` | internal/syncer/writeback.go:43-58 | nothing after a failed prune; otherwise exactly the pinned claims that are no longer wanted |
| `StoragePass.StorageSlice.WriteBack` | internal/syncer/storage_pass.go:723-749 | every recorded status ends up written (attached, metadata, and whether there is an error), unless a write fails; those already there are skipped |
| `StoragePass.StorageSlice.ProvisionAll` | internal/syncer/storage_pass.go:202-204 | a pass without problems has made the host PVC and the PV of every wanted claim that lacks them and is scheduled |
| `StoragePass.StorageSlice.ServeAttachments` | internal/syncer/storage_pass.go:205-207 | a pass without problems has done for every listed attachment what its listing calls for: removevolume, release, pin or addvolume |
| `StoragePass.StorageSlice.Run` | internal/syncer/pass.go:177-204 | a whole storage pass, whatever calls fail, is a run of the protocol, so the theorems over all runs hold of it; without its listings it makes no call; without problems it does everything the listings as taken call for: pins, host PVCs and PVs, removevolume, addvolume, release of attachments, teardown and orphans, reports, release of claims |
| `StorageProgress.LoadStep` | internal/syncer/storage_pass.go:299-349 | while an attachment is deleting and held, and the pass knows, nobody's step adds to what KubeVirt has to do for its volume, and one that takes nothing away leaves it as busy |
| `StorageProgress.DeletingIsReleased` | internal/syncer/storage_pass.go:268-327 | liveness, with every API call, KubeVirt step and other party's move interleaved: if passes keep coming that do for the attachment what their listings call for, and KubeVirt does not put off for ever what it can do, then a deleting attachment that holds our finalizer is let go of, whatever its VM held, or was about to get, at the start |
| `StorageExample.FairExists` | internal/syncer/storage_pass.go:268-355 | such timelines exist with an attachment in use: one pass asks, KubeVirt lets go, the next pass releases |
| `StorageExample.ReleasedIsFair` | internal/syncer/storage_pass.go:311-319 | every run whose last pass did for an attachment what it called for, and that ends with it held no more and KubeVirt at rest, goes on as such a timeline |
| `TeardownPass.TenantTeardown.UnplugPVC` | internal/syncer/storage_pass.go:637-650 | attached iff some VM of the snapshot shows the volume; removals are asked only of VMs that have it in spec, and of all of them unless a call fails |
| `TeardownPass.TenantTeardown.TeardownPVCs` | internal/syncer/storage_pass.go:629-660 | done iff every listed PVC is off the snapshot and deleted; without failures every PVC is deleted, or every VM that has it in spec was asked |
| `TeardownPass.TenantTeardown.RemoveOrphanVMVolumes` | internal/syncer/storage_pass.go:574-602 | clean iff the claim of every volume of ours was found; without failures every claim is looked for, and removals asked where it is gone and the volume in spec |
| `TeardownPass.TenantTeardown.StorageTeardown` | internal/syncer/storage_pass.go:610-673 | done iff nothing was attached, every PVC is deleted and the sweep was clean; without a hotplug client it refuses to guess |
| `TeardownPass.TenantTeardown.DeleteOthers` | internal/syncer/tenantcluster_controller.go:246-291 | every listed Service, Ingress, Gateway and HTTPRoute is deleted, or the pass failed |
| `TeardownPass.TenantTeardown.ReconcileDelete` | internal/syncer/tenantcluster_controller.go:225-319 | storage, then the rest, then the finalizer: it drops only if nothing is left, and a pass without failures drops it if nothing is left; each pass is a run of the machine |
| `TeardownSafety.DeletedIsOff` | internal/syncer/storage_pass.go:606-609 | unplug before delete, on live state: over every run, a PVC that teardown deletes is off every VM then and for ever, whatever was still queued, whichever calls failed and whoever moved since the snapshot |
| `TeardownSafety.ReleasedIsEmpty` | internal/syncer/tenantcluster_controller.go:225-319 | completeness: over every run, when the finalizer drops no labelled PVC, Service, Ingress, Gateway or HTTPRoute is left |
| `TeardownSafety.ReleasedIsUnwanted` | internal/syncer/storage_pass.go:661-672 | over every run, when the finalizer drops no VM has a volume of the tenant in its spec or queue, and none will again, unless somebody else's PVC of that name was found |
| `TeardownSafety.ProtocolNamesWell` | internal/syncer/storage_pass.go:343-349 | every run of the storage protocol leaves volumes named after their claims, which the previous theorem starts from |
| `TeardownMachine.NothingNew` | internal/syncer/tenantcluster_controller.go:237-244 | no move of anybody brings a volume of the tenant onto a VM: it only goes from queue to spec to status to gone |
| `TeardownProgress.LoadNeverRises` | internal/syncer/tenantcluster_controller.go:237-244 | no move of anybody raises the work KubeVirt has left, and one that leaves it as it is leaves KubeVirt as busy |
| `TeardownProgress.QuietStep` | internal/syncer/storage_pass.go:637-672 | while KubeVirt has nothing to do and gets nothing done, the listings of a pass agree with the VMs and the pass asks for no removal |
| `TeardownProgress.UnfinishedIsNotQuiet` | internal/syncer/storage_pass.go:637-672 | a pass without failures that cannot finish was not such a pass: it leaves KubeVirt work, and never waits for nothing |
| `TeardownProgress.TeardownTerminates` | internal/syncer/tenantcluster_controller.go:220-319 | from any start, with every API call, KubeVirt step and other user's move interleaved, other tenants' hotplugs included: if as long as the finalizer is there some later pass ends without failures, and KubeVirt does not put off for ever what it can do, the finalizer drops |
| `TeardownExample.FairExists` | internal/syncer/tenantcluster_controller.go:220-319 | such timelines exist with a PVC in use on a VM at the start: one pass asks, KubeVirt lets go, the next pass deletes and drops the finalizer |
| `TeardownProgress.ReleasedIsFair` | internal/syncer/tenantcluster_controller.go:292-314 | every run that ends with the finalizer dropped and KubeVirt at rest goes on as such a timeline |
| `KubeVirtProgress.StepWeight` | internal/kubevirt/hotplug.go:178-184 | a KubeVirt step lowers the weight of a VM exactly when it is effective, and never raises it |
| `KubeVirtProgress.BusyStaysBusy` | internal/kubevirt/hotplug.go:178-184 | work that is left stays possible while other steps happen |
| `AddressLimit.Admit` | internal/syncer/pass.go:398-411 | the counting loop computes the admitted and refused claims of the specification |
| `AddressLimit.AdmittedExactly` | internal/syncer/pass.go:398-411 | the counter in closed form: admitted iff already published or among the first `limit` claims in order |
| `AddressLimit.NewAdmittedExactly` | internal/syncer/pass.go:400-410 | a new claim is admitted iff fewer than `limit` admitted claims sort before it |
| `AddressLimit.AdmittedCount` | internal/syncer/pass.go:398-411 | how many are admitted: all up to the limit, then only published ones |
| `AddressLimit.OvershootExactly` | internal/syncer/pass.go:398-411 | the count stays within max(limit, published before) unless a new claim is among the first `limit` and a published one is not |
| `AddressLimit.OvershootExists` | internal/syncer/pass.go:400-410 | a concrete case with a limit of one in which two are admitted |
| `AddressLimit.PublishedRefusedExactly` | internal/syncer/pass.go:392-411 | a published endpoint is refused iff it sorts beyond the limit and was not found published |
| `AddressLimit.LoweringExactly` | internal/syncer/pass.go:347-348 | lowering a limit tears nothing down iff every published endpoint beyond it is found published |
| `AddressLimit.FailedReadRefuses` | internal/syncer/pass.go:432-434 | a concrete case: two published endpoints, a limit lowered to one, one failed read, and a published endpoint is refused |
| `AddressLimit.AdmittedStable` | internal/syncer/pass.go:352-357 | a second pass on what was admitted admits the same, from any set published before: no endpoint flaps |
| `AddressLimit.AdmissionForgetsOrder` | internal/syncer/pass.go:378-383 | the gathered order does not matter when UIDs are unique, host names may collide |
| `AddressLimit.BeforeOrders` | internal/syncer/pass.go:378-383 | creation time with UID as tie-break is a strict total order on claims with unique UIDs |
| `AddressLimit.SortedByAge` | internal/syncer/pass.go:378-383 | in the sorted claims the older come first, and of two created at once the one with the lesser UID; nothing is lost |
| `AddressLimit.SeniorFirst` | internal/syncer/pass.go:378-411 | of two claims without an address, whatever order they were gathered in, the younger is admitted only if the older is |
| `AddressLimit.PublishedComeFirst` | internal/syncer/pass.go:358-421 | over every history of creations, deletions, limit changes and passes in which a new claim is no older than the published ones: the published endpoints are the first of the claims |
| `AddressLimit.PublishedAreSenior` | internal/syncer/pass.go:352-383 | over every such history no published endpoint is younger than an unpublished one, and of two created at once the UID has decided |
| `AddressLimit.PassWithinLimit` | internal/syncer/pass.go:346-349 | over every such history no pass raises the count above max(limit, count before) |
| `Ordering.SortedUnique` | internal/syncer/pass.go:378-383 | sorted by a total order, there is one arrangement |
| `Ordering.LexMeaning` | internal/syncer/pass.go:382 | strings compare as in a dictionary: a beginning comes first, otherwise the first difference decides |
| `Ordering.SortedNames` | internal/syncer/ingress.go:109-112 | collecting a set in any order and sorting gives its one increasing list |
| `DesiredState.Gather.ListServices` | internal/syncer/pass.go:210-217 | the guest Services are indexed by namespace and name, all of them and no others |
| `DesiredState.Gather.GatherServices` | internal/syncer/pass.go:218-243 | every live Service in scope that can be published gets one pair and its finalizer, every one that cannot is told why, and no other does or is |
| `DesiredState.Gather.AddBackends` | internal/syncer/pass.go:598-621 | every resolvable backend has a wanted Service afterwards, no wanted Service is replaced, each new one carries a listed guest Service that has its finalizer, and nothing else is wanted, needed or pinned |
| `DesiredState.Gather.GatherIngress` | internal/syncer/pass.go:251-269 | the translated Ingress is wanted with its finalizer, every Service it routes to is wanted, its refusals are noted |
| `DesiredState.Gather.GatherIngresses` | internal/syncer/pass.go:246-271 | wanted are exactly the translations of the listed Ingresses that are not being deleted; finalizers are wanted for them and the backends they need only; their refusals are noted in order |
| `DesiredState.Gather.GatherRoute` | internal/syncer/pass.go:312-330 | the translated HTTPRoute is wanted with its finalizer, every Service it refers to is wanted, its refusals are noted |
| `DesiredState.Gather.GatherRoutes` | internal/syncer/pass.go:304-332 | the same for all listed HTTPRoutes |
| `DesiredState.Gather.GatherGateway` | internal/syncer/pass.go:283-301 | the translated Gateway is wanted and pinned, its refusals are noted |
| `DesiredState.Gather.GatherGateways` | internal/syncer/pass.go:273-302 | wanted are exactly the translations of the listed Gateways, each with its pair and its finalizer |
| `DesiredState.ClaimsExactly` | internal/syncer/pass.go:361-377 | the claims are those of the listed Services and Gateways that ask for an address and can be given one, by kind, name, age and UID |
| `DesiredState.ApartDistinct` | internal/syncer/pass.go:361-377 | and no two share a UID or a host name if no two such objects do |
| `Filters.HoldsEach` | internal/syncer/pass.go:265 | a list gathered into a map: where names differ each translation is there as it is |
| `DesiredState.Gather.HostObjectExists` | internal/syncer/pass.go:427-450 | by kind, with a read that may fail: true exactly if the object is there, ours and takes an address, and the read was answered; without the Gateway API nothing is read for a Gateway |
| `DesiredState.Remove` | internal/syncer/pass.go:461-466 | the in-place removal takes out the first pair of that name |
| `DesiredState.Gather.WithdrawService` | internal/syncer/pass.go:460-476 | a refused LoadBalancer disappears, or stays as a ClusterIP with its finalizer if something routes to it |
| `DesiredState.Gather.WithdrawGateway` | internal/syncer/pass.go:477-486 | a refused Gateway disappears with its finalizer |
| `DesiredState.Gather.Withdraw` | internal/syncer/pass.go:458-487 | nothing that is routed to loses its Service, and earlier withdrawals stand |
| `DesiredState.DowngradedExactly` | internal/syncer/pass.go:467-475 | the downgrade always succeeds where it is needed |
| `DesiredState.Gather.ApplyAddressLimit` | internal/syncer/pass.go:358-421 | reference closure after withdrawal; nothing is added and no finalizer of an Ingress or HTTPRoute is lost; and with distinct host names the public Services, the Gateways and the pairs are exactly the admitted claims, with every refusal recorded; a published one is dropped iff it sorts beyond the limit and its read failed |
| `DesiredState.Gather.Run` | internal/syncer/pass.go:158-176 | what the guest listed is what ends up wanted: Ingresses and HTTPRoutes exactly as translated, Gateways too but for the refused; the claims are exactly those of the objects that ask for an address; every wanted Service is public or needed by a listed object, and carries a listed Service; finalizers exactly where they are needed; refusals noted; reference closure for any guest objects |
| `HostPass.ReconcilePorts` | internal/syncer/pass.go:722-733 | index the old ports, then walk the new ones |
| `HostPass.NodePortsSurvive` | internal/syncer/pass.go:720-733 | a surviving port keeps its NodePort, a new one has none, all else is as wanted |
| `HostPass.ServiceArrives` | internal/syncer/pass.go:676-718 | after a quiet pass a Service of the tenant has the wanted type, selector and ports in order, the wanted families if any are asked for, and otherwise what the host had allocated; NodePorts of ports that stay are kept |
| `HostPass.AppliedSettles` | internal/syncer/pass.go:695-711 | applying again changes nothing, whatever the host assigned or cleared in between |
| `HostPass.RefinedSettles` | internal/syncer/pass.go:648-806 | what a quiet pass leaves is settled |
| `HostPass.SettledStays` | internal/syncer/pass.go:648-806 | on a settled host a pass changes no object, not even a resource version |
| `HostSlice.HostSide.Apply` | internal/syncer/pass.go:676-718 | create, or update what is ours keeping what the host allocated, or leave alone and stop wanting what is not; what that makes of a Service is `HostPass.ServiceArrives` |
| `HostSlice.HostSide.ApplyAll` | internal/syncer/pass.go:648-661 | every desired object is applied and no other key is touched |
| `HostSlice.HostSide.DeleteOwned` | internal/syncer/pass.go:889-908 | deletes the very object that was listed as ours, or records the failure |
| `HostSlice.HostSide.PruneKind` | internal/syncer/pass.go:835-855 | removes exactly the owned objects of the kind that are not desired |
| `HostSlice.HostSide.PruneAll` | internal/syncer/pass.go:828-879 | the same for every managed kind |
| `HostSlice.HostSide.ListClaims` | internal/syncer/storage_pass.go:133-141 | the host PVCs are listed at the start of the pass, or it is a problem and nothing may be released |
| `HostSlice.HostSide.MakeClaim` | internal/syncer/storage_pass.go:235-253 | created if an uncached read finds none; left alone if there is one, ours or not |
| `HostSlice.HostSide.DeleteClaims` | internal/syncer/storage_pass.go:461-473 | of the items listed at the start, the condemned ones are deleted, and nothing else |
| `HostSlice.HostSide.Run` | internal/syncer/pass.go:158-206 | a quiet pass refines "owned objects are the desired ones minus names held by others", and does to host PVCs exactly what the storage slice decided; others are untouched; a second pass is a no-op; and every pass, quiet or not, its deletes of PVCs listed long before included, is a run of the shared store |
| `PassEnd.HostIsClosed` | internal/syncer/pass.go:579-621 | after a quiet pass every Service that the tenant's Ingresses name exists on the host, and on a host with the Gateway API every one that its HTTPRoutes name |
| `PassEnd.HostIsDesired` | internal/syncer/pass.go:158-187 | after a quiet pass every managed object of the tenant on the host is a desired one, with the desired contents |
| `PassEnd.PublicExactly` | internal/syncer/pass.go:467-475 | after a quiet pass the tenant's LoadBalancer Services on the host are exactly the wanted public ones, but for names held by others: a refused endpoint gives its address back, also where it stays as a backend |
| `HostStore.Isolation` | internal/syncer/ownership.go:93-99 | over every interleaving of passes and teardowns of any tenants and other users: an object without a tenant's labels is not changed by that tenant, except by a delete after its labels were taken away since that tenant last listed its kind |
| `HostStore.DeletesForeignExactly` | internal/syncer/pass.go:886-908 | over every interleaving, items of one kind being kept while others are listed: a delete hits an object without the tenant's labels if and only if the last relabelling of it by others came after that tenant's last list call for its kind and namespace and was to another owner |
| `HostStore.UpdatesAreOwners` | internal/syncer/pass.go:663-674 | an update lands only on the version that was read and found owned |
| `HostStore.RelabelRace` | internal/syncer/pass.go:886-908 | the UID precondition does not cover labels: a concrete run in which an object that is no longer ours is deleted |
| `HostStore.ClaimRelabelRace` | internal/syncer/storage_pass.go:133-140 | the same for an object listed early, with another kind listed after the relabelling, as host PVCs are |
| `Ownership.MergeKeepsOwner` | internal/syncer/pass.go:925-933 | an update keeps the owner, says whose object it carries, keeps foreign labels and is idempotent |
| `Leaks.LeakFreeExactly` | internal/syncer/writeback.go:22-37 | over every run, whatever writes fail: every host object has its guest object, present and pinned, throughout if and only if each was made for a guest object that was present and pinned at that moment |
| `Leaks.NoLeak` | internal/syncer/writeback.go:22-58 | if finalizer writes succeed that is so: under any pattern of host failures, in every reachable state every owned host object has its guest object, present and pinned |
| `Leaks.ReleasedHasNothing` | internal/syncer/writeback.go:39-58 | in every run, whatever fails: a finalizer comes off only when the guest object has no host object |
| `Leaks.FailedPinLeaks` | internal/syncer/writeback.go:30-35 | a concrete run: a failed finalizer write does not stop apply, and the guest object disappears under its host object |
| `LeakPass.PinnedPass.EnsureGuestFinalizers` | internal/syncer/writeback.go:24-37 | every wanted object is pinned or the failure is counted |
| `LeakPass.PinnedPass.ApplyAll` | internal/syncer/pass.go:648-661 | host objects only for what is desired and pinned, all of them unless a call fails |
| `LeakPass.PinnedPass.PruneAll` | internal/syncer/pass.go:828-884 | everything found and not desired is gone, or the pass remembers that prune failed |
| `LeakPass.PinnedPass.ReleaseGuestFinalizers` | internal/syncer/writeback.go:43-58 | nothing after a failed prune; otherwise exactly the noted holders that are no longer wanted |
| `LeakPass.PinnedPass.Run` | internal/syncer/pass.go:184-206 | pin, apply, prune, release in that order is a run of the protocol; without problems every noted holder that is no longer wanted is let go |
| `Services.ParseFamilies` | internal/syncer/service.go:181-198 | part by part, the first bad one ends it |
| `Services.FamiliesMeaning` | internal/syncer/service.go:181-198 | accepted iff, blanks aside, the list is one of the four possible ones |
| `Services.MapService` | internal/syncer/service.go:58-131 | computes the host Service of the specification, which the following rows are about |
| `Services.CarriedFaithfully` | internal/syncer/service.go:61-98 | an accepted Service of either kind: the host name, owner and type asked for, the VMs behind it, as many ports as the guest, each with its name, protocol and number, handed over to its NodePort and without one of its own; a backend asks for no families |
| `Services.RequestHonoured` | internal/syncer/service.go:141-179 | each annotation stands for its part of the address request, and a part without one is the guest's own; the host has every family asked for |
| `Services.AcceptedExactly` | internal/syncer/service.go:58-122 | accepted iff there are ports, each with a NodePort, and for a public address the families are well formed and available |
| `Services.PublishedIsBackend` | internal/syncer/service.go:107-123 | what is accepted as LoadBalancer is accepted as ClusterIP under the same name with the same ports |
| `Services.FamiliesHonoured` | internal/syncer/service.go:141-179 | the host is asked for exactly the annotated families, and two mean RequireDualStack unless told otherwise |
| `Services.UnsupportedMeaning` | internal/syncer/service.go:209-221 | no refusal iff the host's families are unknown or contain all requested ones |
| `Services.MissingFamilies` | internal/syncer/writeback.go:157-177 | requested families without an address, in order; a hostname stands for all |
| `Services.LackingMeaning` | internal/syncer/writeback.go:170-176 | missing iff requested and without an address of that family |
| `Ingresses.MapIngress` | internal/syncer/ingress.go:40-114 | computes rules, TLS, refusals and the sorted backend list of the specification |
| `Ingresses.OnlyAuthorised` | internal/syncer/ingress.go:51-106 | every rule and TLS hostname on the host is authorised |
| `Ingresses.RulesInOrder` | internal/syncer/ingress.go:51-86 | host rules come from guest rules of the same hostname in the same order, and one is there iff its hostname is authorised and one of its paths is served |
| `Ingresses.PathsInOrder` | internal/syncer/ingress.go:60-79 | paths in guest order with path, type and port as they were and the Service under its host name; one is missing iff it names no Service the host can reach |
| `Ingresses.TLSInOrder` | internal/syncer/ingress.go:80-106 | name, owner, class; authorised TLS hostnames arrive, section by section and in order; a section is missing iff none of its hostnames is authorised |
| `Ingresses.RefusalsExactly` | internal/syncer/ingress.go:42-106 | the guest is told of exactly what is not carried, each with its reason |
| `Ingresses.PathsConserved` | internal/syncer/ingress.go:60-79 | in an authorised rule, paths carried plus refusals written equals guest paths |
| `Ingresses.BackendsExactly` | internal/syncer/ingress.go:67-78 | listed iff some path of an authorised rule uses it and it resolves |
| `Ingresses.PathsResolve` | internal/syncer/ingress.go:72-78 | each host path carries the host name of a listed backend |
| `Ingresses.BackendsIffHost` | internal/syncer/ingress.go:80-85 | backends are listed iff something is materialised |
| `Filters.Origins` | internal/syncer/ingress.go:51-113 | an appending loop with refusals keeps order and drops only what is refused |
| `Filters.Conserved` | internal/syncer/gateway.go:297-341 | kept plus refused is all |
| `Routes.MapFilters` | internal/syncer/gateway.go:293-343 | computes filters, mirrored names and refusals of the specification |
| `Routes.MapHTTPRoute` | internal/syncer/gateway.go:169-282 | computes hostnames, parents, rules, refusals and the sorted backend list of the specification, with its three early ends |
| `Routes.RouteIsClosed` | internal/syncer/gateway.go:208-260 | every Service reference of the host route, in rule backends, rule mirrors and backend mirrors, is the host name of a listed backend; no ExtensionRef survives |
| `Routes.ListedResolve` | internal/syncer/gateway.go:238-255 | every listed backend resolved |
| `Routes.ListedAreUsed` | internal/syncer/gateway.go:216-221 | every listed backend is referred to by the host route, except mirrors of rules that were dropped |
| `Routes.RulesInOrder` | internal/syncer/gateway.go:209-260 | rules in guest order; one is missing iff it had backends and lost them all |
| `Routes.BackendsInOrder` | internal/syncer/gateway.go:223-257 | matches as they were; backends in guest order, each with its weight, kind, port and filters and its Service under its host name; one is missing iff the host cannot reach it |
| `Routes.FiltersInOrder` | internal/syncer/gateway.go:293-343 | filters in guest order: literal ones as they are, and the mirrors to Services the host can reach |
| `Routes.ParentsInOrder` | internal/syncer/gateway.go:187-206 | name, owner; the route hangs on the Gateways the guest names, in order, each looked up in the namespace the reference gives or else in the route's own; other kinds are left out |
| `Routes.RouteExactly` | internal/syncer/gateway.go:169-262 | there is a host route iff a hostname is authorised or none was given, a parent is a Gateway, and a rule is left |
| `Routes.RefusalsExactly` | internal/syncer/gateway.go:169-282 | the guest is told of exactly what is not carried, each with its reason, up to where the translation ends |
| `Routes.HostnamesAuthorised` | internal/syncer/gateway.go:172-185 | hostnames are the authorised ones in order, and empty only if the guest listed none |
| `Routes.FiltersConserved` | internal/syncer/gateway.go:297-341 | filters carried plus filters refused is all of them |
| `Routes.MapGateway` | internal/syncer/gateway.go:85-155 | computes listeners and refusals of the specification |
| `Routes.GatewayAuthorised` | internal/syncer/gateway.go:119-154 | listeners are authorised, name no guest Secret, and carried plus refused is all; the class is the operator's |
| `Routes.ListenersInOrder` | internal/syncer/gateway.go:119-154 | name, owner; listeners in guest order with name, hostname, port, protocol and TLS mode; one is missing iff it names no authorised hostname |
| `Routes.GatewayExactly` | internal/syncer/gateway.go:85-155 | there is a host Gateway iff the operator set a class and a listener is authorised; the guest is told of exactly what is not carried |
| `Hostname.AllowedMeaning` | internal/hostname/hostname.go:15-63 | allowed iff some pattern is identical, or a wildcard that differs in one non-empty first label (the one-label reading of section 6.4.3 of RFC 6125) |
| `Hostname.AllowedUnion` | internal/hostname/hostname.go:41-62 | patterns add up: monotone, and independent of order and repetition |
| `Hostname.WildcardNeedsItself` | internal/hostname/hostname.go:49-54 | a wildcard hostname is granted by its own pattern only |
| `Hostname.GrantedDepth` | internal/hostname/hostname.go:20-26 | no pattern opens names of another depth |
| `Hostname.GrantsIsCovers` | internal/hostname/hostname.go:42-61 | the prefix cutting of the code is the label reading |
| `Text.SplitJoin` | internal/hostname/hostname.go:55-57 | splitting at dots loses nothing |
| `Names.Sanitize` | internal/syncer/ownership.go:117-129 | character by character, then dashes trimmed |
| `Names.SanitizedIsLabel` | internal/syncer/ownership.go:117-129 | the result is empty or a well-formed label |
| `Names.CollisionExactly` | internal/syncer/ownership.go:101-115 | for any DNS names: two guest objects share a host name iff, dots read as dashes, they are the same or a dash in one namespace reads as the separator |
| `Names.CollisionExists` | internal/syncer/ownership.go:106-107 | namespace b-c name d, and namespace b name c-d |
| `Names.HostPVCNameInjective` | internal/syncer/storage.go:90-96 | for any TenantCluster name, dots included, host PVC names tell UIDs apart |

## Left out

- StoragePass.StorageSlice.ReconcileAttachment: attachments without a PV name are passed over by the code and not modelled; of an error text it models the node it names.
- TeardownPass.TenantTeardown.ReconcileDelete: does not model the best-effort cleanup inside the guest (finalizers, PVs, classes, plugin), which cannot hold the finalizer back, nor the client cache; the lists of other objects are one list.
- TeardownSafety.ReleasedIsUnwanted: of a volume that an instance still reports and nobody wants any more it says nothing, because the listing has no claim for it and the sweep passes it over; PVCs that were listed are off every VM altogether by `TeardownSafety.DeletedIsOff`.
- DesiredState.Gather.Run: its list calls succeed (a failed one ends the pass before anything is decided), and a guest without the Gateway API lists nothing; of objects with the same host name the last listed wins; which finalizers are wanted is stated for distinct claims, or no limit.
- StorageProgress.DeletingIsReleased: that passes without problems keep coming is assumed, not proved; that an active attachment is plugged in at last is not stated.
- HostSlice.HostSide.Run: the refinement and the no-op are stated for passes in which nothing fails and nobody interferes; other passes keep the store's rules and isolation only. Which host PVCs are made and condemned is a parameter here; how the storage slice decides it is `StoragePass`.
- HostSlice.HostSide.ApplyAll: the four maps of desired objects are one map keyed by kind and name, and the copies kept for status write-back are not modelled.
- Leaks.NoLeak: host objects are identified with their guest objects, which takes host names to be distinct; names are in `Names.CollisionExactly`.
- LeakPass.PinnedPass.Run: release is stated for noted holders; a Service that is only a backend is pinned but never noted, as in the code.
- Names.CollisionExactly: for names the API server accepts, as DNS labels or subdomains.
- Routes.MapHTTPRoute: does not check that a parent Gateway was synced, as the code does not; refusals carry the reason and the name but not the position in the route.
- AddressLimit.PublishedComeFirst: a pass in a history reads the host without failures; a read that fails counts as absent (`DesiredState.Gather.HostObjectExists`).
- Text.ToLower: letters are folded and blanks recognised in ASCII.
- Volume identity: the claim by UID, its PV, its host PVC and its hotplug volume are one key; that the names are in bijection is `Names.HostPVCNameInjective` and the serial assumption.
- mapPVC: a claim is mappable or not; access modes, volume mode and size are not modelled.
- StorageClass, GatewayClass, CSIDriver and node plugin mirroring: re-assert loops without an invariant of their own.
- Reconcile: the split between deletion and sync, adding the TenantCluster finalizer and its status are not modelled.
- Status conditions, events, annotations and message text: a refusal is a tagged value.
- Kubeconfig handling, discovery, controller wiring and the CSI node plugin: I/O and operating system effects.
- Address parsing: the family of an allocated address is given.
