# Verified model of the evroc Cluster API provider

This project models the two reconcilers of the provider, the cloud routines they
drive and the admission webhooks they rely on, and proves what they promise:
nothing the provider creates is ever orphaned or mistaken for someone else's, a
load balancer is created, re-created and taken down as one graph, cleanup of
driver resources terminates, a machine is built in one zone behind its gates and
taken down VM first.

Run `dafny verify dfyconfig.toml` in this directory.

## How the model is built

- `Cloud.dfy` is the evroc API: named, labelled resources that refer to one
  another, deletes that are accepted before they take effect, calls that may fail
  whether or not they were applied. A reconcile that stops in the middle is the
  run in which every later call fails. `Shed` and `Grows` relate states between
  which resources only went away or were only added. Each resource remembers
  which program created it; no modelled code reads that, the theorems do.
- `Scripts.dfy` says what a teardown asks of the cloud as a function of the answers
  it got: the next call, and what follows each possible answer to it.
- `Kube.dfy` is the API server: every version an object had, a cache that returns
  any version no older than the last one it returned, updates that land only on
  the version they were made from, merge patches that do not care, separate
  status, finalizers, admission, and other writers at work before any call.
- `Api.dfy`, `ClusterWebhook.dfy`, `MachineWebhook.dfy`, `Images.dfy`: the resource
  types and their admission.
- `Labels.dfy`, `Ownership.dfy`: labels, selectors, pause, ownership ID, prefix.
- `LoadBalancer.dfy`, `Workload.dfy`, `VirtualMachine.dfy`, `SecurityGroups.dfy`:
  the cloud routines.
- `ClusterController.dfy`, `MachineProvisioning.dfy`, `MachineTeardown.dfy`,
  `MachineController.dfy`, `Zones.dfy`: the reconcilers.
- `ClusterLife.dfy`, `MachineLife.dfy`: whole runs.

## Assumptions

- One reconcile of an object at a time, and a cache that never goes back in time
  (controller-runtime's guarantees within one process).
- Other writers do not edit the ownership and prefix annotations, the provider's
  finalizer or its status, and leave `existingPublicIPID` as it is, which the
  webhook does not enforce (internal/controller/evroccluster_controller.go:697-701).
- A move is one atomic step: it happens while both sides are paused, so no
  reconcile of the source overlaps it; the object is alive, keeps name,
  annotations, labels, finalizers and specification, and its prefix annotation is
  already stored or nothing was made yet. The annotation is stored only by the
  deferred patch, and `ClusterController.EarlyMoveOrphans` shows what an earlier
  move loses.
- While one reconcile runs, other programs only finish deletes and make things
  ready; between reconciles they may create, delete and change anything. A
  teardown that is to end needs nothing new to appear after deletion started.
- Nobody moves a VM or a disk between zones (the API does not allow it).
- Where the documentation and the code differ the model follows the code: the
  README's promise that deletion stops with an error naming a foreign VM
  (README.md:820-821) is not what internal/cloud/workload.go does, and the guard
  there does not see the VMs the provider itself creates
  (`OwnershipLabels.GuardSeesVM`).

## Model

| member | source | states |
|---|---|---|
| ClusterController.ClusterReconciler.ConvergeGroups | internal/controller/evroccluster_controller.go:209-213 | Groups are reconciled and everything made is branded; the cluster is ready if that worked and not ready if it did not; no load balancer loses its address |
| ClusterController.ClusterReconciler.ReconcileLoadBalancer | internal/controller/evroccluster_controller.go:276-312 | Done only with an active load balancer under the resolved name; what is recorded, and becomes the endpoint if none was set, is the address of its own frontend; otherwise the copy is untouched |
| ClusterController.MadeIsHeld | internal/controller/evroccluster_controller.go:629-679 | Any one resource the controller made is among what one of the three checks looks for |
| MachineController.MachineReconciler.Converge | internal/controller/evrocmachine_controller.go:328-366 | Done means the VM was there and, for a managed control plane, is in the pool; whatever is made is in the stored zone; a VM is asked for at most once, with every gate open; undisturbed, the VM is there or one gate fewer is closed |
| MachineController.MachineReconciler.Proceed | internal/controller/evrocmachine_controller.go:136-166 | A version lacking ID or finalizer leads to no cloud call, and to a requeue only once both are stored |
| MachineController.MachineReconciler.HandleDeletion | internal/controller/helpers/finalizer.go:40-66 | Either the finalizer stays, or the VM is gone, everything owned is going and the pool the machine had to leave has let go of it |
| MachineController.MachineReconciler.FromCluster | internal/controller/evrocmachine_controller.go:1224-1246 | The machine inherits exactly the groups of its role; its VM's labels are the machine's over the cluster's under name, role and provider |
| MachineController.MachineReconciler.PersistStatus | internal/controller/evrocmachine_controller.go:1705-1713 | A reported success means the copy is the stored object |
| MachineController.MachineReconciler.EnsureZone | internal/controller/evrocmachine_controller.go:319-326 | A zone that is there is kept, one that is not is assigned, and what is built in is what is stored |
| MachineTeardown.Teardown.RemoveBackend | internal/cloud/loadbalancer.go:420-423 | Afterwards the pool is gone or does not have the machine |
| MachineTeardown.Teardown.DeleteVM | internal/controller/evrocmachine_controller.go:644-657 | Submits only the VM's deletion; reports it gone exactly when it was told so |
| MachineProvisioning.Provisioner.EnsureGroup | internal/controller/evrocmachine_controller.go:1283-1318 | Afterwards the group exists; nothing but this group was added or altered, and nothing deleted |
| MachineProvisioning.Provisioner.DropStaleDisks | internal/controller/evrocmachine_controller.go:1676-1694 | Only tracked managed disks the specification no longer has are deleted |
| Images.ChooseImage | internal/cloud/client.go:113-123 | Custom exactly when the reconciler's test says custom; a full reference is taken as it is, a shorthand becomes a reference in the client's own project and region, a stock image keeps its name |
| LoadBalancers.LoadBalancerService.EnsureAddress | internal/cloud/loadbalancer.go:51-64 | A borrowed address is only waited for and nothing is created; an own one is created first |
| LoadBalancers.LoadBalancerService.PlaceLoadBalancer | internal/cloud/loadbalancer.go:157-187 | The load balancer is placed only on a complete chain, and the chain stays complete |
| Workload.WorkloadResourceService.ReleaseStacks | internal/cloud/workload.go:50-82 | The load balancer kinds in order, then attachments; no disk is touched |
| CloudApi.FreeTarget | internal/cloud/workload.go:32-37 | Following references upwards from any target of an isolated set ends at one nothing refers to |
| CloudApi.LiveShrinks | internal/cloud/workload.go:32-37 | A pass that accepts whatever is free leaves strictly fewer targets neither gone nor going |
| CloudApi.DigDeeper | internal/cloud/loadbalancer.go:213-247 | A pass that accepts whatever is free gets one link deeper: what is left has longer chains of referrers above it |
| SecurityGroups.SecurityGroupReconciler.CheckExisting | internal/controller/evroccluster_controller.go:500-508 | Every existing group was found in the cloud, and nothing is created or altered |
| Zones.SequentialShares | internal/controller/evrocmachine_controller.go:929-932 | Sequential picks go round robin: every zone has its exact share at every moment |
| ClusterLife.Live | internal/controller/evroccluster_controller.go:77-145 | Every run (reconciles that may fail or stop at any call, stale reads, other writers, other programs in the cloud, moves with new UID and empty status): at every moment everything the controller created carries marker, persisted ownership ID and a name or label teardown finds; while any of it exists the object exists with finalizer and ID; a gone object leaves nothing; the ownership ID never changes once set; over all versions ever stored, moves included, the endpoint changes at most once |
| ClusterLife.EndpointSetOnce | api/v1beta1/evroccluster_webhook.go:163-173 | All versions stored in a life, through every move, make one history admission would have accepted, in which the endpoint changes at most once, by being set |
| ClusterLife.Step | internal/controller/evroccluster_controller.go:77-145 | One step of any kind keeps that invariant; while anything made exists, ownership ID, load balancer name, endpoint policy and borrowed-address flag do not change |
| ClusterLife.MoveIsSafe | internal/controller/evroccluster_controller.go:858-864 | A move of a live object whose prefix is recorded, or for which nothing was made, keeps the invariant and the identity, whatever the new UID |
| MachineLife.Live | internal/controller/evrocmachine_controller.go:87-166 | Every run of a machine without a move: zone and ownership ID are each set at most once, every VM and disk ever made is in that one zone, from one step to the next a VM is asked for at most once and only when all it depends on was there and ready, and a machine that is gone leaves only resources already being deleted |
| MachineLife.EverythingInOneZone | internal/controller/evrocmachine_controller.go:319-326 | At any two moments of a life the VM and all disks are in the same zone, the one stored at the end |
| ClusterController.ClusterReconciler.Reconcile | internal/controller/evroccluster_controller.go:77-145 | Keeps the invariant; a paused, or not yet recorded, object causes no cloud call; a live cluster loses at most stale tracked groups, a deleted one only what it owns; the finalizer goes only from a deleted object for which nothing is left; Done means that happened, or that endpoint and prefix are stored, an endpoint that was not set before being the load balancer's own address |
| ClusterController.ClusterReconciler.Proceed | internal/controller/evroccluster_controller.go:111-144 | Ownership ID and finalizer are stored by one conditional write before anything is created: a version lacking either leads to no cloud call, and to a requeue only once both are stored |
| ClusterController.ClusterReconciler.HandleDeletion | internal/controller/helpers/finalizer.go:40-66 | Either the finalizer stays, or nothing that holds it is left in the cloud; Done means the stored object has lost it |
| ClusterController.ClusterReconciler.ReconcileNormal | internal/controller/evroccluster_controller.go:147-233 | Whatever the pass creates is branded with the version's identity; the deferred patch never takes off the finalizer nor changes prefix or owner; Done means endpoint and prefix are stored, so that a later move or loss of status changes no name |
| ClusterController.ClusterReconciler.Converge | internal/controller/evroccluster_controller.go:164-233 | Done means ready, status lists exactly the desired groups, and a managed endpoint is set with the load balancer under its resolved name |
| ClusterController.ClusterReconciler.FindOrCreate | internal/controller/evroccluster_controller.go:276-303 | The load balancer is looked up in the cloud and created only if absent: with one there that stays, nothing is created or altered; nothing is lost or rebranded; the report is true of the load balancer as long as it is there |
| ClusterController.ClusterReconciler.UseLoadBalancer | internal/controller/evroccluster_controller.go:315-353 | The endpoint is set only if nothing has set it; status records the load balancer |
| ClusterController.ClusterReconciler.BuildLoadBalancerCreateRequest | internal/controller/evroccluster_controller.go:245-273 | The request carries the ownership labels, the borrowed address, the extra ports, and for a named VPC exactly the subnets of the cluster's zones |
| ClusterController.ClusterReconciler.BackendSubnets | internal/controller/evroccluster_controller.go:262-270 | The backend network names the subnet of every zone of the cluster and of no other |
| ClusterController.ClusterReconciler.DeferredPatch | internal/controller/evroccluster_controller.go:152-161 | The unconditional patches keep every stored identity and the finalizer, however stale the version they were computed from; success means prefix and endpoint of the copy are stored |
| ClusterController.ClusterReconciler.CleanupResources | internal/controller/evroccluster_controller.go:629-679 | Deletes only what the cluster owns; Done means that at that moment no owned driver resource, no load balancer part and no owned group is left, though the checks happen one after another; short of faults, everything owned that nothing refers to is gone or going; every call and the outcome are determined by the plan and the answers so far |
| ClusterController.ClusterReconciler.TeardownUndisturbed | internal/controller/evroccluster_controller.go:629-679 | With accepted deletes finishing only between passes, passes refused over what is still going included, teardown is over within five passes, whatever refers to whatever among the owned resources |
| ClusterController.ClusterReconciler.TeardownAtOnce | internal/controller/evroccluster_controller.go:629-679 | Where deletes act at once and nothing interferes, teardown is over within three passes, two when driver disks are retained |
| ClusterController.ClusterReconciler.CleanupLB | internal/controller/evroccluster_controller.go:688-717 | Deletes exactly within the doomed set and never a borrowed address; not pending means nothing blocks; short of faults whatever nothing referred to is gone or going; the calls follow the script of name, owner and address alone |
| ClusterController.ClusterReconciler.CleanupSGs | internal/controller/evroccluster_controller.go:724-751 | Deletes only groups with marker and owner ID; not pending means none is left; short of faults every group nothing refers to is gone or going |
| ClusterController.NothingMadeIsLeft | internal/controller/evroccluster_controller.go:629-679 | The three checks together cover every kind the controller creates: when none finds anything, nothing it made is left |
| ClusterController.NoOrphans | internal/controller/helpers/finalizer.go:40-66 | A gone object leaves no resource its controller created |
| ClusterController.TeardownIgnoresStatusIff | internal/controller/evroccluster_controller.go:632-638 | For every status and UID, a teardown that gets the same answers makes the same cloud calls and ends the same, if and only if the prefix is recorded, the endpoint is external, or there is no ownership ID |
| Scripts.SameRun | internal/controller/evroccluster_controller.go:629-679 | Two complete runs of one script that were answered alike made the same calls and came to the same conclusion |
| ClusterController.EarlyMoveOrphans | internal/controller/evroccluster_controller.go:866-882 | After a move that preceded the recording of the prefix, no teardown deletes the load balancer or its address any more |
| Ownership.PauseMissedIff | internal/controller/helpers/pause.go:24-47 | A pause is missed exactly when it is on the owner alone and the owner is unnamed or unreadable |
| Ownership.EnsureClusterOwnershipID | internal/controller/evroccluster_controller.go:901-914 | A copy without an ID gets a fresh one and nothing else changes; a copy with one is untouched |
| Ownership.EnsureMachineOwnershipID | internal/controller/evroccluster_controller.go:901-914 | The same for machines |
| Ownership.ClusterResourcePrefix | internal/controller/evroccluster_controller.go:861-883 | Annotation, else the status load balancer's name without its suffix, else name and UID; whichever it was is recorded in the copy |
| Ownership.ResolveLoadBalancerName | internal/controller/evroccluster_controller.go:236-242 | Whatever a reconcile did to its copy, it still resolves the name of the version it read |
| Ownership.ControllersAgreeOnName | internal/controller/evrocmachine_controller.go:1398-1402 | Any two versions any cache can show resolve to the same load balancer name |
| Ownership.MoveKeepsPrefixIff | internal/controller/evroccluster_controller.go:858-864 | A move keeps the prefix for every new UID if and only if the annotation is set |
| Ownership.EarlyMoveRenames | internal/controller/evroccluster_controller.go:874-882 | Without the annotation, a new UID that differs early renames the load balancer |
| Kube.Store.Update | internal/controller/helpers/finalizer.go:15-37 | A conditional write lands only on the version it was made from; the finalizer goes only if the write says so |
| Kube.Store.UpdateStatus | internal/controller/evroccluster_controller.go:88-92 | The same for status, which never moves the finalizer |
| Kube.Store.Patch | internal/controller/evroccluster_controller.go:152-161 | A patch applies to whatever is stored; admission compares with that; identity is kept |
| Kube.Store.PatchStatus | internal/controller/evroccluster_controller.go:152-161 | A status patch that records a load balancer under the resolved name keeps the prefix |
| Kube.Store.Get | internal/controller/evroccluster_controller.go:77-82 | A cached read returns some version no older than the last one read |
| Kube.AppendSound | internal/controller/helpers/finalizer.go:40-66 | Once the finalizer is off or the object gone, no version the cache can still show leads to a create |
| OwnershipLabels.ResourceLabels | internal/controller/helpers/labels.go:59-75 | The overwriting loop yields the user labels, later maps first in precedence, under the three ownership labels |
| OwnershipLabels.OwnerAlwaysWins | internal/controller/helpers/labels.go:69-72 | Whatever the user labels, exactly the owner's selector finds the resource |
| OwnershipLabels.LastMapWins | internal/controller/helpers/labels.go:62-67 | Every other key has the value of the last map that sets it |
| OwnershipLabels.MachineOwnerAlwaysWins | internal/controller/evrocmachine_controller.go:61-74 | A machine's resources answer to exactly its own ID and also to its cluster's selector |
| OwnershipLabels.MergeLabels | internal/controller/helpers/labels.go:14-45 | Each key of a VM's labels reads as the provider, else the role, else the cluster's name, else the machine, else the cluster sets it, and there are no others; a cluster's selector finds the VM exactly if the user's own labels ask for it |
| OwnershipLabels.GuardSeesVM | internal/cloud/workload.go:42-48 | The guard sees a provider VM if and only if the user's own labels carry marker and cluster ID |
| OwnershipLabels.GuardMissesProviderVM | internal/cloud/workload.go:42-48 | With no user labels the guard sees no provider VM |
| LoadBalancers.LoadBalancerService.Create | internal/cloud/loadbalancer.go:39-188 | Stopped at any call, only parts of the request's graph were added; a reference-closed cloud stays so; success means the whole graph is there; no fault means success |
| LoadBalancers.LoadBalancerService.EnsureChain | internal/cloud/loadbalancer.go:66-155 | Pool, then service and route for the API port and for each extra port, each referring only to what is already there |
| LoadBalancers.LoadBalancerService.CreateOrGet | internal/cloud/loadbalancer.go:66-77 | Create or adopt: afterwards the resource exists, and an existing one was not altered |
| LoadBalancers.LoadBalancerService.Build | internal/cloud/loadbalancer.go:464-504 | Reports the load balancer only if it exists, NotFound only if it does not; as long as it exists it is active if reported so, and the reported address is that of its own frontend, the backends those of its pool |
| LoadBalancers.LoadBalancerImpliesChain | internal/cloud/loadbalancer.go:39-188 | In a reference-closed cloud a visible load balancer implies its address, pool and every service and route |
| LoadBalancers.RerunEqualsUninterrupted | internal/cloud/loadbalancer.go:39-188 | Re-running after a stop anywhere ends in the state of an uninterrupted run |
| LoadBalancers.GraphKeys | internal/cloud/loadbalancer.go:39-188 | A load balancer is exactly its chain: pool, API service and route, load balancer, own address unless borrowed, one service and route per extra port, and nothing else |
| LoadBalancers.PortNamesDiffer | internal/cloud/loadbalancer.go:116-155 | Different ports never share a service or route name |
| LoadBalancers.LoadBalancerService.Delete | internal/cloud/loadbalancer.go:213-247 | Deletes only the load balancer, labelled parts and its own address; success means each is gone, or going with nothing in its way; short of faults whatever was free is gone or going and only conflicts are errors: none where nothing refers in, none if and only if so where nothing finishes meanwhile, and where deletes act at once if and only if nothing from outside refers in, with exactly those gone |
| LoadBalancers.LoadBalancerService.DeleteUntilGone | internal/cloud/loadbalancer.go:213-271 | With accepted deletes finishing only between passes, DeletionComplete says done within five passes and within one more than there are resources to delete |
| LoadBalancers.LoadBalancerService.DeleteKind | internal/cloud/loadbalancer.go:225-240 | Everything of one kind with the owner's labels is gone or going unless a failure is reported; short of faults a failure is a conflict, and whatever nothing referred to is gone or going |
| LoadBalancers.DeleteUndoesCreate | internal/cloud/loadbalancer.go:213-247 | From wherever Create stopped, Delete's target set is exactly what Create made, closed under referrers, and never a borrowed address |
| LoadBalancers.LoadBalancerService.Exists | internal/cloud/loadbalancer.go:382-411 | True only if a base-named part was there, false only if none is |
| LoadBalancers.LoadBalancerService.DeletionComplete | internal/cloud/loadbalancer.go:252-271 | Done only if no base-named and no owner-labelled part is left, not done only if one was |
| LoadBalancers.TeardownCompletesIff | internal/cloud/loadbalancer.go:252-271 | Delete leaves nothing that DeletionComplete waits for, if and only if no base-named part lacks the owner's labels |
| Workload.WorkloadResourceService.Cleanup | internal/cloud/workload.go:38-91 | Only owned resources go, disks only on request and never in a pass that listed an attachment or guarded VM; not pending means nothing owned is left; every free target is accepted; where deletes act at once the result is exact |
| Workload.WorkloadResourceService.DeleteOwned | internal/cloud/workload.go:102-114 | Every owned resource of the kind nothing refers to is gone or going; conflicts are left for the next pass |
| Workload.WorkloadResourceService.CleanupUntilDone | internal/cloud/workload.go:38-91 | Pass after pass always ends, within one more pass than there are targets; three passes, two without disks, where deletes act at once; only owned resources ever go |
| Workload.PassProgress | internal/cloud/workload.go:32-37 | With referrers owned, a pending pass leaves strictly fewer targets |
| Workload.SomeDeletable | internal/cloud/workload.go:32-37 | While targets remain, one of them is free |
| Workload.TwoPassesSuffice | internal/cloud/workload.go:38-91 | Two passes empty everything for any number of resources, one when disks are retained |
| ClusterWebhook.EvrocClusterValidator.ValidateUpdate | api/v1beta1/evroccluster_webhook.go:81-215 | Accepts exactly the updates that keep what is immutable and are well formed |
| ClusterWebhook.EvrocClusterValidator.ValidateEvrocCluster | api/v1beta1/evroccluster_webhook.go:223-477 | Accepts exactly the well-formed specifications |
| ClusterWebhook.EvrocClusterValidator.ValidateDomains | api/v1beta1/evroccluster_webhook.go:325-361 | The seen-map loop accepts exactly non-empty lists of distinct zones a, b, c |
| ClusterWebhook.EvrocClusterValidator.ValidateGroups | api/v1beta1/evroccluster_webhook.go:408-464 | The seen-map over three sections accepts exactly pairwise distinct names with fitting derived names and valid rules |
| ClusterWebhook.EvrocClusterValidator.ValidateEndpoints | api/v1beta1/evroccluster_webhook.go:260-322 | Override URLs, issuer suffix, both-or-neither endpoint and policy values |
| ClusterWebhook.EvrocClusterValidator.ForbidScalarChanges | api/v1beta1/evroccluster_webhook.go:99-183 | Accepts exactly changes that keep every scalar immutable |
| ClusterWebhook.EvrocClusterValidator.ForbidSubnetChanges | api/v1beta1/evroccluster_webhook.go:125-133 | Subnet entries only ever get more |
| ClusterWebhook.EvrocClusterValidator.ForbidDomainRemoval | api/v1beta1/evroccluster_webhook.go:185-198 | Failure domains only ever get more |
| ClusterWebhook.EvrocClusterValidator.ValidateRule | api/v1beta1/evroccluster_webhook.go:481-505 | Accepts exactly consistent rules |
| ClusterWebhook.EvrocClusterValidator.ValidateLabels | api/v1beta1/evroccluster_webhook.go:512-531 | Accepts exactly labels the cloud takes |
| ClusterWebhook.Default | api/v1beta1/evroccluster_webhook.go:41-64 | Fills region and failure domains where empty, nothing else |
| ClusterWebhook.HistoryInvariant | api/v1beta1/evroccluster_webhook.go:81-215 | Any two points of a history of accepted updates relate as one accepted update does |
| ClusterWebhook.EndpointChangesOnce | api/v1beta1/evroccluster_webhook.go:163-173 | Over any history the endpoint changes at most once, and only by being set |
| ClusterWebhook.DomainsChangeTwice | api/v1beta1/evroccluster_webhook.go:185-198 | Over any history the set of failure domains changes at most twice |
| ClusterWebhook.DerivedNamesFit | api/v1beta1/evroccluster_webhook.go:376-386 | Load balancer and inline group names of an accepted cluster fit in 63 characters |
| ClusterWebhook.PartNameFitsIff | api/v1beta1/evroccluster_webhook.go:376-386 | A load balancer part's longer name fits if and only if the cluster's name leaves room for its suffix |
| ClusterWebhook.LongNamesOverflow | api/v1beta1/evroccluster_webhook.go:376-386 | An accepted name whose load balancer route name is too long |
| MachineWebhook.EvrocMachineValidator.ValidateUpdate | api/v1beta1/evrocmachine_webhook.go:104-169 | Accepts exactly updates that keep project, region, profile, image and disk size and are well formed |
| MachineWebhook.EvrocMachineValidator.ValidateEvrocMachine | api/v1beta1/evrocmachine_webhook.go:178-351 | Accepts exactly the well-formed machines |
| MachineWebhook.EvrocMachineValidator.ValidateDisks | api/v1beta1/evrocmachine_webhook.go:267-289 | The seen-map loop accepts exactly distinct, fitting disk names with acceptable images |
| MachineWebhook.EvrocMachineValidator.ValidateMachineGroups | api/v1beta1/evrocmachine_webhook.go:292-326 | Inline and existing names are pairwise distinct and fit |
| MachineWebhook.Default | api/v1beta1/evrocmachine_webhook.go:50-83 | Never leaves a machine without security groups, and keeps those it has |
| MachineWebhook.DisksDistinctIff | api/v1beta1/evrocmachine_webhook.go:267-289 | An admitted machine's VM names no disk twice if and only if no data disk is called boot-disk |
| MachineWebhook.MachineNamesFit | api/v1beta1/evrocmachine_webhook.go:239-248 | Every name derived from an admitted machine fits in 63 characters |
| SecurityGroups.SecurityGroupReconciler.ReconcileSecurityGroups | internal/controller/evroccluster_controller.go:376-449 | Status becomes exactly the desired list or stays; success means every listed group is there and every stale managed one is gone or going; external groups are never deleted |
| SecurityGroups.SecurityGroupReconciler.ReconcileSection | internal/controller/evroccluster_controller.go:452-510 | A section yields its inline groups as managed and its existing ones as external, all seen in the cloud |
| SecurityGroups.SecurityGroupReconciler.EnsureInline | internal/controller/evroccluster_controller.go:468-498 | Afterwards the group exists with exactly the wanted rules |
| SecurityGroups.SecurityGroupReconciler.DeleteStale | internal/controller/evroccluster_controller.go:515-542 | Only tracked managed groups no longer wanted are deleted, and success means each is gone or going |
| SecurityGroups.NamesForRole | internal/controller/evroccluster_controller.go:604-621 | The groups of one role: common ones and its own, in status order |
| SecurityGroups.OverlapIsCommonIff | internal/controller/evroccluster_controller.go:601-621 | The two roles share exactly the common groups if and only if no other group is listed for both |
| SecurityGroups.AdmittedRolesOverlap | internal/controller/evroccluster_controller.go:601-621 | For an admitted specification whose existing groups bear no derived name, the roles share exactly the common groups |
| VirtualMachines.SecurityGroupsEqual | internal/cloud/virtualmachine.go:143-160 | The map comparison: equal length and inclusion one way |
| VirtualMachines.DistinctListsCompare | internal/cloud/virtualmachine.go:143-160 | For lists without repeats that is equality of the sets |
| VirtualMachines.ComparisonCorrectIff | internal/cloud/virtualmachine.go:143-160 | It judges every membership correctly if and only if the desired list names no group twice |
| VirtualMachines.RepeatHidesStaleGroup | internal/cloud/virtualmachine.go:143-160 | A repeated desired name hides a group that must be detached |
| VirtualMachines.VirtualMachineService.UpdateSecurityGroups | internal/cloud/virtualmachine.go:84-140 | One patch, carrying the desired list and nothing else, exactly when the comparison with the reported active memberships fails; none otherwise |
| Zones.LeastUsedZone | internal/controller/evrocmachine_controller.go:972-986 | The first zone no other undercuts |
| Zones.PickZoneForMachine | internal/controller/evrocmachine_controller.go:933-967 | Least used over the other machines' assigned zones |
| Zones.ExactShares | internal/controller/evrocmachine_controller.go:929-932 | After n sequential picks over k distinct zones, zone i has (n+k-1-i)/k machines |
| Zones.PickKeepsSpread | internal/controller/evrocmachine_controller.go:972-986 | A pick never raises the spread above the old one, or one |
| Zones.StaleRunBalanced | internal/controller/evrocmachine_controller.go:944-966 | If every pick misses at most d assignments, zones never differ by more than d+1 |
| Zones.StaleBoundIsTight | internal/controller/controller_options.go:6 | That bound is attained |
| Images.ValidateImage | api/v1beta1/evrocmachine_webhook.go:357-389 | Accepts exactly shorthands with a valid name, stock names, and references in the machine's scope |
| Images.ParseRefSound | api/v1beta1/evrocmachine_webhook.go:30 | What the reference pattern matches is the text of the reference it yields, with slash-free parts |
| Images.ParseRefComplete | api/v1beta1/evrocmachine_webhook.go:30 | Every well-formed reference is matched as itself |
| Images.ReadersAgree | internal/controller/evrocmachine_controller.go:274-276 | Admission, reconciler and disk service take every accepted image for the same kind |
| Images.CustomResolvesInScopeIff | internal/cloud/client.go:113-123 | An accepted custom image resolves in the cluster's project and region if and only if those are single path segments |
| Images.KindsApart | internal/diskimage/image.go:11-13 | A custom reference is neither a shorthand nor a stock name |
| MachineProvisioning.Provisioner.Provision | internal/controller/evrocmachine_controller.go:368-471 | The VM is submitted at most once, and only when every disk it names is ready, its own address is allocated, and placement group and inline groups exist; all disks are in the machine's zone; undisturbed, it creates the VM or gets closer |
| MachineController.MachineReconciler.ReconcileUndisturbed | internal/controller/evrocmachine_controller.go:87-471 | From an unrecorded machine on, with a fresh cache, nothing failing or interfering and the cloud readying things between reconciles, the VM exists after at most five reconciles, however many data disks there are |
| MachineProvisioning.Provisioner.EnsureDataDisks | internal/controller/evrocmachine_controller.go:1637-1675 | All data disks are created in one pass; the gate opens only when all are ready, and then nothing was created |
| MachineProvisioning.Provisioner.ReconcileAdditionalDisks | internal/controller/evrocmachine_controller.go:1610-1697 | As above, then only tracked managed disks no longer wanted are deleted |
| MachineProvisioning.Provisioner.EnsureBootDisk | internal/controller/evrocmachine_controller.go:368-404 | The boot disk is created once, in the zone, and waited for |
| MachineProvisioning.Provisioner.ReconcilePublicIPCreation | internal/controller/evrocmachine_controller.go:1509-1587 | A named address must exist, an own one must have an address before the gate opens |
| MachineProvisioning.Provisioner.ReconcilePlacementGroup | internal/controller/evrocmachine_controller.go:1589-1608 | A referenced placement group must exist |
| MachineProvisioning.Provisioner.EnsureGroups | internal/controller/evrocmachine_controller.go:1274-1322 | Every inline group exists before the VM is submitted |
| MachineProvisioning.Provisioner.ReachVM | internal/controller/evrocmachine_controller.go:368-457 | The gates in order; open exactly when nothing was missing |
| MachineTeardown.Teardown.DeleteMachineFromCloud | internal/controller/evrocmachine_controller.go:611-713 | No disk, address or group is deleted while the VM is there; once it is gone all three kinds are listed and every name tried, whatever fails; only owned resources go; finished means all are gone or going and the pool let go of the machine |
| MachineTeardown.Teardown.DeleteDependents | internal/controller/evrocmachine_controller.go:659-711 | All three kinds are tried even if one fails, and no failure means everything owned is gone or going |
| MachineTeardown.Teardown.Deregister | internal/controller/evrocmachine_controller.go:623-642 | A control plane machine of a managed endpoint is out of the pool unless a failure is reported |
| MachineController.MachineReconciler.Reconcile | internal/controller/evrocmachine_controller.go:87-166 | Keeps the invariant; paused or unrecorded, no cloud call; a VM is asked for at most once, from a recorded version, in its zone, with every gate open; VM first on deletion; the finalizer goes only when the VM is gone, everything owned is going and the pool let go; undisturbed, the VM is there or fewer steps remain |
| MachineController.MachineReconciler.AssignZone | internal/controller/evrocmachine_controller.go:901-928 | Only a write of the zone that landed lets the reconcile go on, with the owner's zone or the least used one |
| MachineController.MachineReconciler.ReconcileNormal | internal/controller/evrocmachine_controller.go:278-471 | From a recorded version on, whatever is made is in the stored zone and carries the machine's ID, and the VM is asked for only with every gate open |
| MachineController.MachineReconciler.RegisterBackend | internal/controller/evrocmachine_controller.go:1385-1417 | A control plane machine ends up in the pool of exactly the load balancer name the cluster controller uses |
| MachineController.MachineReconciler.HasCustomImage | internal/controller/evrocmachine_controller.go:279-288 | Whether any disk of the machine uses a custom image |
| MachineController.WrittenOnce | internal/controller/evrocmachine_controller.go:319-326 | Any version that has a zone or an ID agrees with every later version |
| MachineController.FinishedLeavesNothing | internal/controller/evrocmachine_controller.go:644-713 | When deletion reports finished, everything the controller made is going |
| MachineController.NoOrphans | internal/controller/helpers/finalizer.go:40-66 | A gone machine leaves only resources that are being deleted |

## Left out

- ClusterLife.Live: moves are atomic and between reconciles; a controller that reads its own past after a leader change is not modelled.
- MachineLife.Live: runs have no move, because a move drops the status that holds the zone and the controller then picks one anew.
- MachineController.MachineReconciler.ReconcileUndisturbed: conflicts and stale reads at the API server are excluded, as each costs one more reconcile; no data disk may be due for deletion.
- ClusterLife.Step: between two calls of one reconcile other programs only finish deletes and make things ready; their creates and deletes happen between reconciles.
- Images.ChooseImage: provisioning stores the image text as the machine gives it; that the disk service chooses by this function is not part of what a disk's creation states.
- MachineProvisioning.Provisioner.Provision: the claim about the boot disk needs that no data disk being dropped bears its name; terminal disk error conditions, which only turn waiting into failing, are not modelled.
- MachineController.MachineReconciler.Reconcile: says that what is left is going, not gone, as the code does not look again.
- SecurityGroups.SecurityGroupReconciler.EnsureInline: rules are stored as given; the conversion to API rules, which differs between create and update for remote groups, is not modelled.
- ClusterWebhook.EvrocClusterValidator.ValidateEndpoints: URL parsing is a parameter of the validator; warnings and messages are not modelled.
- LoadBalancers.LoadBalancerService.Create: the wait for the address is one call that may fail, not a timed loop.
- What the existing-VM path does beyond joining the load balancer's pool: drift repair of disks, address, placement and groups, provider ID, node patching and taints.
- Credentials, their copy and client construction: a reconcile is told whether they resolved.
- Conditions, events, logging, metrics and requeue intervals: only ready and paused are kept of the status conditions.
- The status mirror of network and failure domains, and the annotation that makes machines re-sync their groups.
- cloud-init merging, SSH keys, bootstrap secrets: whether bootstrap data is there is an input.
- Watches, map functions, controller setup and the SDK's HTTP layer.
- Error classification for conditions and the endpoint getters: settled by reading one branch.
