/** The EvrocMachine reconciler (internal/controller/evrocmachine_controller.go):
    ownership and zone are written down first, everything is created in that zone,
    and deletion lets go of the object only when nothing is left that stays. */
module MachineController {
  import opened Prelude
  import opened CloudApi
  import opened OwnershipLabels
  import opened LoadBalancers
  import opened Api
  import opened ClusterWebhook
  import opened Kube
  import opened Ownership
  import opened SecurityGroups
  import opened Zones
  import opened Images
  import opened MachineProvisioning
  import opened MachineTeardown

  function ZoneOf(o: Object): string
    requires o.body.Machine?
  {
    o.body.machineStatus.zone
  }

  // ---- What the controller's own resources have in common ----

  predicate Stamped(v: Object, k: Key, r: Resource)
    requires v.body.Machine?
  {
    && OwnerID(v) != ""
    && (match k.kind
        case VM => k == VMKey(v.meta.name) && r.spec.VMSpec? && r.spec.zone == ZoneOf(v) != ""
        case Disk => r.spec.DiskSpec? && r.spec.zone == ZoneOf(v) != "" && Selects(OwnerSelector(MACHINE_ID, OwnerID(v)), r.labels)
        case IP => Selects(OwnerSelector(MACHINE_ID, OwnerID(v)), r.labels)
        case SG => Selects(OwnerSelector(MACHINE_ID, OwnerID(v)), r.labels)
        case _ => false)
  }

  /** The VM and every disk this machine's controller created are in the machine's
      one zone, and everything but the VM answers to its ownership ID. */
  ghost predicate Branded(res: map<Key, Resource>, v: Object)
    requires v.body.Machine?
  {
    forall k <- res :: res[k].creator == MachineController ==> Stamped(v, k, res[k])
  }

  /** Something the controller created is there to stay. */
  ghost predicate Staying(s: State) {
    exists k <- s.res :: s.res[k].creator == MachineController && k !in s.dying
  }

  /** What every run of a machine keeps. */
  ghost predicate Inv(r: Record, s: State) {
    && Sound(r) && Last(r).body.Machine?
    && (Staying(s) ==> !r.gone && Marked(Last(r)) && OwnerID(Last(r)) != "")
    && Branded(s.res, Last(r))
  }

  lemma NoOrphans(r: Record, s: State)
    requires Inv(r, s) && r.gone
    ensures forall k <- s.res :: s.res[k].creator == MachineController ==> k in s.dying
  {
    assert !Staying(s);
  }

  /** Zone and ownership ID are each written at most once: any version that has
      one agrees with every later version. */
  lemma WrittenOnce(r: Record, i: nat, j: nat)
    requires Sound(r) && i <= j < |r.versions| && r.versions[i].body.Machine?
    ensures r.versions[j].body.Machine?
    ensures ZoneOf(r.versions[i]) != "" ==> ZoneOf(r.versions[j]) == ZoneOf(r.versions[i])
    ensures OwnerID(r.versions[i]) != "" ==> OwnerID(r.versions[j]) == OwnerID(r.versions[i])
  {
    assert Follows(r.versions[i], r.versions[j]);
  }

  lemma BrandFollows(res: map<Key, Resource>, a: Object, b: Object)
    requires a.body.Machine? && Branded(res, a) && Follows(a, b)
    ensures b.body.Machine? && Branded(res, b)
  {}

  lemma InvElapsed(a: Record, b: Record, s: State)
    requires Inv(a, s) && Elapsed(a, b)
    ensures Inv(b, s)
  {
    assert Follows(b.versions[|a.versions| - 1], b.versions[|b.versions| - 1]);
    BrandFollows(s.res, Last(a), Last(b));
  }

  lemma InvKept(a: Record, b: Record, s: State)
    requires Inv(a, s) && Kept(a, b)
    ensures Inv(b, s)
  {
    assert Follows(b.versions[|a.versions| - 1], b.versions[|b.versions| - 1]);
    BrandFollows(s.res, Last(a), Last(b));
  }

  function LabelsOf(v: Object, cluster: Object): Labels
    requires v.body.Machine? && cluster.body.Cluster?
  {
    MachineLabels(v.meta.name, OwnerID(v), Lookup(v.meta.labels, CLUSTER_NAME_LABEL), OwnerID(cluster),
                  [cluster.body.cluster.labels, v.body.machine.labels])
  }

  lemma LabelsAnswer(v: Object, cluster: Object)
    requires v.body.Machine? && cluster.body.Cluster?
    ensures Selects(OwnerSelector(MACHINE_ID, OwnerID(v)), LabelsOf(v, cluster))
  {
    MachineOwnerAlwaysWins(v.meta.name, OwnerID(v), Lookup(v.meta.labels, CLUSTER_NAME_LABEL), OwnerID(cluster),
                           [cluster.body.cluster.labels, v.body.machine.labels], OwnerID(v));
  }

  lemma ServedBranded(a: State, b: State, marked: set<Key>, labels: Labels, v: Object)
    requires v.body.Machine? && Branded(a.res, v) && Served(a, b, marked, labels, ZoneOf(v))
    requires OwnerID(v) != "" && ZoneOf(v) != "" && Selects(OwnerSelector(MACHINE_ID, OwnerID(v)), labels)
    ensures Branded(b.res, v)
  {
    forall k <- b.res | b.res[k].creator == MachineController ensures Stamped(v, k, b.res[k]) {
      if k in a.res && b.res[k].labels == a.res[k].labels && b.res[k].creator == a.res[k].creator
         && (k.kind != SG ==> b.res[k].spec == a.res[k].spec) {
        assert Stamped(v, k, a.res[k]);
      }
    }
  }

  lemma VMBranded(a: State, b: State, v: Object, vm: Resource)
    requires v.body.Machine? && Branded(a.res, v) && Grows(a, b, map[VMKey(v.meta.name) := vm])
    requires OwnerID(v) != "" && vm.spec.VMSpec? && vm.spec.zone == ZoneOf(v) != ""
    ensures Branded(b.res, v)
  {}

  lemma WanesBranded(a: State, b: State, marked: set<Key>, v: Object)
    requires v.body.Machine? && Branded(a.res, v) && Wanes(a, b, marked)
    ensures Branded(b.res, v) && (Staying(b) ==> Staying(a))
  {
    forall k <- b.res | b.res[k].creator == MachineController ensures Stamped(v, k, b.res[k]) && Stamped(v, k, a.res[k]) {}
  }

  /** When deletion reports finished, whatever the controller made is going. */
  lemma FinishedLeavesNothing(s: State, v: Object)
    requires v.body.Machine? && Branded(s.res, v) && VMKey(v.meta.name) !in s.res
    requires forall kind <- OWNED_KINDS :: AllGoing(s, kind, OwnerID(v))
    ensures !Staying(s)
  {
    assert OWNED_KINDS[0] == SG && OWNED_KINDS[1] == IP && OWNED_KINDS[2] == Disk;
    forall k <- s.res | s.res[k].creator == MachineController ensures k in s.dying {
      assert Stamped(v, k, s.res[k]);
      assert k.kind in OWNED_KINDS;
      assert AllGoing(s, k.kind, OwnerID(v));
    }
  }

  // ---- Reconcile ----

  /** What one reconcile finds outside its own object and the cloud. */
  datatype World = World(
    owner: OwnerRead, cluster: ClusterRead, clusterAgain: ClusterRead, credentials: bool,
    ownerMachine: bool, failureDomain: string, peers: seq<Peer>, bootstrapped: bool)

  predicate WellTyped(w: World) {
    && (w.cluster.ClusterFound? ==> w.cluster.cluster.body.Cluster?)
    && (w.clusterAgain.ClusterFound? ==> w.clusterAgain.cluster.body.Cluster?)
  }

  datatype Result = Done | Requeue | Errored

  /** Where a machine without a zone goes: where its owner says, else where the
      fewest of the cluster's other machines are. */
  predicate ZoneChoice(world: World, cluster: Object, name: string, zone: string)
    requires cluster.body.Cluster?
  {
    if world.failureDomain != "" then zone == world.failureDomain
    else Picks(cluster.body.cluster.failureDomains, Zones.Others(world.peers, name), zone)
  }

  // ---- What a VM's creation waits for ----

  /** A creation of this machine's VM, asked for in a pass that began in `s0`: in the
      machine's zone, and only when all it depends on was there and ready. */
  ghost predicate GatedBirth(s0: State, birth: Birth, v: Object)
    requires v.body.Machine?
  {
    var name, spec, vm := v.meta.name, v.body.machine, birth.resource.spec;
    && birth.key == VMKey(name) && birth.resource.creator == MachineController && vm.VMSpec?
    && vm.disks == BootDisks(name, spec) + DataDisks(name, spec.disks)
    && vm.publicIP == PublicIPRef(name, spec) && vm.placement == spec.placement
    && (spec.groups.Some? ==> forall g <- MachineProvisioning.InlineNames(name, spec.groups.value.inlined) :: g in vm.groups)
    && vm.zone != "" && TextSetOnce(ZoneOf(v), vm.zone)
    && (Apart(name, spec, StaleDisks(name, spec, v.body.machineStatus.disks)) ==> Gates(s0, birth.at, name, spec))
  }

  /** From log `a` to log `b` of creations at most one was asked for, and that one gated. */
  ghost predicate Gated(a: seq<Birth>, b: seq<Birth>, s0: State, v: Object)
    requires v.body.Machine?
  {
    b == a || (|b| == |a| + 1 && b[..|a|] == a && GatedBirth(s0, b[|a|], v))
  }

  lemma GatedEarlier(a: seq<Birth>, b: seq<Birth>, s0: State, s1: State, v: Object)
    requires v.body.Machine? && Gated(a, b, s1, v) && Shed(s0, s1, {})
    ensures Gated(a, b, s0, v)
  {}

  /** `w` is `v` with a zone, if it had none before. */
  predicate Zoned(v: Object, w: Object)
    requires v.body.Machine?
  {
    && w.body.Machine? && w.meta == v.meta && w.body.machine == v.body.machine
    && TextSetOnce(ZoneOf(v), ZoneOf(w)) && w.body.machineStatus.disks == v.body.machineStatus.disks
  }

  lemma GatedVersion(a: seq<Birth>, b: seq<Birth>, s0: State, w: Object, v: Object)
    requires v.body.Machine? && Zoned(v, w) && Gated(a, b, s0, w)
    ensures Gated(a, b, s0, v)
  {}

  lemma Requested(s0: State, before: State, v: Object, inherited: seq<string>, labels: Labels)
    requires v.body.Machine? && ZoneOf(v) != ""
    requires Apart(v.meta.name, v.body.machine, StaleDisks(v.meta.name, v.body.machine, v.body.machineStatus.disks)) ==>
      Gates(s0, before, v.meta.name, v.body.machine)
    ensures GatedBirth(s0, Birth(VMKey(v.meta.name), RequestedResource(v.meta.name, v.body.machine, ZoneOf(v), inherited, labels), before), v)
  {}

  /** A pass towards the VM keeps what every run keeps, and asks for it gated. */
  lemma Built(s0: State, before: State, s: State, b0: seq<Birth>, b: seq<Birth>, v: Object, labels: Labels, vmLabels: Labels, inherited: seq<string>,
              submitted: bool)
    requires v.body.Machine? && ZoneOf(v) != "" && OwnerID(v) != "" && Branded(s0.res, v)
    requires Selects(OwnerSelector(MACHINE_ID, OwnerID(v)), labels)
    requires Served(s0, before, StaleDisks(v.meta.name, v.body.machine, v.body.machineStatus.disks), labels, ZoneOf(v))
    requires var vm := RequestedResource(v.meta.name, v.body.machine, ZoneOf(v), inherited, vmLabels);
      if submitted then Grows(before, s, map[VMKey(v.meta.name) := vm]) && b == b0 + [Birth(VMKey(v.meta.name), vm, before)]
      else before == s && b == b0
    requires submitted && Apart(v.meta.name, v.body.machine, StaleDisks(v.meta.name, v.body.machine, v.body.machineStatus.disks)) ==>
      Gates(s0, before, v.meta.name, v.body.machine)
    ensures Branded(s.res, v) && Gated(b0, b, s0, v)
    ensures Lossless(s0, s, StaleDisks(v.meta.name, v.body.machine, v.body.machineStatus.disks))
  {
    var stale := StaleDisks(v.meta.name, v.body.machine, v.body.machineStatus.disks);
    ServedBranded(s0, before, stale, labels, v);
    if submitted {
      VMBranded(before, s, v, RequestedResource(v.meta.name, v.body.machine, ZoneOf(v), inherited, vmLabels));
      Requested(s0, before, v, inherited, vmLabels);
    }
    LosslessBuild(s0, before, s, stale, labels, ZoneOf(v));
  }

  // ---- Progress ----

  predicate UsesCustomImage(spec: MachineSpec) {
    IsCustomDiskImage(spec.image) || exists d <- spec.disks :: d.image.Some? && IsCustomDiskImage(d.image.value)
  }

  predicate Choosable(world: World, cluster: Object, meta: Meta)
    requires cluster.body.Cluster?
  {
    var domains := cluster.body.cluster.failureDomains;
    world.failureDomain != "" || (domains != [] && "" !in domains && Lookup(meta.labels, CLUSTER_NAME_LABEL) != "")
  }

  /** Nothing outside the machine and the cloud keeps its VM from being created. */
  predicate Favourable(world: World, o: Object)
    requires o.body.Machine?
  {
    && WellTyped(world) && !IsPaused(o.meta, world.owner) && !o.meta.deleting
    && world.cluster.ClusterFound? && world.credentials && world.ownerMachine && world.bootstrapped
    && (ZoneOf(o) != "" || Choosable(world, world.cluster.cluster, o.meta))
    && (UsesCustomImage(o.body.machine) ==>
          && o.body.machine.project == world.cluster.cluster.body.cluster.project
          && o.body.machine.region == world.cluster.cluster.body.cluster.region)
  }

  /** A later state of the same machine, as far as it matters to its provisioning. */
  predicate Onward(a: Object, b: Object)
    requires a.body.Machine?
  {
    && b.body.Machine? && b.body.machine == a.body.machine
    && b.meta.name == a.meta.name && b.meta.labels == a.meta.labels && b.meta.deleting == a.meta.deleting
    && (PAUSED_ANNOTATION in b.meta.annotations <==> PAUSED_ANNOTATION in a.meta.annotations)
    && TextSetOnce(ZoneOf(a), ZoneOf(b))
  }

  lemma StillFavourable(world: World, a: Object, b: Object)
    requires a.body.Machine? && Onward(a, b) && Favourable(world, a)
    ensures Favourable(world, b)
  {}

  ghost predicate Unstale(v: Object)
    requires v.body.Machine?
  {
    StaleDisks(v.meta.name, v.body.machine, v.body.machineStatus.disks) == {}
  }

  /** What is to happen before the VM can be there: owner and finalizer recorded, and
      one pass for each gate that creates something. */
  ghost function Todo(o: Object, s: State): nat
    requires o.body.Machine?
  {
    (if Creatable(o) then 0 else 1) + Lacking(s, o.meta.name, o.body.machine)
  }

  /** The machine and the cloud between two reconciles on the way to the VM. */
  ghost predicate OnTheWay(r: Record, s: State) {
    && r.versions != [] && !r.gone && Last(r).body.Machine? && Unstale(Last(r))
    && s.dying == {} && Borrowed(s, Last(r).meta.name, Last(r).body.machine)
  }

  /** An undisturbed reconcile leaves the VM there, or less to do. */
  ghost predicate Nearer(o: Object, s0: State, r: Record, s: State)
    requires o.body.Machine?
  {
    || VMKey(o.meta.name) in s.res
    || (OnTheWay(r, s) && Onward(o, Last(r)) && Todo(Last(r), s) < Todo(o, s0))
  }

  /** The same from the assigned zone on, for a copy `w`. */
  ghost predicate Closer(w: Object, a: State, b: State, disks: seq<TrackedDisk>)
    requires w.body.Machine?
  {
    var name, spec := w.meta.name, w.body.machine;
    || VMKey(name) in b.res
    || (b.dying == {} && Borrowed(b, name, spec) && Lacking(b, name, spec) < Lacking(a, name, spec) && StaleDisks(name, spec, disks) == {})
  }

  lemma ForwardCloser(w: Object, a: State, before: State, b: State, disks: seq<TrackedDisk>, labels: Labels, progress: Progress)
    requires w.body.Machine? && Ripe(a) && Borrowed(a, w.meta.name, w.body.machine) && Unstale(w) && VMKey(w.meta.name) !in a.res
    requires Forward(a, b, w.meta.name, w.body.machine, progress) && Served(a, before, {}, labels, ZoneOf(w))
    requires !progress.Submitted? ==> before == b
    requires disks == w.body.machineStatus.disks || StaleDisks(w.meta.name, w.body.machine, disks) == {}
    ensures Closer(w, a, b, disks) && (progress.Submitted? ==> progress.error.None?)
  {}

  /** Nothing disturbs a reconcile of the newest version on the way to the VM. */
  ghost predicate Undisturbed(r0: Record, s0: State, at: nat, world: World, faultless: bool, silent: bool) {
    faultless && silent && OnTheWay(r0, s0) && at == |r0.versions| - 1 && Ripe(s0) && Favourable(world, Last(r0))
  }

  /** Nor what is left of it once the zone is assigned to the copy `w`. */
  ghost predicate Smooth(r0: Record, s0: State, now: nat, w: Object, world: World) {
    && w.body.Machine? && !w.meta.deleting && now == |r0.versions| - 1 && !r0.gone && Last(r0).body.Machine?
    && Last(r0).body.machineStatus.disks == w.body.machineStatus.disks && Unstale(w)
    && Ripe(s0) && Borrowed(s0, w.meta.name, w.body.machine) && world.bootstrapped
  }

  /** The VM is there, or the stored machine is `w` but for the disks it tracks, and
      one gate fewer is closed. */
  ghost predicate Stepped(r: Record, w: Object, s0: State, s: State)
    requires w.body.Machine?
  {
    || VMKey(w.meta.name) in s.res
    || (r.versions != [] && !r.gone && Last(r).body.Machine? && Last(r).meta == w.meta && Last(r).body.machine == w.body.machine
        && ZoneOf(Last(r)) == ZoneOf(w) && Closer(w, s0, s, Last(r).body.machineStatus.disks))
  }

  lemma SteppedNearer(v: Object, w: Object, s0: State, r: Record, s: State)
    requires v.body.Machine? && Zoned(v, w) && Creatable(v) && Stepped(r, w, s0, s)
    ensures Nearer(v, s0, r, s)
  {}

  lemma RecordedNearer(r0: Record, s: State, r: Record, next: Object)
    requires OnTheWay(r0, s) && !Creatable(Last(r0)) && !Last(r0).meta.deleting && r.versions != [] && !r.gone && Last(r) == next
    requires next.body.Machine? && Onward(Last(r0), next) && Creatable(next) && Unstale(next)
    ensures Nearer(Last(r0), s, r, s)
  {}

  /** Never empty: control plane, or the deployment's name, or worker. */
  function RoleOf(meta: Meta): (role: string)
    ensures role != ""
  {
    var deployment := Lookup(meta.labels, "cluster.x-k8s.io/deployment-name");
    if CONTROL_PLANE_LABEL in meta.labels then "control-plane" else if deployment == "" then "worker" else deployment
  }

  /** A copy and the version it was read from, or last written as. */
  ghost predicate CopyOf(r: Record, at: nat, c: Object) {
    && at < |r.versions| && r.versions[at].body.Machine? && c.body.Machine?
    && c.meta == r.versions[at].meta && c.body.machine == r.versions[at].body.machine
    && TextSetOnce(ZoneOf(r.versions[at]), ZoneOf(c))
  }

  class MachineReconciler {
    const cloud: Cloud
    const store: Store
    const provisioner: Provisioner
    const teardown: Teardown

    constructor (cloud: Cloud, store: Store)
      ensures this.cloud == cloud && this.store == store && Wired()
    {
      this.cloud, this.store := cloud, store;
      this.provisioner := new Provisioner(cloud);
      this.teardown := new Teardown(cloud);
    }

    ghost predicate Wired() {
      provisioner.cloud == cloud && teardown.cloud == cloud
    }

    /** Custom images need the machine and its cluster in one project and region. */
    method HasCustomImage(spec: MachineSpec) returns (custom: bool)
      ensures custom <==> UsesCustomImage(spec)
    {
      custom := IsCustomDiskImage(spec.image);
      for i := 0 to |spec.disks|
        invariant custom <==> (
          IsCustomDiskImage(spec.image) || exists j | 0 <= j < i :: spec.disks[j].image.Some? && IsCustomDiskImage(spec.disks[j].image.value))
      {
        if spec.disks[i].image.Some? && IsCustomDiskImage(spec.disks[i].image.value) {
          custom := true;
        }
      }
      if custom && !IsCustomDiskImage(spec.image) {
        ghost var j :| 0 <= j < |spec.disks| && spec.disks[j].image.Some? && IsCustomDiskImage(spec.disks[j].image.value);
        assert spec.disks[j] in spec.disks;
      }
    }

    /** Writes the copy's status under optimistic locking. */
    method PersistStatus(machine: EvrocMachine, at: nat) returns (error: Option<ApiError>)
      requires Inv(store.r, cloud.s) && CopyOf(store.r, at, machine.Value())
      modifies store
      ensures Inv(store.r, cloud.s) && Kept(old(store.r), store.r)
      ensures error.None? ==> Last(store.r) == machine.Value() && (!machine.meta.deleting ==> !store.r.gone)
      ensures store.noise >= old(store.noise)
      ensures store.noise == old(store.noise) && at == |old(store.r).versions| - 1 && !old(store.r).gone ==> error.None?
    {
      ghost var r0 := store.r;
      error := store.UpdateStatus(at, machine.Value());
      InvKept(r0, store.r, cloud.s);
    }

    method ChooseZone(machine: EvrocMachine, cluster: Object, world: World) returns (zone: string)
      requires cluster.body.Cluster?
      ensures zone != "" ==> ZoneChoice(world, cluster, machine.meta.name, zone)
      ensures Choosable(world, cluster, machine.meta) ==> zone != ""
    {
      zone := world.failureDomain;
      if zone == "" {
        zone := PickZoneForMachine(cluster.body.cluster.failureDomains, Lookup(machine.meta.labels, CLUSTER_NAME_LABEL),
                                   machine.meta.name, world.peers);
        if Choosable(world, cluster, machine.meta) {
          PickIsLeast(cluster.body.cluster.failureDomains, Zones.Others(world.peers, machine.meta.name), zone);
        }
      }
    }

    /** Assigns the zone once: the owner machine's, else the least used.  Only a
        write that landed lets the reconcile go on. */
    method AssignZone(machine: EvrocMachine, at: nat, cluster: Object, world: World) returns (ok: bool, now: nat)
      requires Inv(store.r, cloud.s) && cluster.body.Cluster? && CopyOf(store.r, at, machine.Value())
      requires ZoneOf(machine.Value()) == ZoneOf(store.r.versions[at]) == ""
      modifies store, machine`status
      ensures Inv(store.r, cloud.s) && Kept(old(store.r), store.r)
      ensures ok ==>
        ZoneOf(machine.Value()) != "" && ZoneOf(Last(store.r)) == ZoneOf(machine.Value()) && CopyOf(store.r, now, machine.Value())
      ensures machine.status == old(machine.status).(zone := machine.status.zone) || !ok
      ensures ok ==> ZoneChoice(world, cluster, machine.meta.name, machine.status.zone)
      ensures ok ==> now == |store.r.versions| - 1 && Last(store.r) == machine.Value() && (!machine.meta.deleting ==> !store.r.gone)
      ensures store.noise >= old(store.noise)
      ensures store.noise == old(store.noise) && at == |old(store.r).versions| - 1 && !old(store.r).gone && Choosable(world, cluster, machine.meta) ==> ok
    {
      ghost var r0 := store.r;
      ElapsedRefl(r0);
      ok, now := false, at;
      var zone := ChooseZone(machine, cluster, world);
      if zone == "" {
        HandleMachineError(machine, at);
      } else {
        ok := StoreZone(machine, at, zone);
        now := |store.r.versions| - 1;
      }
    }

    /** A zone that is there is kept; one that is not is assigned. */
    method EnsureZone(machine: EvrocMachine, at: nat, cluster: Object, world: World) returns (ok: bool, now: nat)
      requires Inv(store.r, cloud.s) && cluster.body.Cluster? && CopyOf(store.r, at, machine.Value())
      requires ZoneOf(machine.Value()) == ZoneOf(store.r.versions[at])
      modifies store, machine`status
      ensures Inv(store.r, cloud.s) && Kept(old(store.r), store.r)
      ensures ok ==>
        ZoneOf(machine.Value()) != "" && ZoneOf(Last(store.r)) == ZoneOf(machine.Value()) && CopyOf(store.r, now, machine.Value())
      ensures ok ==> machine.status == old(machine.status).(zone := machine.status.zone)
      ensures old(machine.status.zone) != "" ==> ok && machine.status == old(machine.status) && store.r == old(store.r)
      ensures store.noise >= old(store.noise)
      ensures store.noise == old(store.noise) && at == |old(store.r).versions| - 1 && !old(store.r).gone && !machine.meta.deleting
              && (old(machine.status.zone) != "" || Choosable(world, cluster, machine.meta)) ==>
        && ok && now == |store.r.versions| - 1 && !store.r.gone
        && (Last(store.r) == machine.Value() || Last(store.r) == Last(old(store.r)))
    {
      if machine.status.zone == "" {
        ok, now := AssignZone(machine, at, cluster, world);
      } else {
        ElapsedRefl(store.r);
        assert Follows(store.r.versions[at], store.r.versions[|store.r.versions| - 1]);
        ok, now := true, at;
      }
    }

    method StoreZone(machine: EvrocMachine, at: nat, zone: string) returns (ok: bool)
      requires Inv(store.r, cloud.s) && CopyOf(store.r, at, machine.Value())
      requires ZoneOf(machine.Value()) == ZoneOf(store.r.versions[at]) == "" && zone != ""
      modifies store, machine`status
      ensures Inv(store.r, cloud.s) && Kept(old(store.r), store.r)
      ensures ok ==> machine.status == old(machine.status).(zone := zone) && Last(store.r) == machine.Value()
      ensures ok && !machine.meta.deleting ==> !store.r.gone
      ensures store.noise >= old(store.noise)
      ensures store.noise == old(store.noise) && at == |old(store.r).versions| - 1 && !old(store.r).gone ==> ok
    {
      ghost var r0 := store.r;
      machine.status := machine.status.(zone := zone);
      var error := PersistStatus(machine, at);
      ok := error.None?;
      if !ok {
        ghost var r1 := store.r;
        HandleMachineError(machine, at);
        KeptTrans(r0, r1, store.r);
      }
    }

    /** Marks the machine not ready; whether that is written matters to no one. */
    method HandleMachineError(machine: EvrocMachine, at: nat)
      requires Inv(store.r, cloud.s) && CopyOf(store.r, at, machine.Value())
      modifies store, machine`status
      ensures Inv(store.r, cloud.s) && Kept(old(store.r), store.r) && store.noise >= old(store.noise)
    {
      machine.status := machine.status.(ready := false);
      var _ := PersistStatus(machine, at);
    }

    /** A control plane machine joins the pool of the load balancer its cluster's
        controller made, under the very name that controller uses. */
    method RegisterBackend(machine: EvrocMachine, cluster: Object) returns (ok: bool)
      requires Wired() && cloud.Valid() && cluster.body.Cluster?
      modifies cloud`s, cloud`calls, cloud`faults, cloud`conflicts
      ensures cloud.Valid() && Wanes(old(cloud.s), cloud.s, {}) && cloud.faults >= old(cloud.faults)
      ensures ok && CONTROL_PLANE_LABEL in machine.meta.labels && ManagesEndpoint(cluster.body.cluster) ==>
        LoadBalancerName(cluster).Some? && Registered(cloud.s, LoadBalancerName(cluster).value, machine.meta.name)
    {
      ghost var s0 := cloud.s;
      WanesSelf(s0, {});
      if CONTROL_PLANE_LABEL !in machine.meta.labels || !ManagesEndpoint(cluster.body.cluster) {
        return true;
      }
      match LoadBalancerName(cluster)
      case None => return false;
      case Some(lb) =>
        var error, view := cloud.Get(PoolKey(lb));
        ghost var s1 := cloud.s;
        ShedWanes(s0, s1, {});
        if error.Some? {
          return false;
        }
        error := cloud.Patch(PoolKey(lb), PoolSpec(view.value.resource.spec.backends + {machine.meta.name}));
        PatchWanes(s1, cloud.s, PoolKey(lb));
        WanesTrans(s0, s1, cloud.s, {});
        ok := error.None?;
    }

    /** Everything from the assigned zone on.  `record` says whether the copy's status
        is to be stored. */
    method Converge(machine: EvrocMachine, cluster: Object, world: World, ghost v: Object) returns (result: Result, record: bool)
      requires Wired() && cloud.Valid() && v.body.Machine? && cluster.body.Cluster? && Branded(cloud.s.res, v)
      requires machine.Value() == v && ZoneOf(v) != "" && OwnerID(v) != ""
      modifies cloud, machine`status
      ensures cloud.Valid() && Branded(cloud.s.res, v) && machine.status.zone == old(machine.status.zone) && cloud.faults >= old(cloud.faults)
      ensures Lossless(old(cloud.s), cloud.s, StaleDisks(v.meta.name, v.body.machine, old(machine.status.disks)))
      ensures Gated(old(cloud.births), cloud.births, old(cloud.s), v)
      // Done means the VM is there and, for a managed control plane, in the pool.
      ensures result.Done? ==> VMKey(v.meta.name) in old(cloud.s).res
      ensures result.Done? && MustLeave(v, cluster).Some? ==>
        Registered(cloud.s, MustLeave(v, cluster).value, v.meta.name)
      ensures cloud.faults == old(cloud.faults) && Ripe(old(cloud.s)) && Borrowed(old(cloud.s), v.meta.name, v.body.machine) && Unstale(v) && world.bootstrapped ==>
        Closer(v, old(cloud.s), cloud.s, machine.status.disks) && (result.Errored? ==> VMKey(v.meta.name) in cloud.s.res)
    {
      ghost var s0, stale := cloud.s, StaleDisks(v.meta.name, v.body.machine, machine.status.disks);
      var error, view := cloud.Get(VMKey(machine.meta.name));
      ghost var s1 := cloud.s;
      ShedWanes(s0, s1, {});
      WanesBranded(s0, s1, {}, v);
      result, record := Errored, false;
      if error.None? {
        result, record := ExistingVM(machine, cluster, view.value.ready, v);
        WanesTrans(s0, s1, cloud.s, {});
      } else if error == Some(NotFound) {
        result := Requeue;
        if world.bootstrapped {
          result, record := Build(machine, cluster, v);
          GatedEarlier(old(cloud.births), cloud.births, s0, s1, v);
          LosslessAfter(s0, s1, cloud.s, stale);
          if Ripe(s0) { StillRipe(s0, s1, v.meta.name, v.body.machine); }
        }
      }
    }

    /** The VM exists: a control plane machine joins the pool once it is ready. */
    method ExistingVM(machine: EvrocMachine, cluster: Object, ready: bool, ghost v: Object) returns (result: Result, record: bool)
      requires Wired() && cloud.Valid() && v.body.Machine? && cluster.body.Cluster? && Branded(cloud.s.res, v) && machine.Value() == v
      modifies cloud`s, cloud`calls, cloud`faults, cloud`conflicts, machine`status
      ensures cloud.Valid() && Branded(cloud.s.res, v) && Wanes(old(cloud.s), cloud.s, {}) && cloud.faults >= old(cloud.faults)
      ensures machine.status == old(machine.status).(ready := machine.status.ready)
      ensures result.Done? && MustLeave(v, cluster).Some? ==> Registered(cloud.s, MustLeave(v, cluster).value, v.meta.name)
    {
      ghost var s1 := cloud.s;
      WanesSelf(s1, {});
      result, record := Requeue, false;
      if ready {
        var ok := RegisterBackend(machine, cluster);
        WanesBranded(s1, cloud.s, {}, v);
        result, record := if ok then Done else Errored, ok;
        if ok {
          machine.status := machine.status.(ready := true);
        }
      }
    }

    /** What a machine takes from its cluster: labels, and the groups of its role. */
    method FromCluster(machine: EvrocMachine, cluster: Object) returns (labels: Labels, inherited: seq<string>, vmLabels: Labels)
      requires cluster.body.Cluster?
      ensures labels == LabelsOf(machine.Value(), cluster)
      ensures inherited == Selected(cluster.body.clusterStatus.groups,
                                    if CONTROL_PLANE_LABEL in machine.meta.labels then CONTROL_PLANE else WORKER)
      ensures VMLabelled(vmLabels, cluster.body.cluster.labels, machine.spec.labels, true, cluster.meta.name, RoleOf(machine.meta))
    {
      labels := LabelsOf(machine.Value(), cluster);
      var isCP := CONTROL_PLANE_LABEL in machine.meta.labels;
      inherited := NamesForRole(cluster.body.clusterStatus.groups, isCP);
      var deployment := Lookup(machine.meta.labels, "cluster.x-k8s.io/deployment-name");
      var role := if isCP then "control-plane" else if deployment == "" then "worker" else deployment;
      vmLabels := MergeLabels(cluster.body.cluster.labels, machine.spec.labels, true, cluster.meta.name, role);
    }

    method Build(machine: EvrocMachine, cluster: Object, ghost v: Object) returns (result: Result, record: bool)
      requires Wired() && cloud.Valid() && v.body.Machine? && cluster.body.Cluster? && Branded(cloud.s.res, v)
      requires machine.Value() == v && ZoneOf(v) != "" && OwnerID(v) != ""
      modifies cloud, machine`status
      ensures cloud.Valid() && Branded(cloud.s.res, v) && machine.status.zone == old(machine.status.zone) && cloud.faults >= old(cloud.faults)
      ensures Lossless(old(cloud.s), cloud.s, StaleDisks(v.meta.name, v.body.machine, old(machine.status.disks)))
      ensures Gated(old(cloud.births), cloud.births, old(cloud.s), v)
      ensures !result.Done?
      ensures cloud.faults == old(cloud.faults) && Ripe(old(cloud.s)) && Borrowed(old(cloud.s), v.meta.name, v.body.machine)
              && Unstale(v) && VMKey(v.meta.name) !in old(cloud.s).res ==>
        Closer(v, old(cloud.s), cloud.s, machine.status.disks) && !result.Errored?
    {
      ghost var s0, f0 := cloud.s, cloud.faults;
      LabelsAnswer(v, cluster);
      var labels, inherited, vmLabels := FromCluster(machine, cluster);
      var progress;
      ghost var before;
      progress, before := provisioner.Provision(machine, labels, vmLabels, inherited);
      Built(s0, before, cloud.s, old(cloud.births), cloud.births, v, labels, vmLabels, inherited, progress.Submitted?);
      if cloud.faults == f0 && Ripe(s0) && Borrowed(s0, v.meta.name, v.body.machine) && Unstale(v) && VMKey(v.meta.name) !in s0.res {
        ForwardCloser(v, s0, before, cloud.s, machine.status.disks, labels, progress);
      }
      result := if progress.Failing? || (progress.Submitted? && progress.error.Some?) then Errored else Requeue;
      record := progress.Waiting? && progress.record;
    }

    /** From a version that shows owner and finalizer: zone first, then the rest in
        that zone. */
    method ReconcileNormal(machine: EvrocMachine, at: nat, v: Object, world: World) returns (result: Result)
      requires Wired() && cloud.Valid() && Inv(store.r, cloud.s) && world.cluster.ClusterFound? && world.cluster.cluster.body.Cluster?
      requires at < |store.r.versions| && store.r.floor <= at && store.r.versions[at] == v && machine.Value() == v && v.body.Machine?
      requires Creatable(v)
      modifies cloud, store, machine`status
      ensures cloud.Valid() && Inv(store.r, cloud.s) && Kept(old(store.r), store.r)
      ensures cloud.faults >= old(cloud.faults) && store.noise >= old(store.noise)
      ensures Lossless(old(cloud.s), cloud.s, StaleDisks(v.meta.name, v.body.machine, v.body.machineStatus.disks))
      ensures Gated(old(cloud.births), cloud.births, old(cloud.s), v)
      ensures Undisturbed(old(store.r), old(cloud.s), at, world, cloud.faults == old(cloud.faults), store.noise == old(store.noise)) ==>
        Nearer(Last(old(store.r)), old(cloud.s), store.r, cloud.s)
    {
      ElapsedRefl(store.r);
      var cluster := world.cluster.cluster;
      var custom := HasCustomImage(machine.spec);
      if custom && (machine.spec.project != cluster.body.cluster.project || machine.spec.region != cluster.body.cluster.region) {
        result := Errored;
      } else if !world.ownerMachine {
        result := Requeue;
      } else {
        machine.status := machine.status.(paused := false);
        result := AssignAndConverge(machine, at, v, world);
      }
    }

    method AssignAndConverge(machine: EvrocMachine, at: nat, v: Object, world: World) returns (result: Result)
      requires Wired() && cloud.Valid() && Inv(store.r, cloud.s) && world.cluster.ClusterFound? && world.cluster.cluster.body.Cluster?
      requires at < |store.r.versions| && store.r.floor <= at && store.r.versions[at] == v && v.body.Machine? && Creatable(v)
      requires machine.meta == v.meta && machine.spec == v.body.machine && machine.status == v.body.machineStatus.(paused := false)
      modifies cloud, store, machine`status
      ensures cloud.Valid() && Inv(store.r, cloud.s) && Kept(old(store.r), store.r)
      ensures cloud.faults >= old(cloud.faults) && store.noise >= old(store.noise)
      ensures Lossless(old(cloud.s), cloud.s, StaleDisks(v.meta.name, v.body.machine, v.body.machineStatus.disks))
      ensures Gated(old(cloud.births), cloud.births, old(cloud.s), v)
      ensures Undisturbed(old(store.r), old(cloud.s), at, world, cloud.faults == old(cloud.faults), store.noise == old(store.noise)) ==>
        Nearer(Last(old(store.r)), old(cloud.s), store.r, cloud.s)
    {
      ghost var r0, s0 := store.r, cloud.s;
      var ok, now := EnsureZone(machine, at, world.cluster.cluster, world);
      ghost var r1, w := store.r, machine.Value();
      result := Errored;
      if ok {
        ZonedBrand(r0, r1, s0.res, at, w);
        result := ReconcileZoned(machine, now, world.cluster.cluster, world, v);
        KeptTrans(r0, r1, store.r);
      }
    }

    /** The zone is stored: what is made from here on is made in it. */
    method ReconcileZoned(machine: EvrocMachine, now: nat, cluster: Object, world: World, ghost v: Object) returns (result: Result)
      requires Wired() && cloud.Valid() && Inv(store.r, cloud.s) && cluster.body.Cluster?
      requires CopyOf(store.r, now, machine.Value()) && ZoneStored(store.r, cloud.s.res, machine.Value())
      requires v.body.Machine? && Zoned(v, machine.Value()) && Creatable(v)
      modifies cloud, store, machine`status
      ensures cloud.Valid() && Inv(store.r, cloud.s) && Kept(old(store.r), store.r)
      ensures cloud.faults >= old(cloud.faults) && store.noise >= old(store.noise)
      ensures Lossless(old(cloud.s), cloud.s, StaleDisks(machine.meta.name, machine.spec, old(machine.status.disks)))
      ensures Gated(old(cloud.births), cloud.births, old(cloud.s), v)
      ensures cloud.faults == old(cloud.faults) && store.noise == old(store.noise)
              && Smooth(old(store.r), old(cloud.s), now, old(machine.Value()), world) ==>
        Nearer(v, old(cloud.s), store.r, cloud.s)
    {
      ghost var r0, s0, f0, n0, w := store.r, cloud.s, cloud.faults, store.noise, machine.Value();
      var record;
      result, record := Converge(machine, cluster, world, w);
      BuiltInv(r0, cloud.s, now, w);
      GatedVersion(old(cloud.births), cloud.births, s0, w, v);
      result := RecordResult(machine, now, result, record);
      if cloud.faults == f0 && store.noise == n0 && Smooth(r0, s0, now, w, world) { SteppedNearer(v, w, s0, store.r, cloud.s); }
    }

    /** A failure marks the machine not ready; otherwise its status is stored if there
        is something in it to store. */
    method RecordResult(machine: EvrocMachine, now: nat, was: Result, record: bool) returns (result: Result)
      requires Inv(store.r, cloud.s) && CopyOf(store.r, now, machine.Value())
      modifies store, machine`status
      ensures Inv(store.r, cloud.s) && Kept(old(store.r), store.r) && store.noise >= old(store.noise)
      ensures store.noise == old(store.noise) && now == |old(store.r).versions| - 1 && !old(store.r).gone && !machine.meta.deleting && !was.Errored? ==>
        !store.r.gone && Last(store.r) == if record then old(machine.Value()) else Last(old(store.r))
    {
      ElapsedRefl(store.r);
      result := was;
      if was.Errored? {
        HandleMachineError(machine, now);
      } else if record {
        var error := PersistStatus(machine, now);
        if error.Some? {
          result := Errored;
        }
      }
    }

    method HandleDeletion(machine: EvrocMachine, at: nat, v: Object, lookup: ClusterRead) returns (result: Result)
      requires Wired() && cloud.Valid() && Inv(store.r, cloud.s) && (lookup.ClusterFound? ==> lookup.cluster.body.Cluster?)
      requires at < |store.r.versions| && at <= store.r.floor && store.r.versions[at] == v && machine.Value() == v && v.body.Machine?
      requires v.meta.deleting
      modifies cloud`s, cloud`calls, cloud`faults, cloud`conflicts, store, machine`meta
      ensures cloud.Valid() && Inv(store.r, cloud.s) && old(store.r).versions <= store.r.versions
      ensures cloud.faults >= old(cloud.faults) && store.noise >= old(store.noise)
      ensures VMFirst(old(cloud.s), cloud.s, v)
      ensures !Marked(v) ==> cloud.s == old(cloud.s) && cloud.calls == old(cloud.calls)
      ensures Kept(old(store.r), store.r) || LetGo(cloud.s, v, lookup)
      ensures result.Done? && Marked(v) ==> !Marked(Last(store.r)) && LetGo(cloud.s, v, lookup)
    {
      ghost var r0, s0 := store.r, cloud.s;
      ElapsedRefl(r0);
      WanesSelf(s0, {VMKey(v.meta.name)});
      if MACHINE_FINALIZER !in machine.meta.finalizers {
        return Done;
      }
      var outcome := teardown.DeleteMachineFromCloud(v, lookup);
      DeletionBranded(r0, s0, cloud.s, v);
      if !outcome.Finished? {
        return if outcome.Pending? then Requeue else Errored;
      }
      FollowLast(r0, at, cloud.s.res);
      FinishedLeavesNothing(cloud.s, Last(r0));
      machine.meta := machine.meta.(finalizers := machine.meta.finalizers - {MACHINE_FINALIZER});
      var error := store.Update(at, machine.Value());
      NothingStaysInv(r0, store.r, cloud.s);
      result := if error.Some? then Errored else Done;
    }

    method ReportOnly(machine: EvrocMachine, at: nat, paused: bool) returns (result: Result)
      requires Inv(store.r, cloud.s) && CopyOf(store.r, at, machine.Value()) && ZoneOf(machine.Value()) == ZoneOf(store.r.versions[at])
      modifies store, machine`status
      ensures Inv(store.r, cloud.s) && Kept(old(store.r), store.r) && store.noise >= old(store.noise)
    {
      if paused {
        machine.status := machine.status.(paused := true);
      }
      var error := PersistStatus(machine, at);
      result := if error.Some? || !paused then Errored else Done;
    }

    method Persist(machine: EvrocMachine, at: nat, v: Object) returns (result: Result)
      requires Inv(store.r, cloud.s) && at < |store.r.versions| && store.r.versions[at] == v && v.body.Machine?
      requires Follows(v, BarStatus(v, machine.Value())) && Marked(machine.Value()) && OwnerID(machine.Value()) != ""
      modifies store
      ensures Inv(store.r, cloud.s) && Kept(old(store.r), store.r) && store.noise >= old(store.noise)
      ensures !result.Done? && (result.Requeue? ==> Marked(Last(store.r)) && OwnerID(Last(store.r)) != "")
      ensures store.noise == old(store.noise) && at == |old(store.r).versions| - 1 && !old(store.r).gone && !machine.meta.deleting ==>
        Last(store.r) == BarStatus(v, machine.Value()) && !store.r.gone
    {
      ghost var r0 := store.r;
      var error := store.Update(at, machine.Value());
      InvKept(r0, store.r, cloud.s);
      result := if error.Some? then Errored else Requeue;
    }

    /** Ownership ID and finalizer first, in one write; only a version that shows
        both goes on. */
    method Proceed(machine: EvrocMachine, at: nat, v: Object, world: World) returns (result: Result)
      requires Wired() && cloud.Valid() && Inv(store.r, cloud.s) && world.cluster.ClusterFound? && world.cluster.cluster.body.Cluster?
      requires at < |store.r.versions| && store.r.floor <= at && store.r.versions[at] == v && machine.Value() == v && v.body.Machine?
      requires !v.meta.deleting
      modifies cloud, store, machine
      ensures cloud.Valid() && Inv(store.r, cloud.s) && Kept(old(store.r), store.r)
      ensures cloud.faults >= old(cloud.faults) && store.noise >= old(store.noise)
      ensures Lossless(old(cloud.s), cloud.s, StaleDisks(v.meta.name, v.body.machine, v.body.machineStatus.disks))
      ensures !Creatable(v) ==> cloud.s == old(cloud.s) && cloud.calls == old(cloud.calls) && cloud.births == old(cloud.births)
      ensures Gated(old(cloud.births), cloud.births, old(cloud.s), v)
      ensures !Creatable(v) && result.Requeue? ==> Marked(Last(store.r)) && OwnerID(Last(store.r)) != ""
      ensures result.Done? ==> Creatable(v)
      ensures Undisturbed(old(store.r), old(cloud.s), at, world, cloud.faults == old(cloud.faults), store.noise == old(store.noise)) ==>
        Nearer(Last(old(store.r)), old(cloud.s), store.r, cloud.s)
    {
      var initialized := EnsureMachineOwnershipID(machine);
      if initialized || MACHINE_FINALIZER !in machine.meta.finalizers {
        result := WriteDown(machine, at, v, world);
      } else {
        result := ReconcileNormal(machine, at, v, world);
      }
    }

    /** The finalizer, unless it is there already, and with it the new ID. */
    method WriteDown(machine: EvrocMachine, at: nat, v: Object, ghost world: World) returns (result: Result)
      requires Inv(store.r, cloud.s) && at < |store.r.versions| && store.r.versions[at] == v && v.body.Machine? && !v.meta.deleting
      requires machine.spec == v.body.machine && machine.status == v.body.machineStatus && OwnerID(machine.Value()) != ""
      requires machine.meta == v.meta || (OwnerID(v) == "" && machine.meta == Annotated(v.meta, MACHINE_OWNERSHIP_ID, OwnerID(machine.Value())))
      requires !Creatable(v)
      modifies store, machine`meta
      ensures Inv(store.r, cloud.s) && Kept(old(store.r), store.r) && store.noise >= old(store.noise)
      ensures !result.Done? && (result.Requeue? ==> Marked(Last(store.r)) && OwnerID(Last(store.r)) != "")
      ensures Undisturbed(old(store.r), cloud.s, at, world, true, store.noise == old(store.noise)) ==>
        Nearer(Last(old(store.r)), cloud.s, store.r, cloud.s)
    {
      ghost var r0, n0 := store.r, store.noise;
      if MACHINE_FINALIZER !in machine.meta.finalizers {
        machine.meta := machine.meta.(finalizers := machine.meta.finalizers + {MACHINE_FINALIZER});
      }
      result := Persist(machine, at, v);
      if Undisturbed(r0, cloud.s, at, world, true, store.noise == n0) {
        RecordedNearer(r0, cloud.s, store.r, BarStatus(v, machine.Value()));
      }
    }

    method ReconcileSeen(world: World, at: nat, v: Object) returns (result: Result)
      requires Wired() && cloud.Valid() && Inv(store.r, cloud.s) && WellTyped(world)
      requires at < |store.r.versions| && at == store.r.floor && store.r.versions[at] == v && v.body.Machine?
      modifies cloud, store
      ensures cloud.Valid() && Inv(store.r, cloud.s) && old(store.r).versions <= store.r.versions
      ensures cloud.faults >= old(cloud.faults) && store.noise >= old(store.noise)
      ensures (IsPaused(v.meta, world.owner) || !(Creatable(v) || (v.meta.deleting && Marked(v)))) ==>
        cloud.s == old(cloud.s) && cloud.calls == old(cloud.calls)
      ensures Spared(old(cloud.s), cloud.s, v)
      ensures Gated(old(cloud.births), cloud.births, old(cloud.s), v)
      ensures !Creatable(v) ==> cloud.births == old(cloud.births)
      ensures Kept(old(store.r), store.r) || (v.meta.deleting && LetGo(cloud.s, v, world.clusterAgain))
      ensures Undisturbed(old(store.r), old(cloud.s), at, world, cloud.faults == old(cloud.faults), store.noise == old(store.noise)) ==>
        Nearer(Last(old(store.r)), old(cloud.s), store.r, cloud.s)
    {
      ElapsedRefl(store.r);
      AllSpared(cloud.s, v);
      var machine := new EvrocMachine(v.meta, v.body.machine, v.body.machineStatus);
      if IsPaused(machine.meta, world.owner) {
        result := ReportOnly(machine, at, true);
      } else if world.cluster.ClusterUnreadable? {
        result := Errored;
      } else if world.cluster.ClusterAbsent? || !world.credentials {
        result := ReportOnly(machine, at, false);
      } else if v.meta.deleting {
        result := HandleDeletion(machine, at, v, world.clusterAgain);
      } else {
        result := Proceed(machine, at, v, world);
      }
    }

    /** A read of the machine, in which only others wrote. */
    method Look() returns (error: Option<ApiError>, at: nat)
      requires Inv(store.r, cloud.s)
      modifies store
      ensures Inv(store.r, cloud.s) && Kept(old(store.r), store.r) && store.noise >= old(store.noise)
      ensures at < |store.r.versions| && store.r.versions[at].body.Machine?
      ensures error.None? ==> at == store.r.floor
      ensures store.noise == old(store.noise) && !old(store.r.gone) ==>
        error.None? && at == |store.r.versions| - 1 && store.r.versions == old(store.r).versions && !store.r.gone
    {
      ghost var r0 := store.r;
      error, at := store.Get();
      InvElapsed(r0, store.r, cloud.s);
      if error.Some? {
        at := |store.r.versions| - 1;
      }
      Looked(r0, store.r, at);
    }

    /** One reconcile of whatever version `v` the cache shows. */
    method Reconcile(world: World) returns (result: Result, ghost v: Object)
      requires Wired() && cloud.Valid() && Inv(store.r, cloud.s) && WellTyped(world)
      modifies cloud, store
      ensures cloud.Valid() && Inv(store.r, cloud.s) && old(store.r).versions <= store.r.versions
      ensures cloud.faults >= old(cloud.faults) && store.noise >= old(store.noise)
      ensures v in store.r.versions && v.body.Machine?
      ensures (IsPaused(v.meta, world.owner) || !(Creatable(v) || (v.meta.deleting && Marked(v)))) ==>
        cloud.s == old(cloud.s) && cloud.calls == old(cloud.calls)
      ensures Spared(old(cloud.s), cloud.s, v)
      // A VM is asked for at most once, and only from a recorded version with every gate open.
      ensures Gated(old(cloud.births), cloud.births, old(cloud.s), v) && (!Creatable(v) ==> cloud.births == old(cloud.births))
      // The finalizer comes off only once everything is let go of.
      ensures Kept(old(store.r), store.r) || (v.meta.deleting && LetGo(cloud.s, v, world.clusterAgain))
      // Short of faults and interference, the VM is there or fewer steps remain.
      ensures cloud.faults == old(cloud.faults) && store.noise == old(store.noise)
              && OnTheWay(old(store.r), old(cloud.s)) && Ripe(old(cloud.s)) && Favourable(world, Last(old(store.r))) ==>
        Nearer(Last(old(store.r)), old(cloud.s), store.r, cloud.s)
    {
      ghost var r0 := store.r;
      var error, at := Look();
      ghost var r1 := store.r;
      v := store.r.versions[at];
      AllSpared(cloud.s, v);
      if error.Some? {
        result := if error == Some(Missing) then Done else Errored;
      } else {
        result := ReconcileSeen(world, at, store.r.versions[at]);
        AfterLook(r0, r1, store.r);
      }
      assert v == store.r.versions[at];
    }

    /** From a machine nobody has written anything down for: with a fresh cache, the
        cluster and the bootstrap data there, nothing failing or interfering, and the
        cloud getting things ready between reconciles, five reconciles are enough for
        the VM, however many data disks it has.  The first writes down owner and
        finalizer, the second the zone, too. */
    method ReconcileUndisturbed(worlds: seq<World>) returns (passes: nat)
      requires Wired() && cloud.Valid() && Inv(store.r, cloud.s) && OnTheWay(store.r, cloud.s)
      requires |worlds| == 5 && forall i | 0 <= i < 5 :: Favourable(worlds[i], Last(store.r))
      modifies cloud, store
      ensures cloud.Valid() && Inv(store.r, cloud.s) && passes <= 5
      ensures cloud.faults == old(cloud.faults) && store.noise == old(store.noise) ==>
        VMKey(Last(old(store.r)).meta.name) in cloud.s.res
    {
      ghost var r0, f0, n0 := store.r, cloud.faults, store.noise;
      var name := Last(store.r).meta.name;
      passes := 0;
      while passes < 5 && VMKey(name) !in cloud.s.res
        invariant cloud.Valid() && Inv(store.r, cloud.s) && passes <= 5 && cloud.faults >= f0 && store.noise >= n0
        invariant cloud.faults == f0 && store.noise == n0 ==> Approaching(r0, store.r, cloud.s, passes)
      {
        ghost var r1, s1 := store.r, cloud.s;
        cloud.Ripen();
        ghost var s2 := cloud.s;
        RipenedInv(r1, s1, s2);
        if cloud.faults == f0 && store.noise == n0 { Approached(r0, r1, s1, s2, worlds[passes], passes); }
        assert Favourable(worlds[passes], Last(r0));
        var _, _ := Reconcile(worlds[passes]);
        if cloud.faults == f0 && store.noise == n0 { ApproachedMore(r0, r1, s1, s2, store.r, cloud.s, passes); }
        passes := passes + 1;
      }
    }
  }

  /** Where an undisturbed machine stands after some reconciles. */
  ghost predicate Approaching(r0: Record, r: Record, s: State, passes: nat)
    requires r0.versions != [] && Last(r0).body.Machine?
  {
    || VMKey(Last(r0).meta.name) in s.res
    || (OnTheWay(r, s) && Onward(Last(r0), Last(r)) && Todo(Last(r), s) + passes <= 4)
  }

  lemma RipenedInv(r: Record, a: State, b: State)
    requires Inv(r, a) && b.dying == {} && b.res == a.res - a.dying
    ensures Inv(r, b)
  {
    assert forall k <- b.res :: k in a.res && b.res[k] == a.res[k];
  }

  lemma Approached(r0: Record, r1: Record, s1: State, s2: State, world: World, passes: nat)
    requires r0.versions != [] && Last(r0).body.Machine? && Favourable(world, Last(r0)) && Approaching(r0, r1, s1, passes)
    requires VMKey(Last(r0).meta.name) !in s1.res && s2.dying == {} && s2.res == s1.res - s1.dying
    ensures OnTheWay(r1, s2) && Favourable(world, Last(r1)) && Todo(Last(r1), s2) == Todo(Last(r1), s1)
  {
    StillFavourable(world, Last(r0), Last(r1));
    assert s2.res == s1.res;
  }

  lemma ApproachedMore(r0: Record, r1: Record, s1: State, s2: State, r: Record, s: State, passes: nat)
    requires r0.versions != [] && Last(r0).body.Machine? && Approaching(r0, r1, s1, passes) && VMKey(Last(r0).meta.name) !in s1.res
    requires OnTheWay(r1, s2) && Todo(Last(r1), s2) == Todo(Last(r1), s1) && Nearer(Last(r1), s2, r, s)
    ensures Approaching(r0, r, s, passes + 1)
  {}

  lemma Looked(a: Record, b: Record, at: nat)
    requires Elapsed(a, b) && Last(b).body.Machine? && at < |b.versions|
    ensures Kept(a, b) && b.versions[at].body.Machine?
  {
    assert Follows(b.versions[at], b.versions[|b.versions| - 1]);
  }

  lemma AfterLook(a: Record, b: Record, c: Record)
    requires Kept(a, b) && b.versions <= c.versions
    ensures a.versions <= c.versions && (Kept(b, c) ==> Kept(a, c))
  {}

  /** As long as the VM is there, nothing but the VM is deleted; then only what
      the machine owns. */
  ghost predicate VMFirst(a: State, b: State, v: Object) {
    Wanes(a, b, {VMKey(v.meta.name)})
    || (VMKey(v.meta.name) !in b.res && Wanes(a, b, Dependents(a.res, OwnerID(v))))
  }

  /** A machine being deleted goes VM first; a live one loses at most data disks it
      no longer has. */
  ghost predicate Spared(a: State, b: State, v: Object)
    requires v.body.Machine?
  {
    if v.meta.deleting then VMFirst(a, b, v)
    else Lossless(a, b, StaleDisks(v.meta.name, v.body.machine, v.body.machineStatus.disks))
  }

  lemma AllSpared(s: State, v: Object)
    requires v.body.Machine? && s.dying <= s.res.Keys
    ensures Spared(s, s, v)
  {
    WanesSelf(s, {VMKey(v.meta.name)});
  }

  /** The VM is gone, everything else the machine owns is going, and the pool it had
      to leave has let go of it. */
  ghost predicate LetGo(s: State, v: Object, lookup: ClusterRead)
    requires lookup.ClusterFound? ==> lookup.cluster.body.Cluster?
  {
    && OwnerID(v) != "" && VMKey(v.meta.name) !in s.res && (forall kind <- OWNED_KINDS :: AllGoing(s, kind, OwnerID(v)))
    && (lookup.ClusterFound? && MustLeave(v, lookup.cluster).Some? ==>
          Deregistered(s, MustLeave(v, lookup.cluster).value, v.meta.name))
  }

  lemma DeletionBranded(r: Record, a: State, b: State, v: Object)
    requires Inv(r, a) && VMFirst(a, b, v)
    ensures Inv(r, b)
  {
    if Wanes(a, b, {VMKey(v.meta.name)}) {
      WanesBranded(a, b, {VMKey(v.meta.name)}, Last(r));
    } else {
      WanesBranded(a, b, Dependents(a.res, OwnerID(v)), Last(r));
    }
  }

  lemma SameBrand(res: map<Key, Resource>, a: Object, b: Object)
    requires a.body.Machine? && b.body.Machine? && Branded(res, a)
    requires a.meta.name == b.meta.name && OwnerID(a) == OwnerID(b) && (ZoneOf(a) != "" ==> ZoneOf(b) == ZoneOf(a))
    ensures Branded(res, b)
  {}

  /** The version a deletion works from names everything by the same owner as the
      newest one; nothing in another zone exists. */
  lemma FollowLast(r: Record, at: nat, res: map<Key, Resource>)
    requires Sound(r) && at < |r.versions| && r.versions[at].body.Machine? && Last(r).body.Machine? && Branded(res, Last(r))
    ensures OwnerID(r.versions[at]) != "" ==>
      OwnerID(Last(r)) == OwnerID(r.versions[at]) && Last(r).meta.name == r.versions[at].meta.name
  {
    assert Follows(r.versions[at], r.versions[|r.versions| - 1]);
  }

  /** A version that may create shows an object that is still held. */
  lemma StillHeld(r: Record, at: nat)
    requires Sound(r) && at < |r.versions| && r.floor <= at && Creatable(r.versions[at])
    ensures !r.gone && Marked(Last(r))
  {}

  /** The stored machine is held by the finalizer, has the copy's zone, and what was
      made is in it. */
  ghost predicate ZoneStored(r: Record, res: map<Key, Resource>, w: Object)
    requires w.body.Machine?
  {
    && r.versions != [] && Last(r).body.Machine? && !r.gone && Marked(Last(r)) && ZoneOf(Last(r)) == ZoneOf(w) != ""
    && OwnerID(w) != "" && Branded(res, w)
  }

  lemma ZonedBrand(a: Record, b: Record, res: map<Key, Resource>, at: nat, w: Object)
    requires Sound(a) && Kept(a, b) && at < |a.versions| && a.floor <= at && a.versions[at].body.Machine? && Creatable(a.versions[at])
    requires Last(b).body.Machine? && Branded(res, Last(b)) && w.body.Machine? && w.meta == a.versions[at].meta
    requires w.body.machine == a.versions[at].body.machine && ZoneOf(Last(b)) == ZoneOf(w) != ""
    ensures ZoneStored(b, res, w)
  {
    StillHeld(a, at);
    assert Follows(b.versions[at], b.versions[|b.versions| - 1]);
    SameBrand(res, Last(b), w);
  }

  lemma BuiltInv(r: Record, s: State, at: nat, w: Object)
    requires Sound(r) && CopyOf(r, at, w) && ZoneStored(r, s.res, w)
    ensures Inv(r, s)
  {
    assert Follows(r.versions[at], r.versions[|r.versions| - 1]);
    SameBrand(s.res, w, Last(r));
  }

  lemma NothingStaysInv(a: Record, b: Record, s: State)
    requires Inv(a, s) && Sound(b) && a.versions <= b.versions && !Staying(s)
    ensures Inv(b, s)
  {
    assert Follows(b.versions[|a.versions| - 1], b.versions[|b.versions| - 1]);
    BrandFollows(s.res, Last(a), Last(b));
  }

  /** Only what was dying or `marked` went away. */
  ghost predicate Lossless(a: State, b: State, marked: set<Key>) {
    forall k <- a.res :: k in b.res || k in a.dying || k in marked
  }

  lemma LosslessAfter(a: State, b: State, c: State, marked: set<Key>)
    requires Wanes(a, b, {}) && Lossless(b, c, marked)
    ensures Lossless(a, c, marked)
  {}

  lemma LosslessBuild(a: State, b: State, c: State, marked: set<Key>, labels: Labels, zone: string)
    requires Served(a, b, marked, labels, zone) && (b == c || exists made :: Grows(b, c, made))
    ensures Lossless(a, c, marked)
  {}

  ghost predicate Registered(s: State, lb: string, vm: string) {
    PoolKey(lb) in s.res && s.res[PoolKey(lb)].spec.PoolSpec? && vm in s.res[PoolKey(lb)].spec.backends
  }
}
