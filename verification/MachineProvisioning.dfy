/** From an assigned zone to a submitted VM (internal/controller/evrocmachine_controller.go,
    reconcileNormal): boot disk, data disks, placement group, public address and
    security groups are each a gate the VM's creation waits behind. */
module MachineProvisioning {
  import opened Prelude
  import opened CloudApi
  import opened OwnershipLabels
  import opened Api
  import opened Kube
  import opened SecurityGroups

  function BootDiskName(machine: string): string { machine + "-boot-disk" }
  function DataDiskName(machine: string, disk: string): string { machine + "-" + disk }
  function PublicIPName(machine: string): string { machine + "-public-ip" }
  function InlineGroupName(machine: string, group: string): string { machine + "-" + group }

  function VMKey(name: string): Key { Key(VM, name) }
  function DiskKey(name: string): Key { Key(Disk, name) }

  // ---- What a machine of this specification needs ----

  function BootDisks(name: string, spec: MachineSpec): seq<string> {
    if spec.rootDiskSize > 0 then [BootDiskName(name)] else []
  }

  function DataDisks(name: string, disks: seq<DataDisk>): seq<string> {
    seq(|disks|, i requires 0 <= i < |disks| => DataDiskName(name, disks[i].name))
  }

  function InlineNames(name: string, groups: seq<InlineGroup>): seq<string> {
    seq(|groups|, i requires 0 <= i < |groups| => InlineGroupName(name, groups[i].name))
  }

  /** The address the VM asks for: a named one, else its own if enabled. */
  function PublicIPRef(name: string, spec: MachineSpec): Option<string> {
    if spec.publicIP.None? then None
    else if spec.publicIP.value.existingID.Some? then spec.publicIP.value.existingID
    else if spec.publicIP.value.enabled then Some(PublicIPName(name)) else None
  }

  function ManagedIP(name: string, spec: MachineSpec): set<Key> {
    if spec.publicIP.Some? && spec.publicIP.value.existingID.None? && spec.publicIP.value.enabled
    then {Key(IP, PublicIPName(name))} else {}
  }

  function GroupRefs(name: string, spec: MachineSpec, inherited: seq<string>): seq<string> {
    if spec.groups.None? then [] else
    (if spec.groups.value.inheritFromCluster then inherited else [])
    + InlineNames(name, spec.groups.value.inlined) + spec.groups.value.existing
  }

  /** The VM the request asks for. */
  function RequestedVM(name: string, spec: MachineSpec, zone: string, inherited: seq<string>): Spec {
    VMSpec(zone, BootDisks(name, spec) + DataDisks(name, spec.disks), PublicIPRef(name, spec),
           GroupRefs(name, spec, inherited), spec.placement)
  }

  function RequestedResource(name: string, spec: MachineSpec, zone: string, inherited: seq<string>, labels: Labels): Resource {
    Resource(RequestedVM(name, spec, zone, inherited), labels, MachineController)
  }

  /** Data disks tracked as managed that the specification no longer has. */
  function StaleDisks(name: string, spec: MachineSpec, tracked: seq<TrackedDisk>): set<Key> {
    set t | t in tracked && t.managed && t.id !in DataDisks(name, spec.disks) :: DiskKey(t.id)
  }

  // ---- Gates ----

  /** Seen ready, and still so unless it was already going when the pass began. */
  ghost predicate ReadyGate(s0: State, s: State, k: Key) {
    k in s0.dying || (k in s.res && k in s.up)
  }

  ghost predicate ThereGate(s0: State, s: State, k: Key) {
    k in s0.dying || k in s.res
  }

  ghost predicate AddressGate(s: State, name: string) {
    name in s.addr && s.addr[name] != ""
  }

  /** Everything the VM depends on: its disks are ready, its own address has been
      allocated, and its placement group and inline groups exist. */
  ghost predicate Gates(s0: State, s: State, name: string, spec: MachineSpec) {
    && (forall d <- BootDisks(name, spec) + DataDisks(name, spec.disks) :: ReadyGate(s0, s, DiskKey(d)))
    && (spec.placement.Some? ==> ThereGate(s0, s, Key(Group, spec.placement.value)))
    && (PublicIPRef(name, spec).Some? ==> ThereGate(s0, s, Key(IP, PublicIPRef(name, spec).value)))
    && (forall k <- ManagedIP(name, spec) :: AddressGate(s, k.name))
    && (spec.groups.Some? ==> forall g <- InlineNames(name, spec.groups.value.inlined) :: ThereGate(s0, s, SGKey(g)))
  }

  /** From `a` to `b` the machine's controller may have added disks (in its zone),
      addresses and groups with its labels, but no VM; what went was dying or in
      `marked`; readiness and addresses were kept. */
  ghost predicate Served(a: State, b: State, marked: set<Key>, labels: Labels, zone: string) {
    && a.up <= a.res.Keys
    && (forall k <- b.res ::
          || (k in a.res && b.res[k].labels == a.res[k].labels && b.res[k].creator == a.res[k].creator
              && (k.kind != SG ==> b.res[k].spec == a.res[k].spec))
          || (b.res[k].creator == MachineController && b.res[k].labels == labels && k.kind in {Disk, IP, SG}
              && (k.kind == Disk ==> b.res[k].spec.DiskSpec? && b.res[k].spec.zone == zone)
              && (k !in a.res || k in a.dying || k in marked)))
    && (forall k <- a.res :: k in b.res || k in a.dying || k in marked)
    && b.dying <= a.dying + marked
    && a.up - a.dying - marked <= b.up <= b.res.Keys
    && (forall n <- a.addr :: n in b.addr && b.addr[n] == a.addr[n])
  }

  lemma ServedTrans(a: State, b: State, c: State, marked: set<Key>, labels: Labels, zone: string)
    requires Served(a, b, marked, labels, zone) && Served(b, c, marked, labels, zone)
    ensures Served(a, c, marked, labels, zone)
  {}

  lemma ServedWiden(a: State, b: State, marked: set<Key>, labels: Labels, zone: string)
    requires Served(a, b, {}, labels, zone)
    ensures Served(a, b, marked, labels, zone)
  {}

  lemma ShedServed(a: State, b: State, marked: set<Key>, labels: Labels, zone: string)
    requires Shed(a, b, marked) && a.up <= a.res.Keys
    ensures Served(a, b, marked, labels, zone)
  {}

  lemma CreatedServed(a: State, b: State, k: Key, r: Resource, labels: Labels, zone: string)
    requires Grows(a, b, map[k := r]) && k.kind in {Disk, IP, SG} && r.creator == MachineController && r.labels == labels
    requires k.kind == Disk ==> r.spec.DiskSpec? && r.spec.zone == zone
    ensures Served(a, b, {}, labels, zone)
  {}

  lemma ReadyKept(s0: State, a: State, b: State, marked: set<Key>, labels: Labels, zone: string, k: Key)
    requires Served(s0, a, {}, labels, zone) && Served(a, b, marked, labels, zone) && k !in marked
    ensures ReadyGate(s0, a, k) ==> ReadyGate(s0, b, k)
    ensures ThereGate(s0, a, k) ==> ThereGate(s0, b, k)
  {}

  // ---- Progress ----

  /** A cloud in which whatever exists has become ready. */
  ghost predicate Ripe(s: State) {
    && s.dying == {} && s.up == s.res.Keys
    && forall k <- s.res :: k.kind == IP ==> k.name in s.addr && s.addr[k.name] != ""
  }

  ghost predicate Standing(s: State, k: Key) {
    k in s.res && k in s.up && k !in s.dying
  }

  lemma StandingKept(a: State, b: State, labels: Labels, zone: string, k: Key)
    requires Served(a, b, {}, labels, zone) && Standing(a, k)
    ensures Standing(b, k)
  {}

  /** What the provider does not make itself. */
  ghost predicate Borrowed(s: State, name: string, spec: MachineSpec) {
    && (spec.placement.Some? ==> Key(Group, spec.placement.value) in s.res)
    && (spec.publicIP.Some? && spec.publicIP.value.existingID.Some? ==> Key(IP, spec.publicIP.value.existingID.value) in s.res)
  }

  ghost predicate AllThere(s: State, names: seq<string>) {
    forall n <- names :: DiskKey(n) in s.res
  }

  /** How many of the gates that create something are still closed. */
  ghost function Lacking(s: State, name: string, spec: MachineSpec): nat {
    (if AllThere(s, BootDisks(name, spec)) then 0 else 1)
    + (if AllThere(s, DataDisks(name, spec.disks)) then 0 else 1)
    + (if ManagedIP(name, spec) <= s.res.Keys then 0 else 1)
  }

  datatype Gate = Open | Wait | Blocked

  class Provisioner {
    const cloud: Cloud

    constructor (cloud: Cloud)
      ensures this.cloud == cloud
    {
      this.cloud := cloud;
    }

    /** One disk: there and ready, there, or created just now. */
    method EnsureDisk(name: string, sizeGB: int, image: string, zone: string, labels: Labels) returns (gate: Gate, made: bool)
      requires cloud.Valid()
      modifies cloud`s, cloud`calls, cloud`faults, cloud`conflicts
      ensures cloud.Valid() && cloud.faults >= old(cloud.faults)
      ensures Served(old(cloud.s), cloud.s, {}, labels, zone)
      ensures gate.Open? ==>
        DiskKey(name) in cloud.s.res && DiskKey(name) in cloud.s.up && Shed(old(cloud.s), cloud.s, {})
      ensures gate.Wait? ==> DiskKey(name) in cloud.s.res
      ensures cloud.faults == old(cloud.faults) ==> !gate.Blocked?
      ensures cloud.faults == old(cloud.faults) && Standing(old(cloud.s), DiskKey(name)) ==> gate.Open?
      ensures gate.Wait? && !made && cloud.faults == old(cloud.faults) ==> DiskKey(name) in old(cloud.s).res && DiskKey(name) !in old(cloud.s).up
    {
      ghost var s0 := cloud.s;
      var k := DiskKey(name);
      made := false;
      var error, view := cloud.Get(k);
      ghost var s1 := cloud.s;
      ShedServed(s0, s1, {}, labels, zone);
      if error == Some(NotFound) {
        var disk := Resource(DiskSpec(sizeGB, image, zone), labels, MachineController);
        error := cloud.Create(k, disk);
        CreatedServed(s1, cloud.s, k, disk, labels, zone);
        ServedTrans(s0, s1, cloud.s, {}, labels, zone);
        gate, made := if error.Some? then Blocked else Wait, error.None?;
      } else if error.Some? {
        gate := Blocked;
      } else {
        gate := if view.value.ready then Open else Wait;
      }
    }

    /** The boot disk, from the machine's image, in the machine's zone. */
    method EnsureBootDisk(machine: EvrocMachine, labels: Labels) returns (gate: Gate, made: bool)
      requires cloud.Valid()
      modifies cloud`s, cloud`calls, cloud`faults, cloud`conflicts
      ensures cloud.Valid() && cloud.faults >= old(cloud.faults)
      ensures Served(old(cloud.s), cloud.s, {}, labels, machine.status.zone)
      ensures gate.Open? ==> Shed(old(cloud.s), cloud.s, {})
      ensures gate.Open? ==>
        forall d <- BootDisks(machine.meta.name, machine.spec) :: DiskKey(d) in cloud.s.res && DiskKey(d) in cloud.s.up
      ensures gate.Wait? ==> AllThere(cloud.s, BootDisks(machine.meta.name, machine.spec))
      ensures cloud.faults == old(cloud.faults) ==> !gate.Blocked?
      ensures cloud.faults == old(cloud.faults) && Ripe(old(cloud.s)) ==>
        (gate.Open? <==> AllThere(old(cloud.s), BootDisks(machine.meta.name, machine.spec)))
    {
      if machine.spec.rootDiskSize <= 0 {
        SelfServed(cloud.s, labels, machine.status.zone);
        return Open, false;
      }
      assert BootDisks(machine.meta.name, machine.spec)[0] == BootDiskName(machine.meta.name);
      gate, made := EnsureDisk(BootDiskName(machine.meta.name), machine.spec.rootDiskSize, machine.spec.image, machine.status.zone, labels);
    }

    /** Every data disk of the list, all in one pass. */
    method EnsureDataDisks(name: string, disks: seq<DataDisk>, zone: string, labels: Labels)
      returns (gate: Gate, tracked: seq<TrackedDisk>)
      requires cloud.Valid()
      modifies cloud`s, cloud`calls, cloud`faults, cloud`conflicts
      ensures cloud.Valid() && cloud.faults >= old(cloud.faults)
      ensures Served(old(cloud.s), cloud.s, {}, labels, zone)
      ensures gate.Open? ==> Shed(old(cloud.s), cloud.s, {})
      ensures gate.Open? ==> forall d <- DataDisks(name, disks) :: ReadyGate(old(cloud.s), cloud.s, DiskKey(d))
      ensures gate.Wait? ==> forall d <- DataDisks(name, disks) :: ThereGate(old(cloud.s), cloud.s, DiskKey(d))
      ensures forall t <- tracked :: t.id in DataDisks(name, disks)
      ensures cloud.faults == old(cloud.faults) ==> !gate.Blocked?
      ensures cloud.faults == old(cloud.faults) && Ripe(old(cloud.s)) ==>
        (gate.Open? <==> AllThere(old(cloud.s), DataDisks(name, disks)))
    {
      ghost var s0, f0, names := cloud.s, cloud.faults, DataDisks(name, disks);
      gate, tracked := Open, [];
      SelfServed(s0, labels, zone);
      for i := 0 to |disks|
        invariant cloud.Valid() && cloud.faults >= f0 && !gate.Blocked? && forall t <- tracked :: t.id in names
        invariant Pass(s0, cloud.s, names[..i], gate, labels, zone)
        invariant cloud.faults == f0 && Ripe(s0) && AllThere(s0, names[..i]) ==> gate.Open?
      {
        var d := disks[i];
        assert names[..i + 1] == names[..i] + [names[i]];
        gate := EnsureNext(DataDiskName(name, d.name), d, zone, labels, gate, s0, names[..i]);
        if gate.Blocked? {
          return Blocked, [];
        }
        tracked := tracked + [TrackedDisk(DataDiskName(name, d.name), d.sizeGB, true)];
      }
      assert names[..|disks|] == names;
    }

    /** One more disk of a pass that began in `s0` and saw to `names` so far. */
    method EnsureNext(name: string, d: DataDisk, zone: string, labels: Labels, so: Gate, ghost s0: State, ghost names: seq<string>)
      returns (gate: Gate)
      requires cloud.Valid() && Pass(s0, cloud.s, names, so, labels, zone) && !so.Blocked?
      modifies cloud`s, cloud`calls, cloud`faults, cloud`conflicts
      ensures cloud.Valid() && cloud.faults >= old(cloud.faults)
      ensures if gate.Blocked? then Served(s0, cloud.s, {}, labels, zone) else Pass(s0, cloud.s, names + [name], gate, labels, zone)
      ensures cloud.faults == old(cloud.faults) ==> !gate.Blocked?
      ensures cloud.faults == old(cloud.faults) && so.Open? && Standing(s0, DiskKey(name)) ==> gate.Open?
    {
      ghost var before := cloud.s;
      if Standing(s0, DiskKey(name)) { StandingKept(s0, before, labels, zone, DiskKey(name)); }
      var image := if d.image.Some? then d.image.value else "";
      var made;
      gate, made := EnsureDisk(name, d.sizeGB, image, zone, labels);
      ServedTrans(s0, before, cloud.s, {}, labels, zone);
      if !gate.Blocked? {
        NextDisk(s0, before, cloud.s, names, name, so, gate, labels, zone);
        if gate.Open? {
          gate := so;
        }
      }
    }

    method DropStaleDisks(name: string, spec: MachineSpec, tracked: seq<TrackedDisk>, ghost labels: Labels, ghost zone: string)
      returns (gate: Gate)
      requires cloud.Valid()
      modifies cloud`s, cloud`calls, cloud`faults, cloud`conflicts
      ensures cloud.Valid() && cloud.faults >= old(cloud.faults)
      ensures Served(old(cloud.s), cloud.s, StaleDisks(name, spec, tracked), labels, zone)
      ensures gate.Open? || gate.Blocked?
      ensures StaleDisks(name, spec, tracked) == {} ==>
        gate.Open? && cloud.s == old(cloud.s) && cloud.faults == old(cloud.faults)
    {
      ghost var s0, f0, stale := cloud.s, cloud.faults, StaleDisks(name, spec, tracked);
      var desired := DataDisks(name, spec.disks);
      ServedWidenSelf(s0, stale, labels, zone);
      for i := 0 to |tracked|
        invariant cloud.Valid() && cloud.faults >= f0 && Served(s0, cloud.s, stale, labels, zone)
        invariant stale == {} ==> cloud.s == s0 && cloud.faults == f0
      {
        if tracked[i].managed && tracked[i].id !in desired {
          ghost var before := cloud.s;
          assert tracked[i] in tracked && DiskKey(tracked[i].id) in stale;
          var error := cloud.Delete(DiskKey(tracked[i].id));
          ShedWiden(before, cloud.s, {DiskKey(tracked[i].id)}, stale);
          ShedServed(before, cloud.s, stale, labels, zone);
          ServedTrans(s0, before, cloud.s, stale, labels, zone);
          if error.Some? && error != Some(NotFound) {
            return Blocked;
          }
        }
      }
      gate := Open;
    }

    /** The data disks of the specification, and an end to those it dropped. */
    method ReconcileAdditionalDisks(machine: EvrocMachine, labels: Labels) returns (gate: Gate, tracked: seq<TrackedDisk>)
      requires cloud.Valid()
      modifies cloud`s, cloud`calls, cloud`faults, cloud`conflicts
      ensures cloud.Valid() && cloud.faults >= old(cloud.faults)
      ensures var stale := StaleDisks(machine.meta.name, machine.spec, machine.status.disks);
        && Served(old(cloud.s), cloud.s, stale, labels, machine.status.zone)
        && (cloud.faults == old(cloud.faults) && stale == {} ==> !gate.Blocked?)
      ensures gate.Open? ==> DisksReady(old(cloud.s), cloud.s, DataDisks(machine.meta.name, machine.spec.disks))
      ensures gate.Open? && StaleDisks(machine.meta.name, machine.spec, machine.status.disks) == {} ==>
        Shed(old(cloud.s), cloud.s, {})
      ensures gate.Wait? ==>
        forall d <- DataDisks(machine.meta.name, machine.spec.disks) :: ThereGate(old(cloud.s), cloud.s, DiskKey(d))
      ensures !gate.Blocked? ==> StaleDisks(machine.meta.name, machine.spec, tracked) == {}
      ensures cloud.faults == old(cloud.faults) && Ripe(old(cloud.s)) && !gate.Blocked? ==>
        (gate.Open? <==> AllThere(old(cloud.s), DataDisks(machine.meta.name, machine.spec.disks)))
    {
      ghost var s0, f0 := cloud.s, cloud.faults;
      ghost var stale, zone := StaleDisks(machine.meta.name, machine.spec, machine.status.disks), machine.status.zone;
      if |machine.spec.disks| == 0 {
        gate := DropStaleDisks(machine.meta.name, machine.spec, machine.status.disks, labels, zone);
        return gate, [];
      }
      gate, tracked := EnsureDataDisks(machine.meta.name, machine.spec.disks, machine.status.zone, labels);
      ghost var s1 := cloud.s;
      ServedWiden(s0, s1, stale, labels, zone);
      if !gate.Open? {
        return;
      }
      gate := DropStaleDisks(machine.meta.name, machine.spec, machine.status.disks, labels, zone);
      ServedTrans(s0, s1, cloud.s, stale, labels, zone);
      DisksKept(s0, s1, cloud.s, DataDisks(machine.meta.name, machine.spec.disks), {}, stale, labels, zone);
    }

    /** A placement group is only ever referenced. */
    method ReconcilePlacementGroup(machine: EvrocMachine) returns (gate: Gate)
      requires cloud.Valid()
      modifies cloud`s, cloud`calls, cloud`faults, cloud`conflicts
      ensures cloud.Valid() && cloud.faults >= old(cloud.faults) && Shed(old(cloud.s), cloud.s, {})
      ensures gate.Open? && machine.spec.placement.Some? ==> Key(Group, machine.spec.placement.value) in cloud.s.res
      ensures gate.Open? || gate.Blocked?
      ensures cloud.faults == old(cloud.faults) && Ripe(old(cloud.s)) && Borrowed(old(cloud.s), machine.meta.name, machine.spec) ==>
        gate.Open?
    {
      if machine.spec.placement.None? {
        return Open;
      }
      var error, _ := cloud.Get(Key(Group, machine.spec.placement.value));
      gate := if error.Some? then Blocked else Open;
    }

    /** An address of the machine's own is created and waited for. */
    method ReconcilePublicIPCreation(machine: EvrocMachine, labels: Labels) returns (gate: Gate)
      requires cloud.Valid()
      modifies cloud`s, cloud`calls, cloud`faults, cloud`conflicts
      ensures cloud.Valid() && cloud.faults >= old(cloud.faults)
      ensures Served(old(cloud.s), cloud.s, {}, labels, machine.status.zone)
      ensures gate.Open? ==> AddressReady(cloud.s, machine.meta.name, machine.spec)
      ensures gate.Wait? ==> ManagedIP(machine.meta.name, machine.spec) <= cloud.s.res.Keys
      ensures cloud.faults == old(cloud.faults) && Ripe(old(cloud.s)) && Borrowed(old(cloud.s), machine.meta.name, machine.spec) ==>
        !gate.Blocked? && (gate.Open? <==> ManagedIP(machine.meta.name, machine.spec) <= old(cloud.s).res.Keys)
    {
      ghost var s0, zone := cloud.s, machine.status.zone;
      SelfServed(s0, labels, zone);
      if machine.spec.publicIP.None? {
        return Open;
      }
      var config := machine.spec.publicIP.value;
      if config.existingID.Some? {
        var error, _ := cloud.Get(Key(IP, config.existingID.value));
        ShedServed(s0, cloud.s, {}, labels, zone);
        return if error.Some? then Blocked else Open;
      }
      if !config.enabled {
        return Open;
      }
      gate := OwnAddress(PublicIPName(machine.meta.name), labels, zone);
    }

    method OwnAddress(name: string, labels: Labels, ghost zone: string) returns (gate: Gate)
      requires cloud.Valid()
      modifies cloud`s, cloud`calls, cloud`faults, cloud`conflicts
      ensures cloud.Valid() && cloud.faults >= old(cloud.faults)
      ensures Served(old(cloud.s), cloud.s, {}, labels, zone)
      ensures !gate.Blocked? ==> Key(IP, name) in cloud.s.res
      ensures gate.Open? ==> AddressGate(cloud.s, name)
      ensures cloud.faults == old(cloud.faults) && Ripe(old(cloud.s)) ==>
        !gate.Blocked? && (gate.Open? <==> Key(IP, name) in old(cloud.s).res)
    {
      ghost var s0 := cloud.s;
      var k := Key(IP, name);
      var error, view := cloud.Get(k);
      ghost var s1 := cloud.s;
      ShedServed(s0, s1, {}, labels, zone);
      if error.Some? && error != Some(NotFound) {
        return Blocked;
      }
      if error.Some? {
        error := cloud.Create(k, Resource(IPSpec, labels, MachineController));
        CreatedServed(s1, cloud.s, k, Resource(IPSpec, labels, MachineController), labels, zone);
        ServedTrans(s0, s1, cloud.s, {}, labels, zone);
        return if error.Some? then Blocked else Wait;
      }
      error, view := cloud.Get(k);
      ShedServed(s1, cloud.s, {}, labels, zone);
      ServedTrans(s0, s1, cloud.s, {}, labels, zone);
      if error.Some? {
        return Blocked;
      }
      gate := if view.value.address == "" then Wait else Open;
    }

    method EnsureGroup(name: string, rules: seq<Rule>, labels: Labels, ghost zone: string) returns (gate: Gate)
      requires cloud.Valid()
      modifies cloud`s, cloud`calls, cloud`faults, cloud`conflicts
      ensures cloud.Valid() && cloud.faults >= old(cloud.faults)
      // Nothing but this one group is added or altered, and nothing deleted.
      ensures Grouped(old(cloud.s), cloud.s, SGKey(name), labels, zone)
      ensures gate.Open? ==> SGKey(name) in cloud.s.res
      ensures gate.Open? || gate.Blocked?
      ensures cloud.faults == old(cloud.faults) && old(cloud.s).dying == {} ==> gate.Open?
    {
      ghost var s0 := cloud.s;
      var k := SGKey(name);
      var error, view := cloud.Get(k);
      ghost var s1 := cloud.s;
      ShedGrouped(s0, s1, k, labels, zone);
      if error == Some(NotFound) {
        error := cloud.Create(k, Resource(SGSpec(rules), labels, MachineController));
        CreatedGrouped(s1, cloud.s, k, Resource(SGSpec(rules), labels, MachineController), labels, zone);
        GroupedTrans(s0, s1, cloud.s, k, labels, zone);
      } else if error.None? {
        error, view := cloud.Get(k);
        ghost var s2 := cloud.s;
        ShedGrouped(s1, s2, k, labels, zone);
        GroupedTrans(s0, s1, s2, k, labels, zone);
        if error.None? {
          error := cloud.Patch(k, SGSpec(rules));
          PatchedGrouped(s2, cloud.s, k, labels, zone);
          GroupedTrans(s0, s2, cloud.s, k, labels, zone);
        }
      }
      gate := if error.Some? then Blocked else Open;
    }

    method EnsureGroups(name: string, groups: seq<InlineGroup>, labels: Labels, ghost zone: string) returns (gate: Gate)
      requires cloud.Valid()
      modifies cloud`s, cloud`calls, cloud`faults, cloud`conflicts
      ensures cloud.Valid() && cloud.faults >= old(cloud.faults)
      ensures Served(old(cloud.s), cloud.s, {}, labels, zone)
      ensures gate.Open? ==> GroupsThere(old(cloud.s), cloud.s, InlineNames(name, groups))
      ensures gate.Open? || gate.Blocked?
      ensures cloud.faults == old(cloud.faults) && old(cloud.s).dying == {} ==> gate.Open?
    {
      ghost var s0, f0, names := cloud.s, cloud.faults, InlineNames(name, groups);
      SelfServed(s0, labels, zone);
      for i := 0 to |groups|
        invariant cloud.Valid() && cloud.faults >= f0 && Served(s0, cloud.s, {}, labels, zone)
        invariant GroupsThere(s0, cloud.s, names[..i])
      {
        ghost var before := cloud.s;
        gate := EnsureGroup(InlineGroupName(name, groups[i].name), groups[i].rules, labels, zone);
        ServedTrans(s0, before, cloud.s, {}, labels, zone);
        if gate.Blocked? {
          return;
        }
        GroupsKept(s0, before, cloud.s, names[..i], {}, labels, zone);
        assert names[..i + 1] == names[..i] + [names[i]];
      }
      assert names[..|groups|] == names;
      gate := Open;
    }

    /** The first two gates: the boot disk, then the data disks.  A wait is recorded
        in status unless it is for a boot disk that was there before. */
    method ReachDisks(machine: EvrocMachine, labels: Labels) returns (gate: Gate, record: bool)
      requires cloud.Valid()
      modifies cloud`s, cloud`calls, cloud`faults, cloud`conflicts, machine`status
      ensures cloud.Valid() && cloud.faults >= old(cloud.faults)
      ensures machine.status == old(machine.status).(disks := machine.status.disks)
      ensures machine.status.disks == old(machine.status.disks) || StaleDisks(machine.meta.name, machine.spec, machine.status.disks) == {}
      ensures DiskOutcome(old(cloud.s), cloud.s, machine.meta.name, machine.spec, old(machine.status), labels, gate, cloud.faults == old(cloud.faults))
    {
      ghost var s0, name, spec, status := cloud.s, machine.meta.name, machine.spec, machine.status;
      ghost var stale := StaleDisks(name, spec, status.disks);
      gate, record := EnsureBootDisk(machine, labels);
      ghost var s1, f1 := cloud.s, cloud.faults;
      ServedWiden(s0, s1, stale, labels, status.zone);
      if gate.Open? {
        var tracked;
        record := true;
        gate, tracked := ReconcileAdditionalDisks(machine, labels);
        ServedTrans(s0, s1, cloud.s, stale, labels, status.zone);
        DataOutcome(s0, s1, cloud.s, name, spec, status, labels, gate, cloud.faults == f1);
        if !gate.Blocked? {
          machine.status := machine.status.(disks := tracked);
        }
      } else if gate.Wait? && Ripe(s0) && !AllThere(s0, BootDisks(name, spec)) {
        BootAdvanced(s0, s1, name, spec, labels, status.zone);
      }
    }

    /** The next two gates: placement group and address. */
    method ReachAddress(machine: EvrocMachine, labels: Labels) returns (gate: Gate)
      requires cloud.Valid()
      modifies cloud`s, cloud`calls, cloud`faults, cloud`conflicts
      ensures cloud.Valid() && cloud.faults >= old(cloud.faults)
      ensures Served(old(cloud.s), cloud.s, {}, labels, machine.status.zone)
      ensures gate.Open? ==> AddressReady(cloud.s, machine.meta.name, machine.spec)
      ensures gate.Open? && machine.spec.placement.Some? ==>
        ThereGate(old(cloud.s), cloud.s, Key(Group, machine.spec.placement.value))
      ensures cloud.faults == old(cloud.faults) && Ripe(old(cloud.s)) && Borrowed(old(cloud.s), machine.meta.name, machine.spec) ==>
        !gate.Blocked? && AddressAdvanced(old(cloud.s), cloud.s, machine.meta.name, machine.spec, gate)
    {
      ghost var s0, zone := cloud.s, machine.status.zone;
      gate := ReconcilePlacementGroup(machine);
      ghost var s1 := cloud.s;
      ShedServed(s0, s1, {}, labels, zone);
      if Ripe(s0) { StillRipe(s0, s1, machine.meta.name, machine.spec); }
      if gate.Open? {
        gate := ReconcilePublicIPCreation(machine, labels);
        ServedTrans(s0, s1, cloud.s, {}, labels, zone);
      }
    }

    /** All that is left before the VM: placement group, address, inline groups. */
    method ReachRest(machine: EvrocMachine, labels: Labels) returns (gate: Gate)
      requires cloud.Valid()
      modifies cloud`s, cloud`calls, cloud`faults, cloud`conflicts
      ensures cloud.Valid() && cloud.faults >= old(cloud.faults)
      ensures Served(old(cloud.s), cloud.s, {}, labels, machine.status.zone)
      ensures gate.Open? ==> RestReady(old(cloud.s), cloud.s, machine.meta.name, machine.spec)
      ensures cloud.faults == old(cloud.faults) && Ripe(old(cloud.s)) && Borrowed(old(cloud.s), machine.meta.name, machine.spec) ==>
        !gate.Blocked? && AddressAdvanced(old(cloud.s), cloud.s, machine.meta.name, machine.spec, gate)
    {
      ghost var s0, zone := cloud.s, machine.status.zone;
      gate := ReachAddress(machine, labels);
      ghost var s1 := cloud.s;
      if gate.Open? {
        gate := ReachGroups(machine, labels);
        ServedTrans(s0, s1, cloud.s, {}, labels, zone);
        if gate.Open? {
          AllReady(s0, s1, cloud.s, machine.meta.name, machine.spec, labels, zone);
        }
      }
    }

    method ReachGroups(machine: EvrocMachine, labels: Labels) returns (gate: Gate)
      requires cloud.Valid()
      modifies cloud`s, cloud`calls, cloud`faults, cloud`conflicts
      ensures cloud.Valid() && cloud.faults >= old(cloud.faults)
      ensures Served(old(cloud.s), cloud.s, {}, labels, machine.status.zone)
      ensures gate.Open? && machine.spec.groups.Some? ==>
        GroupsThere(old(cloud.s), cloud.s, InlineNames(machine.meta.name, machine.spec.groups.value.inlined))
      ensures gate.Open? || gate.Blocked?
      ensures cloud.faults == old(cloud.faults) && old(cloud.s).dying == {} ==> gate.Open?
    {
      if machine.spec.groups.None? {
        SelfServed(cloud.s, labels, machine.status.zone);
        return Open;
      }
      gate := EnsureGroups(machine.meta.name, machine.spec.groups.value.inlined, labels, machine.status.zone);
    }

    /** Every gate in turn. */
    method ReachVM(machine: EvrocMachine, labels: Labels) returns (gate: Gate, record: bool)
      requires cloud.Valid()
      modifies cloud`s, cloud`calls, cloud`faults, cloud`conflicts, machine`status
      ensures cloud.Valid() && cloud.faults >= old(cloud.faults)
      ensures machine.status == old(machine.status).(disks := machine.status.disks)
      ensures machine.status.disks == old(machine.status.disks) || StaleDisks(machine.meta.name, machine.spec, machine.status.disks) == {}
      ensures VMOutcome(old(cloud.s), cloud.s, machine.meta.name, machine.spec, old(machine.status), labels, gate, cloud.faults == old(cloud.faults))
    {
      ghost var s0, f0, name, spec, status := cloud.s, cloud.faults, machine.meta.name, machine.spec, machine.status;
      gate, record := ReachDisks(machine, labels);
      ghost var s1, sofar := cloud.s, cloud.faults == f0;
      if gate.Open? {
        gate := ReachRest(machine, labels);
        RestOutcome(s0, s1, cloud.s, name, spec, status, labels, gate, sofar, cloud.faults == f0);
      } else {
        DisksShut(s0, s1, name, spec, status, labels, gate, sofar);
      }
    }

    /** One pass towards the VM.  `before` is the state in which its creation was
        submitted, if it was. */
    method Provision(machine: EvrocMachine, labels: Labels, vmLabels: Labels, inherited: seq<string>)
      returns (progress: Progress, ghost before: State)
      requires cloud.Valid()
      modifies cloud, machine`status
      ensures cloud.Valid() && cloud.faults >= old(cloud.faults)
      ensures machine.status == old(machine.status).(disks := machine.status.disks)
      ensures machine.status.disks == old(machine.status.disks) || StaleDisks(machine.meta.name, machine.spec, machine.status.disks) == {}
      ensures Served(old(cloud.s), before, StaleDisks(machine.meta.name, machine.spec, old(machine.status.disks)), labels, machine.status.zone)
      // No VM is asked for but this one, and only once.
      ensures var vm := RequestedResource(machine.meta.name, machine.spec, machine.status.zone, inherited, vmLabels);
        if progress.Submitted?
        then Grows(before, cloud.s, map[VMKey(machine.meta.name) := vm])
             && cloud.births == old(cloud.births) + [Birth(VMKey(machine.meta.name), vm, before)]
        else before == cloud.s && cloud.births == old(cloud.births)
      ensures progress.Submitted? && Apart(machine.meta.name, machine.spec, StaleDisks(machine.meta.name, machine.spec, old(machine.status.disks))) ==>
        Gates(old(cloud.s), before, machine.meta.name, machine.spec)
      ensures cloud.faults == old(cloud.faults) && Ripe(old(cloud.s)) && Borrowed(old(cloud.s), machine.meta.name, machine.spec)
              && StaleDisks(machine.meta.name, machine.spec, old(machine.status.disks)) == {} ==>
        Forward(old(cloud.s), cloud.s, machine.meta.name, machine.spec, progress)
    {
      var gate, record := ReachVM(machine, labels);
      before := cloud.s;
      if !gate.Open? {
        progress := if gate.Wait? then Waiting(record) else Failing;
        return;
      }
      var error := cloud.Launch(VMKey(machine.meta.name),
        RequestedResource(machine.meta.name, machine.spec, machine.status.zone, inherited, vmLabels));
      progress := Submitted(error);
    }
  }

  lemma SelfServed(s: State, labels: Labels, zone: string)
    requires s.up <= s.res.Keys
    ensures Served(s, s, {}, labels, zone)
  {}

  lemma ServedWidenSelf(s: State, marked: set<Key>, labels: Labels, zone: string)
    requires s.up <= s.res.Keys
    ensures Served(s, s, marked, labels, zone)
  {}

  ghost predicate DisksReady(s0: State, s: State, names: seq<string>) {
    forall n <- names :: ReadyGate(s0, s, DiskKey(n))
  }

  ghost predicate GroupsThere(s0: State, s: State, names: seq<string>) {
    forall n <- names :: ThereGate(s0, s, SGKey(n))
  }

  /** The address the VM asks for exists, and one of its own has been allocated. */
  ghost predicate AddressReady(s: State, name: string, spec: MachineSpec) {
    && (PublicIPRef(name, spec).Some? ==> Key(IP, PublicIPRef(name, spec).value) in s.res)
    && (forall k <- ManagedIP(name, spec) :: AddressGate(s, k.name))
  }

  lemma DisksKept(s0: State, a: State, b: State, names: seq<string>, before: set<Key>, after: set<Key>, labels: Labels, zone: string)
    requires Served(s0, a, before, labels, zone) && Served(a, b, after, labels, zone) && DisksReady(s0, a, names)
    requires forall n <- names :: DiskKey(n) !in before && DiskKey(n) !in after
    ensures DisksReady(s0, b, names)
  {}

  lemma GroupsKept(s0: State, a: State, b: State, names: seq<string>, marked: set<Key>, labels: Labels, zone: string)
    requires Served(s0, a, {}, labels, zone) && Served(a, b, marked, labels, zone) && GroupsThere(s0, a, names)
    requires forall n <- names :: SGKey(n) !in marked
    ensures GroupsThere(s0, b, names)
  {}

  lemma PatchedServed(a: State, b: State, k: Key, labels: Labels, zone: string)
    requires a.up <= a.res.Keys && k.kind == SG
    requires Shed(a, b, {}) || (k in a.res && k in b.res && Shed(a, b.(res := b.res[k := a.res[k]]), {})
                                && b.res[k].labels == a.res[k].labels && b.res[k].creator == a.res[k].creator)
    ensures Served(a, b, {}, labels, zone)
  {
    if !Shed(a, b, {}) {
      var c := b.(res := b.res[k := a.res[k]]);
      assert c.res.Keys == b.res.Keys;
      assert forall x <- b.res :: x != k ==> c.res[x] == b.res[x];
    }
  }

  /** What seeing to one group may do. */
  ghost predicate Grouped(a: State, b: State, k: Key, labels: Labels, zone: string) {
    Served(a, b, {}, labels, zone) && OnlyAt(a, b, k)
  }

  lemma GroupedTrans(a: State, b: State, c: State, k: Key, labels: Labels, zone: string)
    requires Grouped(a, b, k, labels, zone) && Grouped(b, c, k, labels, zone)
    ensures Grouped(a, c, k, labels, zone)
  {
    ServedTrans(a, b, c, {}, labels, zone);
    OnlyAtTrans(a, b, c, k);
  }

  lemma ShedGrouped(a: State, b: State, k: Key, labels: Labels, zone: string)
    requires Shed(a, b, {}) && a.up <= a.res.Keys
    ensures Grouped(a, b, k, labels, zone)
  {}

  lemma CreatedGrouped(a: State, b: State, k: Key, r: Resource, labels: Labels, zone: string)
    requires Grows(a, b, map[k := r]) && k.kind == SG && r.creator == MachineController && r.labels == labels
    ensures Grouped(a, b, k, labels, zone)
  {
    CreatedServed(a, b, k, r, labels, zone);
  }

  lemma PatchedGrouped(a: State, b: State, k: Key, labels: Labels, zone: string)
    requires a.up <= a.res.Keys && k.kind == SG
    requires Shed(a, b, {}) || (k in a.res && k in b.res && Shed(a, b.(res := b.res[k := a.res[k]]), {})
                                && b.res[k].labels == a.res[k].labels && b.res[k].creator == a.res[k].creator)
    ensures Grouped(a, b, k, labels, zone)
  {
    PatchedServed(a, b, k, labels, zone);
    if !Shed(a, b, {}) {
      var c := b.(res := b.res[k := a.res[k]]);
      assert c.res.Keys == b.res.Keys;
      assert forall x <- b.res :: x != k ==> c.res[x] == b.res[x];
    }
  }

  /** No disk the boot disk could be taken for is being dropped. */
  predicate Apart(name: string, spec: MachineSpec, stale: set<Key>) {
    forall d <- BootDisks(name, spec) :: DiskKey(d) !in stale
  }

  ghost predicate DisksThere(s: State, name: string, spec: MachineSpec) {
    AllThere(s, BootDisks(name, spec)) && AllThere(s, DataDisks(name, spec.disks))
  }

  /** An undisturbed pass got through when nothing was missing, and otherwise
      leaves fewer gates closed. */
  ghost predicate Advanced(a: State, b: State, name: string, spec: MachineSpec, gate: Gate) {
    && (gate.Open? ==> DisksThere(a, name, spec) && Shed(a, b, {}))
    && (gate.Wait? ==> Lacking(b, name, spec) < Lacking(a, name, spec))
    && a.res.Keys <= b.res.Keys
  }

  lemma BootAdvanced(a: State, b: State, name: string, spec: MachineSpec, labels: Labels, zone: string)
    requires Served(a, b, {}, labels, zone) && a.dying == {}
    requires AllThere(b, BootDisks(name, spec)) && !AllThere(a, BootDisks(name, spec))
    ensures Advanced(a, b, name, spec, Wait)
  {}

  lemma DataAdvanced(s0: State, s1: State, s2: State, name: string, spec: MachineSpec, labels: Labels, zone: string, gate: Gate)
    requires Served(s0, s1, {}, labels, zone) && Served(s1, s2, {}, labels, zone) && s0.dying == {} && !gate.Blocked?
    requires AllThere(s0, BootDisks(name, spec)) && Shed(s0, s1, {}) && (gate.Open? ==> Shed(s1, s2, {}))
    requires gate.Wait? ==> forall d <- DataDisks(name, spec.disks) :: ThereGate(s1, s2, DiskKey(d))
    requires gate.Wait? ==> !AllThere(s0, DataDisks(name, spec.disks))
    requires gate.Open? ==> AllThere(s0, DataDisks(name, spec.disks))
    ensures Advanced(s0, s2, name, spec, gate)
  {
    if gate.Open? { ShedTrans(s0, s1, s2, {}, {}); }
  }

  /** What the two disk gates amount to, from `a` to `b`. */
  ghost predicate DiskOutcome(a: State, b: State, name: string, spec: MachineSpec, status: MachineStatus, labels: Labels,
                              gate: Gate, undisturbed: bool)
  {
    var stale := StaleDisks(name, spec, status.disks);
    && Served(a, b, stale, labels, status.zone)
    && (gate.Open? && Apart(name, spec, stale) ==> DisksReady(a, b, BootDisks(name, spec) + DataDisks(name, spec.disks)))
    && (undisturbed && Ripe(a) && stale == {} ==> !gate.Blocked? && Advanced(a, b, name, spec, gate))
  }

  lemma DataOutcome(s0: State, s1: State, s2: State, name: string, spec: MachineSpec, status: MachineStatus, labels: Labels,
                    gate: Gate, undisturbed: bool)
    requires var stale := StaleDisks(name, spec, status.disks);
      && Served(s0, s1, {}, labels, status.zone) && Served(s1, s2, stale, labels, status.zone) && Served(s0, s2, stale, labels, status.zone)
      && (undisturbed && stale == {} ==> !gate.Blocked?)
    requires forall d <- BootDisks(name, spec) :: DiskKey(d) in s1.res && DiskKey(d) in s1.up
    requires gate.Open? ==> DisksReady(s1, s2, DataDisks(name, spec.disks))
    requires gate.Open? && StaleDisks(name, spec, status.disks) == {} ==> Shed(s1, s2, {})
    requires gate.Wait? ==> forall d <- DataDisks(name, spec.disks) :: ThereGate(s1, s2, DiskKey(d))
    requires undisturbed && Ripe(s0) ==> AllThere(s0, BootDisks(name, spec)) && Shed(s0, s1, {})
    requires undisturbed && Ripe(s1) && !gate.Blocked? ==> (gate.Open? <==> AllThere(s1, DataDisks(name, spec.disks)))
    ensures DiskOutcome(s0, s2, name, spec, status, labels, gate, undisturbed)
  {
    var stale := StaleDisks(name, spec, status.disks);
    if gate.Open? && Apart(name, spec, stale) {
      BothDisksReady(s0, s1, s2, name, spec, stale, labels, status.zone);
    }
    if undisturbed && Ripe(s0) && stale == {} {
      DataAdvanced(s0, s1, s2, name, spec, labels, status.zone, gate);
    }
  }

  lemma BothDisksReady(s0: State, s1: State, s2: State, name: string, spec: MachineSpec, stale: set<Key>, labels: Labels, zone: string)
    requires Served(s0, s1, {}, labels, zone) && Served(s1, s2, stale, labels, zone) && Apart(name, spec, stale)
    requires forall d <- BootDisks(name, spec) :: DiskKey(d) in s1.res && DiskKey(d) in s1.up
    requires DisksReady(s1, s2, DataDisks(name, spec.disks))
    ensures DisksReady(s0, s2, BootDisks(name, spec) + DataDisks(name, spec.disks))
  {
    DisksKept(s0, s1, s2, BootDisks(name, spec), {}, stale, labels, zone);
  }

  ghost predicate RestReady(a: State, b: State, name: string, spec: MachineSpec) {
    && (spec.placement.Some? ==> ThereGate(a, b, Key(Group, spec.placement.value)))
    && (PublicIPRef(name, spec).Some? ==> ThereGate(a, b, Key(IP, PublicIPRef(name, spec).value)))
    && (forall k <- ManagedIP(name, spec) :: AddressGate(b, k.name))
    && (spec.groups.Some? ==> GroupsThere(a, b, InlineNames(name, spec.groups.value.inlined)))
  }

  ghost predicate AddressAdvanced(a: State, b: State, name: string, spec: MachineSpec, gate: Gate) {
    && (gate.Open? ==> ManagedIP(name, spec) <= a.res.Keys)
    && (gate.Wait? ==> ManagedIP(name, spec) <= b.res.Keys && !(ManagedIP(name, spec) <= a.res.Keys))
  }

  lemma AllReady(s0: State, s1: State, s2: State, name: string, spec: MachineSpec, labels: Labels, zone: string)
    requires Served(s0, s1, {}, labels, zone) && Served(s1, s2, {}, labels, zone) && AddressReady(s1, name, spec)
    requires spec.placement.Some? ==> ThereGate(s0, s1, Key(Group, spec.placement.value))
    requires spec.groups.Some? ==> GroupsThere(s1, s2, InlineNames(name, spec.groups.value.inlined))
    ensures RestReady(s0, s2, name, spec)
  {
    if spec.placement.Some? { ReadyKept(s0, s1, s2, {}, labels, zone, Key(Group, spec.placement.value)); }
  }

  /** How a pass ended: the VM's creation was submitted, something is still being
      made (to be recorded in status or not), or a call failed. */
  datatype Progress = Submitted(error: Option<Error>) | Waiting(record: bool) | Failing

  /** An undisturbed pass either creates the VM or leaves fewer gates closed. */
  ghost predicate Forward(a: State, b: State, name: string, spec: MachineSpec, progress: Progress) {
    && !progress.Failing?
    && (progress.Submitted? ==> Lacking(a, name, spec) == 0 && (VMKey(name) !in a.res ==> progress.error.None? && VMKey(name) in b.res))
    && (progress.Waiting? ==> Lacking(b, name, spec) < Lacking(a, name, spec) && (VMKey(name) !in a.res ==> VMKey(name) !in b.res))
    && a.res.Keys <= b.res.Keys
  }

  /** What all the gates amount to, from `a` to `b`. */
  ghost predicate VMOutcome(a: State, b: State, name: string, spec: MachineSpec, status: MachineStatus, labels: Labels,
                            gate: Gate, undisturbed: bool)
  {
    var stale := StaleDisks(name, spec, status.disks);
    && Served(a, b, stale, labels, status.zone)
    && (gate.Open? && Apart(name, spec, stale) ==> Gates(a, b, name, spec))
    && (undisturbed && Ripe(a) && Borrowed(a, name, spec) && stale == {} ==>
          && !gate.Blocked? && a.res.Keys <= b.res.Keys
          && (gate.Open? ==> Lacking(a, name, spec) == 0)
          && (gate.Wait? ==> Lacking(b, name, spec) < Lacking(a, name, spec)))
  }

  lemma RestOutcome(s0: State, s1: State, s2: State, name: string, spec: MachineSpec, status: MachineStatus, labels: Labels,
                    gate: Gate, sofar: bool, undisturbed: bool)
    requires DiskOutcome(s0, s1, name, spec, status, labels, Open, sofar) && (undisturbed ==> sofar)
    requires Served(s1, s2, {}, labels, status.zone) && (gate.Open? ==> RestReady(s1, s2, name, spec))
    requires undisturbed && Ripe(s1) && Borrowed(s1, name, spec) ==>
      !gate.Blocked? && AddressAdvanced(s1, s2, name, spec, gate)
    ensures VMOutcome(s0, s2, name, spec, status, labels, gate, undisturbed)
  {
    var stale := StaleDisks(name, spec, status.disks);
    ServedWiden(s1, s2, stale, labels, status.zone);
    ServedTrans(s0, s1, s2, stale, labels, status.zone);
    if gate.Open? { GatesOpen(s0, s1, s2, name, spec, status, labels); }
    if undisturbed && Ripe(s0) && Borrowed(s0, name, spec) && stale == {} {
      StillRipe(s0, s1, name, spec);
      RestAdvanced(s0, s1, s2, name, spec, status, labels, gate);
    }
  }

  lemma DisksShut(s0: State, s1: State, name: string, spec: MachineSpec, status: MachineStatus, labels: Labels, gate: Gate, undisturbed: bool)
    requires DiskOutcome(s0, s1, name, spec, status, labels, gate, undisturbed) && !gate.Open?
    ensures VMOutcome(s0, s1, name, spec, status, labels, gate, undisturbed)
  {}

  lemma StillRipe(a: State, b: State, name: string, spec: MachineSpec)
    requires Ripe(a) && Shed(a, b, {})
    ensures Ripe(b) && b.res == a.res && (Borrowed(a, name, spec) ==> Borrowed(b, name, spec))
  {}

  lemma RestAdvanced(s0: State, s1: State, s2: State, name: string, spec: MachineSpec, status: MachineStatus, labels: Labels, gate: Gate)
    requires Served(s0, s1, {}, labels, status.zone) && Served(s1, s2, {}, labels, status.zone) && s0.dying == {}
    requires AddressAdvanced(s1, s2, name, spec, gate) && DisksThere(s0, name, spec)
    requires s1.res == s0.res
    ensures gate.Open? ==> Lacking(s0, name, spec) == 0
    ensures gate.Wait? ==> Lacking(s2, name, spec) < Lacking(s0, name, spec)
    ensures s0.res.Keys <= s2.res.Keys
  {}

  lemma GatesOpen(s0: State, s1: State, s2: State, name: string, spec: MachineSpec, status: MachineStatus, labels: Labels)
    requires var stale := StaleDisks(name, spec, status.disks);
      && Served(s0, s1, stale, labels, status.zone) && Served(s1, s2, {}, labels, status.zone)
      && (Apart(name, spec, stale) ==> DisksReady(s0, s1, BootDisks(name, spec) + DataDisks(name, spec.disks)))
    requires RestReady(s1, s2, name, spec)
    ensures Apart(name, spec, StaleDisks(name, spec, status.disks)) ==> Gates(s0, s2, name, spec)
  {
    var stale := StaleDisks(name, spec, status.disks);
    if Apart(name, spec, stale) {
      DisksKept(s0, s1, s2, BootDisks(name, spec) + DataDisks(name, spec.disks), stale, {}, labels, status.zone);
      assert forall k <- stale :: k.kind == Disk;
    }
  }

  /** How far a pass over the data disks has got: as long as it found every disk
      ready it created nothing. */
  ghost predicate Pass(s0: State, s: State, names: seq<string>, gate: Gate, labels: Labels, zone: string) {
    && Served(s0, s, {}, labels, zone)
    && (forall n <- names :: ThereGate(s0, s, DiskKey(n)))
    && (gate.Open? ==> Shed(s0, s, {}) && AllThere(s0, names) && forall n <- names :: ReadyGate(s0, s, DiskKey(n)))
  }

  lemma NextDisk(s0: State, a: State, b: State, names: seq<string>, name: string, gate: Gate, one: Gate, labels: Labels, zone: string)
    requires Pass(s0, a, names, gate, labels, zone) && Served(a, b, {}, labels, zone) && Served(s0, b, {}, labels, zone)
    requires DiskKey(name) in b.res && !one.Blocked?
    requires one.Open? ==> Shed(a, b, {}) && DiskKey(name) in b.up
    ensures Pass(s0, b, names + [name], if one.Wait? then Wait else gate, labels, zone)
  {
    forall n <- names
      ensures ReadyGate(s0, a, DiskKey(n)) ==> ReadyGate(s0, b, DiskKey(n))
      ensures ThereGate(s0, b, DiskKey(n))
    {
      ReadyKept(s0, a, b, {}, labels, zone, DiskKey(n));
    }
    if one.Open? && gate.Open? { ShedTrans(s0, a, b, {}, {}); }
  }
}
