/** Admission of EvrocMachines (api/v1beta1/evrocmachine_webhook.go). */
module MachineWebhook {
  import opened Prelude
  import opened CloudApi
  import opened Api
  import opened ClusterWebhook
  import opened Images
  import opened MachineProvisioning

  /** Defaulting never leaves a machine without any security group. */
  method Default(r: EvrocMachine, defaultImage: string)
    modifies r`spec
    ensures r.spec.region == if old(r.spec.region) == "" then "se-sto" else old(r.spec.region)
    ensures r.spec.image == if old(r.spec.image) == "" then defaultImage else old(r.spec.image)
    ensures r.spec == old(r.spec).(region := r.spec.region, image := r.spec.image, groups := r.spec.groups)
    ensures r.spec.groups.Some? && HasGroups(r.spec.groups.value)
    ensures old(r.spec.groups).Some? && HasGroups(old(r.spec.groups).value) ==> r.spec.groups == old(r.spec.groups)
  {
    if r.spec.region == "" {
      r.spec := r.spec.(region := "se-sto");
    }
    if r.spec.image == "" {
      r.spec := r.spec.(image := defaultImage);
    }
    if r.spec.groups.None? {
      r.spec := r.spec.(groups := Some(MachineGroups(false, [], [])));
    }
    var groups := r.spec.groups.value;
    if !groups.inheritFromCluster && |groups.inlined| == 0 && |groups.existing| == 0 {
      r.spec := r.spec.(groups := Some(groups.(inheritFromCluster := true)));
    }
  }

  predicate HasGroups(g: MachineGroups) {
    g.inheritFromCluster || g.inlined != [] || g.existing != []
  }

  // ---- What admission accepts, declaratively ----

  function DiskNames(disks: seq<DataDisk>): seq<string> {
    seq(|disks|, i requires 0 <= i < |disks| => disks[i].name)
  }

  predicate Fits(machine: string, part: string) {
    machine != "" ==> |machine| + 1 + |part| <= MAX_NAME
  }

  predicate DiskOK(machine: string, spec: MachineSpec, d: DataDisk) {
    Fits(machine, d.name) && (d.image.Some? && d.image.value != "" ==> ImageOK(d.image.value, spec.project, spec.region))
  }

  predicate DisksOK(machine: string, spec: MachineSpec) {
    NoDup(DiskNames(spec.disks)) && forall d <- spec.disks :: DiskOK(machine, spec, d)
  }

  predicate GroupOK(machine: string, g: InlineGroup) {
    Fits(machine, g.name) && forall r <- g.rules :: RuleOK(r)
  }

  predicate MachineGroupsOK(machine: string, g: MachineGroups) {
    NoDup(ClusterWebhook.InlineNames(g.inlined) + g.existing) && forall i <- g.inlined :: GroupOK(machine, i)
  }

  predicate MachineIdentityOK(spec: MachineSpec) {
    spec.project != "" && IsRegion(spec.region) && spec.profile != "" && spec.image != "" && ImageOK(spec.image, spec.project, spec.region)
  }

  predicate MachineWellFormed(name: string, spec: MachineSpec) {
    && MachineIdentityOK(spec) && 10 <= spec.rootDiskSize <= 10000 && |name| + 10 <= MAX_NAME
    && (forall k <- spec.labels :: LabelOK(k, spec.labels[k]))
    && !(spec.publicIP.Some? && spec.publicIP.value.enabled && spec.publicIP.value.existingID.Some?)
    && DisksOK(name, spec) && (spec.groups.Some? ==> MachineGroupsOK(name, spec.groups.value))
  }

  class EvrocMachineValidator {
    const common: EvrocClusterValidator

    constructor (common: EvrocClusterValidator)
      ensures this.common == common
    {
      this.common := common;
    }

    method ValidateMachineIdentity(spec: MachineSpec) returns (errs: seq<Violation>)
      ensures errs == [] <==> MachineIdentityOK(spec)
    {
      errs := [];
      if spec.project == "" { errs := errs + [Required("spec.project")]; }
      if spec.region == "" { errs := errs + [Required("spec.region")]; }
      if spec.profile == "" { errs := errs + [Required("spec.computeProfile")]; }
      if spec.image == "" {
        errs := errs + [Required("spec.image")];
      } else {
        var imageErrs := ValidateImage(spec.image, spec.project, spec.region);
        errs := errs + imageErrs;
      }
      if spec.region != "" && !IsRegion(spec.region) { errs := errs + [Invalid("spec.region")]; }
    }

    method ValidateDisk(machine: string, spec: MachineSpec, d: DataDisk) returns (errs: seq<Violation>)
      ensures errs == [] <==> DiskOK(machine, spec, d)
    {
      errs := [];
      if d.image.Some? && d.image.value != "" {
        errs := ValidateImage(d.image.value, spec.project, spec.region);
      }
      if |machine| > 0 && |machine| + 1 + |d.name| > MAX_NAME { errs := errs + [TooLong("additionalDisks.name")]; }
    }

    method ValidateDisks(machine: string, spec: MachineSpec) returns (errs: seq<Violation>)
      ensures errs == [] <==> DisksOK(machine, spec)
    {
      var seen;
      errs, seen := common.SeeNames(DiskNames(spec.disks), {});
      ghost var nameErrs := errs;
      for i := 0 to |spec.disks|
        invariant errs == [] <==> nameErrs == [] && forall d <- spec.disks[..i] :: DiskOK(machine, spec, d)
      {
        var more := ValidateDisk(machine, spec, spec.disks[i]);
        errs := errs + more;
        assert spec.disks[..i + 1] == spec.disks[..i] + [spec.disks[i]];
      }
      assert spec.disks[..|spec.disks|] == spec.disks;
    }

    method ValidateGroup(machine: string, g: InlineGroup) returns (errs: seq<Violation>)
      ensures errs == [] <==> GroupOK(machine, g)
    {
      errs := [];
      if |machine| > 0 && |machine| + 1 + |g.name| > MAX_NAME { errs := errs + [TooLong("inlineSecurityGroups.name")]; }
      ghost var before := errs;
      for j := 0 to |g.rules|
        invariant errs == [] <==> before == [] && forall r <- g.rules[..j] :: RuleOK(r)
      {
        var more := common.ValidateRule(g.rules[j]);
        errs := errs + more;
        assert g.rules[..j + 1] == g.rules[..j] + [g.rules[j]];
      }
      assert g.rules[..|g.rules|] == g.rules;
    }

    method ValidateMachineGroups(machine: string, g: MachineGroups) returns (errs: seq<Violation>)
      ensures errs == [] <==> MachineGroupsOK(machine, g)
    {
      var more, seen;
      errs, seen := common.SeeNames(ClusterWebhook.InlineNames(g.inlined), {});
      more, seen := common.SeeNames(g.existing, seen);
      errs := errs + more;
      NoDupConcat(ClusterWebhook.InlineNames(g.inlined), g.existing);
      ghost var nameErrs := errs;
      for i := 0 to |g.inlined|
        invariant errs == [] <==> nameErrs == [] && forall x <- g.inlined[..i] :: GroupOK(machine, x)
      {
        more := ValidateGroup(machine, g.inlined[i]);
        errs := errs + more;
        assert g.inlined[..i + 1] == g.inlined[..i] + [g.inlined[i]];
      }
      assert g.inlined[..|g.inlined|] == g.inlined;
    }

    method ValidateEvrocMachine(m: EvrocMachine) returns (errs: seq<Violation>)
      ensures errs == [] <==> MachineWellFormed(m.meta.name, m.spec)
    {
      errs := ValidateMachineIdentity(m.spec);
      if m.spec.rootDiskSize < 10 || m.spec.rootDiskSize > 10000 { errs := errs + [Invalid("spec.rootDiskSize")]; }
      if |m.meta.name| + 10 > MAX_NAME { errs := errs + [TooLong("metadata.name")]; }
      var more := common.ValidateLabels(m.spec.labels);
      errs := errs + more;
      if m.spec.publicIP.Some? && m.spec.publicIP.value.enabled && m.spec.publicIP.value.existingID.Some? {
        errs := errs + [Forbidden("spec.networkingConfig.publicIP")];
      }
      more := ValidateDisks(m.meta.name, m.spec);
      errs := errs + more;
      if m.spec.groups.Some? {
        more := ValidateMachineGroups(m.meta.name, m.spec.groups.value);
        errs := errs + more;
      }
    }

    method ValidateUpdate(old_: EvrocMachine, new_: EvrocMachine) returns (errs: seq<Violation>)
      ensures errs == [] <==> MachineImmutables(old_.spec, new_.spec) && MachineWellFormed(new_.meta.name, new_.spec)
    {
      errs := [];
      if new_.spec.project != old_.spec.project { errs := errs + [Forbidden("spec.project")]; }
      if new_.spec.region != old_.spec.region { errs := errs + [Forbidden("spec.region")]; }
      if new_.spec.profile != old_.spec.profile { errs := errs + [Forbidden("spec.computeProfile")]; }
      if new_.spec.image != old_.spec.image { errs := errs + [Forbidden("spec.image")]; }
      if new_.spec.rootDiskSize != old_.spec.rootDiskSize { errs := errs + [Forbidden("spec.rootDiskSize")]; }
      var more := ValidateEvrocMachine(new_);
      errs := errs + more;
    }
  }

  // ---- Names derived from an admitted machine ----

  lemma DerivedNameInjective(machine: string, a: string, b: string)
    requires DataDiskName(machine, a) == DataDiskName(machine, b)
    ensures a == b
  {
    assert DataDiskName(machine, a)[|machine| + 1..] == a && DataDiskName(machine, b)[|machine| + 1..] == b;
  }

  /** An admitted machine's VM names no disk twice, if and only if none of its data
      disks is called like the boot disk; admission does not rule that out. */
  lemma DisksDistinctIff(name: string, spec: MachineSpec)
    requires MachineWellFormed(name, spec)
    ensures NoDup(BootDisks(name, spec) + DataDisks(name, spec.disks)) <==> "boot-disk" !in DiskNames(spec.disks)
  {
    var boot, data, names := BootDiskName(name), DataDisks(name, spec.disks), DiskNames(spec.disks);
    assert boot == DataDiskName(name, "boot-disk");
    forall i, j | 0 <= i < j < |data| ensures data[i] != data[j] {
      if data[i] == data[j] { DerivedNameInjective(name, names[i], names[j]); }
    }
    assert NoDup(data);
    NoDupConcat([boot], data);
    if "boot-disk" in names {
      var i :| 0 <= i < |names| && names[i] == "boot-disk";
      assert data[i] == boot && boot in ToSet(data) && boot in ToSet([boot]);
    } else {
      forall x | x in data ensures x != boot {
        var i :| 0 <= i < |data| && data[i] == x;
        assert names[i] in names;
        if x == boot { DerivedNameInjective(name, names[i], "boot-disk"); }
      }
    }
  }

  /** Every name derived from an admitted machine fits. */
  lemma MachineNamesFit(name: string, spec: MachineSpec)
    requires MachineWellFormed(name, spec) && name != ""
    ensures |BootDiskName(name)| <= MAX_NAME && |PublicIPName(name)| <= MAX_NAME
    ensures forall d <- DataDisks(name, spec.disks) :: |d| <= MAX_NAME
    ensures spec.groups.Some? ==> forall g <- spec.groups.value.inlined :: |InlineGroupName(name, g.name)| <= MAX_NAME
  {
    forall d | d in DataDisks(name, spec.disks) ensures |d| <= MAX_NAME {
      var i :| 0 <= i < |spec.disks| && DataDisks(name, spec.disks)[i] == d;
      assert DiskOK(name, spec, spec.disks[i]);
    }
    if spec.groups.Some? {
      forall g <- spec.groups.value.inlined ensures |InlineGroupName(name, g.name)| <= MAX_NAME {
        assert GroupOK(name, g);
      }
    }
  }
}
