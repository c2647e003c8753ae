/** Ownership labels (internal/controller/helpers/labels.go) and the selectors
    teardown finds resources by. */
module OwnershipLabels {
  import opened Prelude
  import opened CloudApi

  const CLUSTER_NAME := "capi_cluster-name"
  const CLUSTER_ID := "capi_cluster-id"
  const MANAGED_BY := "capi_managed-by"
  const MACHINE_ID := "capi_machine-id"
  const MACHINE_NAME := "capi_machine-name"
  const MANAGED_BY_VALUE := "cluster-api-provider-evroc"
  const ROLE := "capi_role"
  const PROVIDER := "capi_provider"

  function OwnerSelector(ownerLabel: string, ownerID: string): Labels {
    map[MANAGED_BY := MANAGED_BY_VALUE, ownerLabel := ownerID]
  }

  /** What the CCM and CSI drivers put on everything they create. */
  function DriverSelector(clusterID: string): Labels {
    map["managed-by" := clusterID]
  }

  /** User labels in order of precedence: the last map that has a key wins. */
  function Overlay(extras: seq<Labels>): Labels {
    if extras == [] then map[] else Overlay(extras[..|extras| - 1]) + extras[|extras| - 1]
  }

  function OwnedLabels(clusterName: string, clusterID: string, extras: seq<Labels>): Labels {
    Overlay(extras) + map[CLUSTER_NAME := clusterName, CLUSTER_ID := clusterID, MANAGED_BY := MANAGED_BY_VALUE]
  }

  method ResourceLabels(clusterName: string, clusterID: string, extras: seq<Labels>) returns (labels: Labels)
    ensures labels == OwnedLabels(clusterName, clusterID, extras)
  {
    labels := map[];
    for i := 0 to |extras|
      invariant labels == Overlay(extras[..i])
    {
      assert extras[..i + 1][..i] == extras[..i];
      labels := labels + extras[i];
    }
    assert extras[..|extras|] == extras;
    labels := labels[CLUSTER_NAME := clusterName];
    labels := labels[CLUSTER_ID := clusterID];
    labels := labels[MANAGED_BY := MANAGED_BY_VALUE];
  }

  /** Whatever labels the user adds, the owner's selector finds the resource and
      no other cluster's selector does. */
  lemma OwnerAlwaysWins(clusterName: string, clusterID: string, extras: seq<Labels>, someID: string)
    ensures Selects(OwnerSelector(CLUSTER_ID, someID), OwnedLabels(clusterName, clusterID, extras)) <==> someID == clusterID
  {
    var sel := OwnerSelector(CLUSTER_ID, someID);
    assert CLUSTER_ID in sel && MANAGED_BY in sel;
    assert CLUSTER_ID != MANAGED_BY;
  }

  /** Every other key carries the value of the last user map that sets it. */
  lemma {:induction false} LastMapWins(extras: seq<Labels>, i: nat, key: string)
    requires i < |extras| && key in extras[i]
    requires forall j :: i < j < |extras| ==> key !in extras[j]
    ensures key in Overlay(extras) && Overlay(extras)[key] == extras[i][key]
  {
    var n := |extras| - 1;
    if i < n {
      LastMapWins(extras[..n], i, key);
    }
  }

  function MachineLabels(machineName: string, machineID: string, clusterName: string, clusterID: string, extras: seq<Labels>): Labels {
    OwnedLabels(if clusterName == "" then "unknown" else clusterName,
                if clusterID == "" then "unknown" else clusterID, extras)
    + map[MACHINE_ID := machineID, MACHINE_NAME := machineName]
  }

  /** A machine's disks, addresses and groups answer to the machine's selector
      and to the cluster's alike. */
  lemma MachineOwnerAlwaysWins(machineName: string, machineID: string, clusterName: string, clusterID: string,
                               extras: seq<Labels>, someID: string)
    ensures var l := MachineLabels(machineName, machineID, clusterName, clusterID, extras);
      && (Selects(OwnerSelector(MACHINE_ID, someID), l) <==> someID == machineID)
      && (clusterID != "" ==> Selects(OwnerSelector(CLUSTER_ID, clusterID), l))
  {
    var l := MachineLabels(machineName, machineID, clusterName, clusterID, extras);
    var sel := OwnerSelector(MACHINE_ID, someID);
    assert MACHINE_ID in sel && MANAGED_BY in sel;
    assert {MACHINE_ID, MACHINE_NAME} !! {MANAGED_BY, CLUSTER_ID};
    assert l[MANAGED_BY] == MANAGED_BY_VALUE && l[MACHINE_ID] == machineID;
  }

  function UserLabels(cluster: Labels, machine: Labels, hasCluster: bool): Labels {
    if hasCluster then cluster + machine else machine
  }

  /** What a VM's label reads, by who has the last word: the provider, then the
      role, then the cluster's name, then the machine, then the cluster. */
  function VMLabel(key: string, cluster: Labels, machine: Labels, hasCluster: bool, clusterName: string, role: string): Option<string> {
    if key == PROVIDER then Some("evroc")
    else if key == ROLE && role != "" then Some(role)
    else if key == CLUSTER_NAME && hasCluster then Some(clusterName)
    else if key in machine then Some(machine[key])
    else if hasCluster && key in cluster then Some(cluster[key])
    else None
  }

  /** `labels` are those of a VM: each key reads what it should, and no other is there. */
  ghost predicate VMLabelled(labels: Labels, cluster: Labels, machine: Labels, hasCluster: bool, clusterName: string, role: string) {
    forall key :: Reads(labels, key, VMLabel(key, cluster, machine, hasCluster, clusterName, role))
  }

  predicate Reads(labels: Labels, key: string, value: Option<string>) {
    if value.None? then key !in labels else key in labels && labels[key] == value.value
  }

  /** A cluster's selector finds a VM with these labels exactly if the user's own
      labels ask for it. */
  ghost predicate GuardAgrees(clusterID: string, labels: Labels, user: Labels) {
    Selects(OwnerSelector(CLUSTER_ID, clusterID), labels) <==> Selects(OwnerSelector(CLUSTER_ID, clusterID), user)
  }

  /** Labels of a VM.  `clusterName` is absent when the owning cluster is. */
  method MergeLabels(cluster: Labels, machine: Labels, hasCluster: bool, clusterName: string, role: string)
    returns (labels: Labels)
    ensures VMLabelled(labels, cluster, machine, hasCluster, clusterName, role)
    // The controller itself never sets what the owner's selector looks for.
    ensures forall id :: GuardAgrees(id, labels, UserLabels(cluster, machine, hasCluster))
  {
    labels := map[];
    if hasCluster {
      labels := labels + cluster;
      assert labels == cluster;
    }
    labels := labels + machine;
    if hasCluster {
      labels := labels[CLUSTER_NAME := clusterName];
    }
    if role != "" {
      labels := labels[ROLE := role];
    }
    labels := labels[PROVIDER := "evroc"];
    forall key ensures Reads(labels, key, VMLabel(key, cluster, machine, hasCluster, clusterName, role)) {}
    forall id ensures GuardAgrees(id, labels, UserLabels(cluster, machine, hasCluster)) {
      GuardSeesVM(labels, cluster, machine, hasCluster, clusterName, role, id);
    }
  }

  /** The guard that holds back workload cleanup while a node is alive selects VMs
      by marker and cluster ID, which the controller never sets: it sees a VM the
      provider created if and only if the user's own labels happen to carry both. */
  lemma GuardSeesVM(labels: Labels, cluster: Labels, machine: Labels, hasCluster: bool, clusterName: string, role: string, clusterID: string)
    requires VMLabelled(labels, cluster, machine, hasCluster, clusterName, role)
    ensures GuardAgrees(clusterID, labels, UserLabels(cluster, machine, hasCluster))
  {
    var user := UserLabels(cluster, machine, hasCluster);
    assert {CLUSTER_NAME, ROLE, PROVIDER} !! {MANAGED_BY, CLUSTER_ID};
    forall key | key in {MANAGED_BY, CLUSTER_ID}
      ensures (key in labels) == (key in user) && (key in labels ==> labels[key] == user[key])
    {
      assert Reads(labels, key, VMLabel(key, cluster, machine, hasCluster, clusterName, role));
    }
  }

  /** With no user labels the guard is blind. */
  lemma GuardMissesProviderVM(labels: Labels, clusterName: string, role: string, clusterID: string)
    requires VMLabelled(labels, map[], map[], true, clusterName, role)
    ensures !Selects(OwnerSelector(CLUSTER_ID, clusterID), labels)
  {
    GuardSeesVM(labels, map[], map[], true, clusterName, role, clusterID);
    assert MANAGED_BY in OwnerSelector(CLUSTER_ID, clusterID);
  }
}
