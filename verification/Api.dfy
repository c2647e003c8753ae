/** EvrocCluster and EvrocMachine (api/v1beta1): what the API server stores and
    the in-memory copy a reconcile mutates. */
module Api {
  import opened Prelude
  import opened CloudApi

  datatype Endpoint = Endpoint(host: string, port: int) {
    predicate IsZero() {
      host == "" && port == 0
    }
  }

  datatype InlineGroup = InlineGroup(name: string, rules: seq<Rule>)
  datatype Section = Section(inlined: seq<InlineGroup>, existing: seq<string>)
  datatype Sections = Sections(common: Option<Section>, controlPlane: Option<Section>, worker: Option<Section>)
  datatype LBConfig = LBConfig(existingIP: Option<string>, ports: seq<int>)

  datatype ClusterSpec = ClusterSpec(
    project: string, region: string, credentials: Option<string>,
    vpc: Option<string>, subnets: map<string, string>, stackType: Option<string>,
    apiBaseURL: string, issuerURL: string, clientID: string,
    endpoint: Endpoint, policy: string,
    failureDomains: seq<string>, labels: Labels,
    loadBalancer: Option<LBConfig>, groups: Option<Sections>)

  datatype TrackedGroup = TrackedGroup(id: string, managed: bool, role: string)
  datatype TrackedLB = TrackedLB(id: string, address: string, backends: set<string>)
  datatype ClusterStatus = ClusterStatus(ready: bool, paused: bool, lb: Option<TrackedLB>, groups: seq<TrackedGroup>)

  datatype DataDisk = DataDisk(name: string, sizeGB: int, image: Option<string>)
  datatype PublicIPConfig = PublicIPConfig(enabled: bool, existingID: Option<string>)
  datatype MachineGroups = MachineGroups(inheritFromCluster: bool, inlined: seq<InlineGroup>, existing: seq<string>)

  datatype MachineSpec = MachineSpec(
    project: string, region: string, profile: string, image: string, rootDiskSize: int, disks: seq<DataDisk>, labels: Labels,
    publicIP: Option<PublicIPConfig>, groups: Option<MachineGroups>, placement: Option<string>)

  datatype TrackedDisk = TrackedDisk(id: string, sizeGB: int, managed: bool)
  datatype MachineStatus = MachineStatus(zone: string, machineID: string, ready: bool, paused: bool, disks: seq<TrackedDisk>)

  datatype Meta = Meta(
    name: string, uid: string, annotations: map<string, string>, labels: map<string, string>,
    finalizers: set<string>, deleting: bool)

  datatype Body =
    | Cluster(cluster: ClusterSpec, clusterStatus: ClusterStatus)
    | Machine(machine: MachineSpec, machineStatus: MachineStatus)

  datatype Object = Object(meta: Meta, body: Body)

  /** The copy of a cluster a reconcile (or an admission call) works on. */
  class EvrocCluster {
    var meta: Meta
    var spec: ClusterSpec
    var status: ClusterStatus

    constructor (meta: Meta, spec: ClusterSpec, status: ClusterStatus)
      ensures this.meta == meta && this.spec == spec && this.status == status
    {
      this.meta := meta;
      this.spec := spec;
      this.status := status;
    }

    function Value(): Object
      reads this
    {
      Object(meta, Cluster(spec, status))
    }
  }

  /** The copy of a machine a reconcile works on. */
  class EvrocMachine {
    var meta: Meta
    var spec: MachineSpec
    var status: MachineStatus

    constructor (meta: Meta, spec: MachineSpec, status: MachineStatus)
      ensures this.meta == meta && this.spec == spec && this.status == status
    {
      this.meta := meta;
      this.spec := spec;
      this.status := status;
    }

    function Value(): Object
      reads this
    {
      Object(meta, Machine(spec, status))
    }
  }

  const MANAGED := "Managed"
  const EXTERNAL := "External"

  const CLUSTER_FINALIZER := "evroccluster.infrastructure.cluster.x-k8s.io"
  const CLUSTER_OWNERSHIP_ID := "evroccluster.infrastructure.cluster.x-k8s.io/ownership-id"
  const RESOURCE_PREFIX := "evroccluster.infrastructure.cluster.x-k8s.io/resource-prefix"
  const DELETE_CSI_DISKS := "evroccluster.infrastructure.cluster.x-k8s.io/delete-csi-disks"
  const MACHINE_FINALIZER := "infrastructure.cluster.x-k8s.io/evrocmachine"
  const MACHINE_OWNERSHIP_ID := "evrocmachine.infrastructure.cluster.x-k8s.io/ownership-id"
  const PAUSED_ANNOTATION := "cluster.x-k8s.io/paused"
  const CLUSTER_NAME_LABEL := "cluster.x-k8s.io/cluster-name"
  const CONTROL_PLANE_LABEL := "cluster.x-k8s.io/control-plane"

  /** Go map lookup: an absent key reads as the empty string. */
  function Lookup(m: map<string, string>, key: string): string {
    if key in m then m[key] else ""
  }

  predicate ManagesEndpoint(spec: ClusterSpec) {
    spec.policy != EXTERNAL
  }

  function StackType(spec: ClusterSpec): string {
    if spec.stackType.Some? then spec.stackType.value else "dual-stack"
  }

  function SubnetName(spec: ClusterSpec, zone: string): string {
    if zone in spec.subnets then spec.subnets[zone] else "default-" + spec.region + "-" + zone
  }
}
