/** What a reconcile does to its own object before it touches the cloud: pause
    check, ownership ID, finalizer (internal/controller/helpers) and the stable
    resource prefix (internal/controller/evroccluster_controller.go). */
module Ownership {
  import opened Prelude
  import opened CloudApi
  import opened OwnershipLabels
  import opened Api
  import opened ClusterWebhook
  import opened Kube

  /** What reading the owning CAPI Cluster gives. */
  datatype OwnerRead = OwnerFound(paused: bool) | OwnerUnreadable

  predicate HasPausedAnnotation(meta: Meta) {
    PAUSED_ANNOTATION in meta.annotations
  }

  function IsPaused(meta: Meta, owner: OwnerRead): bool {
    if HasPausedAnnotation(meta) then true
    else if Lookup(meta.labels, CLUSTER_NAME_LABEL) == "" then false
    else owner.OwnerFound? && owner.paused
  }

  /** A pause set on the owner alone is missed exactly when it cannot be read or
      the object does not name its owner; the annotation never is. */
  lemma PauseMissedIff(meta: Meta, owner: OwnerRead, ownerPaused: bool)
    requires owner.OwnerFound? ==> owner.paused == ownerPaused
    ensures (HasPausedAnnotation(meta) || ownerPaused) && !IsPaused(meta, owner)
      <==> !HasPausedAnnotation(meta) && ownerPaused && (owner.OwnerUnreadable? || Lookup(meta.labels, CLUSTER_NAME_LABEL) == "")
  {}

  /** A UUID is never empty; which one is drawn is up to the generator. */
  method NewUUID() returns (id: string)
    ensures id != ""
  {
    id := *;
    if id == "" {
      id := "0";
    }
  }

  function Annotated(meta: Meta, key: string, value: string): Meta {
    meta.(annotations := meta.annotations[key := value])
  }

  /** Gives the copy an ownership ID unless it has one. */
  method EnsureClusterOwnershipID(cluster: EvrocCluster) returns (initialized: bool)
    modifies cluster`meta
    ensures initialized <==> OwnerID(old(cluster.Value())) == ""
    ensures OwnerID(cluster.Value()) != ""
    ensures !initialized ==> cluster.meta == old(cluster.meta)
    ensures initialized ==> cluster.meta == Annotated(old(cluster.meta), CLUSTER_OWNERSHIP_ID, OwnerID(cluster.Value()))
  {
    if Lookup(cluster.meta.annotations, CLUSTER_OWNERSHIP_ID) != "" {
      return false;
    }
    var id := NewUUID();
    cluster.meta := Annotated(cluster.meta, CLUSTER_OWNERSHIP_ID, id);
    initialized := true;
  }

  method EnsureMachineOwnershipID(machine: EvrocMachine) returns (initialized: bool)
    modifies machine`meta
    ensures initialized <==> OwnerID(old(machine.Value())) == ""
    ensures OwnerID(machine.Value()) != ""
    ensures !initialized ==> machine.meta == old(machine.meta)
    ensures initialized ==> machine.meta == Annotated(old(machine.meta), MACHINE_OWNERSHIP_ID, OwnerID(machine.Value()))
  {
    if Lookup(machine.meta.annotations, MACHINE_OWNERSHIP_ID) != "" {
      return false;
    }
    var id := NewUUID();
    machine.meta := Annotated(machine.meta, MACHINE_OWNERSHIP_ID, id);
    initialized := true;
  }

  /** How a copy may differ from the version `v` it was read from while a
      reconcile works on it. */
  predicate Working(v: Object, c: Object) {
    && v.body.Cluster? && c.body.Cluster?
    && c.meta == v.meta.(annotations := c.meta.annotations)
    && (c.meta.annotations == v.meta.annotations
        || (Prefix(v).Some? && c.meta.annotations == v.meta.annotations[RESOURCE_PREFIX := Prefix(v).value]))
    && c.body.cluster == v.body.cluster.(endpoint := c.body.cluster.endpoint)
    && (!v.body.cluster.endpoint.IsZero() ==> c.body.cluster.endpoint == v.body.cluster.endpoint)
    && (c.body.clusterStatus.lb == v.body.clusterStatus.lb
        || (Prefix(v).Some? && c.body.clusterStatus.lb.Some? && c.body.clusterStatus.lb.value.id == Prefix(v).value + CP_LB))
  }

  /** The copy has its prefix written down (one that is empty cannot be told from
      none). */
  predicate Named(v: Object, c: Object)
    requires v.body.Cluster?
  {
    Prefix(v).Some? && (Prefix(v).value != "" ==> Recorded(c) == Prefix(v).value)
  }

  /** Whatever a reconcile has done to its copy so far, the copy still resolves to
      the prefix and the owner of the version it was read from. */
  lemma WorkingKeepsIdentity(v: Object, c: Object)
    requires Working(v, c)
    ensures Prefix(c) == Prefix(v) && OwnerID(c) == OwnerID(v)
  {
    if Prefix(v).Some? { TrimInverts(Prefix(v).value, CP_LB); }
  }

  /** Resolves the prefix and records it in the copy. */
  method ClusterResourcePrefix(cluster: EvrocCluster) returns (prefix: Option<string>)
    modifies cluster`meta
    ensures prefix == Prefix(old(cluster.Value()))
    ensures prefix.None? ==> cluster.meta == old(cluster.meta)
    ensures prefix.Some? ==> cluster.meta == Annotated(old(cluster.meta), RESOURCE_PREFIX, prefix.value)
  {
    ghost var before := cluster.meta;
    var recorded := Lookup(cluster.meta.annotations, RESOURCE_PREFIX);
    if recorded != "" {
      assert cluster.meta.annotations[RESOURCE_PREFIX := recorded] == cluster.meta.annotations;
      return Some(recorded);
    }
    if cluster.status.lb.Some? {
      var lbName := cluster.status.lb.value.id;
      if HasSuffix(lbName, CP_LB) {
        var stripped := TrimSuffix(lbName, CP_LB);
        RecordPrefix(cluster, stripped);
        return Some(stripped);
      }
    }
    if cluster.meta.uid == "" {
      return None;
    }
    var uidPrefix := cluster.meta.uid;
    if |uidPrefix| > 8 {
      uidPrefix := uidPrefix[..8];
    }
    var derived := cluster.meta.name + "-" + uidPrefix;
    RecordPrefix(cluster, derived);
    prefix := Some(derived);
  }

  method RecordPrefix(cluster: EvrocCluster, prefix: string)
    modifies cluster`meta
    ensures cluster.meta == Annotated(old(cluster.meta), RESOURCE_PREFIX, prefix)
  {
    cluster.meta := Annotated(cluster.meta, RESOURCE_PREFIX, prefix);
  }

  /** The name both controllers know the cluster's load balancer by. */
  function LoadBalancerName(v: Object): Option<string>
    requires v.body.Cluster?
  {
    match Prefix(v) case Some(p) => Some(p + CP_LB) case None => None
  }

  method ResolveLoadBalancerName(cluster: EvrocCluster, ghost v: Object) returns (name: Option<string>)
    requires Working(v, cluster.Value())
    modifies cluster`meta
    ensures Working(v, cluster.Value()) && name == LoadBalancerName(v) && (name.Some? ==> Named(v, cluster.Value()))
  {
    WorkingKeepsIdentity(v, cluster.Value());
    ghost var annotations := cluster.meta.annotations;
    var prefix := ClusterResourcePrefix(cluster);
    if prefix.Some? {
      assert v.meta.annotations[RESOURCE_PREFIX := prefix.value][RESOURCE_PREFIX := prefix.value] == v.meta.annotations[RESOURCE_PREFIX := prefix.value];
    }
    name := match prefix case Some(p) => Some(p + CP_LB) case None => None;
  }

  /** Any two versions of a cluster that coexist in any cache name the same load
      balancer, so the cluster and machine controllers always agree on it. */
  lemma ControllersAgreeOnName(r: Record, i: nat, j: nat)
    requires Sound(r) && i < |r.versions| && j < |r.versions| && r.versions[0].body.Cluster?
    ensures r.versions[i].body.Cluster? && r.versions[j].body.Cluster?
    ensures LoadBalancerName(r.versions[i]) == LoadBalancerName(r.versions[j])
  {
    assert Follows(r.versions[0], r.versions[i]);
    assert Follows(r.versions[0], r.versions[j]);
  }

  /** What `clusterctl move` recreates elsewhere: same name, annotations, labels,
      finalizers and spec, but a new UID and no status. */
  function Moved(o: Object, uid: string): Object
    requires o.body.Cluster?
  {
    Object(o.meta.(uid := uid), Cluster(o.body.cluster, ClusterStatus(false, false, None, [])))
  }

  /** A move keeps the prefix for every possible new UID if and only if it is
      already recorded as an annotation. */
  lemma MoveKeepsPrefixIff(o: Object)
    requires o.body.Cluster? && Prefix(o).Some?
    ensures (forall uid :: Prefix(Moved(o, uid)) == Prefix(o)) <==> Lookup(o.meta.annotations, RESOURCE_PREFIX) != ""
  {
    if Lookup(o.meta.annotations, RESOURCE_PREFIX) == "" {
      assert Prefix(Moved(o, "")) == None;
    }
  }

  /** Moving before the prefix is recorded renames the load balancer, for any new
      UID that differs early enough: the old one is no longer found by name. */
  lemma EarlyMoveRenames(name: string, uid: string, newUID: string, o: Object)
    requires o.body.Cluster? && o.meta.name == name && o.meta.uid == uid && o.body.clusterStatus.lb == None
    requires |uid| >= 8 && |newUID| >= 8 && uid[..8] != newUID[..8]
    requires Lookup(o.meta.annotations, RESOURCE_PREFIX) == ""
    ensures LoadBalancerName(o).Some? && LoadBalancerName(Moved(o, newUID)).Some?
    ensures LoadBalancerName(Moved(o, newUID)) != LoadBalancerName(o)
  {
    var a, b := name + "-" + uid[..8] + CP_LB, name + "-" + newUID[..8] + CP_LB;
    assert a[|name| + 1..|name| + 9] == uid[..8] && b[|name| + 1..|name| + 9] == newUID[..8];
    assert DerivedPrefix(name, uid) == name + "-" + uid[..8] by { if |uid| == 8 { assert uid[..8] == uid; } }
    assert DerivedPrefix(name, newUID) == name + "-" + newUID[..8] by { if |newUID| == 8 { assert newUID[..8] == newUID; } }
  }
}
