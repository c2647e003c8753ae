/** The management cluster's API server as a reconciler meets it: cached reads
    that lag behind, compare-and-swap updates, merge patches that are not, a
    separate status, finalizers, admission, and other writers at work between
    any two calls. */
module Kube {
  import opened Prelude
  import opened Api
  import opened ClusterWebhook

  function FinalizerOf(o: Object): string {
    if o.body.Cluster? then CLUSTER_FINALIZER else MACHINE_FINALIZER
  }

  function OwnerKey(o: Object): string {
    if o.body.Cluster? then CLUSTER_OWNERSHIP_ID else MACHINE_OWNERSHIP_ID
  }

  function OwnerID(o: Object): string {
    Lookup(o.meta.annotations, OwnerKey(o))
  }

  predicate Marked(o: Object) {
    FinalizerOf(o) in o.meta.finalizers
  }

  /** A version from which a reconcile goes on to create cloud resources. */
  predicate Creatable(o: Object) {
    Marked(o) && OwnerID(o) != "" && !o.meta.deleting
  }

  /** Where a cluster's resource names start: the recorded prefix, else the one
      its load balancer was named with, else a new one from name and UID. */
  function Prefix(o: Object): Option<string>
    requires o.body.Cluster?
  {
    if Lookup(o.meta.annotations, RESOURCE_PREFIX) != "" then Some(o.meta.annotations[RESOURCE_PREFIX])
    else if o.body.clusterStatus.lb.Some? && HasSuffix(o.body.clusterStatus.lb.value.id, CP_LB) then
      Some(TrimSuffix(o.body.clusterStatus.lb.value.id, CP_LB))
    else if o.meta.uid == "" then None
    else Some(DerivedPrefix(o.meta.name, o.meta.uid))
  }

  /** The prefix as far as it is recorded on the object itself. */
  function Recorded(o: Object): string {
    Lookup(o.meta.annotations, RESOURCE_PREFIX)
  }

  function ExistingIP(spec: ClusterSpec): string {
    if spec.loadBalancer.Some? && spec.loadBalancer.value.existingIP.Some? then spec.loadBalancer.value.existingIP.value else ""
  }

  /** What a later version of a cluster has in common with an earlier one. */
  predicate ClusterFollows(a: Object, b: Object)
    requires a.body.Cluster? && b.body.Cluster?
  {
    && Prefix(b) == Prefix(a)
    && TextSetOnce(Recorded(a), Recorded(b))
    && Immutables(a.body.cluster, b.body.cluster)
    && ExistingIP(b.body.cluster) == ExistingIP(a.body.cluster)
  }

  /** What a later version of a machine has in common with an earlier one: a
      zone, once assigned, stays. */
  predicate MachineFollows(a: Object, b: Object)
    requires a.body.Machine? && b.body.Machine?
  {
    && TextSetOnce(a.body.machineStatus.zone, b.body.machineStatus.zone)
    && MachineImmutables(a.body.machine, b.body.machine)
  }

  predicate Follows(a: Object, b: Object) {
    && b.meta.name == a.meta.name && b.meta.uid == a.meta.uid
    && (a.meta.deleting ==> b.meta.deleting)
    && TextSetOnce(OwnerID(a), OwnerID(b))
    && a.body.Cluster? == b.body.Cluster?
    && (if a.body.Cluster? then ClusterFollows(a, b) else MachineFollows(a, b))
  }

  lemma FollowsTrans(a: Object, b: Object, c: Object)
    requires Follows(a, b) && Follows(b, c)
    ensures Follows(a, c)
  {
    if a.body.Cluster? { ImmutablesTrans(a.body.cluster, b.body.cluster, c.body.cluster); }
  }

  /** What other writers may do: anything the webhook admits, short of editing the
      provider's own annotations, finalizer or status. */
  predicate Foreign(a: Object, b: Object) {
    && Follows(a, b)
    && OwnerID(b) == OwnerID(a) && Marked(b) == Marked(a)
    && Lookup(b.meta.annotations, RESOURCE_PREFIX) == Lookup(a.meta.annotations, RESOURCE_PREFIX)
  }

  /** Every version ever stored, how far the reader's cache has got, and whether
      the object is gone. */
  datatype Record = Record(versions: seq<Object>, floor: nat, gone: bool)

  function Last(r: Record): Object
    requires r.versions != []
  {
    r.versions[|r.versions| - 1]
  }

  ghost predicate History(versions: seq<Object>) {
    forall i, j {:trigger Follows(versions[i], versions[j])} :: 0 <= i <= j < |versions| ==> Follows(versions[i], versions[j])
  }

  /** Once the finalizer is off, or the object gone, nothing the cache can still
      show leads to a create. */
  ghost predicate Spent(r: Record)
    requires r.versions != []
  {
    r.gone || !Marked(Last(r)) ==>
      forall i {:trigger Creatable(r.versions[i])} | r.floor <= i < |r.versions| :: !Creatable(r.versions[i])
  }

  ghost predicate Sound(r: Record) {
    && r.versions != [] && r.floor <= |r.versions| && (r.floor == |r.versions| ==> r.gone)
    && History(r.versions) && Spent(r)
  }

  /** From `a` to `b` only others wrote, and the cache may have caught up. */
  ghost predicate Elapsed(a: Record, b: Record) {
    && Sound(a) && Sound(b) && a.versions <= b.versions && a.floor <= b.floor
    && OwnerID(Last(b)) == OwnerID(Last(a)) && Marked(Last(b)) == Marked(Last(a))
    && (a.gone ==> b.gone) && (b.gone ==> a.gone || !Marked(Last(a)))
  }

  /** From `a` to `b` the finalizer was not taken off. */
  ghost predicate Kept(a: Record, b: Record) {
    && Sound(a) && Sound(b) && a.versions <= b.versions && a.floor <= b.floor
    && (a.gone ==> b.gone) && (Marked(Last(a)) && !a.gone ==> Marked(Last(b)) && !b.gone)
  }

  lemma KeptTrans(a: Record, b: Record, c: Record)
    requires Kept(a, b) && Kept(b, c)
    ensures Kept(a, c)
  {}

  lemma ElapsedKept(a: Record, b: Record)
    requires Elapsed(a, b)
    ensures Kept(a, b)
  {}

  lemma ElapsedTrans(a: Record, b: Record, c: Record)
    requires Elapsed(a, b) && Elapsed(b, c)
    ensures Elapsed(a, c)
  {}

  /** One more version that follows the last extends a history. */
  lemma Extend(versions: seq<Object>, next: Object)
    requires versions != [] && History(versions) && Follows(versions[|versions| - 1], next)
    ensures History(versions + [next])
  {
    var longer := versions + [next];
    forall i, j | 0 <= i <= j < |longer| ensures Follows(longer[i], longer[j]) {
      if j == |versions| && i < j {
        FollowsTrans(versions[i], versions[|versions| - 1], next);
      } else if j == |versions| {
        FollowsRefl(versions[|versions| - 1], next);
      }
    }
  }

  lemma FollowsRefl(a: Object, b: Object)
    requires Follows(a, b)
    ensures Follows(b, b)
  {}

  datatype ApiError = Stale | Missing | Refused | Unavailable

  function BarStatus(stored: Object, next: Object): Object
    requires stored.body.Cluster? == next.body.Cluster?
  {
    Object(next.meta, if next.body.Cluster? then Cluster(next.body.cluster, stored.body.clusterStatus)
                      else Machine(next.body.machine, stored.body.machineStatus))
  }

  function OnlyStatus(stored: Object, next: Object): Object
    requires stored.body.Cluster? == next.body.Cluster?
  {
    Object(stored.meta, if next.body.Cluster? then Cluster(stored.body.cluster, next.body.clusterStatus)
                        else Machine(stored.body.machine, next.body.machineStatus))
  }

  /** A conditional write of `next` over version `at`: reported success means it
      became the newest version and `at` was the newest before; otherwise either
      that happened all the same or only time passed.  Whatever the caller cannot
      tell apart, it cannot have taken a finalizer off unless it meant to. */
  ghost predicate Landing(a: Record, b: Record, at: nat, next: Object, error: Option<ApiError>)
    requires at < |a.versions|
  {
    && Sound(a) && Sound(b)
    && (Elapsed(a, b) || Landed(a, b, at, next))
    && (error.None? ==> Landed(a, b, at, next))
    && b.floor == a.floor && (a.gone ==> b.gone)
    && ((Marked(a.versions[at]) ==> Marked(next)) ==> Kept(a, b))
  }

  ghost predicate Landed(a: Record, b: Record, at: nat, next: Object) {
    at == |a.versions| - 1 && !a.gone && b == Append(a, next)
  }

  /** The record right after `next` became the newest version. */
  function Append(r: Record, next: Object): Record {
    Record(r.versions + [next], r.floor, next.meta.deleting && next.meta.finalizers == {})
  }

  lemma AppendSound(r: Record, next: Object)
    requires Sound(r) && !r.gone && Follows(Last(r), next)
    requires Marked(Last(r)) && !Marked(next) ==> Last(r).meta.deleting && |r.versions| - 1 <= r.floor
    ensures Sound(Append(r, next)) && ((Marked(Last(r)) ==> Marked(next)) ==> Kept(r, Append(r, next)))
  {
    Extend(r.versions, next);
    var b := Append(r, next);
    assert Last(b) == next;
    forall i | b.floor <= i < |b.versions| && (b.gone || !Marked(next)) ensures !Creatable(b.versions[i]) {
      if i < |r.versions| {
        assert b.versions[i] == r.versions[i];
        if Marked(Last(r)) { assert r.versions[i] == Last(r); }
      } else {
        assert b.versions[i] == next;
      }
    }
  }

  lemma CatchUp(r: Record, at: nat)
    requires Sound(r) && r.floor <= at <= |r.versions| && (at == |r.versions| ==> r.gone)
    ensures Elapsed(r, r.(floor := at))
  {
    var b := r.(floor := at);
    assert b.versions == r.versions && History(b.versions);
    assert Spent(b);
  }

  lemma ElapsedRefl(r: Record)
    requires Sound(r)
    ensures Elapsed(r, r)
  {}

  class Store {
    var r: Record
    /** How often another writer got in, a read was not the newest version, or a
        write that could have landed was refused or lost. */
    ghost var noise: nat

    constructor (first: Object)
      requires !Marked(first) || !first.meta.deleting
      ensures r == Record([first], 0, false) && Sound(r)
    {
      r := Record([first], 0, false);
      noise := 0;
      FollowsSelf(first);
    }

    /** Other writers at work, and the object's disappearance once it is deleted
        and no finalizer holds it. */
    method Drift()
      requires Sound(r)
      modifies this
      ensures Elapsed(old(r), r) && r.floor == old(r.floor)
      ensures noise >= old(noise) && (noise == old(noise) ==> r == old(r))
    {
      ghost var start, n0 := r, noise;
      var busy: bool := *;
      var budget: nat := *;
      while busy && budget > 0 && !r.gone
        invariant Elapsed(start, r) && r.floor == start.floor
        invariant noise >= n0 && (noise == n0 ==> r == start)
        decreases budget
      {
        var next: Object := *;
        if Foreign(Last(r), next) {
          ghost var before := r;
          AppendSound(r, next);
          r := Append(r, next);
          noise := noise + 1;
          ElapsedTrans(start, before, r);
        }
        busy := *;
        budget := budget - 1;
      }
    }

    /** A cached read: some version no older than the last one this reader saw. */
    method Get() returns (error: Option<ApiError>, at: nat)
      requires Sound(r)
      modifies this
      ensures Elapsed(old(r), r)
      ensures error.None? ==> at < |r.versions| && r.floor == at
      ensures error.None? || error == Some(Missing) || error == Some(Unavailable)
      ensures error == Some(Missing) ==> r.gone
      ensures noise >= old(noise)
      ensures noise == old(noise) && !old(r.gone) ==>
        error.None? && r.versions == old(r.versions) && at == |r.versions| - 1 && !r.gone
    {
      ghost var start := r;
      Drift();
      ghost var now := r;
      var missing := *;
      at := *;
      if r.floor <= at < |r.versions| {
        error := None;
        noise := if at < |r.versions| - 1 then noise + 1 else noise;
        CatchUp(r, at);
        r := r.(floor := at);
        ElapsedTrans(start, now, r);
      } else if r.gone && missing {
        error := Some(Missing);
        CatchUp(r, |r.versions|);
        r := r.(floor := |r.versions|);
        ElapsedTrans(start, now, r);
      } else {
        error := Some(Unavailable);
        noise := noise + 1;
      }
    }

    /** Update under optimistic locking: it lands only on the version it was made
        from, and leaves the status alone. */
    method Update(at: nat, next: Object) returns (error: Option<ApiError>)
      requires Sound(r) && at < |r.versions| && next.body.Cluster? == r.versions[at].body.Cluster?
      requires Follows(r.versions[at], BarStatus(r.versions[at], next))
      requires Marked(r.versions[at]) && !Marked(next) ==> r.versions[at].meta.deleting && at <= r.floor
      modifies this
      ensures Landing(old(r), r, at, BarStatus(old(r).versions[at], next), error)
      ensures noise >= old(noise) && (noise == old(noise) && at == |old(r).versions| - 1 && !old(r.gone) ==> error.None?)
    {
      Settle(at);
      error := Land(at, BarStatus(r.versions[at], next));
    }

    /** The same for the status subresource, which leaves all else alone. */
    method UpdateStatus(at: nat, next: Object) returns (error: Option<ApiError>)
      requires Sound(r) && at < |r.versions| && next.body.Cluster? == r.versions[at].body.Cluster?
      requires Follows(r.versions[at], OnlyStatus(r.versions[at], next))
      modifies this
      ensures Landing(old(r), r, at, OnlyStatus(old(r).versions[at], next), error)
      ensures Kept(old(r), r)
      ensures noise >= old(noise) && (noise == old(noise) && at == |old(r).versions| - 1 && !old(r.gone) ==> error.None?)
    {
      Settle(at);
      error := Land(at, OnlyStatus(r.versions[at], next));
    }

    /** Others may get in first. */
    method Settle(at: nat)
      requires Sound(r) && at < |r.versions|
      modifies this
      ensures Elapsed(old(r), r) && r.floor == old(r.floor) && r.versions[at] == old(r).versions[at]
      ensures noise >= old(noise) && (noise == old(noise) ==> r == old(r))
    {
      var racing := *;
      if racing {
        Drift();
      } else {
        ElapsedRefl(r);
      }
    }

    method Land(at: nat, next: Object) returns (error: Option<ApiError>)
      requires Sound(r) && at < |r.versions| && Follows(r.versions[at], next)
      requires Marked(r.versions[at]) && !Marked(next) ==> r.versions[at].meta.deleting && at <= r.floor
      modifies this
      ensures Landing(old(r), r, at, next, error)
      ensures noise >= old(noise) && (noise == old(noise) && at == |old(r).versions| - 1 && !old(r.gone) ==> error.None?)
    {
      var refused, lost, applied := *, *, *;
      if r.gone || at != |r.versions| - 1 {
        ElapsedRefl(r);
        return Some(Stale);
      }
      if refused {
        noise := noise + 1;
        ElapsedRefl(r);
        return Some(Refused);
      }
      if !lost || applied {
        AppendSound(r, next);
        r := Append(r, next);
      } else {
        ElapsedRefl(r);
      }
      noise := if lost then noise + 1 else noise;
      error := if lost then Some(Unavailable) else None;
    }

    /** A merge patch of the object, not conditional on the version it was computed
        from.  Admission compares it with what is stored now. */
    method Patch(at: nat, annotations: map<string, string>, endpoint: Option<Endpoint>) returns (error: Option<ApiError>)
      requires Sound(r) && at < |r.versions| && r.versions[at].body.Cluster?
      requires annotations == map[] || (annotations.Keys == {RESOURCE_PREFIX} && Prefix(r.versions[at]) == Some(annotations[RESOURCE_PREFIX]))
      modifies this
      ensures Kept(old(r), r)
      ensures error.None? ==> Last(r).body.Cluster?
      ensures error.None? && annotations != map[] ==> Recorded(Last(r)) == annotations[RESOURCE_PREFIX]
      ensures error.None? && endpoint.Some? ==> Last(r).body.cluster.endpoint == endpoint.value
    {
      ghost var before := r;
      Drift();
      ElapsedKept(before, r);
      var refused, lost, applied := *, *, *;
      if r.gone {
        return Some(Missing);
      }
      ghost var now := r;
      assert Follows(r.versions[at], Last(r));
      var next := Patched(Last(r), annotations, endpoint);
      if refused || !Immutables(Last(r).body.cluster, next.body.cluster) {
        return Some(Refused);
      }
      if !lost || applied {
        PatchedFollows(Last(r), annotations, endpoint);
        Extend(r.versions, next);
        r := r.(versions := r.versions + [next]);
        KeptTrans(before, now, r);
      }
      error := if lost then Some(Unavailable) else None;
    }

    /** The same for the status, which admission does not see. */
    method PatchStatus(at: nat, was: ClusterStatus, status: ClusterStatus) returns (error: Option<ApiError>)
      requires Sound(r) && at < |r.versions| && r.versions[at].body.Cluster?
      requires status.lb == was.lb || (status.lb.Some? && Prefix(r.versions[at]).Some? && status.lb.value.id == Prefix(r.versions[at]).value + CP_LB)
      modifies this
      ensures Kept(old(r), r)
      ensures error.None? ==> Last(r).body.Cluster?
      ensures error.None? && status.ready != was.ready ==> Last(r).body.clusterStatus.ready == status.ready
      ensures error.None? && status.lb != was.lb ==> Last(r).body.clusterStatus.lb == status.lb
      ensures error.None? && status.groups != was.groups ==> Last(r).body.clusterStatus.groups == status.groups
    {
      ghost var before := r;
      Drift();
      ElapsedKept(before, r);
      var lost, applied := *, *;
      if r.gone {
        return Some(Missing);
      }
      ghost var now := r;
      assert Follows(r.versions[at], Last(r));
      var next := WithStatus(Last(r), was, status);
      if !lost || applied {
        StatusFollows(Last(r), was, status);
        Extend(r.versions, next);
        r := r.(versions := r.versions + [next]);
        KeptTrans(before, now, r);
      }
      error := if lost then Some(Unavailable) else None;
    }
  }

  lemma FollowsSelf(a: Object)
    ensures Follows(a, a)
  {}

  /** A merge patch touches only what changed in the copy. */
  function Patched(o: Object, annotations: map<string, string>, endpoint: Option<Endpoint>): Object
    requires o.body.Cluster?
  {
    var spec := o.body.cluster;
    Object(o.meta.(annotations := o.meta.annotations + annotations),
           Cluster(if endpoint.Some? then spec.(endpoint := endpoint.value) else spec, o.body.clusterStatus))
  }

  function WithStatus(o: Object, was: ClusterStatus, status: ClusterStatus): Object
    requires o.body.Cluster?
  {
    var now := o.body.clusterStatus;
    o.(body := Cluster(o.body.cluster, ClusterStatus(
      if status.ready == was.ready then now.ready else status.ready,
      if status.paused == was.paused then now.paused else status.paused,
      if status.lb == was.lb then now.lb else status.lb,
      if status.groups == was.groups then now.groups else status.groups)))
  }

  lemma PatchedFollows(o: Object, annotations: map<string, string>, endpoint: Option<Endpoint>)
    requires o.body.Cluster? && Immutables(o.body.cluster, Patched(o, annotations, endpoint).body.cluster)
    requires annotations == map[] || (annotations.Keys == {RESOURCE_PREFIX} && Prefix(o) == Some(annotations[RESOURCE_PREFIX]))
    ensures Follows(o, Patched(o, annotations, endpoint)) && Marked(Patched(o, annotations, endpoint)) == Marked(o)
  {}

  lemma TrimInverts(s: string, suffix: string)
    ensures HasSuffix(s + suffix, suffix) && TrimSuffix(s + suffix, suffix) == s
  {}

  lemma StatusFollows(o: Object, was: ClusterStatus, status: ClusterStatus)
    requires o.body.Cluster?
    requires status.lb == was.lb || (status.lb.Some? && Prefix(o).Some? && status.lb.value.id == Prefix(o).value + CP_LB)
    ensures Follows(o, WithStatus(o, was, status)) && Marked(WithStatus(o, was, status)) == Marked(o)
  {
    if Prefix(o).Some? { TrimInverts(Prefix(o).value, CP_LB); }
  }
}
