/** Deleting a machine (internal/controller/evrocmachine_controller.go,
    deleteMachineFromCloud): out of the load balancer's pool, then the VM, and only
    once the VM is seen to be gone everything else the machine owns. */
module MachineTeardown {
  import opened Prelude
  import opened CloudApi
  import opened OwnershipLabels
  import opened LoadBalancers
  import opened Api
  import opened Kube
  import opened Ownership
  import opened MachineProvisioning

  /** The kinds a machine owns besides its VM, in the order they are deleted. */
  const OWNED_KINDS: seq<Kind> := [SG, IP, Disk]

  /** What reading the owning EvrocCluster gives. */
  datatype ClusterRead = ClusterFound(cluster: Object) | ClusterAbsent | ClusterUnreadable

  predicate OwnedByMachine(res: map<Key, Resource>, k: Key, owner: string) {
    k in res && k.kind in OWNED_KINDS && Selects(OwnerSelector(MACHINE_ID, owner), res[k].labels)
  }

  function Dependents(res: map<Key, Resource>, owner: string): set<Key> {
    set k | k in res && OwnedByMachine(res, k, owner)
  }

  /** From `a` to `b` resources only went away, apart from pools losing members;
      what went was dying or in `marked`. */
  ghost predicate Wanes(a: State, b: State, marked: set<Key>) {
    && (forall k <- b.res :: k in a.res && b.res[k].labels == a.res[k].labels && b.res[k].creator == a.res[k].creator
          && (k.kind != Pool ==> b.res[k].spec == a.res[k].spec))
    && (forall k <- a.res :: k in b.res || k in a.dying || k in marked)
    && a.dying * b.res.Keys <= b.dying <= a.dying + marked
  }

  lemma WanesTrans(a: State, b: State, c: State, marked: set<Key>)
    requires Wanes(a, b, marked) && Wanes(b, c, marked)
    ensures Wanes(a, c, marked)
  {}

  lemma WanesWiden(a: State, b: State, less: set<Key>, marked: set<Key>)
    requires Wanes(a, b, less) && less <= marked
    ensures Wanes(a, b, marked)
  {}

  lemma ShedWanes(a: State, b: State, marked: set<Key>)
    requires Shed(a, b, marked)
    ensures Wanes(a, b, marked)
  {}

  lemma WanesSelf(a: State, marked: set<Key>)
    requires a.dying <= a.res.Keys
    ensures Wanes(a, a, marked)
  {}

  lemma FewerDependents(a: State, b: State, marked: set<Key>, owner: string)
    requires Shed(a, b, marked) || Wanes(a, b, marked)
    ensures Dependents(b.res, owner) <= Dependents(a.res, owner)
  {}

  // ---- The log ----

  ghost predicate Tried(log: seq<Call>, from: nat, k: Key) {
    exists j | from < j < |log| :: log[j].op == DeleteOp(k)
  }

  lemma TriedLasts(log: seq<Call>, longer: seq<Call>, from: nat)
    requires log <= longer
    ensures forall k :: Tried(log, from, k) ==> Tried(longer, from, k)
  {
    forall k | Tried(log, from, k) ensures Tried(longer, from, k) {
      var j :| from < j < |log| && log[j].op == DeleteOp(k);
      assert longer[j] == log[j];
    }
  }

  predicate Going(s: State, k: Key) {
    k in s.res ==> k in s.dying
  }

  ghost predicate TriedAll(log: seq<Call>, from: nat, kind: Kind, names: seq<string>) {
    forall n <- names :: Tried(log, from, Key(kind, n))
  }

  ghost predicate AllOf(s: State, kind: Kind, names: seq<string>) {
    forall n <- names :: Going(s, Key(kind, n))
  }

  lemma NextTried(log: seq<Call>, longer: seq<Call>, from: nat, kind: Kind, names: seq<string>, name: string)
    requires TriedAll(log, from, kind, names) && from < |log| && log <= longer
    requires |longer| > |log| && longer[|log|].op == DeleteOp(Key(kind, name))
    ensures TriedAll(longer, from, kind, names + [name])
  {
    TriedLasts(log, longer, from);
    assert Tried(longer, from, Key(kind, name));
  }

  lemma NextGoing(a: State, b: State, kind: Kind, names: seq<string>, name: string, ok: bool)
    requires Shrunk(a, b) && (ok ==> AllOf(a, kind, names) && Going(b, Key(kind, name)))
    ensures ok ==> AllOf(b, kind, names + [name])
  {}

  /** After `start` calls, everything of one kind with these labels was listed and
      every name on the list was tried. */
  ghost predicate Attempted(log: seq<Call>, start: nat, kind: Kind, sel: Labels) {
    exists i | start <= i < |log| :: AttemptedAt(log, i, kind, sel)
  }

  ghost predicate AttemptedAt(log: seq<Call>, i: nat, kind: Kind, sel: Labels)
    requires i < |log|
  {
    log[i].op.ListOp? && log[i].op.kind == kind && log[i].op.selector == sel && TriedAll(log, i, kind, log[i].op.names)
  }

  lemma AttemptLasts(log: seq<Call>, longer: seq<Call>, start: nat, earlier: nat, kind: Kind, sel: Labels)
    requires Attempted(log, start, kind, sel) && log <= longer && earlier <= start
    ensures Attempted(longer, earlier, kind, sel)
  {
    var i :| start <= i < |log| && AttemptedAt(log, i, kind, sel);
    TriedLasts(log, longer, i);
    assert AttemptedAt(longer, i, kind, sel);
  }

  /** Nothing the machine owns is left that is not already on its way out. */
  ghost predicate AllGoing(s: State, kind: Kind, owner: string) {
    forall k <- s.res :: k.kind == kind && Selects(OwnerSelector(MACHINE_ID, owner), s.res[k].labels) ==> k in s.dying
  }

  lemma StillGoing(a: State, b: State, marked: set<Key>, kind: Kind, owner: string)
    requires Shed(a, b, marked) && AllGoing(a, kind, owner)
    ensures AllGoing(b, kind, owner)
  {}

  datatype Outcome = Finished | Pending | Failure

  class Teardown {
    const cloud: Cloud

    constructor (cloud: Cloud)
      ensures this.cloud == cloud
    {
      this.cloud := cloud;
    }

    /** Takes one machine out of a load balancer's pool. */
    method RemoveBackend(lb: string, vm: string) returns (error: Option<Error>)
      requires cloud.Valid()
      modifies cloud`s, cloud`calls, cloud`faults, cloud`conflicts
      ensures cloud.faults >= old(cloud.faults)
      ensures cloud.Valid() && Wanes(old(cloud.s), cloud.s, {}) && old(cloud.calls) <= cloud.calls
      ensures forall name :: !VMGoneSeen(old(cloud.calls), cloud.calls, name)
      ensures error.None? || error == Some(NotFound) ==> Deregistered(cloud.s, lb, vm)
    {
      ghost var s0 := cloud.s;
      var k := PoolKey(lb);
      var view;
      error, view := cloud.Get(k);
      ghost var s1 := cloud.s;
      ShedWanes(s0, s1, {});
      if error.Some? {
        return;
      }
      error := cloud.Patch(k, PoolSpec(view.value.resource.spec.backends - {vm}));
      PatchWanes(s1, cloud.s, k);
      WanesTrans(s0, s1, cloud.s, {});
    }

    /** A control plane machine leaves the pool of the endpoint its cluster
        manages; without a cluster there is no pool to leave. */
    method Deregister(v: Object, lookup: ClusterRead) returns (broken: bool)
      requires cloud.Valid() && (lookup.ClusterFound? ==> lookup.cluster.body.Cluster?)
      modifies cloud`s, cloud`calls, cloud`faults, cloud`conflicts
      ensures cloud.faults >= old(cloud.faults)
      ensures cloud.Valid() && Wanes(old(cloud.s), cloud.s, {}) && old(cloud.calls) <= cloud.calls
      ensures forall name :: !VMGoneSeen(old(cloud.calls), cloud.calls, name)
      ensures !broken && lookup.ClusterFound? && MustLeave(v, lookup.cluster).Some? ==>
        Deregistered(cloud.s, MustLeave(v, lookup.cluster).value, v.meta.name)
    {
      WanesSelf(cloud.s, {});
      broken := false;
      if CONTROL_PLANE_LABEL in v.meta.labels && lookup.ClusterFound? && ManagesEndpoint(lookup.cluster.body.cluster) {
        match LoadBalancerName(lookup.cluster)
        case None =>
        case Some(lb) =>
          if lb != "" {
            var error := RemoveBackend(lb, v.meta.name);
            broken := error.Some? && error != Some(NotFound);
          }
      }
    }

    /** Lists everything of one kind the machine owns and tries every name. */
    method DeleteKind(kind: Kind, owner: string) returns (broken: bool)
      requires cloud.Valid() && kind in OWNED_KINDS
      modifies cloud`s, cloud`calls, cloud`faults, cloud`conflicts
      ensures cloud.faults >= old(cloud.faults)
      ensures cloud.Valid() && old(cloud.calls) <= cloud.calls
      ensures Shed(old(cloud.s), cloud.s, Dependents(old(cloud.s).res, owner))
      ensures !broken ==> AllGoing(cloud.s, kind, owner)
      ensures Attempted(cloud.calls, |old(cloud.calls)|, kind, OwnerSelector(MACHINE_ID, owner))
    {
      ghost var s0, at := cloud.s, |cloud.calls|;
      ghost var owned, sel := Dependents(s0.res, owner), OwnerSelector(MACHINE_ID, owner);
      var error, names := cloud.List(kind, OwnerSelector(MACHINE_ID, owner));
      ghost var s1 := cloud.s;
      ShedWiden(s0, s1, {}, owned);
      assert cloud.calls[at].op == ListOp(kind, sel, names);
      if error.Some? {
        assert AttemptedAt(cloud.calls, at, kind, sel);
        return true;
      }
      broken := DeleteNames(kind, names, owned, s0, at);
      assert AttemptedAt(cloud.calls, at, kind, sel);
      if !broken { ListedAll(s1, cloud.s, kind, owner, names); }
    }

    method DeleteNames(kind: Kind, names: seq<string>, ghost owned: set<Key>, ghost s0: State, ghost at: nat) returns (broken: bool)
      requires cloud.Valid() && Shed(s0, cloud.s, owned) && at < |cloud.calls| && forall n <- names :: Key(kind, n) in owned
      modifies cloud`s, cloud`calls, cloud`faults, cloud`conflicts
      ensures cloud.faults >= old(cloud.faults)
      ensures cloud.Valid() && Shed(s0, cloud.s, owned) && old(cloud.calls) <= cloud.calls
      ensures Within(old(cloud.s).res, cloud.s.res)
      ensures TriedAll(cloud.calls, at, kind, names) && (!broken ==> AllOf(cloud.s, kind, names))
    {
      ghost var s1, c1 := cloud.s, cloud.calls;
      broken := false;
      for i := 0 to |names|
        invariant cloud.Valid() && cloud.faults >= old(cloud.faults)
        invariant Shed(s0, cloud.s, owned) && c1 <= cloud.calls && Within(s1.res, cloud.s.res)
        invariant TriedAll(cloud.calls, at, kind, names[..i])
        invariant !broken ==> AllOf(cloud.s, kind, names[..i])
      {
        ghost var before, log := cloud.s, cloud.calls;
        var failed := DeleteOne(Key(kind, names[i]), owned, s0);
        assert names[..i + 1] == names[..i] + [names[i]];
        NextTried(log, cloud.calls, at, kind, names[..i], names[i]);
        NextGoing(before, cloud.s, kind, names[..i], names[i], !broken && !failed);
        broken := broken || failed;
      }
      assert names[..|names|] == names;
    }

    method DeleteOne(k: Key, ghost owned: set<Key>, ghost s0: State) returns (failed: bool)
      requires cloud.Valid() && k in owned && Shed(s0, cloud.s, owned)
      modifies cloud`s, cloud`calls, cloud`faults, cloud`conflicts
      ensures cloud.faults >= old(cloud.faults)
      ensures cloud.Valid() && Shed(s0, cloud.s, owned) && Shrunk(old(cloud.s), cloud.s) && Within(old(cloud.s).res, cloud.s.res)
      ensures |cloud.calls| == |old(cloud.calls)| + 1 && old(cloud.calls) <= cloud.calls && cloud.calls[|old(cloud.calls)|].op == DeleteOp(k)
      ensures !failed ==> Going(cloud.s, k)
    {
      ghost var before := cloud.s;
      var error := cloud.Delete(k);
      ShedWiden(before, cloud.s, {k}, owned);
      ShedTrans(s0, before, cloud.s, owned, owned);
      assert owned + owned == owned;
      failed := error.Some? && error != Some(NotFound);
    }

    /** All three kinds are tried, whichever of them fails. */
    method DeleteDependents(owner: string) returns (broken: bool)
      requires cloud.Valid()
      modifies cloud`s, cloud`calls, cloud`faults, cloud`conflicts
      ensures cloud.faults >= old(cloud.faults)
      ensures cloud.Valid() && old(cloud.calls) <= cloud.calls
      ensures Shed(old(cloud.s), cloud.s, Dependents(old(cloud.s).res, owner))
      ensures !broken ==> forall kind <- OWNED_KINDS :: AllGoing(cloud.s, kind, owner)
      ensures forall kind <- OWNED_KINDS :: Attempted(cloud.calls, |old(cloud.calls)|, kind, OwnerSelector(MACHINE_ID, owner))
    {
      ghost var s0, c0 := cloud.s, cloud.calls;
      ghost var owned, sel := Dependents(s0.res, owner), OwnerSelector(MACHINE_ID, owner);
      broken := false;
      ShedRefl(s0, owned);
      for i := 0 to |OWNED_KINDS|
        invariant cloud.Valid() && cloud.faults >= old(cloud.faults) && c0 <= cloud.calls && Shed(s0, cloud.s, owned)
        invariant !broken ==> forall j | 0 <= j < i :: AllGoing(cloud.s, OWNED_KINDS[j], owner)
        invariant forall j | 0 <= j < i :: Attempted(cloud.calls, |c0|, OWNED_KINDS[j], sel)
      {
        ghost var before, log := cloud.s, cloud.calls;
        var failed := DeleteKind(OWNED_KINDS[i], owner);
        FewerDependents(s0, before, owned, owner);
        ShedWiden(before, cloud.s, Dependents(before.res, owner), owned);
        ShedTrans(s0, before, cloud.s, owned, owned);
        assert owned + owned == owned;
        forall j | 0 <= j <= i ensures Attempted(cloud.calls, |c0|, OWNED_KINDS[j], sel) {
          AttemptLasts(if j < i then log else cloud.calls, cloud.calls, if j < i then |c0| else |log|, |c0|, OWNED_KINDS[j], sel);
        }
        if !broken {
          forall j | 0 <= j < i ensures AllGoing(cloud.s, OWNED_KINDS[j], owner) {
            StillGoing(before, cloud.s, owned, OWNED_KINDS[j], owner);
          }
        }
        broken := broken || failed;
      }
    }

    /** One pass of a machine's deletion. */
    method DeleteMachineFromCloud(v: Object, lookup: ClusterRead) returns (outcome: Outcome)
      requires cloud.Valid() && v.body.Machine? && (lookup.ClusterFound? ==> lookup.cluster.body.Cluster?)
      modifies cloud`s, cloud`calls, cloud`faults, cloud`conflicts
      ensures cloud.faults >= old(cloud.faults)
      ensures cloud.Valid() && old(cloud.calls) <= cloud.calls
      // The VM goes first: as long as it is there nothing else is deleted.
      ensures Wanes(old(cloud.s), cloud.s, {VMKey(v.meta.name)}) ||
              (VMKey(v.meta.name) !in cloud.s.res && Wanes(old(cloud.s), cloud.s, Dependents(old(cloud.s).res, OwnerID(v))))
      // Once it is gone all three kinds are tried, whatever fails.
      ensures VMGoneSeen(old(cloud.calls), cloud.calls, v.meta.name) ==>
        forall kind <- OWNED_KINDS :: Attempted(cloud.calls, |old(cloud.calls)|, kind, OwnerSelector(MACHINE_ID, OwnerID(v)))
      // Finished means nothing owned is left that is not going, and the pool let go of it.
      ensures outcome.Finished? ==>
        && OwnerID(v) != "" && VMKey(v.meta.name) !in cloud.s.res
        && (forall kind <- OWNED_KINDS :: AllGoing(cloud.s, kind, OwnerID(v)))
        && (lookup.ClusterFound? && MustLeave(v, lookup.cluster).Some? ==>
              Deregistered(cloud.s, MustLeave(v, lookup.cluster).value, v.meta.name))
    {
      ghost var s0, c0 := cloud.s, cloud.calls;
      WanesSelf(s0, {VMKey(v.meta.name)});
      var owner := Lookup(v.meta.annotations, MACHINE_OWNERSHIP_ID);
      if owner == "" || (CONTROL_PLANE_LABEL in v.meta.labels && lookup.ClusterUnreadable?) {
        return Failure;
      }
      var broken := Deregister(v, lookup);
      ghost var s1, c1 := cloud.s, cloud.calls;
      WanesWiden(s0, s1, {}, {VMKey(v.meta.name)});
      var gone;
      outcome, gone := DeleteVM(v.meta.name);
      ShedWanes(s1, cloud.s, {VMKey(v.meta.name)});
      WanesTrans(s0, s1, cloud.s, {VMKey(v.meta.name)});
      if !gone {
        if VMGoneSeen(c0, cloud.calls, v.meta.name) { SeenSplit(c0, c1, cloud.calls, v.meta.name); }
        return;
      }
      ghost var s2, c2 := cloud.s, cloud.calls;
      var failed := DeleteDependents(owner);
      AfterVM(s0, s1, s2, cloud.s, owner, v.meta.name);
      forall kind <- OWNED_KINDS ensures Attempted(cloud.calls, |c0|, kind, OwnerSelector(MACHINE_ID, owner)) {
        AttemptLasts(cloud.calls, cloud.calls, |c2|, |c0|, kind, OwnerSelector(MACHINE_ID, owner));
      }
      outcome := if broken || failed then Failure else Finished;
    }

    /** Submits the VM's deletion, or sees that it is gone. */
    method DeleteVM(name: string) returns (outcome: Outcome, gone: bool)
      requires cloud.Valid()
      modifies cloud`s, cloud`calls, cloud`faults, cloud`conflicts
      ensures cloud.faults >= old(cloud.faults)
      ensures cloud.Valid() && old(cloud.calls) <= cloud.calls
      ensures Shed(old(cloud.s), cloud.s, {VMKey(name)}) && !outcome.Finished?
      ensures gone ==> VMKey(name) !in cloud.s.res && Shed(old(cloud.s), cloud.s, {})
      ensures gone <==> VMGoneSeen(old(cloud.calls), cloud.calls, name)
    {
      ghost var s0, c0 := cloud.s, cloud.calls;
      var error, view := cloud.Get(VMKey(name));
      ghost var s1 := cloud.s;
      ShedWiden(s0, s1, {}, {VMKey(name)});
      assert cloud.calls[|c0|] == Call(GetOp(VMKey(name), Members(view)), error);
      gone := error == Some(NotFound);
      if error.Some? {
        return Failure, gone;
      }
      error := cloud.Delete(VMKey(name));
      ShedTrans(s0, s1, cloud.s, {}, {VMKey(name)});
      assert {} + {VMKey(name)} == {VMKey(name)};
      outcome := if error.Some? && error != Some(NotFound) then Failure else Pending;
    }
  }

  /** Among the new calls is one that asked for the VM and was told it is gone. */
  ghost predicate VMGoneSeen(before: seq<Call>, after: seq<Call>, name: string) {
    exists i | |before| <= i < |after| :: after[i] == Call(GetOp(VMKey(name), []), Some(NotFound))
  }

  lemma SeenSplit(a: seq<Call>, b: seq<Call>, c: seq<Call>, name: string)
    requires a <= b <= c && VMGoneSeen(a, c, name)
    ensures VMGoneSeen(a, b, name) || VMGoneSeen(b, c, name)
  {
    var i :| |a| <= i < |c| && c[i] == Call(GetOp(VMKey(name), []), Some(NotFound));
    if i < |b| { assert b[i] == c[i]; }
  }

  /** The pool the machine has to leave, if any. */
  function MustLeave(v: Object, cluster: Object): Option<string>
    requires cluster.body.Cluster?
  {
    if CONTROL_PLANE_LABEL in v.meta.labels && ManagesEndpoint(cluster.body.cluster) then LoadBalancerName(cluster) else None
  }

  ghost predicate Deregistered(s: State, lb: string, vm: string) {
    PoolKey(lb) in s.res ==> s.res[PoolKey(lb)].spec.PoolSpec? && vm !in s.res[PoolKey(lb)].spec.backends
  }

  lemma PatchWanes(a: State, b: State, k: Key)
    requires k.kind == Pool && a.dying <= a.res.Keys
    requires Shed(a, b, {}) || (k in a.res && k in b.res && Shed(a, b.(res := b.res[k := a.res[k]]), {})
                                && b.res[k].labels == a.res[k].labels && b.res[k].creator == a.res[k].creator)
    ensures Wanes(a, b, {})
  {
    if !Shed(a, b, {}) {
      var c := b.(res := b.res[k := a.res[k]]);
      assert c.res.Keys == b.res.Keys;
      assert forall x <- b.res :: x != k ==> c.res[x] == b.res[x];
    }
  }

  lemma ListedAll(s1: State, s: State, kind: Kind, owner: string, names: seq<string>)
    requires Within(s1.res, s.res) && AllOf(s, kind, names)
    requires forall n :: n in names <==> Key(kind, n) in s1.res && Selects(OwnerSelector(MACHINE_ID, owner), s1.res[Key(kind, n)].labels)
    ensures AllGoing(s, kind, owner)
  {
    forall k <- s.res | k.kind == kind && Selects(OwnerSelector(MACHINE_ID, owner), s.res[k].labels) ensures k in s.dying {
      assert k == Key(kind, k.name) && k.name in names;
      assert Going(s, Key(kind, k.name));
    }
  }

  /** Leaving the pool first, then the VM, then the rest, adds up. */
  lemma AfterVM(s0: State, s1: State, s2: State, s3: State, owner: string, name: string)
    requires Wanes(s0, s1, {}) && Shed(s1, s2, {}) && VMKey(name) !in s2.res
    requires Shed(s2, s3, Dependents(s2.res, owner))
    ensures Wanes(s0, s3, Dependents(s0.res, owner)) && VMKey(name) !in s3.res
    ensures forall lb :: Deregistered(s1, lb, name) ==> Deregistered(s3, lb, name)
  {
    var owned := Dependents(s0.res, owner);
    ShedWanes(s1, s2, {});
    WanesTrans(s0, s1, s2, {});
    FewerDependents(s0, s2, {}, owner);
    ShedWanes(s2, s3, Dependents(s2.res, owner));
    WanesWiden(s2, s3, Dependents(s2.res, owner), owned);
    WanesWiden(s0, s2, {}, owned);
    WanesTrans(s0, s2, s3, owned);
  }
}
