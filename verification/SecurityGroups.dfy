/** Cluster security groups (internal/controller/evroccluster_controller.go,
    reconcileSecurityGroups): inline groups are created or updated, existing ones
    checked, groups no longer wanted deleted, and the outcome recorded in status. */
module SecurityGroups {
  import opened Prelude
  import opened CloudApi
  import opened OwnershipLabels
  import opened Api
  import opened ClusterWebhook
  import opened Kube
  import opened Ownership

  const COMMON := "common"
  const CONTROL_PLANE := "controlPlane"
  const WORKER := "worker"

  function SGKey(id: string): Key { Key(SG, id) }

  function InlineTracked(prefix: string, role: string, groups: seq<InlineGroup>): seq<TrackedGroup> {
    seq(|groups|, i requires 0 <= i < |groups| => TrackedGroup(prefix + "-" + groups[i].name, true, role))
  }

  function ExistingTracked(role: string, ids: seq<string>): seq<TrackedGroup> {
    seq(|ids|, i requires 0 <= i < |ids| => TrackedGroup(ids[i], false, role))
  }

  function SectionTracked(prefix: string, role: string, s: Option<Section>): seq<TrackedGroup> {
    if s.None? then [] else InlineTracked(prefix, role, s.value.inlined) + ExistingTracked(role, s.value.existing)
  }

  /** What status must list: the three sections in order. */
  function Desired(prefix: string, g: Sections): seq<TrackedGroup> {
    SectionTracked(prefix, COMMON, g.common) + SectionTracked(prefix, CONTROL_PLANE, g.controlPlane)
    + SectionTracked(prefix, WORKER, g.worker)
  }

  predicate Wanted(id: string, desired: seq<TrackedGroup>) {
    exists d <- desired :: d.id == id
  }

  /** Groups the provider made once and no longer wants. */
  function StaleKeys(tracked: seq<TrackedGroup>, desired: seq<TrackedGroup>): set<Key> {
    set t | t in tracked && t.managed && !Wanted(t.id, desired) :: SGKey(t.id)
  }

  predicate HasInline(s: Option<Section>) {
    s.Some? && |s.value.inlined| > 0
  }

  predicate NeedsPrefix(g: Sections) {
    HasInline(g.common) || HasInline(g.controlPlane) || HasInline(g.worker)
  }

  /** From `a` to `b` security groups with these labels may have been added and
      rules changed, and nothing else; what went was dying or in `marked`. */
  ghost predicate Tended(a: State, b: State, marked: set<Key>, labels: Labels) {
    && (forall k <- b.res ::
          || (k in a.res && b.res[k].labels == a.res[k].labels && b.res[k].creator == a.res[k].creator
              && (k.kind != SG ==> b.res[k].spec == a.res[k].spec))
          || (k.kind == SG && b.res[k].creator == ClusterController && b.res[k].labels == labels
              && (k !in a.res || k in a.dying || k in marked)))
    && (forall k <- a.res :: k in b.res || k in a.dying || k in marked)
    && b.dying <= a.dying + marked
    && (forall n <- a.addr :: n in b.addr && b.addr[n] == a.addr[n])
  }

  lemma TendedTrans(a: State, b: State, c: State, marked: set<Key>, labels: Labels)
    requires Tended(a, b, marked, labels) && Tended(b, c, marked, labels)
    ensures Tended(a, c, marked, labels)
  {}

  lemma TendedWiden(a: State, b: State, marked: set<Key>, labels: Labels)
    requires Tended(a, b, {}, labels)
    ensures Tended(a, b, marked, labels)
  {}

  lemma ShedTended(a: State, b: State, marked: set<Key>, labels: Labels)
    requires Shed(a, b, marked)
    ensures Tended(a, b, marked, labels)
  {}

  lemma PatchedTended(a: State, b: State, k: Key, labels: Labels)
    requires k.kind == SG
    requires Shed(a, b, {}) || (k in a.res && k in b.res && Shed(a, b.(res := b.res[k := a.res[k]]), {})
                                && b.res[k].labels == a.res[k].labels && b.res[k].creator == a.res[k].creator)
    ensures Tended(a, b, {}, labels)
  {
    if !Shed(a, b, {}) {
      var c := b.(res := b.res[k := a.res[k]]);
      assert c.res.Keys == b.res.Keys;
      assert forall x <- b.res :: x != k ==> c.res[x] == b.res[x];
    }
  }

  /** Every listed group was seen in the cloud and is still there, unless it was
      already on its way out when the reconcile began. */
  ghost predicate Present(s0: State, s: State, tracked: seq<TrackedGroup>) {
    forall t <- tracked :: SGKey(t.id) in s.res || SGKey(t.id) in s0.dying
  }

  lemma PresentKept(s0: State, a: State, b: State, marked: set<Key>, labels: Labels, tracked: seq<TrackedGroup>)
    requires Tended(s0, a, {}, labels) && Tended(a, b, marked, labels) && Present(s0, a, tracked)
    requires forall t <- tracked :: SGKey(t.id) !in marked
    ensures Present(s0, b, tracked)
  {}

  /** The outcome of one reconciliation towards `desired`: only stale groups went,
      status lists either what it did or exactly what is desired, and success means
      that every desired group is there and every stale one gone or going. */
  ghost predicate Applied(a: State, b: State, was: ClusterStatus, now: ClusterStatus, desired: seq<TrackedGroup>,
                          labels: Labels, error: Option<Error>)
  {
    && Tended(a, b, StaleKeys(was.groups, desired), labels)
    && now == was.(groups := now.groups) && (now.groups == was.groups || now.groups == desired)
    && (error.None? ==>
          && now.groups == desired && Present(a, b, desired)
          && forall k <- StaleKeys(was.groups, desired) :: k in b.res ==> k in b.dying)
  }

  lemma Untouched(s: State, status: ClusterStatus, desired: seq<TrackedGroup>, labels: Labels)
    ensures Applied(s, s, status, status, desired, labels, Some(Failed))
  {}

  class SecurityGroupReconciler {
    const cloud: Cloud

    constructor (cloud: Cloud)
      ensures this.cloud == cloud
    {
      this.cloud := cloud;
    }

    /** Creates the group, or replaces the rules of one that is there. */
    method EnsureInline(name: string, rules: seq<Rule>, labels: Labels) returns (error: Option<Error>)
      requires cloud.Valid()
      modifies cloud
      ensures cloud.Valid() && Tended(old(cloud.s), cloud.s, {}, labels)
      ensures error.None? ==> SGKey(name) in cloud.s.res && cloud.s.res[SGKey(name)].spec == SGSpec(rules)
    {
      ghost var s0 := cloud.s;
      var k := SGKey(name);
      var found, view;
      found, view := cloud.Get(k);
      ghost var s1 := cloud.s;
      ShedTended(s0, s1, {}, labels);
      if found == Some(NotFound) {
        error := cloud.Create(k, Resource(SGSpec(rules), labels, ClusterController));
        TendedTrans(s0, s1, cloud.s, {}, labels);
        return;
      } else if found.Some? {
        return found;
      }
      error, view := cloud.Get(k);
      ghost var s2 := cloud.s;
      ShedTended(s1, s2, {}, labels);
      TendedTrans(s0, s1, s2, {}, labels);
      if error.Some? {
        return;
      }
      error := cloud.Patch(k, SGSpec(rules));
      PatchedTended(s2, cloud.s, k, labels);
      TendedTrans(s0, s2, cloud.s, {}, labels);
    }

    method EnsureInlines(prefix: string, role: string, groups: seq<InlineGroup>, labels: Labels, ghost s0: State)
      returns (error: Option<Error>, managed: seq<TrackedGroup>)
      requires cloud.Valid() && Tended(s0, cloud.s, {}, labels)
      modifies cloud
      ensures cloud.Valid() && Tended(s0, cloud.s, {}, labels) && Tended(old(cloud.s), cloud.s, {}, labels)
      ensures error.None? ==> managed == InlineTracked(prefix, role, groups) && Present(s0, cloud.s, managed)
    {
      ghost var start := cloud.s;
      error, managed := None, [];
      for i := 0 to |groups|
        invariant cloud.Valid() && Tended(s0, cloud.s, {}, labels) && Tended(start, cloud.s, {}, labels) && error.None?
        invariant managed == InlineTracked(prefix, role, groups)[..i] && Present(s0, cloud.s, managed)
      {
        ghost var before := cloud.s;
        var name := prefix + "-" + groups[i].name;
        error := EnsureInline(name, groups[i].rules, labels);
        TendedTrans(s0, before, cloud.s, {}, labels);
        TendedTrans(start, before, cloud.s, {}, labels);
        if error.Some? {
          return;
        }
        PresentKept(s0, before, cloud.s, {}, labels, managed);
        managed := managed + [TrackedGroup(name, true, role)];
      }
    }

    method CheckExisting(role: string, ids: seq<string>) returns (error: Option<Error>, external: seq<TrackedGroup>)
      requires cloud.Valid()
      modifies cloud
      // They are only looked at.
      ensures cloud.Valid() && Shed(old(cloud.s), cloud.s, {})
      ensures error.None? ==> external == ExistingTracked(role, ids) && Present(old(cloud.s), cloud.s, external)
    {
      ghost var start := cloud.s;
      error, external := None, [];
      ShedRefl(start, {});
      for i := 0 to |ids|
        invariant cloud.Valid() && Shed(start, cloud.s, {}) && error.None?
        invariant external == ExistingTracked(role, ids)[..i] && Present(start, cloud.s, external)
      {
        ghost var before := cloud.s;
        var view;
        error, view := cloud.Get(SGKey(ids[i]));
        ShedTrans(start, before, cloud.s, {}, {});
        if error.Some? {
          return;
        }
        assert ExistingTracked(role, ids)[..i + 1] == external + [TrackedGroup(ids[i], false, role)];
        external := external + [TrackedGroup(ids[i], false, role)];
      }
    }

    method ReconcileSection(prefix: string, role: string, s: Option<Section>, labels: Labels, ghost s0: State)
      returns (error: Option<Error>, managed: seq<TrackedGroup>)
      requires cloud.Valid() && Tended(s0, cloud.s, {}, labels)
      modifies cloud
      ensures cloud.Valid() && Tended(s0, cloud.s, {}, labels) && Tended(old(cloud.s), cloud.s, {}, labels)
      ensures error.None? ==> managed == SectionTracked(prefix, role, s) && Present(s0, cloud.s, managed)
    {
      error, managed := None, [];
      if s.None? {
        ShedSelf(cloud.s, labels);
        return;
      }
      ghost var start := cloud.s;
      error, managed := EnsureInlines(prefix, role, s.value.inlined, labels, s0);
      if error.Some? { return; }
      ghost var mid := cloud.s;
      var external;
      error, external := CheckExisting(role, s.value.existing);
      ShedTended(mid, cloud.s, {}, labels);
      TendedTrans(start, mid, cloud.s, {}, labels);
      TendedTrans(s0, mid, cloud.s, {}, labels);
      if error.Some? { return; }
      PresentKept(s0, mid, cloud.s, {}, labels, managed);
      managed := managed + external;
    }

    method ReconcileSections(prefix: string, g: Sections, labels: Labels, ghost s0: State)
      returns (error: Option<Error>, managed: seq<TrackedGroup>)
      requires cloud.Valid() && Tended(s0, cloud.s, {}, labels)
      modifies cloud
      ensures cloud.Valid() && Tended(s0, cloud.s, {}, labels)
      ensures error.None? ==> managed == Desired(prefix, g) && Present(s0, cloud.s, managed)
    {
      managed := [];
      var more;
      error, more := ReconcileSection(prefix, COMMON, g.common, labels, s0);
      if error.Some? { return; }
      managed := more;
      ghost var s1 := cloud.s;
      error, more := ReconcileSection(prefix, CONTROL_PLANE, g.controlPlane, labels, s0);
      if error.Some? { return; }
      PresentKept(s0, s1, cloud.s, {}, labels, managed);
      managed := managed + more;
      ghost var s2 := cloud.s;
      error, more := ReconcileSection(prefix, WORKER, g.worker, labels, s0);
      if error.Some? { return; }
      PresentKept(s0, s2, cloud.s, {}, labels, managed);
      managed := managed + more;
    }

    /** Deletes tracked managed groups that are no longer desired. */
    method DeleteStale(tracked: seq<TrackedGroup>, desired: seq<TrackedGroup>) returns (error: Option<Error>)
      requires cloud.Valid()
      modifies cloud
      ensures cloud.Valid() && Shed(old(cloud.s), cloud.s, StaleKeys(tracked, desired))
      ensures error.None? ==> forall k <- StaleKeys(tracked, desired) :: k in cloud.s.res ==> k in cloud.s.dying
    {
      ghost var s0, stale := cloud.s, StaleKeys(tracked, desired);
      var desiredNames: set<string> := {};
      for i := 0 to |desired|
        invariant forall id :: id in desiredNames <==> Wanted(id, desired[..i])
      {
        desiredNames := desiredNames + {desired[i].id};
        assert desired[..i + 1] == desired[..i] + [desired[i]];
      }
      assert desired[..|desired|] == desired;
      error := None;
      for i := 0 to |tracked|
        invariant cloud.Valid() && Shed(s0, cloud.s, stale) && error.None?
        invariant forall j | 0 <= j < i :: tracked[j].managed && !Wanted(tracked[j].id, desired) && SGKey(tracked[j].id) in cloud.s.res
                    ==> SGKey(tracked[j].id) in cloud.s.dying
      {
        var t := tracked[i];
        if t.managed && t.id !in desiredNames {
          ghost var before := cloud.s;
          assert t in tracked && SGKey(t.id) in stale;
          error := cloud.Delete(SGKey(t.id));
          ShedWiden(before, cloud.s, {SGKey(t.id)}, stale);
          ShedTrans(s0, before, cloud.s, stale, stale);
          assert stale + stale == stale;
          if error.Some? && error != Some(NotFound) {
            return;
          }
          error := None;
        }
      }
    }

    /** Annotating the machines that inherit cluster groups is work for the API
        server; here it may only fail. */
    method PropagateToMachines() returns (error: Option<Error>) {
      var fails := *;
      error := if fails then Some(Failed) else None;
    }

    /** The spec no longer has any groups: all managed ones are stale. */
    method Withdraw(cluster: EvrocCluster, ghost labels: Labels) returns (error: Option<Error>)
      requires cloud.Valid()
      modifies cloud, cluster`status
      ensures cloud.Valid() && Applied(old(cloud.s), cloud.s, old(cluster.status), cluster.status, [], labels, error)
    {
      ghost var s0, tracked := cloud.s, cluster.status.groups;
      error := DeleteStale(cluster.status.groups, []);
      ShedTended(s0, cloud.s, StaleKeys(tracked, []), labels);
      if error.None? && |cluster.status.groups| > 0 {
        cluster.status := cluster.status.(groups := []);
        error := PropagateToMachines();
      }
    }

    /** Brings the cloud and the copy's status in line with the spec's groups. */
    method ReconcileSecurityGroups(cluster: EvrocCluster, ghost v: Object) returns (error: Option<Error>)
      requires cloud.Valid() && Working(v, cluster.Value())
      modifies cloud, cluster`meta, cluster`status
      ensures cloud.Valid() && Working(v, cluster.Value()) && (Named(v, old(cluster.Value())) ==> Named(v, cluster.Value()))
      ensures Applied(old(cloud.s), cloud.s, old(cluster.status), cluster.status, Wants(v), GroupLabels(v), error)
    {
      WorkingKeepsIdentity(v, cluster.Value());
      if cluster.spec.groups.None? {
        error := Withdraw(cluster, GroupLabels(v));
      } else {
        error := Provide(cluster, v);
      }
    }

    method Provide(cluster: EvrocCluster, ghost v: Object) returns (error: Option<Error>)
      requires cloud.Valid() && Working(v, cluster.Value()) && cluster.spec.groups.Some?
      modifies cloud, cluster`meta, cluster`status
      ensures cloud.Valid() && Working(v, cluster.Value()) && (Named(v, old(cluster.Value())) ==> Named(v, cluster.Value()))
      ensures Applied(old(cloud.s), cloud.s, old(cluster.status), cluster.status, Wants(v), GroupLabels(v), error)
    {
      WorkingKeepsIdentity(v, cluster.Value());
      var prefix := "";
      var found := true;
      if NeedsPrefix(cluster.spec.groups.value) {
        var resolved := ResolvePrefix(cluster, v);
        found := resolved.Some?;
        if found {
          prefix := resolved.value;
        }
      }
      if !found {
        Untouched(cloud.s, cluster.status, Wants(v), GroupLabels(v));
        error := Some(Failed);
      } else {
        var labels := ResourceLabels(cluster.meta.name, Lookup(cluster.meta.annotations, CLUSTER_OWNERSHIP_ID), [cluster.spec.labels]);
        WorkingKeepsIdentity(v, cluster.Value());
        DesiredIgnoresPrefix(cluster.spec.groups.value, prefix, PrefixText(v));
        error := Apply(cluster, prefix, labels);
      }
    }

    method Apply(cluster: EvrocCluster, prefix: string, labels: Labels) returns (error: Option<Error>)
      requires cloud.Valid() && cluster.spec.groups.Some?
      modifies cloud, cluster`status
      ensures cloud.Valid()
      ensures Applied(old(cloud.s), cloud.s, old(cluster.status), cluster.status, Desired(prefix, cluster.spec.groups.value), labels, error)
    {
      ghost var s0, tracked := cloud.s, cluster.status.groups;
      ghost var stale := StaleKeys(tracked, Desired(prefix, cluster.spec.groups.value));
      ShedSelf(s0, labels);
      var managed;
      error, managed := ReconcileSections(prefix, cluster.spec.groups.value, labels, s0);
      ghost var s1 := cloud.s;
      TendedWiden(s0, s1, stale, labels);
      if error.Some? { return; }
      error := DeleteStale(cluster.status.groups, managed);
      ShedTended(s1, cloud.s, stale, labels);
      TendedTrans(s0, s1, cloud.s, stale, labels);
      if error.Some? { return; }
      PresentKept(s0, s1, cloud.s, stale, labels, managed);
      cluster.status := cluster.status.(groups := managed);
      error := PropagateToMachines();
    }

    method ResolvePrefix(cluster: EvrocCluster, ghost v: Object) returns (prefix: Option<string>)
      requires Working(v, cluster.Value())
      modifies cluster`meta
      ensures Working(v, cluster.Value()) && prefix == Prefix(v) && (prefix.Some? ==> Named(v, cluster.Value()))
    {
      WorkingKeepsIdentity(v, cluster.Value());
      prefix := ClusterResourcePrefix(cluster);
      if prefix.Some? {
        assert v.meta.annotations[RESOURCE_PREFIX := prefix.value][RESOURCE_PREFIX := prefix.value] == v.meta.annotations[RESOURCE_PREFIX := prefix.value];
      }
    }
  }

  lemma ShedSelf(s: State, labels: Labels)
    ensures Tended(s, s, {}, labels)
  {}

  /** Without inline groups the prefix does not matter. */
  lemma DesiredIgnoresPrefix(g: Sections, p: string, q: string)
    ensures p == q || !NeedsPrefix(g) ==> Desired(p, g) == Desired(q, g)
  {
    if !NeedsPrefix(g) {
      assert SectionTracked(p, COMMON, g.common) == SectionTracked(q, COMMON, g.common);
      assert SectionTracked(p, CONTROL_PLANE, g.controlPlane) == SectionTracked(q, CONTROL_PLANE, g.controlPlane);
      assert SectionTracked(p, WORKER, g.worker) == SectionTracked(q, WORKER, g.worker);
    }
  }

  function PrefixText(v: Object): string
    requires v.body.Cluster?
  {
    if Prefix(v).Some? then Prefix(v).value else ""
  }

  /** The groups version `v` of a cluster asks for. */
  function Wants(v: Object): seq<TrackedGroup>
    requires v.body.Cluster?
  {
    if v.body.cluster.groups.None? then [] else Desired(PrefixText(v), v.body.cluster.groups.value)
  }

  function GroupLabels(v: Object): Labels
    requires v.body.Cluster?
  {
    OwnedLabels(v.meta.name, OwnerID(v), [v.body.cluster.labels])
  }

  // ---- Selection by role ----

  function Selected(groups: seq<TrackedGroup>, role: string): seq<string> {
    if groups == [] then [] else
    var last := groups[|groups| - 1];
    Selected(groups[..|groups| - 1], role) + if last.role == COMMON || last.role == role then [last.id] else []
  }

  /** The groups a machine of the given role belongs to. */
  method NamesForRole(groups: seq<TrackedGroup>, isControlPlane: bool) returns (names: seq<string>)
    ensures names == Selected(groups, if isControlPlane then CONTROL_PLANE else WORKER)
  {
    var role := if isControlPlane then CONTROL_PLANE else WORKER;
    names := [];
    for i := 0 to |groups|
      invariant names == Selected(groups[..i], role)
    {
      assert groups[..i + 1][..i] == groups[..i];
      if groups[i].role == COMMON || groups[i].role == role {
        names := names + [groups[i].id];
      }
    }
    assert groups[..|groups|] == groups;
  }

  function IDs(groups: seq<TrackedGroup>, role: string): set<string> {
    set t | t in groups && t.role == role :: t.id
  }

  lemma {:induction false} SelectedIDs(groups: seq<TrackedGroup>, role: string)
    ensures ToSet(Selected(groups, role)) == IDs(groups, COMMON) + IDs(groups, role)
  {
    if groups != [] {
      var n := |groups| - 1;
      SelectedIDs(groups[..n], role);
      LastID(groups[..n], groups[n], COMMON);
      LastID(groups[..n], groups[n], role);
      assert groups == groups[..n] + [groups[n]];
      var last := if groups[n].role == COMMON || groups[n].role == role then [groups[n].id] else [];
      assert ToSet(last) == if groups[n].role == COMMON || groups[n].role == role then {groups[n].id} else {};
      assert Selected(groups, role) == Selected(groups[..n], role) + last;
      NoDupConcat(Selected(groups[..n], role), last);
    }
  }

  lemma LastID(groups: seq<TrackedGroup>, t: TrackedGroup, role: string)
    ensures IDs(groups + [t], role) == IDs(groups, role) + if t.role == role then {t.id} else {}
  {}

  /** Control plane and worker machines share exactly the common groups, if and
      only if no group outside them is listed for both roles. */
  lemma OverlapIsCommonIff(groups: seq<TrackedGroup>)
    ensures ToSet(Selected(groups, CONTROL_PLANE)) * ToSet(Selected(groups, WORKER)) == IDs(groups, COMMON)
       <==> IDs(groups, CONTROL_PLANE) * IDs(groups, WORKER) <= IDs(groups, COMMON)
  {
    SelectedIDs(groups, CONTROL_PLANE);
    SelectedIDs(groups, WORKER);
  }

  function DerivedIDs(prefix: string, s: Option<Section>): set<string> {
    if s.None? then {} else set n | n in InlineNames(s.value.inlined) :: prefix + "-" + n
  }

  function ExistingIDs(s: Option<Section>): set<string> {
    if s.None? then {} else ToSet(s.value.existing)
  }

  /** No existing group of either role bears a derived name of the other's. */
  predicate NoNameClash(prefix: string, s: Option<Section>, t: Option<Section>) {
    DerivedIDs(prefix, s) !! ExistingIDs(t) && DerivedIDs(prefix, t) !! ExistingIDs(s)
  }

  lemma SectionIDs(prefix: string, g: Sections)
    ensures IDs(Desired(prefix, g), CONTROL_PLANE) == DerivedIDs(prefix, g.controlPlane) + ExistingIDs(g.controlPlane)
    ensures IDs(Desired(prefix, g), WORKER) == DerivedIDs(prefix, g.worker) + ExistingIDs(g.worker)
  {
    SectionsApart(SectionTracked(prefix, COMMON, g.common), SectionTracked(prefix, CONTROL_PLANE, g.controlPlane),
                  SectionTracked(prefix, WORKER, g.worker));
    TrackedIDs(prefix, CONTROL_PLANE, g.controlPlane);
    TrackedIDs(prefix, WORKER, g.worker);
  }

  lemma SectionsApart(a: seq<TrackedGroup>, b: seq<TrackedGroup>, c: seq<TrackedGroup>)
    requires (forall t <- a :: t.role == COMMON) && (forall t <- b :: t.role == CONTROL_PLANE) && (forall t <- c :: t.role == WORKER)
    ensures IDs(a + b + c, CONTROL_PLANE) == IDs(b, CONTROL_PLANE) && IDs(a + b + c, WORKER) == IDs(c, WORKER)
  {
    assert forall t :: t in a + b + c <==> t in a || t in b || t in c;
    assert |COMMON| == 6 && |CONTROL_PLANE| == 12 && WORKER[0] == 'w' && COMMON[0] == 'c';
  }

  lemma TrackedIDs(prefix: string, role: string, s: Option<Section>)
    ensures IDs(SectionTracked(prefix, role, s), role) == DerivedIDs(prefix, s) + ExistingIDs(s)
  {
    if s.Some? {
      var inlined, existing := InlineTracked(prefix, role, s.value.inlined), ExistingTracked(role, s.value.existing);
      var names := InlineNames(s.value.inlined);
      forall id | id in DerivedIDs(prefix, s) ensures id in IDs(inlined, role) {
        var n :| n in names && prefix + "-" + n == id;
        var i :| 0 <= i < |names| && names[i] == n;
        assert inlined[i] in inlined && inlined[i].id == id;
      }
      forall id | id in ExistingIDs(s) ensures id in IDs(existing, role) {
        var i :| 0 <= i < |existing| && s.value.existing[i] == id;
        assert existing[i] in existing && existing[i].id == id;
      }
      forall t | t in inlined ensures t.id in DerivedIDs(prefix, s) {
        var i :| 0 <= i < |inlined| && inlined[i] == t;
        assert names[i] in names;
      }
    }
  }

  lemma SectionsDisjoint(prefix: string, s: Option<Section>, t: Option<Section>)
    requires ToSet(SectionNames(s)) !! ToSet(SectionNames(t)) && NoNameClash(prefix, s, t)
    ensures (DerivedIDs(prefix, s) + ExistingIDs(s)) !! (DerivedIDs(prefix, t) + ExistingIDs(t))
  {
    if s.Some? && t.Some? {
      NoDupConcat(InlineNames(s.value.inlined), s.value.existing);
      NoDupConcat(InlineNames(t.value.inlined), t.value.existing);
      forall n, m | n in InlineNames(s.value.inlined) && m in InlineNames(t.value.inlined)
        ensures prefix + "-" + n != prefix + "-" + m
      {
        assert n in ToSet(InlineNames(s.value.inlined)) && m in ToSet(InlineNames(t.value.inlined));
        assert (prefix + "-" + n)[|prefix| + 1..] == n && (prefix + "-" + m)[|prefix| + 1..] == m;
      }
    }
  }

  /** For an admitted spec whose existing groups do not bear derived names, the
      roles overlap in exactly the common groups. */
  lemma AdmittedRolesOverlap(prefix: string, clusterName: string, g: Sections)
    requires GroupsOK(clusterName, g) && NoNameClash(prefix, g.controlPlane, g.worker)
    ensures ToSet(Selected(Desired(prefix, g), CONTROL_PLANE)) * ToSet(Selected(Desired(prefix, g), WORKER))
         == IDs(Desired(prefix, g), COMMON)
  {
    NoDupConcat(SectionNames(g.common), SectionNames(g.controlPlane));
    NoDupConcat(SectionNames(g.common) + SectionNames(g.controlPlane), SectionNames(g.worker));
    SectionsDisjoint(prefix, g.controlPlane, g.worker);
    SectionIDs(prefix, g);
    OverlapIsCommonIff(Desired(prefix, g));
  }
}
