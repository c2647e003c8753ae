/** The EvrocCluster reconciler (internal/controller/evroccluster_controller.go):
    load balancer, security groups, teardown, and the order in which ownership is
    written down before anything is created. */
module ClusterController {
  import opened Prelude
  import opened CloudApi
  import opened OwnershipLabels
  import opened Scripts
  import opened LoadBalancers
  import opened Workload
  import opened Api
  import opened ClusterWebhook
  import opened Kube
  import opened Ownership
  import opened SecurityGroups

  // ---- What the controller's own resources have in common ----

  /** The identity a cluster's resources carry: owner ID, load balancer name, and
      whether the provider owns the endpoint and its address. */
  datatype Brand = Brand(owner: string, lb: Option<string>, managed: bool, borrowed: bool)

  function BrandOf(v: Object): Brand
    requires v.body.Cluster?
  {
    Brand(OwnerID(v), LoadBalancerName(v), ManagesEndpoint(v.body.cluster), ExistingIP(v.body.cluster) != "")
  }

  predicate Stamped(b: Brand, k: Key, r: Resource) {
    && Selects(OwnerSelector(CLUSTER_ID, b.owner), r.labels)
    && (k.kind == SG
        || (b.managed && b.lb.Some?
            && (k == LBKey(b.lb.value) || k.kind in SUBKINDS || (!b.borrowed && k == IPKey(b.lb.value)))))
  }

  /** Everything this cluster's controller created is marked as its own, answers
      to its ownership ID, and has a name or label teardown looks for. */
  ghost predicate Branded(res: map<Key, Resource>, b: Brand) {
    forall k <- res :: res[k].creator == ClusterController ==> Stamped(b, k, res[k])
  }

  ghost predicate AnyMade(res: map<Key, Resource>) {
    exists k <- res :: res[k].creator == ClusterController
  }

  lemma BrandStable(a: Object, b: Object)
    requires a.body.Cluster? && Follows(a, b) && (OwnerID(a) != "" || OwnerID(b) == OwnerID(a))
    ensures b.body.Cluster? && BrandOf(b) == BrandOf(a)
  {}

  lemma BrandedShed(a: State, b: State, marked: set<Key>, brand: Brand)
    requires Branded(a.res, brand) && Shed(a, b, marked)
    ensures Branded(b.res, brand) && (AnyMade(b.res) ==> AnyMade(a.res))
  {}

  lemma BrandedTended(a: State, b: State, marked: set<Key>, v: Object)
    requires v.body.Cluster? && Branded(a.res, BrandOf(v)) && Tended(a, b, marked, GroupLabels(v))
    ensures Branded(b.res, BrandOf(v))
  {
    OwnerAlwaysWins(v.meta.name, OwnerID(v), [v.body.cluster.labels], OwnerID(v));
  }

  lemma BrandedGrows(a: State, b: State, r: Request, brand: Brand)
    requires Branded(a.res, brand) && Grows(a, b, Graph(r))
    requires Selects(OwnerSelector(CLUSTER_ID, brand.owner), r.labels) && brand.lb == Some(r.name) && brand.managed
    requires brand.borrowed == (r.existingIP != "")
    ensures Branded(b.res, brand)
  {
    GraphEntries(r);
    EntriesBranded(a, b, r, Graph(r), brand);
  }

  lemma EntriesBranded(a: State, b: State, r: Request, G: map<Key, Resource>, brand: Brand)
    requires Branded(a.res, brand) && Grows(a, b, G) && forall k <- G :: GraphEntry(r, k, G[k])
    requires Selects(OwnerSelector(CLUSTER_ID, brand.owner), r.labels) && brand.lb == Some(r.name) && brand.managed
    requires brand.borrowed == (r.existingIP != "")
    ensures Branded(b.res, brand)
  {}

  /** From `a` to `b` whatever is not `marked` stayed, still belonging to whom it
      belonged. */
  ghost predicate Retains(a: State, b: State, marked: set<Key>) {
    && (forall k <- a.res :: k in a.dying || k in marked
          || (k in b.res && b.res[k].labels == a.res[k].labels && b.res[k].creator == a.res[k].creator))
    && b.dying <= a.dying + marked
  }

  lemma RetainsTrans(a: State, b: State, c: State, marked: set<Key>)
    requires Retains(a, b, {}) && Retains(b, c, marked)
    ensures Retains(a, c, marked)
  {}

  lemma RetainsRefl(a: State, marked: set<Key>)
    ensures Retains(a, a, marked)
  {}

  lemma TendedRetains(a: State, b: State, marked: set<Key>, labels: Labels)
    requires Tended(a, b, marked, labels)
    ensures Retains(a, b, marked)
  {}

  lemma ShedRetains(a: State, b: State)
    requires Shed(a, b, {})
    ensures Retains(a, b, {})
  {}

  lemma GrowsRetains(a: State, b: State, G: map<Key, Resource>)
    requires Grows(a, b, G)
    ensures Retains(a, b, {})
  {}

  /** Tracked groups a normal reconcile may delete. */
  function Retired(v: Object): set<Key>
    requires v.body.Cluster?
  {
    StaleKeys(v.body.clusterStatus.groups, Wants(v))
  }

  // ---- Teardown: its inputs and what it leaves ----

  /** What a teardown's calls and conclusion depend on, apart from the answers. */
  datatype Plan = Plan(owner: string, deleteDisks: bool, managed: bool, lb: Option<string>, deleteIP: bool)

  function PlanOf(v: Object): Plan
    requires v.body.Cluster?
  {
    Plan(OwnerID(v), Lookup(v.meta.annotations, DELETE_CSI_DISKS) == "true", ManagesEndpoint(v.body.cluster),
         if ManagesEndpoint(v.body.cluster) then LoadBalancerName(v) else None, ExistingIP(v.body.cluster) == "")
  }

  function Both(v: Verdict, w: Verdict): Verdict {
    Verdict(v.broken || w.broken, v.pending || w.pending)
  }

  /** Lists the owned groups, tries each, and lists again. */
  ghost function GroupsScript(owner: string, k: Verdict -> Script): Script {
    Ask(AskList(SG, OwnerSelector(CLUSTER_ID, owner)), AfterGroupListing(owner, k))
  }

  ghost function AfterGroupListing(owner: string, k: Verdict -> Script): Reply -> Script {
    (r: Reply) => if r.error.Some? then k(Verdict(true, false)) else NamesScript(SG, r.names, 0, false, AfterGroups(owner, k))
  }

  ghost function AfterGroups(owner: string, k: Verdict -> Script): Verdict -> Script {
    (v: Verdict) => Ask(AskList(SG, OwnerSelector(CLUSTER_ID, owner)), AfterRelisting(v.broken, k))
  }

  ghost function AfterRelisting(broken: bool, k: Verdict -> Script): Reply -> Script {
    (r: Reply) => k(if r.error.Some? then Verdict(true, false) else Verdict(broken, |r.names| > 0))
  }

  /** Deletes the load balancer and its parts, then asks whether that has finished. */
  ghost function BalancerScript(lb: string, owner: string, ip: bool, k: Verdict -> Script): Script {
    DeleteScript(lb, owner, ip, AfterDelete(lb, owner, ip, k))
  }

  ghost function AfterDelete(lb: string, owner: string, ip: bool, k: Verdict -> Script): Verdict -> Script {
    (v: Verdict) => CompleteScript(lb, owner, ip, AfterComplete(v.broken, k))
  }

  ghost function AfterComplete(broken: bool, k: Verdict -> Script): Verdict -> Script {
    (v: Verdict) => k(Verdict(broken || v.broken, v.pending))
  }

  /** The load balancer if there is one to name, then the groups. */
  ghost function EndpointScript(p: Plan, k: Verdict -> Script): Script {
    if p.managed && p.lb.Some? then BalancerScript(p.lb.value, p.owner, p.deleteIP, AfterEndpoint(p.owner, k))
    else AfterEndpoint(p.owner, k)(Verdict(p.managed, false))
  }

  ghost function AfterEndpoint(owner: string, k: Verdict -> Script): Verdict -> Script {
    (v: Verdict) => GroupsScript(owner, Adding(v, k))
  }

  ghost function Adding(v: Verdict, k: Verdict -> Script): Verdict -> Script {
    (w: Verdict) => k(Both(v, w))
  }

  /** A whole teardown: drivers' resources, load balancer, groups. */
  ghost function TeardownScript(p: Plan): Script {
    if p.owner == "" then Finish(Verdict(true, false)) else CleanupScript(p.owner, p.deleteDisks, AfterDrivers(p))
  }

  ghost function AfterDrivers(p: Plan): Verdict -> Script {
    (v: Verdict) => EndpointScript(p, Closing(v))
  }

  ghost function Closing(v: Verdict): Verdict -> Script {
    (w: Verdict) => Finish(Both(v, w))
  }

  function OutcomeOf(v: Verdict): Outcome {
    if v.broken then Failure else if v.pending then Requeue else Done
  }

  /** Given the same answers, teardowns by these plans make the same calls for as long
      as both run, and if both run to their end come to the same conclusion. */
  ghost predicate SameTeardown(p: Plan, q: Plan) {
    forall x: seq<Call>, y: seq<Call> ::
      !After(TeardownScript(p), x).Astray? && !After(TeardownScript(q), y).Astray? && SameAnswers(x, y) ==>
        && (x <= y || y <= x)
        && (After(TeardownScript(p), x).Finish? && After(TeardownScript(q), y).Finish? ==>
              x == y && After(TeardownScript(p), x) == After(TeardownScript(q), y))
  }

  lemma SameScriptSameTeardown(p: Plan, q: Plan)
    requires TeardownScript(p) == TeardownScript(q)
    ensures SameTeardown(p, q)
  {
    var s := TeardownScript(p);
    forall x: seq<Call>, y: seq<Call> | !After(s, x).Astray? && !After(s, y).Astray? && SameAnswers(x, y)
      ensures (x <= y || y <= x) && (After(s, x).Finish? && After(s, y).Finish? ==> x == y)
    {
      SameSoFar(s, x, y, if |x| <= |y| then |x| else |y|);
      assert x[..|x|] == x && y[..|y|] == y;
      if After(s, x).Finish? && After(s, y).Finish? { SameRun(s, x, y); }
    }
  }

  /** The same cluster with another UID and status. */
  function Restored(o: Object, uid: string, status: ClusterStatus): Object
    requires o.body.Cluster?
  {
    Object(o.meta.(uid := uid), Cluster(o.body.cluster, status))
  }

  /** Whatever became of status and UID, a teardown that gets the same answers makes
      the same calls and ends the same, if and only if the prefix is recorded, or
      there is no load balancer to name, or no ownership ID to delete by. */
  lemma TeardownIgnoresStatusIff(o: Object)
    requires o.body.Cluster? && Prefix(o).Some?
    ensures (forall uid, status :: SameTeardown(PlanOf(Restored(o, uid, status)), PlanOf(o)))
       <==> Recorded(o) != "" || !ManagesEndpoint(o.body.cluster) || OwnerID(o) == ""
  {
    if Recorded(o) != "" || !ManagesEndpoint(o.body.cluster) || OwnerID(o) == "" {
      forall uid, status ensures SameTeardown(PlanOf(Restored(o, uid, status)), PlanOf(o)) {
        assert OwnerID(Restored(o, uid, status)) == OwnerID(o);
        SameScriptSameTeardown(PlanOf(Restored(o, uid, status)), PlanOf(o));
      }
    } else {
      var blank := Restored(o, "", ClusterStatus(false, false, None, []));
      assert PlanOf(blank) == PlanOf(o).(lb := None);
      PathsPart(PlanOf(o));
    }
  }

  /** With a name for the load balancer it is deleted next, without one the groups
      are listed: two runs answered alike part there. */
  lemma PathsPart(p: Plan)
    requires p.owner != "" && p.managed && p.lb.Some?
    ensures !SameTeardown(p.(lb := None), p)
  {
    var q := p.(lb := None);
    var first := Call(ListOp(VM, OwnerSelector(CLUSTER_ID, p.owner), []), Some(Failed));
    var groups := Call(ListOp(SG, OwnerSelector(CLUSTER_ID, p.owner), []), Some(Failed));
    var balancer := Call(DeleteOp(LBKey(p.lb.value)), Some(Failed));
    AfterNext(TeardownScript(q), [], first);
    AfterNext(TeardownScript(p), [], first);
    AfterNext(TeardownScript(q), [first], groups);
    AfterNext(TeardownScript(p), [first], balancer);
    FirstAnswer(p);
    FirstAnswer(q);
    var x, y := [first] + [groups], [first] + [balancer];
    assert !After(TeardownScript(q), x).Astray? && !After(TeardownScript(p), y).Astray?;
    assert SameAnswers(x, y) && x[1] != y[1];
  }

  lemma FirstAnswer(p: Plan)
    requires p.owner != ""
    ensures var first := Call(ListOp(VM, OwnerSelector(CLUSTER_ID, p.owner), []), Some(Failed));
      Step(TeardownScript(p), first) == EndpointScript(p, Closing(Verdict(true, false)))
  {}

  /** After a move that came before the prefix was recorded, no teardown of the
      moved cluster deletes the load balancer any more, nor its address. */
  lemma EarlyMoveOrphans(o: Object, newUID: string, res: map<Key, Resource>)
    requires o.body.Cluster? && o.body.clusterStatus.lb == None && Lookup(o.meta.annotations, RESOURCE_PREFIX) == ""
    requires |o.meta.uid| >= 8 && |newUID| >= 8 && o.meta.uid[..8] != newUID[..8]
    requires forall k <- res :: "managed-by" !in res[k].labels
    ensures LoadBalancerName(o).Some?
    ensures var lb := LoadBalancerName(o).value; LBKey(lb) !in Scope(res, PlanOf(Moved(o, newUID))) && IPKey(lb) !in Scope(res, PlanOf(Moved(o, newUID)))
  {
    EarlyMoveRenames(o.meta.name, o.meta.uid, newUID, o);
    var lb, plan := LoadBalancerName(o).value, PlanOf(Moved(o, newUID));
    assert "managed-by" in DriverSelector(plan.owner);
    if plan.lb.Some? {
      assert (lb + "-ip")[..|lb|] == lb && (plan.lb.value + "-ip")[..|plan.lb.value|] == plan.lb.value;
      assert |lb + "-ip"| == |lb| + 3 && |plan.lb.value + "-ip"| == |plan.lb.value| + 3;
    }
  }

  predicate OwnedGroup(res: map<Key, Resource>, k: Key, owner: string) {
    k in res && k.kind == SG && Selects(OwnerSelector(CLUSTER_ID, owner), res[k].labels)
  }

  function OwnedGroups(res: map<Key, Resource>, owner: string): set<Key> {
    set k | k in res && OwnedGroup(res, k, owner)
  }

  /** Everything a teardown may delete. */
  function Scope(res: map<Key, Resource>, p: Plan): set<Key> {
    Targets(res, p.owner, p.deleteDisks) + OwnedGroups(res, p.owner)
    + if p.managed && p.lb.Some? then Doomed(res, p.lb.value, p.owner, p.deleteIP) else {}
  }

  /** Nothing is left that holds the finalizer. */
  ghost predicate NothingLeft(res: map<Key, Resource>, p: Plan) {
    Targets(res, p.owner, p.deleteDisks) == {} && OwnResourcesGone(res, p)
  }

  ghost predicate OwnResourcesGone(res: map<Key, Resource>, p: Plan) {
    && (p.managed ==> p.lb.Some? && Blocking(res, p.lb.value, p.owner, p.deleteIP) == {})
    && OwnedGroups(res, p.owner) == {}
  }

  /** What teardown looks for only ever gets less. */
  lemma LessToDelete(a: map<Key, Resource>, b: map<Key, Resource>, owner: string, dd: bool, name: string, ip: bool)
    requires Within(a, b)
    ensures Targets(b, owner, dd) <= Targets(a, owner, dd) && OwnedGroups(b, owner) <= OwnedGroups(a, owner)
    ensures Doomed(b, name, owner, ip) <= Doomed(a, name, owner, ip)
    ensures Blocking(b, name, owner, ip) <= Blocking(a, name, owner, ip)
  {}

  lemma ShedScope(s0: State, a: State, b: State, scope: set<Key>, part: set<Key>)
    requires Shed(s0, a, scope) && Shed(a, b, part) && part <= scope
    ensures Shed(s0, b, scope) && Within(s0.res, b.res) && Within(a.res, b.res)
  {
    ShedWiden(a, b, part, scope);
    ShedTrans(s0, a, b, scope, scope);
    assert scope + scope == scope;
  }

  /** The checks together cover every kind the controller creates. */
  lemma MadeIsHeld(res: map<Key, Resource>, v: Object, k: Key)
    requires v.body.Cluster? && Branded(res, BrandOf(v)) && k in res && res[k].creator == ClusterController
    ensures var p := PlanOf(v);
      k in OwnedGroups(res, p.owner) || (p.managed && p.lb.Some? && k in Blocking(res, p.lb.value, p.owner, p.deleteIP))
  {
    assert Stamped(BrandOf(v), k, res[k]);
  }

  /** When nothing holds the finalizer any more, nothing the controller created
      is left. */
  lemma NothingMadeIsLeft(res: map<Key, Resource>, v: Object)
    requires v.body.Cluster? && Branded(res, BrandOf(v)) && NothingLeft(res, PlanOf(v))
    ensures !AnyMade(res)
  {
    if k :| k in res && res[k].creator == ClusterController {
      MadeIsHeld(res, v, k);
    }
  }

  // ---- Progress of a teardown ----

  /** Nothing foreign refers to the load balancer's parts, and what bears their
      names is the cluster's. */
  ghost predicate BalancerFree(res: map<Key, Resource>, p: Plan) {
    p.lb.Some? && Isolated(res, Doomed(res, p.lb.value, p.owner, p.deleteIP)) && PartsLabelled(res, p.lb.value, p.owner)
  }

  /** No node is alive and nothing that stays refers to what is to go. */
  ghost predicate Clear(res: map<Key, Resource>, p: Plan) {
    && !GuardSees(res, p.owner)
    && Isolated(res, Targets(res, p.owner, p.deleteDisks))
    && (p.managed ==> BalancerFree(res, p))
    && NoneReferenced(res, OwnedGroups(res, p.owner))
  }

  lemma StaysClear(a: map<Key, Resource>, b: map<Key, Resource>, p: Plan)
    requires Clear(a, p) && Within(a, b)
    ensures Clear(b, p)
  {
    StaysFree(a, b, p);
    forall r <- b, k <- Targets(b, p.owner, p.deleteDisks) | k in Refs(b[r].spec) ensures r in Targets(b, p.owner, p.deleteDisks) {
      assert k in Targets(a, p.owner, p.deleteDisks) && r in Targets(a, p.owner, p.deleteDisks);
    }
    forall k <- OwnedGroups(b, p.owner) ensures !Referenced(b, k) {
      assert k in OwnedGroups(a, p.owner);
      UnreferencedAt(a, b, k);
    }
  }

  lemma StaysFree(a: map<Key, Resource>, b: map<Key, Resource>, p: Plan)
    requires Within(a, b)
    ensures BalancerFree(a, p) ==> BalancerFree(b, p)
  {
    if BalancerFree(a, p) {
      var da, db := Doomed(a, p.lb.value, p.owner, p.deleteIP), Doomed(b, p.lb.value, p.owner, p.deleteIP);
      forall r <- b, k <- db | k in Refs(b[r].spec) ensures r in db {
        assert k in da && r in da;
      }
    }
  }

  /** How many more undisturbed passes the driver resources take. */
  ghost function PassesLeft(res: map<Key, Resource>, p: Plan): nat {
    var targets := Targets(res, p.owner, p.deleteDisks);
    if targets == {} then 0
    else if p.deleteDisks && forall k <- targets :: k.kind == Disk then 1
    else if p.deleteDisks then 2 else 1
  }

  /** A pass that removes what one cleanup removes, and perhaps more, leaves fewer
      passes to go. */
  lemma OnePassFewer(a: map<Key, Resource>, b: map<Key, Resource>, p: Plan)
    requires Within(PassResult(a, p.owner, p.deleteDisks), b) && Targets(a, p.owner, p.deleteDisks) != {}
    ensures PassesLeft(b, p) < PassesLeft(a, p)
  {
    var once := PassResult(a, p.owner, p.deleteDisks);
    var left := Targets(b, p.owner, p.deleteDisks);
    forall k | k in left ensures k.kind == Disk && p.deleteDisks && exists x <- a :: x.kind == Attachment && Owned(a, x, p.owner) {
      assert k in once && once[k] == a[k] && k in Targets(a, p.owner, p.deleteDisks);
    }
    if x :| x in a && x.kind == Attachment && Owned(a, x, p.owner) {
      assert x in Targets(a, p.owner, p.deleteDisks) && x.kind != Disk;
    }
  }

  // ---- Progress where accepted deletes take their time ----

  /** No node is alive, what bears the load balancer's names is the cluster's, and
      nothing that stays refers to anything a teardown may delete. */
  ghost predicate Unhindered(res: map<Key, Resource>, p: Plan) {
    && !GuardSees(res, p.owner)
    && (p.managed ==> p.lb.Some? && PartsLabelled(res, p.lb.value, p.owner))
    && Isolated(res, Scope(res, p))
  }

  /** The cluster's own part of what a teardown may delete. */
  function OwnScope(res: map<Key, Resource>, p: Plan): set<Key> {
    OwnedGroups(res, p.owner) + if p.managed && p.lb.Some? then Doomed(res, p.lb.value, p.owner, p.deleteIP) else {}
  }

  /** From `a` to `b` everything in the scope that could go is gone or going. */
  ghost predicate Dispatched(a: State, b: State, p: Plan) {
    forall k <- Scope(a.res, p) :: Deletable(a.res, k, p.owner) && k in b.res ==> k in b.dying
  }

  /** There is nothing to do, and nothing in the way of seeing that. */
  ghost predicate NothingToDo(res: map<Key, Resource>, p: Plan) {
    Scope(res, p) == {} && !GuardSees(res, p.owner) && (p.managed ==> p.lb.Some? && PartsLabelled(res, p.lb.value, p.owner))
  }

  lemma StillNothingToDo(a: map<Key, Resource>, b: map<Key, Resource>, p: Plan)
    requires NothingToDo(a, p) && Within(a, b)
    ensures NothingToDo(b, p)
  {
    ScopeShrinks(a, b, p);
  }

  lemma ScopeShrinks(a: map<Key, Resource>, b: map<Key, Resource>, p: Plan)
    requires Within(a, b)
    ensures Scope(b, p) == Scope(a, p) * b.Keys && OwnScope(b, p) == OwnScope(a, p) * b.Keys
  {
    TargetsShrink(a, b, p.owner, p.deleteDisks);
    GroupsShrink(a, b, p.owner);
    if p.managed && p.lb.Some? { DoomedShrinks(a, b, p.lb.value, p.owner, p.deleteIP); }
  }

  lemma TargetsShrink(a: map<Key, Resource>, b: map<Key, Resource>, owner: string, dd: bool)
    requires Within(a, b)
    ensures Targets(b, owner, dd) == Targets(a, owner, dd) * b.Keys
  {}

  lemma GroupsShrink(a: map<Key, Resource>, b: map<Key, Resource>, owner: string)
    requires Within(a, b)
    ensures OwnedGroups(b, owner) == OwnedGroups(a, owner) * b.Keys
  {}

  lemma DoomedShrinks(a: map<Key, Resource>, b: map<Key, Resource>, lb: string, owner: string, ip: bool)
    requires Within(a, b)
    ensures Doomed(b, lb, owner, ip) == Doomed(a, lb, owner, ip) * b.Keys
  {}

  lemma ScopeKinds(res: map<Key, Resource>, p: Plan)
    ensures forall k <- Scope(res, p) :: k in res && k.kind != VM && Depth(k.kind) <= 3
  {}

  /** A whole pass is as good as its parts. */
  lemma PartsDispatched(s0: State, s1: State, s2: State, p: Plan)
    requires Shed(s0, s1, Targets(s0.res, p.owner, p.deleteDisks)) && Shrunk(s1, s2) && Within(s1.res, s2.res)
    requires Workload.Accepted(s0, s1, p.owner, p.deleteDisks) && AllFreed(s1, s2, OwnScope(s1.res, p))
    ensures Dispatched(s0, s2, p)
  {
    ScopeShrinks(s0.res, s1.res, p);
    forall k | k in Scope(s0.res, p) && Deletable(s0.res, k, p.owner) && k in s2.res ensures k in s2.dying {
      if k in Targets(s0.res, p.owner, p.deleteDisks) {
        assert k in s1.dying;
      } else {
        assert k in OwnScope(s1.res, p);
        UnreferencedAt(s0.res, s1.res, k);
      }
    }
  }

  /** What the endpoint's part freed, and then the groups', is the own scope. */
  lemma OwnFreed(s1: State, s2: State, s3: State, p: Plan)
    requires Within(s1.res, s2.res) && Within(s2.res, s3.res) && Shrunk(s2, s3)
    requires p.managed && p.lb.Some? ==> AllFreed(s1, s2, Doomed(s1.res, p.lb.value, p.owner, p.deleteIP))
    requires AllFreed(s2, s3, OwnedGroups(s2.res, p.owner))
    ensures AllFreed(s1, s3, OwnScope(s1.res, p))
  {
    GroupsFreed(s1, s2, s3, p.owner);
    if p.managed && p.lb.Some? { StillFreed(s1, s2, s3, Doomed(s1.res, p.lb.value, p.owner, p.deleteIP)); }
  }

  lemma StillFreed(a: State, b: State, c: State, keys: set<Key>)
    requires AllFreed(a, b, keys) && Shrunk(b, c)
    ensures AllFreed(a, c, keys)
  {}

  lemma GroupsFreed(s1: State, s2: State, s3: State, owner: string)
    requires Within(s1.res, s2.res) && Within(s2.res, s3.res) && AllFreed(s2, s3, OwnedGroups(s2.res, owner))
    ensures AllFreed(s1, s3, OwnedGroups(s1.res, owner))
  {
    forall k | k in OwnedGroups(s1.res, owner) && k in s3.res ensures GoneIfFree(s1, s3, k) {
      assert k in OwnedGroups(s2.res, owner);
      UnreferencedAt(s1.res, s2.res, k);
    }
  }

  /** A pass that starts when accepted deletes have finished gets one link deeper:
      first what nothing refers to and the attachments, then routes, addresses and
      disks, then services, then pools, and then it is over. */
  lemma PassDeeper(s0: State, a: State, b: State, p: Plan, n: nat)
    requires Typed(s0.res) && Unhindered(s0.res, p) && a.dying == {} && Within(s0.res, a.res) && Within(a.res, b.res)
    requires Dug(a, Scope(s0.res, p), n) && Dispatched(a, b, p)
    ensures Dug(b, Scope(s0.res, p), n + 1)
  {
    var scope := Scope(s0.res, p);
    ScopeKinds(s0.res, p);
    ScopeShrinks(s0.res, a.res, p);
    if n == 1 { NoAttachmentLeft(a, scope, p); }
    forall k | k in scope && Depth(k.kind) == n ensures GoneIfFree(a, b, k) {
      if k in b.res { assert k in Scope(a.res, p); }
    }
    DigDeeper(a, b, scope, n);
  }

  lemma NoAttachmentLeft(a: State, scope: set<Key>, p: Plan)
    requires a.dying == {} && Dug(a, scope, 1) && Scope(a.res, p) <= scope
    ensures forall x <- a.res :: x.kind == Attachment ==> !Owned(a.res, x, p.owner)
  {
    assert forall x <- a.res :: x.kind == Attachment && Owned(a.res, x, p.owner) ==> x in Targets(a.res, p.owner, p.deleteDisks);
  }

  /** Four links down there is nothing left. */
  lemma Bottom(s0: State, a: State, p: Plan)
    requires Unhindered(s0.res, p) && a.dying == {} && Within(s0.res, a.res) && Dug(a, Scope(s0.res, p), 4)
    ensures NothingToDo(a.res, p)
  {
    ScopeKinds(s0.res, p);
    ScopeShrinks(s0.res, a.res, p);
    assert forall k :: k in Scope(a.res, p) ==> k in Scope(s0.res, p);
  }

  datatype Outcome = Done | Requeue | Failure

  // ---- What each part of a teardown amounts to, from `a` to `b` ----

  ghost predicate BalancerPass(a: State, b: State, lb: string, owner: string, ip: bool, broken: bool, pending: bool, quiet: bool) {
    var doomed := Doomed(a.res, lb, owner, ip);
    && Shed(a, b, doomed)
    && (!broken && !pending ==> Blocking(b.res, lb, owner, ip) == {})
    && (quiet ==> AllFreed(a, b, doomed))
    && (quiet && doomed == {} && PartsLabelled(a.res, lb, owner) ==> !broken && !pending)
  }

  lemma BalancerPassed(s0: State, s1: State, s2: State, lb: string, owner: string, ip: bool, error: Option<Error>, check: Option<Error>, done: bool,
                       wasQuiet: bool, quiet: bool)
    requires var doomed := Doomed(s0.res, lb, owner, ip);
      && Shed(s0, s1, doomed) && Shed(s1, s2, {})
      && (wasQuiet ==> AllFreed(s0, s1, doomed) && (NoneReferenced(s0.res, doomed) ==> error.None?))
    requires (quiet ==> wasQuiet && check.None?) && (check.Some? ==> !done)
    requires check.None? ==> if done then Blocking(s2.res, lb, owner, ip) == {} else Blocking(s1.res, lb, owner, ip) != {}
    ensures BalancerPass(s0, s2, lb, owner, ip, error.Some? || check.Some?, check.None? && !done, quiet)
  {
    var doomed := Doomed(s0.res, lb, owner, ip);
    ShedScope(s0, s1, s2, doomed, {});
    if quiet && doomed == {} && PartsLabelled(s0.res, lb, owner) && !done {
      BlockingDoomed(s0.res, lb, owner, ip);
      LessToDelete(s0.res, s1.res, owner, false, lb, ip);
    }
  }

  ghost predicate GroupsPass(a: State, b: State, owner: string, broken: bool, pending: bool, quiet: bool, instant: bool) {
    var owned := OwnedGroups(a.res, owner);
    && Shed(a, b, owned)
    && (!broken && !pending ==> OwnedGroups(b.res, owner) == {})
    && (quiet ==> AllFreed(a, b, owned))
    && (quiet && owned == {} ==> !broken && !pending)
    && (quiet && instant && NoneReferenced(a.res, owned) ==> !broken && !pending)
  }

  lemma GroupsPassed(s0: State, listed: State, deleted: State, s: State, owner: string, names: seq<string>, remaining: seq<string>,
                     wasQuiet: bool, quiet: bool, failed: bool, relisted: bool, instant: bool)
    requires var owned := OwnedGroups(s0.res, owner);
      && Shed(s0, listed, owned) && Shed(s0, deleted, owned) && Within(listed.res, deleted.res) && Shed(deleted, s, {})
      && (wasQuiet ==> EachGone(s0, deleted, SG, names) && (NoneReferenced(s0.res, owned) ==> !failed))
    requires (quiet ==> wasQuiet && relisted) && (instant ==> deleted.dying == {})
    requires forall n :: n in names <==> Key(SG, n) in listed.res && Selects(OwnerSelector(CLUSTER_ID, owner), listed.res[Key(SG, n)].labels)
    requires relisted ==>
      forall n :: n in remaining <==> Key(SG, n) in s.res && Selects(OwnerSelector(CLUSTER_ID, owner), s.res[Key(SG, n)].labels)
    ensures GroupsPass(s0, s, owner, if relisted then failed else true, relisted && |remaining| > 0, quiet, instant)
  {
    var owned := OwnedGroups(s0.res, owner);
    ShedScope(s0, deleted, s, owned, {});
    if relisted {
      if |remaining| > 0 {
        assert remaining[0] in remaining && SGKey(remaining[0]) in owned && SGKey(remaining[0]) in s.res;
      } else {
        forall k | k in s.res ensures !OwnedGroup(s.res, k, owner) {
          if k.kind == SG { assert k == Key(SG, k.name) && k.name !in remaining; }
        }
      }
    }
    if wasQuiet {
      forall k | k in owned ensures GoneIfFree(s0, s, k) && GoneIfFree(s0, deleted, k) {
        assert k == Key(SG, k.name);
        if k in deleted.res { assert k in listed.res && k.name in names; }
      }
    }
  }

  lemma Relisted(a: seq<Call>, b: seq<Call>, script: Script, owner: string, failed: bool, error: Option<Error>, names: seq<string>, k: Verdict -> Script)
    requires Ran(a, b, script, AfterGroups(owner, k)(Verdict(failed, false)))
    ensures Ran(a, b + [Call(ListOp(SG, OwnerSelector(CLUSTER_ID, owner), names), error)], script,
      k(if error.Some? then Verdict(true, false) else Verdict(failed, |names| > 0)))
  {
    RanAsk(a, b, Call(ListOp(SG, OwnerSelector(CLUSTER_ID, owner), names), error), script, AfterGroups(owner, k)(Verdict(failed, false)));
  }

  /** The load balancer and the groups together. */
  ghost predicate OwnPass(a: State, b: State, p: Plan, broken: bool, pending: bool, quiet: bool, instant: bool) {
    && Shed(a, b, OwnScope(a.res, p))
    && (!broken && !pending ==> OwnResourcesGone(b.res, p))
    && (quiet ==> AllFreed(a, b, OwnScope(a.res, p)))
    && (quiet && NothingToDo(a.res, p) ==> !broken && !pending)
    && (quiet && instant && Clear(a.res, p) ==> !broken && !pending)
  }

  /** What the endpoint's part amounts to, whether there is one to see to or not. */
  ghost predicate EndpointPass(a: State, b: State, p: Plan, broken: bool, pending: bool, quiet: bool, instant: bool) {
    if p.managed && p.lb.Some? then
      && BalancerPass(a, b, p.lb.value, p.owner, p.deleteIP, broken, pending, quiet)
      && (instant && quiet && BalancerFree(a.res, p) ==> !broken && !pending)
    else b == a && broken == p.managed && !pending
  }

  lemma OwnPassed(s1: State, s2: State, s3: State, p: Plan, broken: bool, pending: bool, b: bool, more: bool, wasQuiet: bool, quiet: bool, instant: bool)
    requires s1.dying <= s1.res.Keys && s1.up <= s1.res.Keys && (quiet ==> wasQuiet)
    requires EndpointPass(s1, s2, p, broken, pending, wasQuiet, instant) && GroupsPass(s2, s3, p.owner, b, more, quiet, instant)
    ensures OwnPass(s1, s3, p, broken || b, pending || more, quiet, instant)
  {
    ShedRefl(s1, OwnScope(s1.res, p));
    OwnShed(s1, s2, s3, p);
    if quiet { OwnFreed(s1, s2, s3, p); }
    if NothingToDo(s1.res, p) { StillNothingToDo(s1.res, s2.res, p); }
    if Clear(s1.res, p) { StaysClear(s1.res, s2.res, p); }
    if p.managed && p.lb.Some? { LessToDelete(s2.res, s3.res, p.owner, false, p.lb.value, p.deleteIP); }
  }

  lemma OwnShed(s1: State, s2: State, s3: State, p: Plan)
    requires s1.dying <= s1.res.Keys && s1.up <= s1.res.Keys && Shed(s2, s3, OwnedGroups(s2.res, p.owner))
    requires if p.managed && p.lb.Some? then Shed(s1, s2, Doomed(s1.res, p.lb.value, p.owner, p.deleteIP)) else s2 == s1
    ensures Shed(s1, s3, OwnScope(s1.res, p)) && Within(s1.res, s2.res) && Within(s2.res, s3.res)
  {
    var own := OwnScope(s1.res, p);
    if p.managed && p.lb.Some? {
      ShedWiden(s1, s2, Doomed(s1.res, p.lb.value, p.owner, p.deleteIP), own);
    } else {
      ShedRefl(s1, own);
    }
    LessToDelete(s1.res, s2.res, p.owner, false, "", false);
    ShedScope(s1, s2, s3, own, OwnedGroups(s2.res, p.owner));
  }

  /** One pass of a teardown. */
  ghost predicate TeardownPass(a: State, b: State, p: Plan, outcome: Outcome, quiet: bool, instant: bool) {
    && Shed(a, b, Scope(a.res, p))
    && (outcome.Done? ==> NothingLeft(b.res, p))
    && (quiet && !GuardSees(a.res, p.owner) ==> Dispatched(a, b, p))
    && (quiet && NothingToDo(a.res, p) ==> outcome.Done?)
    && (quiet && instant && Clear(a.res, p) ==> Nearer(a.res, b.res, p, outcome))
  }

  lemma WholeTeardown(s0: State, s1: State, s2: State, p: Plan, error: Option<Error>, left: bool, broken: bool, pending: bool, outcome: Outcome,
                      wasQuiet: bool, quiet: bool, instant: bool)
    requires s0.dying <= s0.res.Keys && s0.up <= s0.res.Keys
    requires var targets := Targets(s0.res, p.owner, p.deleteDisks);
      && Shed(s0, s1, targets) && (left ==> GuardSees(s0.res, p.owner) || targets != {}) && (wasQuiet ==> error.None?)
      && (error.None? && !left ==> Targets(s1.res, p.owner, p.deleteDisks) == {})
      && (error.None? && !GuardSees(s0.res, p.owner) ==> Workload.Accepted(s0, s1, p.owner, p.deleteDisks))
      && (instant && wasQuiet && !GuardSees(s0.res, p.owner) && Isolated(s0.res, targets) ==> s1.res == PassResult(s0.res, p.owner, p.deleteDisks))
    requires OwnPass(s1, s2, p, broken, pending, quiet, instant) && (quiet ==> wasQuiet)
    requires outcome == if error.Some? || broken then Failure else if left || pending then Requeue else Done
    ensures TeardownPass(s0, s2, p, outcome, quiet, instant)
  {
    TeardownShed(s0, s1, s2, p);
    if outcome.Done? { DriversStayGone(s1.res, s2.res, p); }
    if quiet {
      if !GuardSees(s0.res, p.owner) { PartsDispatched(s0, s1, s2, p); }
      if NothingToDo(s0.res, p) { StillNothingToDo(s0.res, s1.res, p); }
      if instant && Clear(s0.res, p) {
        StaysClear(s0.res, s1.res, p);
        PassDone(s0.res, s1.res, s2.res, p);
      }
    }
  }

  lemma TeardownShed(s0: State, s1: State, s2: State, p: Plan)
    requires s0.dying <= s0.res.Keys && s0.up <= s0.res.Keys
    requires Shed(s0, s1, Targets(s0.res, p.owner, p.deleteDisks)) && Shed(s1, s2, OwnScope(s1.res, p))
    ensures Shed(s0, s2, Scope(s0.res, p)) && Within(s0.res, s1.res) && Within(s1.res, s2.res)
  {
    var scope := Scope(s0.res, p);
    ShedRefl(s0, scope);
    ShedScope(s0, s0, s1, scope, Targets(s0.res, p.owner, p.deleteDisks));
    ScopeShrinks(s0.res, s1.res, p);
    ShedScope(s0, s1, s2, scope, OwnScope(s1.res, p));
  }

  lemma PassDeeperToo(s0: State, a: State, b: State, p: Plan, outcome: Outcome, n: nat, instant: bool)
    requires Typed(s0.res) && Unhindered(s0.res, p) && a.dying == {} && Within(s0.res, a.res)
    requires Dug(a, Scope(s0.res, p), n) && TeardownPass(a, b, p, outcome, true, instant) && !outcome.Done?
    ensures Dug(b, Scope(s0.res, p), n + 1) && n < 4
  {
    assert !GuardSees(a.res, p.owner);
    PassDeeper(s0, a, b, p, n);
    if n >= 4 { Bottom(s0, a, p); }
  }

  /** What the copy's patch was to store is what is stored now. */
  predicate Stored(copy: Object, last: Object)
    requires copy.body.Cluster?
  {
    && last.body.Cluster?
    && (Recorded(copy) != "" ==> Recorded(last) == Recorded(copy))
    && (!copy.body.cluster.endpoint.IsZero() ==> last.body.cluster.endpoint == copy.body.cluster.endpoint)
  }

  lemma PatchStored(r: Record, at: nat, mid: nat, copy: Object, annotations: map<string, string>, endpoint: Option<Endpoint>)
    requires Sound(r) && at < |r.versions| && mid < |r.versions| && r.versions[at].body.Cluster? && r.versions[mid].body.Cluster?
    requires copy.body.Cluster?
    requires if annotations == map[] then copy.meta.annotations == r.versions[at].meta.annotations
             else RESOURCE_PREFIX in annotations && Recorded(r.versions[mid]) == annotations[RESOURCE_PREFIX] == Recorded(copy)
    requires if endpoint.None? then copy.body.cluster.endpoint == r.versions[at].body.cluster.endpoint
             else r.versions[mid].body.cluster.endpoint == endpoint.value == copy.body.cluster.endpoint
    ensures Stored(copy, Last(r))
  {
    assert Follows(r.versions[at], r.versions[|r.versions| - 1]);
    assert Follows(r.versions[mid], r.versions[|r.versions| - 1]);
  }

  /** The endpoint is the address of this load balancer's own frontend. */
  ghost predicate Endorsed(s: State, lb: string, endpoint: Endpoint) {
    endpoint.port == 6443 && At(s, lb, endpoint.host)
  }

  lemma EndorsedTended(a: State, b: State, marked: set<Key>, labels: Labels)
    requires Tended(a, b, marked, labels)
    ensures forall lb, endpoint :: Endorsed(a, lb, endpoint) ==> Endorsed(b, lb, endpoint)
  {}

  /** A managed endpoint is stored, and so is the prefix, so that from now on a move
      or the loss of status changes no name.  An endpoint that was not set before is
      the load balancer's own address. */
  ghost predicate Provisioned(v: Object, last: Object, s: State)
    requires v.body.Cluster?
  {
    last.body.Cluster? && (ManagesEndpoint(v.body.cluster) ==>
      && !last.body.cluster.endpoint.IsZero() && (Prefix(v) != Some("") ==> Some(Recorded(last)) == Prefix(v))
      && (v.body.cluster.endpoint.IsZero() ==>
            LoadBalancerName(v).Some? && Endorsed(s, LoadBalancerName(v).value, last.body.cluster.endpoint)))
  }

  /** How a reconcile of version `v` that reports Done leaves the stored object. */
  ghost predicate Concluded(v: Object, last: Object, s: State)
    requires v.body.Cluster?
  {
    if v.meta.deleting then Marked(v) ==> !Marked(last) else Creatable(v) && Provisioned(v, last, s)
  }

  class ClusterReconciler {
    const cloud: Cloud
    const store: Store
    const balancers: LoadBalancerService
    const workload: WorkloadResourceService
    const groups: SecurityGroupReconciler

    constructor (cloud: Cloud, store: Store)
      ensures this.cloud == cloud && this.store == store && Wired()
    {
      this.cloud, this.store := cloud, store;
      this.balancers := new LoadBalancerService(cloud);
      this.workload := new WorkloadResourceService(cloud);
      this.groups := new SecurityGroupReconciler(cloud);
    }

    ghost predicate Wired() {
      balancers.cloud == cloud && workload.cloud == cloud && groups.cloud == cloud
    }

    // ---- Load balancer ----

    /** The subnet of each zone the cluster spans. */
    method BackendSubnets(spec: ClusterSpec) returns (subnets: map<string, string>)
      ensures subnets == map z | z in spec.failureDomains :: SubnetName(spec, z)
    {
      subnets := map[];
      for i := 0 to |spec.failureDomains|
        invariant subnets == map z | z in spec.failureDomains[..i] :: SubnetName(spec, z)
      {
        var zone := spec.failureDomains[i];
        assert spec.failureDomains[..i + 1] == spec.failureDomains[..i] + [zone];
        subnets := subnets[zone := SubnetName(spec, zone)];
      }
      assert spec.failureDomains[..|spec.failureDomains|] == spec.failureDomains;
    }

    method BuildLoadBalancerCreateRequest(cluster: EvrocCluster, name: string) returns (r: Request)
      ensures r.name == name && r.port == r.backendPort == 6443
      ensures r.labels == OwnedLabels(cluster.meta.name, OwnerID(cluster.Value()), [cluster.spec.labels])
      ensures r.existingIP == ExistingIP(cluster.spec) && r.stackType == StackType(cluster.spec)
      ensures r.ports == if cluster.spec.loadBalancer.Some? then cluster.spec.loadBalancer.value.ports else []
      ensures r.network == if cluster.spec.vpc.None? || cluster.spec.vpc.value == "" then None
        else Some(Network(cluster.spec.vpc.value, map z | z in cluster.spec.failureDomains :: SubnetName(cluster.spec, z)))
    {
      var spec := cluster.spec;
      var labels := ResourceLabels(cluster.meta.name, Lookup(cluster.meta.annotations, CLUSTER_OWNERSHIP_ID), [spec.labels]);
      var existingIP, ports, network := "", [], None;
      if spec.loadBalancer.Some? {
        if spec.loadBalancer.value.existingIP.Some? {
          existingIP := spec.loadBalancer.value.existingIP.value;
        }
        ports := spec.loadBalancer.value.ports;
      }
      if spec.vpc.Some? && spec.vpc.value != "" {
        var subnets := BackendSubnets(spec);
        network := Some(Network(spec.vpc.value, subnets));
      }
      r := Request(name, 6443, 6443, ports, existingIP, labels, network, StackType(spec));
    }

    /** Finds the load balancer in the cloud, or creates it. */
    method FindOrCreate(cluster: EvrocCluster, name: string, ghost v: Object) returns (error: Option<Error>, lb: Option<LoadBalancer>)
      requires Wired() && cloud.Valid() && Working(v, cluster.Value()) && LoadBalancerName(v) == Some(name)
      requires Branded(cloud.s.res, BrandOf(v)) && ManagesEndpoint(v.body.cluster)
      modifies cloud
      ensures cloud.Valid() && Branded(cloud.s.res, BrandOf(v)) && Retains(old(cloud.s), cloud.s, {})
      ensures error.None? <==> lb.Some?
      ensures lb.Some? ==> lb.value.name == name && Reported(cloud.s, lb.value)
      // One that is there and stays is only looked at.
      ensures LBKey(name) in old(cloud.s).res && LBKey(name) !in old(cloud.s).dying ==> Shed(old(cloud.s), cloud.s, {})
    {
      ghost var s0 := cloud.s;
      error, lb := balancers.Build(name);
      BrandedShed(s0, cloud.s, {}, BrandOf(v));
      ShedRetains(s0, cloud.s);
      if error == Some(NotFound) {
        ghost var s1 := cloud.s;
        var request := BuildLoadBalancerCreateRequest(cluster, name);
        error, lb := balancers.Create(request);
        WorkingKeepsIdentity(v, cluster.Value());
        OwnerAlwaysWins(cluster.meta.name, OwnerID(v), [cluster.spec.labels], OwnerID(v));
        BrandedGrows(s1, cloud.s, request, BrandOf(v));
        GrowsRetains(s1, cloud.s, Graph(request));
        RetainsTrans(s0, s1, cloud.s, {});
      }
    }

    /** Records the load balancer, and sets the endpoint only if nothing has. */
    method UseLoadBalancer(cluster: EvrocCluster, lb: LoadBalancer, ghost v: Object)
      requires Working(v, cluster.Value()) && LoadBalancerName(v) == Some(lb.name) && lb.address != ""
      modifies cluster
      ensures Working(v, cluster.Value()) && cluster.meta == old(cluster.meta)
      ensures cluster.spec.endpoint == if old(cluster.spec.endpoint.IsZero()) then Endpoint(lb.address, 6443) else old(cluster.spec.endpoint)
      ensures cluster.status == old(cluster.status).(lb := Some(TrackedLB(lb.name, lb.address, lb.backends)))
    {
      if cluster.spec.endpoint.IsZero() {
        cluster.spec := cluster.spec.(endpoint := Endpoint(lb.address, 6443));
      }
      cluster.status := cluster.status.(lb := Some(TrackedLB(lb.name, lb.address, lb.backends)));
    }

    method ReconcileLoadBalancer(cluster: EvrocCluster, name: string, ghost v: Object) returns (outcome: Outcome)
      requires Wired() && cloud.Valid() && Working(v, cluster.Value()) && LoadBalancerName(v) == Some(name)
      requires Branded(cloud.s.res, BrandOf(v)) && ManagesEndpoint(v.body.cluster)
      modifies cloud, cluster
      ensures cloud.Valid() && Branded(cloud.s.res, BrandOf(v)) && Retains(old(cloud.s), cloud.s, {}) && Working(v, cluster.Value())
      ensures cluster.status == old(cluster.status).(lb := cluster.status.lb)
      ensures outcome.Done? ==>
        cluster.status.lb.Some? && cluster.status.lb.value.id == name && !cluster.spec.endpoint.IsZero()
      ensures cluster.meta == old(cluster.meta)
      ensures !outcome.Done? ==> cluster.Value() == old(cluster.Value())
      // It is used only when active, under its own address.
      ensures outcome.Done? && LBKey(name) in cloud.s.res ==>
        LBKey(name) in cloud.s.up && At(cloud.s, name, cluster.status.lb.value.address) && cluster.status.lb.value.address != ""
      ensures outcome.Done? && old(cluster.spec.endpoint).IsZero() ==> cluster.spec.endpoint == Endpoint(cluster.status.lb.value.address, 6443)
      ensures outcome.Done? && !old(cluster.spec.endpoint).IsZero() ==> cluster.spec.endpoint == old(cluster.spec.endpoint)
    {
      var error, lb := FindOrCreate(cluster, name, v);
      if error.Some? {
        return Failure;
      }
      if lb.value.address == "" || !lb.value.active {
        return Requeue;
      }
      UseLoadBalancer(cluster, lb.value, v);
      outcome := Done;
    }

    // ---- Normal reconciliation ----

    method ConvergeEndpoint(cluster: EvrocCluster, ghost v: Object) returns (outcome: Outcome)
      requires Wired() && cloud.Valid() && Working(v, cluster.Value()) && Branded(cloud.s.res, BrandOf(v))
      requires ManagesEndpoint(v.body.cluster)
      modifies cloud, cluster
      ensures cloud.Valid() && Branded(cloud.s.res, BrandOf(v)) && Retains(old(cloud.s), cloud.s, {}) && Working(v, cluster.Value())
      ensures cluster.status.groups == old(cluster.status.groups)
      ensures outcome.Done? ==> Named(v, cluster.Value())
      ensures outcome.Done? ==>
        !cluster.spec.endpoint.IsZero() && cluster.status.lb.Some? && Some(cluster.status.lb.value.id) == LoadBalancerName(v)
      ensures outcome.Done? && ManagesEndpoint(v.body.cluster) && old(cluster.spec.endpoint).IsZero() ==>
        LoadBalancerName(v).Some? && Endorsed(cloud.s, LoadBalancerName(v).value, cluster.spec.endpoint)
    {
      var name := ResolveLoadBalancerName(cluster, v);
      if name.None? {
        return Failure;
      }
      outcome := ReconcileLoadBalancer(cluster, name.value, v);
      if outcome.Failure? {
        cluster.status := cluster.status.(ready := false);
      }
    }

    /** Everything between the snapshot and the deferred patch. */
    method Converge(cluster: EvrocCluster, ghost v: Object) returns (outcome: Outcome)
      requires Wired() && cloud.Valid() && Working(v, cluster.Value()) && Branded(cloud.s.res, BrandOf(v))
      requires cluster.status.groups == v.body.clusterStatus.groups
      modifies cloud, cluster
      ensures cloud.Valid() && Branded(cloud.s.res, BrandOf(v)) && Working(v, cluster.Value())
      ensures Retains(old(cloud.s), cloud.s, Retired(v))
      ensures outcome.Done? ==> cluster.status.ready && cluster.status.groups == Wants(v)
      ensures outcome.Done? && ManagesEndpoint(v.body.cluster) ==> Named(v, cluster.Value())
      ensures outcome.Done? && ManagesEndpoint(v.body.cluster) ==>
        !cluster.spec.endpoint.IsZero() && cluster.status.lb.Some? && Some(cluster.status.lb.value.id) == LoadBalancerName(v)
      ensures outcome.Done? && ManagesEndpoint(v.body.cluster) && old(cluster.spec.endpoint).IsZero() ==>
        LoadBalancerName(v).Some? && Endorsed(cloud.s, LoadBalancerName(v).value, cluster.spec.endpoint)
    {
      ghost var start := cloud.s;
      RetainsRefl(start, {});
      if ManagesEndpoint(cluster.spec) {
        outcome := ConvergeEndpoint(cluster, v);
        if !outcome.Done? {
          return;
        }
      }
      ghost var s0 := cloud.s;
      outcome := ConvergeGroups(cluster, v);
      RetainsTrans(start, s0, cloud.s, Retired(v));
    }

    method ConvergeGroups(cluster: EvrocCluster, ghost v: Object) returns (outcome: Outcome)
      requires Wired() && cloud.Valid() && Working(v, cluster.Value()) && Branded(cloud.s.res, BrandOf(v))
      requires cluster.status.groups == v.body.clusterStatus.groups
      modifies cloud, cluster`meta, cluster`status
      ensures cloud.Valid() && Branded(cloud.s.res, BrandOf(v)) && Working(v, cluster.Value())
      ensures Retains(old(cloud.s), cloud.s, Retired(v)) && (Named(v, old(cluster.Value())) ==> Named(v, cluster.Value()))
      ensures cluster.status.lb == old(cluster.status.lb)
      ensures outcome.Done? ==> cluster.status.groups == Wants(v)
      // Ready if it worked, not ready if it did not.
      ensures !outcome.Requeue? && cluster.status.ready == outcome.Done?
      ensures forall lb, endpoint :: Endorsed(old(cloud.s), lb, endpoint) ==> Endorsed(cloud.s, lb, endpoint)
    {
      ghost var s0 := cloud.s;
      var error := groups.ReconcileSecurityGroups(cluster, v);
      BrandedTended(s0, cloud.s, Retired(v), v);
      TendedRetains(s0, cloud.s, Retired(v), GroupLabels(v));
      EndorsedTended(s0, cloud.s, Retired(v), GroupLabels(v));
      cluster.status := cluster.status.(ready := error.None?);
      outcome := if error.Some? then Failure else Done;
    }

    /** Sends what changed in the copy since the snapshot, spec and metadata
        first, then status. */
    method DeferredPatch(cluster: EvrocCluster, at: nat, v: Object) returns (ok: bool)
      requires Sound(store.r) && at < |store.r.versions| && store.r.versions[at] == v && Working(v, cluster.Value())
      modifies store
      ensures Kept(old(store.r), store.r) && old(store.r).versions <= store.r.versions
      ensures ok ==> Stored(cluster.Value(), Last(store.r))
    {
      ghost var r0 := store.r;
      var annotations := if cluster.meta.annotations == v.meta.annotations then map[]
                         else map[RESOURCE_PREFIX := Lookup(cluster.meta.annotations, RESOURCE_PREFIX)];
      var endpoint := if cluster.spec.endpoint == v.body.cluster.endpoint then None else Some(cluster.spec.endpoint);
      var error := store.Patch(at, annotations, endpoint);
      ghost var r1 := store.r;
      assert store.r.versions[at] == v;
      var statusError := store.PatchStatus(at, v.body.clusterStatus, cluster.status);
      KeptTrans(r0, r1, store.r);
      ok := error.None? && statusError.None?;
      if ok { PatchStored(store.r, at, |r1.versions| - 1, cluster.Value(), annotations, endpoint); }
    }

    method ReconcileNormal(cluster: EvrocCluster, at: nat, v: Object) returns (outcome: Outcome)
      requires Wired() && cloud.Valid() && v.body.Cluster? && Branded(cloud.s.res, BrandOf(v))
      requires Sound(store.r) && at < |store.r.versions| && store.r.versions[at] == v && cluster.Value() == v
      modifies cloud, store, cluster
      ensures cloud.Valid() && Branded(cloud.s.res, BrandOf(v)) && Kept(old(store.r), store.r)
      ensures Retains(old(cloud.s), cloud.s, Retired(v))
      ensures outcome.Done? ==> Provisioned(v, Last(store.r), cloud.s)
    {
      cluster.status := cluster.status.(paused := false);
      outcome := Converge(cluster, v);
      var ok := DeferredPatch(cluster, at, v);
      if !ok {
        outcome := Failure;
      }
    }

    // ---- Teardown ----

    method CleanupLB(cluster: EvrocCluster, owner: string, ghost v: Object, ghost k: Verdict -> Script) returns (broken: bool, pending: bool)
      requires Wired() && cloud.Valid() && Working(v, cluster.Value()) && OwnerID(v) == owner && ManagesEndpoint(v.body.cluster)
      modifies cloud, cluster`meta
      ensures cloud.Valid() && Working(v, cluster.Value()) && cloud.faults >= old(cloud.faults)
      ensures EndpointPass(old(cloud.s), cloud.s, PlanOf(v), broken, pending, cloud.faults == old(cloud.faults), cloud.instant)
      ensures if LoadBalancerName(v).None? then cloud.calls == old(cloud.calls)
        else Ran(old(cloud.calls), cloud.calls, BalancerScript(LoadBalancerName(v).value, owner, PlanOf(v).deleteIP, k), k(Verdict(broken, pending)))
    {
      var name := ResolveLoadBalancerName(cluster, v);
      if name.None? {
        broken, pending := true, false;
      } else {
        var deletePublicIP := OwnsAddress(cluster.spec);
        broken, pending := DeleteAndCheck(name.value, owner, deletePublicIP, k);
      }
    }

    /** A borrowed address is not the provider's to delete. */
    method OwnsAddress(spec: ClusterSpec) returns (own: bool)
      ensures own == (ExistingIP(spec) == "")
    {
      own := true;
      if spec.loadBalancer.Some? && spec.loadBalancer.value.existingIP.Some? && spec.loadBalancer.value.existingIP.value != "" {
        own := false;
      }
    }

    method DeleteAndCheck(name: string, owner: string, deletePublicIP: bool, ghost k: Verdict -> Script) returns (broken: bool, pending: bool)
      requires Wired() && cloud.Valid()
      modifies cloud
      ensures cloud.Valid() && cloud.faults >= old(cloud.faults)
      ensures BalancerPass(old(cloud.s), cloud.s, name, owner, deletePublicIP, broken, pending, cloud.faults == old(cloud.faults))
      ensures (cloud.instant && cloud.faults == old(cloud.faults) && PartsLabelled(old(cloud.s).res, name, owner)
               && Isolated(old(cloud.s).res, Doomed(old(cloud.s).res, name, owner, deletePublicIP))) ==> !broken && !pending
      ensures Ran(old(cloud.calls), cloud.calls, BalancerScript(name, owner, deletePublicIP, k), k(Verdict(broken, pending)))
    {
      ghost var s0, f0, log0, script := cloud.s, cloud.faults, cloud.calls, BalancerScript(name, owner, deletePublicIP, k);
      TeardownCompletesIff(s0.res, name, owner, deletePublicIP);
      var error := balancers.Delete(name, owner, deletePublicIP, AfterDelete(name, owner, deletePublicIP, k));
      ghost var s1, f1, log1 := cloud.s, cloud.faults, cloud.calls;
      broken, pending := error.Some? && error != Some(NotFound), false;
      assert broken == error.Some?;
      var checkError, done := balancers.DeletionComplete(name, owner, deletePublicIP, AfterComplete(broken, k));
      BalancerPassed(s0, s1, cloud.s, name, owner, deletePublicIP, error, checkError, done, f1 == f0, cloud.faults == f0);
      RanThen(log0, log1, cloud.calls, script, CompleteScript(name, owner, deletePublicIP, AfterComplete(broken, k)),
              k(Verdict(broken || checkError.Some?, checkError.None? && !done)));
      if checkError.Some? {
        broken := true;
      } else if !done {
        pending := true;
      }
    }

    /** Tries every group of the list. */
    method DeleteGroups(names: seq<string>, ghost owned: set<Key>, ghost s0: State, ghost k: Verdict -> Script) returns (broken: bool)
      requires cloud.Valid() && Shed(s0, cloud.s, owned) && forall n <- names :: SGKey(n) in owned
      modifies cloud
      ensures cloud.Valid() && Shed(s0, cloud.s, owned) && cloud.faults >= old(cloud.faults) && Within(old(cloud.s).res, cloud.s.res)
      ensures cloud.faults == old(cloud.faults) ==> EachGone(s0, cloud.s, SG, names) && (NoneReferenced(s0.res, owned) ==> !broken)
      ensures Ran(old(cloud.calls), cloud.calls, NamesScript(SG, names, 0, false, k), k(Verdict(broken, false)))
    {
      ghost var s1, f0, log0 := cloud.s, cloud.faults, cloud.calls;
      broken := false;
      for i := 0 to |names|
        invariant cloud.Valid() && Shed(s0, cloud.s, owned) && cloud.faults >= f0 && Within(s1.res, cloud.s.res)
        invariant cloud.faults == f0 ==> EachGone(s0, cloud.s, SG, names[..i]) && (NoneReferenced(s0.res, owned) ==> !broken)
        invariant Ran(log0, cloud.calls, NamesScript(SG, names, 0, false, k), NamesScript(SG, names, i, broken, k))
      {
        ghost var before, log := cloud.s, cloud.calls;
        var error := DeleteGroup(SGKey(names[i]), owned, s0);
        assert names[..i + 1] == names[..i] + [names[i]];
        if cloud.faults == f0 { NextGone(s0, before, cloud.s, SG, names[..i], names[i]); }
        NameAnswered(log0, log, SG, names, i, broken, error, k);
        broken := broken || Rejected(error);
      }
      assert names[..|names|] == names;
    }

    method DeleteGroup(k: Key, ghost owned: set<Key>, ghost s0: State) returns (error: Option<Error>)
      requires cloud.Valid() && Shed(s0, cloud.s, owned) && k in owned
      modifies cloud
      ensures cloud.Valid() && Shed(s0, cloud.s, owned) && cloud.faults >= old(cloud.faults)
      ensures Within(old(cloud.s).res, cloud.s.res) && Shrunk(old(cloud.s), cloud.s)
      ensures cloud.calls == old(cloud.calls) + [Call(DeleteOp(k), error)]
      ensures cloud.faults == old(cloud.faults) ==> GoneIfFree(s0, cloud.s, k) && (NoneReferenced(s0.res, owned) ==> !Rejected(error))
    {
      ghost var before := cloud.s;
      error := cloud.Delete(k);
      ShedScope(s0, before, cloud.s, owned, {k});
      UnreferencedAt(s0.res, cloud.s.res, k);
    }

    method CleanupSGs(owner: string, ghost k: Verdict -> Script) returns (broken: bool, pending: bool)
      requires Wired() && cloud.Valid()
      modifies cloud
      ensures cloud.Valid() && cloud.faults >= old(cloud.faults)
      ensures GroupsPass(old(cloud.s), cloud.s, owner, broken, pending, cloud.faults == old(cloud.faults), cloud.instant)
      ensures Ran(old(cloud.calls), cloud.calls, GroupsScript(owner, k), k(Verdict(broken, pending)))
    {
      ghost var s0, f0, log0, script := cloud.s, cloud.faults, cloud.calls, GroupsScript(owner, k);
      ghost var owned := OwnedGroups(s0.res, owner);
      var sel := OwnerSelector(CLUSTER_ID, owner);
      var error, names := cloud.List(SG, sel);
      ghost var listed, log1 := cloud.s, cloud.calls;
      RanFirst(log0, Call(ListOp(SG, sel, names), error), script);
      ShedWiden(s0, listed, {}, owned);
      broken, pending := true, false;
      if error.None? {
        assert forall n <- names :: SGKey(n) in owned;
        var failed := DeleteGroups(names, owned, s0, AfterGroups(owner, k));
        ghost var deleted, f2, log2 := cloud.s, cloud.faults, cloud.calls;
        RanThen(log0, log1, log2, script, NamesScript(SG, names, 0, false, AfterGroups(owner, k)), AfterGroups(owner, k)(Verdict(failed, false)));
        var remaining;
        error, remaining := cloud.List(SG, sel);
        Relisted(log0, log2, script, owner, failed, error, remaining, k);
        GroupsPassed(s0, listed, deleted, cloud.s, owner, names, remaining, f2 == f0, cloud.faults == f0, failed, error.None?, cloud.instant);
        if error.None? {
          broken, pending := failed, |remaining| > 0;
        }
      }
    }

    /** Tears down everything the cluster owns and reports Done only when none of
        it is left, although the three checks happen one after another. */
    method CleanupResources(cluster: EvrocCluster, ghost v: Object) returns (outcome: Outcome)
      requires Wired() && cloud.Valid() && Working(v, cluster.Value())
      modifies cloud, cluster`meta
      ensures cloud.Valid() && Working(v, cluster.Value()) && cloud.faults >= old(cloud.faults)
      ensures OwnerID(v) == "" ==> outcome.Failure? && cloud.s == old(cloud.s)
      ensures OwnerID(v) != "" ==>
        TeardownPass(old(cloud.s), cloud.s, PlanOf(v), outcome, cloud.faults == old(cloud.faults), cloud.instant)
      // The calls and the outcome are determined by the plan and the answers.
      ensures exists verdict :: outcome == OutcomeOf(verdict) && Ran(old(cloud.calls), cloud.calls, TeardownScript(PlanOf(v)), Finish(verdict))
    {
      WorkingKeepsIdentity(v, cluster.Value());
      var owner := Lookup(cluster.meta.annotations, CLUSTER_OWNERSHIP_ID);
      ghost var verdict := Verdict(true, false);
      if owner == "" {
        outcome := Failure;
        RanNone(cloud.calls, TeardownScript(PlanOf(v)));
      } else {
        var deleteDisks := Lookup(cluster.meta.annotations, DELETE_CSI_DISKS) == "true";
        outcome, verdict := Teardown(cluster, owner, deleteDisks, v, PlanOf(v));
      }
      assert outcome == OutcomeOf(verdict);
    }

    method Teardown(cluster: EvrocCluster, owner: string, deleteDisks: bool, ghost v: Object, ghost plan: Plan)
      returns (outcome: Outcome, ghost verdict: Verdict)
      requires Wired() && cloud.Valid() && Working(v, cluster.Value()) && plan == PlanOf(v)
      requires owner == plan.owner != "" && deleteDisks == plan.deleteDisks
      modifies cloud, cluster`meta
      ensures cloud.Valid() && Working(v, cluster.Value()) && cloud.faults >= old(cloud.faults)
      ensures TeardownPass(old(cloud.s), cloud.s, plan, outcome, cloud.faults == old(cloud.faults), cloud.instant)
      ensures outcome == OutcomeOf(verdict) && Ran(old(cloud.calls), cloud.calls, TeardownScript(plan), Finish(verdict))
    {
      ghost var s0, f0, log0 := cloud.s, cloud.faults, cloud.calls;
      var error, left := workload.Cleanup(owner, deleteDisks, AfterDrivers(plan));
      ghost var s1, f1, log1, drivers := cloud.s, cloud.faults, cloud.calls, Verdict(error.Some?, left);
      var b, p := CleanupEndpointAndGroups(cluster, owner, v, plan, Closing(drivers));
      verdict := Both(drivers, Verdict(b, p));
      RanThen(log0, log1, cloud.calls, TeardownScript(plan), EndpointScript(plan, Closing(drivers)), Finish(verdict));
      outcome := if error.Some? || b then Failure else if left || p then Requeue else Done;
      WholeTeardown(s0, s1, cloud.s, plan, error, left, b, p, outcome, f1 == f0, cloud.faults == f0, cloud.instant);
    }

    method CleanupEndpointAndGroups(cluster: EvrocCluster, owner: string, ghost v: Object, ghost plan: Plan, ghost k: Verdict -> Script)
      returns (broken: bool, pending: bool)
      requires Wired() && cloud.Valid() && Working(v, cluster.Value()) && plan == PlanOf(v) && owner == plan.owner
      modifies cloud, cluster`meta
      ensures cloud.Valid() && Working(v, cluster.Value()) && cloud.faults >= old(cloud.faults)
      ensures OwnPass(old(cloud.s), cloud.s, plan, broken, pending, cloud.faults == old(cloud.faults), cloud.instant)
      ensures Ran(old(cloud.calls), cloud.calls, EndpointScript(plan, k), k(Verdict(broken, pending)))
    {
      ghost var s1, f1, log1 := cloud.s, cloud.faults, cloud.calls;
      broken, pending := CleanupEndpoint(cluster, owner, v, plan, k);
      ghost var s2, f2, log2, first := cloud.s, cloud.faults, cloud.calls, Verdict(broken, pending);
      var b, p := CleanupSGs(owner, Adding(first, k));
      RanThen(log1, log2, cloud.calls, EndpointScript(plan, k), GroupsScript(owner, Adding(first, k)), k(Both(first, Verdict(b, p))));
      OwnPassed(s1, s2, cloud.s, plan, broken, pending, b, p, f2 == f1, cloud.faults == f1, cloud.instant);
      broken, pending := broken || b, pending || p;
    }

    /** Only where the provider owns the endpoint. */
    method CleanupEndpoint(cluster: EvrocCluster, owner: string, ghost v: Object, ghost plan: Plan, ghost k: Verdict -> Script)
      returns (broken: bool, pending: bool)
      requires Wired() && cloud.Valid() && Working(v, cluster.Value()) && plan == PlanOf(v) && owner == plan.owner
      modifies cloud, cluster`meta
      ensures cloud.Valid() && Working(v, cluster.Value()) && cloud.faults >= old(cloud.faults)
      ensures EndpointPass(old(cloud.s), cloud.s, plan, broken, pending, cloud.faults == old(cloud.faults), cloud.instant)
      ensures Ran(old(cloud.calls), cloud.calls, EndpointScript(plan, k), GroupsScript(owner, Adding(Verdict(broken, pending), k)))
    {
      broken, pending := false, false;
      RanNone(cloud.calls, EndpointScript(plan, k));
      if ManagesEndpoint(cluster.spec) {
        broken, pending := CleanupLB(cluster, owner, v, AfterEndpoint(owner, k));
      }
    }

    /** Nothing fails or interferes, but accepted deletes take until the next pass to
        finish: what a pass is refused because something going still refers to it, a
        later pass gets, and after at most five the teardown is over. */
    method TeardownUndisturbed(cluster: EvrocCluster, ghost v: Object) returns (outcome: Outcome, passes: nat)
      requires Wired() && cloud.Valid() && Working(v, cluster.Value())
      requires OwnerID(v) != "" && Unhindered(cloud.s.res, PlanOf(v))
      modifies cloud, cluster`meta
      ensures cloud.Valid() && passes <= 5 && Shed(old(cloud.s), cloud.s, Scope(old(cloud.s).res, PlanOf(v)))
      ensures cloud.faults == old(cloud.faults) ==> outcome.Done? && NothingLeft(cloud.s.res, PlanOf(v))
    {
      ghost var s0, f0, plan := cloud.s, cloud.faults, PlanOf(v);
      outcome, passes := Requeue, 0;
      ShedRefl(s0, Scope(s0.res, plan));
      while !outcome.Done? && passes < 5
        invariant cloud.Valid() && Working(v, cluster.Value()) && cloud.faults >= f0 && passes <= 5 && Shed(s0, cloud.s, Scope(s0.res, plan))
        invariant cloud.faults == f0 ==>
          if outcome.Done? then NothingLeft(cloud.s.res, plan) else passes < 5 && Dug(cloud.s, Scope(s0.res, plan), passes)
      {
        outcome := SettleAndCleanup(cluster, v, s0, plan, passes);
        passes := passes + 1;
      }
    }

    method SettleAndCleanup(cluster: EvrocCluster, ghost v: Object, ghost s0: State, ghost plan: Plan, ghost n: nat) returns (outcome: Outcome)
      requires Wired() && cloud.Valid() && Working(v, cluster.Value()) && plan == PlanOf(v) && plan.owner != ""
      requires Typed(s0.res) && Unhindered(s0.res, plan) && Shed(s0, cloud.s, Scope(s0.res, plan))
      modifies cloud, cluster`meta
      ensures cloud.Valid() && Working(v, cluster.Value()) && cloud.faults >= old(cloud.faults) && Shed(s0, cloud.s, Scope(s0.res, plan))
      ensures outcome.Done? ==> NothingLeft(cloud.s.res, plan)
      ensures cloud.faults == old(cloud.faults) && !outcome.Done? && Dug(old(cloud.s), Scope(s0.res, plan), n) ==>
        Dug(cloud.s, Scope(s0.res, plan), n + 1) && n < 4
    {
      ghost var p, f0 := cloud.s, cloud.faults;
      cloud.Settle();
      ghost var a := cloud.s;
      ShedScope(s0, p, a, Scope(s0.res, plan), {});
      outcome := CleanupResources(cluster, v);
      ScopeShrinks(s0.res, a.res, plan);
      ShedScope(s0, a, cloud.s, Scope(s0.res, plan), Scope(a.res, plan));
      if cloud.faults == f0 && !outcome.Done? && Dug(p, Scope(s0.res, plan), n) {
        PassDeeperToo(s0, a, cloud.s, plan, outcome, n, cloud.instant);
      }
    }

    /** Where deletes act at once and nothing fails or interferes, teardown is over
        after three passes, two when the drivers' disks are retained. */
    method TeardownAtOnce(cluster: EvrocCluster, ghost v: Object) returns (outcome: Outcome, passes: nat)
      requires Wired() && cloud.Valid() && Working(v, cluster.Value())
      requires OwnerID(v) != "" && cloud.instant && Clear(cloud.s.res, PlanOf(v))
      modifies cloud, cluster`meta
      ensures cloud.Valid() && passes <= 3
      ensures cloud.faults == old(cloud.faults) ==>
        && outcome.Done? && NothingLeft(cloud.s.res, PlanOf(v))
        && (!PlanOf(v).deleteDisks ==> passes <= 2)
    {
      ghost var f0, plan := cloud.faults, PlanOf(v);
      outcome, passes := Requeue, 0;
      PassesBounded(cloud.s.res, plan);
      while outcome.Requeue? && passes < 3
        invariant cloud.Valid() && Working(v, cluster.Value()) && cloud.faults >= f0 && passes <= 3
        invariant cloud.faults == f0 ==> Ending(cloud.s.res, plan, passes, outcome)
      {
        ghost var before := cloud.s;
        outcome := CleanupResources(cluster, v);
        passes := passes + 1;
        if cloud.faults == f0 {
          StaysClear(before.res, cloud.s.res, plan);
        }
      }
    }

    // ---- Reconcile ----

    /** One reconcile of whatever version the cache shows, from which it reports
        `at`.  `owner` and `credentials` are what its other reads return. */
    method Reconcile(owner: OwnerRead, credentials: bool) returns (outcome: Outcome, ghost at: nat)
      requires Wired() && cloud.Valid() && Inv(store.r, cloud.s.res)
      modifies cloud, store
      ensures cloud.Valid() && Inv(store.r, cloud.s.res) && old(store.r).versions <= store.r.versions
      ensures at < |store.r.versions| && store.r.versions[at].body.Cluster?
      // Paused, or not yet written down as ours: the cloud is not touched at all.
      ensures var v := store.r.versions[at];
        (IsPaused(v.meta, owner) || !(Creatable(v) || (v.meta.deleting && Marked(v)))) ==>
          cloud.s == old(cloud.s) && cloud.calls == old(cloud.calls)
      // A deleted cluster only loses what it owns, a live one only groups it no longer wants.
      ensures var v := store.r.versions[at];
        if v.meta.deleting then Shed(old(cloud.s), cloud.s, Scope(old(cloud.s).res, PlanOf(v)))
        else Retains(old(cloud.s), cloud.s, Retired(v))
      // The finalizer comes off only in a state where nothing is left.
      ensures Marked(Last(old(store.r))) && !old(store.r.gone) && !(Marked(Last(store.r)) && !store.r.gone) ==>
        && store.r.versions[at].meta.deleting && NothingLeft(cloud.s.res, PlanOf(store.r.versions[at]))
      // Done means provisioned, and safe to move, or let go of, or gone before.
      ensures outcome.Done? && !IsPaused(store.r.versions[at].meta, owner) ==>
        store.r.gone || Concluded(store.r.versions[at], Last(store.r), cloud.s)
    {
      ghost var r0, s0 := store.r, cloud.s;
      at := |r0.versions| - 1;
      var error, seen := store.Get();
      InvElapsed(r0, store.r, s0.res);
      ElapsedKept(r0, store.r);
      if error.Some? {
        ShedRefl(s0, Scope(s0.res, PlanOf(store.r.versions[at])));
        RetainsRefl(s0, Retired(store.r.versions[at]));
        return if error == Some(Missing) then Done else Failure, at;
      }
      at := seen;
      ghost var r1 := store.r;
      SeenVersion(r1, seen);
      outcome := ReconcileSeen(owner, credentials, seen, store.r.versions[seen]);
      KeptUnlessGone(r0, r1, store.r);
    }

    method ReconcileSeen(owner: OwnerRead, credentials: bool, at: nat, v: Object) returns (outcome: Outcome)
      requires Wired() && cloud.Valid() && Inv(store.r, cloud.s.res)
      requires at < |store.r.versions| && at == store.r.floor && store.r.versions[at] == v && v.body.Cluster?
      modifies cloud, store
      ensures cloud.Valid() && Inv(store.r, cloud.s.res) && old(store.r).versions <= store.r.versions
      ensures (IsPaused(v.meta, owner) || !(Creatable(v) || (v.meta.deleting && Marked(v)))) ==>
        cloud.s == old(cloud.s) && cloud.calls == old(cloud.calls)
      ensures if v.meta.deleting then Shed(old(cloud.s), cloud.s, Scope(old(cloud.s).res, PlanOf(v)))
              else Retains(old(cloud.s), cloud.s, Retired(v))
      ensures Kept(old(store.r), store.r) || (v.meta.deleting && NothingLeft(cloud.s.res, PlanOf(v)))
      ensures outcome.Done? && !IsPaused(v.meta, owner) ==> Concluded(v, Last(store.r), cloud.s)
    {
      ShedRefl(cloud.s, Scope(cloud.s.res, PlanOf(v)));
      RetainsRefl(cloud.s, Retired(v));
      var cluster := new EvrocCluster(v.meta, v.body.cluster, v.body.clusterStatus);
      if IsPaused(cluster.meta, owner) || !credentials {
        outcome := ReportOnly(cluster, at, v, IsPaused(cluster.meta, owner));
      } else if v.meta.deleting {
        outcome := HandleDeletion(cluster, at, v);
      } else {
        outcome := Proceed(cluster, at, v);
      }
    }

    /** Paused or without credentials: only a condition is written. */
    method ReportOnly(cluster: EvrocCluster, at: nat, v: Object, paused: bool) returns (outcome: Outcome)
      requires Wired() && cloud.Valid() && Inv(store.r, cloud.s.res)
      requires at < |store.r.versions| && store.r.versions[at] == v && cluster.Value() == v && v.body.Cluster?
      modifies store, cluster
      ensures Inv(store.r, cloud.s.res) && Kept(old(store.r), store.r) && (outcome.Done? ==> paused)
    {
      if paused {
        cluster.status := cluster.status.(paused := true);
      }
      ghost var r0 := store.r;
      var error := store.UpdateStatus(at, cluster.Value());
      InvKept(r0, store.r, cloud.s.res);
      outcome := if error.Some? || !paused then Failure else Done;
    }

    /** Runs teardown, and takes the finalizer off when it is finished. */
    method HandleDeletion(cluster: EvrocCluster, at: nat, v: Object) returns (outcome: Outcome)
      requires Wired() && cloud.Valid() && Inv(store.r, cloud.s.res)
      requires at < |store.r.versions| && at <= store.r.floor && store.r.versions[at] == v && cluster.Value() == v && v.body.Cluster?
      requires v.meta.deleting
      modifies cloud, store, cluster
      ensures cloud.Valid() && Inv(store.r, cloud.s.res) && old(store.r).versions <= store.r.versions
      ensures Shed(old(cloud.s), cloud.s, Scope(old(cloud.s).res, PlanOf(v)))
      ensures !Marked(v) ==> cloud.s == old(cloud.s) && cloud.calls == old(cloud.calls)
      ensures Kept(old(store.r), store.r) || NothingLeft(cloud.s.res, PlanOf(v))
      ensures outcome.Done? ==> Concluded(v, Last(store.r), cloud.s) && (Marked(v) ==> NothingLeft(cloud.s.res, PlanOf(v)))
    {
      ghost var r0, s0 := store.r, cloud.s;
      ElapsedRefl(r0);
      ShedRefl(s0, Scope(s0.res, PlanOf(v)));
      if CLUSTER_FINALIZER !in cluster.meta.finalizers {
        outcome := Done;
      } else {
        outcome := CleanupResources(cluster, v);
        BrandedShed(s0, cloud.s, Scope(s0.res, PlanOf(v)), BrandOf(Last(r0)));
        if outcome.Done? {
          outcome := LetGo(cluster, at, v);
        }
      }
    }

    /** Nothing is left: the finalizer comes off. */
    method LetGo(cluster: EvrocCluster, at: nat, v: Object) returns (outcome: Outcome)
      requires Inv(store.r, cloud.s.res) && at < |store.r.versions| && at <= store.r.floor && store.r.versions[at] == v
      requires Working(v, cluster.Value()) && cluster.spec == v.body.cluster && v.meta.deleting
      requires OwnerID(v) != "" && NothingLeft(cloud.s.res, PlanOf(v))
      modifies store, cluster`meta
      ensures Inv(store.r, cloud.s.res) && old(store.r).versions <= store.r.versions
      ensures outcome.Done? ==> Concluded(v, Last(store.r), cloud.s)
      ensures !outcome.Requeue?
    {
      ghost var r0 := store.r;
      FollowLast(r0, at);
      NothingMadeIsLeft(cloud.s.res, v);
      WorkingFollows(v, cluster.Value(), cluster.meta.finalizers - {CLUSTER_FINALIZER});
      cluster.meta := cluster.meta.(finalizers := cluster.meta.finalizers - {CLUSTER_FINALIZER});
      var error := store.Update(at, cluster.Value());
      NothingMadeInv(store.r, cloud.s.res, r0, at);
      outcome := if error.Some? then Failure else Done;
    }

    /** Ownership ID and finalizer first, in one write; only a version that shows
        both goes on to create anything. */
    method Proceed(cluster: EvrocCluster, at: nat, v: Object) returns (outcome: Outcome)
      requires Wired() && cloud.Valid() && Inv(store.r, cloud.s.res)
      requires at < |store.r.versions| && store.r.floor <= at && store.r.versions[at] == v && cluster.Value() == v && v.body.Cluster?
      requires !v.meta.deleting
      modifies cloud, store, cluster
      ensures cloud.Valid() && Inv(store.r, cloud.s.res) && Kept(old(store.r), store.r)
      ensures Retains(old(cloud.s), cloud.s, Retired(v))
      ensures !Creatable(v) ==> cloud.s == old(cloud.s) && cloud.calls == old(cloud.calls)
      ensures !Creatable(v) && outcome.Requeue? ==> Marked(Last(store.r)) && OwnerID(Last(store.r)) != ""
      ensures outcome.Done? ==> Concluded(v, Last(store.r), cloud.s)
    {
      ghost var r0 := store.r;
      RetainsRefl(cloud.s, Retired(v));
      var initialized := EnsureClusterOwnershipID(cluster);
      if CLUSTER_FINALIZER !in cluster.meta.finalizers {
        cluster.meta := cluster.meta.(finalizers := cluster.meta.finalizers + {CLUSTER_FINALIZER});
        outcome := Persist(cluster, at, v);
        return;
      }
      if initialized {
        outcome := Persist(cluster, at, v);
        return;
      }
      assert Creatable(v);
      FollowLast(r0, at);
      outcome := ReconcileNormal(cluster, at, v);
      InvConverged(r0, store.r, cloud.s.res, at);
    }

    method Persist(cluster: EvrocCluster, at: nat, v: Object) returns (outcome: Outcome)
      requires Wired() && cloud.Valid() && Inv(store.r, cloud.s.res)
      requires at < |store.r.versions| && store.r.versions[at] == v && v.body.Cluster?
      requires Follows(v, BarStatus(v, cluster.Value())) && Marked(cluster.Value()) && OwnerID(cluster.Value()) != ""
      modifies store
      ensures Inv(store.r, cloud.s.res) && Kept(old(store.r), store.r)
      ensures !outcome.Done? && (outcome.Requeue? ==> Marked(Last(store.r)) && OwnerID(Last(store.r)) != "")
    {
      ghost var r0 := store.r;
      var error := store.Update(at, cluster.Value());
      InvKept(r0, store.r, cloud.s.res);
      outcome := if error.Some? then Failure else Requeue;
    }
  }

  // ---- The invariant every run keeps ----

  /** Whatever the controller created is branded with the stored object's
      identity, and as long as any of it exists the object is there, carries the
      finalizer and its ownership ID. */
  ghost predicate Inv(r: Record, res: map<Key, Resource>) {
    && Sound(r) && Last(r).body.Cluster?
    && (AnyMade(res) ==> !r.gone && Marked(Last(r)) && OwnerID(Last(r)) != "")
    && Branded(res, BrandOf(Last(r)))
  }

  /** The point of the finalizer: an object that is gone leaves nothing behind. */
  lemma NoOrphans(r: Record, res: map<Key, Resource>)
    requires Inv(r, res) && r.gone
    ensures forall k <- res :: res[k].creator != ClusterController
  {
    assert !AnyMade(res);
  }

  lemma FollowLast(r: Record, at: nat)
    requires Sound(r) && at < |r.versions| && Last(r).body.Cluster?
    ensures Follows(r.versions[at], Last(r)) && r.versions[at].body.Cluster?
    ensures OwnerID(r.versions[at]) != "" ==> BrandOf(r.versions[at]) == BrandOf(Last(r))
  {
    assert Follows(r.versions[at], r.versions[|r.versions| - 1]);
    if OwnerID(r.versions[at]) != "" { BrandStable(r.versions[at], Last(r)); }
  }

  lemma SeenVersion(r: Record, at: nat)
    requires Sound(r) && at < |r.versions| && Last(r).body.Cluster?
    ensures r.versions[at].body.Cluster?
  {
    FollowLast(r, at);
  }

  lemma InvElapsed(a: Record, b: Record, res: map<Key, Resource>)
    requires Inv(a, res) && Elapsed(a, b)
    ensures Inv(b, res)
  {
    assert Follows(b.versions[|a.versions| - 1], b.versions[|b.versions| - 1]);
    BrandStable(Last(a), Last(b));
  }

  lemma InvKept(a: Record, b: Record, res: map<Key, Resource>)
    requires Inv(a, res) && Kept(a, b)
    ensures Inv(b, res)
  {
    assert Follows(b.versions[|a.versions| - 1], b.versions[|b.versions| - 1]);
    if OwnerID(Last(a)) != "" { BrandStable(Last(a), Last(b)); }
  }

  lemma InvConverged(a: Record, b: Record, res: map<Key, Resource>, at: nat)
    requires Sound(a) && Kept(a, b) && at < |a.versions| && a.floor <= at && Creatable(a.versions[at]) && Last(a).body.Cluster?
    requires a.versions[at].body.Cluster? && Branded(res, BrandOf(a.versions[at]))
    ensures Inv(b, res)
  {
    assert Follows(b.versions[at], b.versions[|b.versions| - 1]);
    BrandStable(b.versions[at], Last(b));
  }

  lemma NothingMadeInv(b: Record, res: map<Key, Resource>, a: Record, at: nat)
    requires Sound(a) && Sound(b) && a.versions <= b.versions && Last(a).body.Cluster? && !AnyMade(res)
    ensures Inv(b, res)
  {
    assert Follows(b.versions[|a.versions| - 1], b.versions[|b.versions| - 1]);
  }

  lemma WorkingFollows(v: Object, c: Object, finalizers: set<string>)
    requires Working(v, c) && c.body.cluster == v.body.cluster
    ensures Follows(v, BarStatus(v, Object(c.meta.(finalizers := finalizers), c.body)))
  {}

  lemma KeptUnlessGone(a: Record, b: Record, c: Record)
    requires Elapsed(a, b) && b.versions <= c.versions
    ensures a.versions <= c.versions
    ensures Kept(b, c) ==> Kept(a, c)
  {}

  /** One undisturbed pass: done when no driver resource was left, else closer. */
  ghost predicate Nearer(a: map<Key, Resource>, b: map<Key, Resource>, p: Plan, outcome: Outcome) {
    if Targets(a, p.owner, p.deleteDisks) == {} then outcome.Done?
    else !outcome.Failure? && PassesLeft(b, p) < PassesLeft(a, p)
  }

  ghost predicate Ending(res: map<Key, Resource>, p: Plan, passes: nat, outcome: Outcome) {
    && !outcome.Failure? && (outcome.Done? ==> NothingLeft(res, p))
    && (outcome.Requeue? ==> Clear(res, p) && PassesLeft(res, p) + passes <= (if p.deleteDisks then 2 else 1))
    && (!p.deleteDisks ==> passes <= 2)
  }

  lemma PassesBounded(res: map<Key, Resource>, p: Plan)
    ensures PassesLeft(res, p) <= if p.deleteDisks then 2 else 1
  {}

  lemma PassDone(s0: map<Key, Resource>, s1: map<Key, Resource>, s3: map<Key, Resource>, p: Plan)
    requires Within(s1, s3) && s1 == PassResult(s0, p.owner, p.deleteDisks)
    ensures Targets(s0, p.owner, p.deleteDisks) != {} ==> PassesLeft(s3, p) < PassesLeft(s0, p)
  {
    if Targets(s0, p.owner, p.deleteDisks) != {} { OnePassFewer(s0, s3, p); }
  }

  /** Each check's result outlives the calls that follow it. */
  lemma DriversStayGone(a: map<Key, Resource>, b: map<Key, Resource>, p: Plan)
    requires Within(a, b)
    ensures Targets(a, p.owner, p.deleteDisks) == {} ==> Targets(b, p.owner, p.deleteDisks) == {}
  {
    LessToDelete(a, b, p.owner, p.deleteDisks, "", false);
  }
}
