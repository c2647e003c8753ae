/** The control-plane load balancer's resource graph (internal/cloud/loadbalancer.go):
    address, pool, service and route, one more service and route per extra port,
    and the load balancer that ties them together. */
module LoadBalancers {
  import opened Prelude
  import opened CloudApi
  import opened OwnershipLabels
  import opened Scripts

  datatype Request = Request(
    name: string, port: int, backendPort: int, ports: seq<int>, existingIP: string,
    labels: Labels, network: Option<Network>, stackType: string)

  datatype LoadBalancer = LoadBalancer(name: string, address: string, active: bool, backends: set<string>)

  function IPName(lb: string): string { lb + "-ip" }
  function PoolName(lb: string): string { lb + "-pool" }
  function SvcName(lb: string): string { lb + "-svc" }
  function RouteName(lb: string): string { lb + "-route" }
  function PortSuffix(port: int): string { "-" + Decimal(port) }

  function PortSvcName(lb: string, port: int): string { SvcName(lb) + PortSuffix(port) }
  function PortRouteName(lb: string, port: int): string { RouteName(lb) + PortSuffix(port) }

  function LBKey(lb: string): Key { Key(LB, lb) }
  function IPKey(lb: string): Key { Key(IP, IPName(lb)) }
  function PoolKey(lb: string): Key { Key(Pool, PoolName(lb)) }
  function SvcKey(lb: string): Key { Key(Service, SvcName(lb)) }
  function RouteKey(lb: string): Key { Key(Route, RouteName(lb)) }
  function PortSvcKey(lb: string, port: int): Key { Key(Service, PortSvcName(lb, port)) }
  function PortRouteKey(lb: string, port: int): Key { Key(Route, PortRouteName(lb, port)) }

  function Frontend(r: Request): string {
    if r.existingIP == "" then IPName(r.name) else r.existingIP
  }

  function Made(r: Request, spec: Spec): Resource {
    Resource(spec, r.labels, ClusterController)
  }

  function PortListener(lb: string, port: int): Listener {
    Listener("port-" + Decimal(port), port, PortRouteName(lb, port))
  }

  function Listeners(r: Request): seq<Listener> {
    [Listener("kube-apiserver", r.port, RouteName(r.name))]
    + seq(|r.ports|, i requires 0 <= i < |r.ports| => PortListener(r.name, r.ports[i]))
  }

  lemma CancelPrefix(a: string, b: string, c: string)
    requires a + b == a + c
    ensures b == c
  {
    assert (a + b)[|a|..] == b && (a + c)[|a|..] == c;
  }

  /** Different ports never share a service or route name. */
  lemma PortNamesDiffer(stem: string, p: int, q: int)
    requires stem + PortSuffix(p) == stem + PortSuffix(q)
    ensures p == q
  {
    CancelPrefix(stem, PortSuffix(p), PortSuffix(q));
    CancelPrefix("-", Decimal(p), Decimal(q));
    ParseInverts(p);
    ParseInverts(q);
  }

  /** One service and one route for each port of the list, repeats included. */
  function PortParts(r: Request, ports: seq<int>): map<Key, Resource> {
    if ports == [] then map[] else
    var p := ports[|ports| - 1];
    PortParts(r, ports[..|ports| - 1])
    + map[PortSvcKey(r.name, p) := Made(r, ServiceSpec(p, false, PoolName(r.name))),
          PortRouteKey(r.name, p) := Made(r, RouteSpec(PortSvcName(r.name, p)))]
  }

  predicate PortPart(r: Request, m: map<Key, Resource>, p: int) {
    && PortSvcKey(r.name, p) in m && m[PortSvcKey(r.name, p)] == Made(r, ServiceSpec(p, false, PoolName(r.name)))
    && PortRouteKey(r.name, p) in m && m[PortRouteKey(r.name, p)] == Made(r, RouteSpec(PortSvcName(r.name, p)))
  }

  predicate IsPortKey(r: Request, k: Key, p: int) {
    k == PortSvcKey(r.name, p) || k == PortRouteKey(r.name, p)
  }

  lemma {:induction false} PortPartsHave(r: Request, ports: seq<int>, p: int)
    requires p in ports
    ensures PortPart(r, PortParts(r, ports), p)
  {
    var last := ports[|ports| - 1];
    if p != last {
      PortPartsHave(r, ports[..|ports| - 1], p);
      if PortSvcKey(r.name, p) == PortSvcKey(r.name, last) { PortNamesDiffer(SvcName(r.name), p, last); }
      if PortRouteKey(r.name, p) == PortRouteKey(r.name, last) { PortNamesDiffer(RouteName(r.name), p, last); }
    }
  }

  lemma {:induction false} PortPartsOnly(r: Request, ports: seq<int>, k: Key) returns (p: int)
    requires k in PortParts(r, ports)
    ensures p in ports && IsPortKey(r, k, p)
  {
    p := ports[|ports| - 1];
    if !IsPortKey(r, k, p) {
      p := PortPartsOnly(r, ports[..|ports| - 1], k);
    }
  }

  function Core(r: Request): map<Key, Resource> {
    map[PoolKey(r.name) := Made(r, PoolSpec({})),
        SvcKey(r.name) := Made(r, ServiceSpec(r.backendPort, r.stackType == "ipv6-only", PoolName(r.name))),
        RouteKey(r.name) := Made(r, RouteSpec(SvcName(r.name))),
        LBKey(r.name) := Made(r, LBSpec(Frontend(r), Listeners(r), r.network))]
  }

  function OwnIP(r: Request): map<Key, Resource> {
    if r.existingIP == "" then map[IPKey(r.name) := Made(r, IPSpec)] else map[]
  }

  /** Everything a load balancer of this request consists of, apart from an
      address it merely borrows. */
  function Graph(r: Request): map<Key, Resource> {
    PortParts(r, r.ports) + Core(r) + OwnIP(r)
  }

  lemma CoreParts(r: Request)
    ensures var C := Core(r);
      && C.Keys == {PoolKey(r.name), SvcKey(r.name), RouteKey(r.name), LBKey(r.name)}
      && C[PoolKey(r.name)] == Made(r, PoolSpec({}))
      && C[SvcKey(r.name)] == Made(r, ServiceSpec(r.backendPort, r.stackType == "ipv6-only", PoolName(r.name)))
      && C[RouteKey(r.name)] == Made(r, RouteSpec(SvcName(r.name)))
      && C[LBKey(r.name)] == Made(r, LBSpec(Frontend(r), Listeners(r), r.network))
  {
    assert PoolKey(r.name).kind == Pool && SvcKey(r.name).kind == Service && RouteKey(r.name).kind == Route && LBKey(r.name).kind == LB;
  }

  lemma MergeParts<K, V>(a: map<K, V>, b: map<K, V>, c: map<K, V>)
    ensures var m := a + b + c;
      && m.Keys == a.Keys + b.Keys + c.Keys
      && (forall k <- c :: m[k] == c[k])
      && (forall k <- b :: k !in c ==> m[k] == b[k])
      && (forall k <- a :: k !in b && k !in c ==> m[k] == a[k])
  {}

  /** `G` holds, for this request, every link of the chain. */
  ghost predicate ChainOf(r: Request, G: map<Key, Resource>) {
    && PoolKey(r.name) in G && G[PoolKey(r.name)] == Made(r, PoolSpec({}))
    && SvcKey(r.name) in G && G[SvcKey(r.name)] == Made(r, ServiceSpec(r.backendPort, r.stackType == "ipv6-only", PoolName(r.name)))
    && RouteKey(r.name) in G && G[RouteKey(r.name)] == Made(r, RouteSpec(SvcName(r.name)))
    && LBKey(r.name) in G && G[LBKey(r.name)] == Made(r, LBSpec(Frontend(r), Listeners(r), r.network))
    && (r.existingIP == "" ==> IPKey(r.name) in G && G[IPKey(r.name)] == Made(r, IPSpec))
    && forall p <- r.ports :: PortPart(r, G, p)
  }

  lemma GraphIsChain(r: Request)
    ensures ChainOf(r, Graph(r))
  {
    MergeParts(PortParts(r, r.ports), Core(r), OwnIP(r));
    CoreParts(r);
    forall p <- r.ports ensures PortPart(r, Graph(r), p) { PortContents(r, p); }
  }

  lemma PortContents(r: Request, p: int)
    requires p in r.ports
    ensures PortPart(r, Graph(r), p)
  {
    PortPartsHave(r, r.ports, p);
    MergeParts(PortParts(r, r.ports), Core(r), OwnIP(r));
    CoreParts(r);
    assert |SvcName(r.name) + PortSuffix(p)| > |SvcName(r.name)|;
    assert |RouteName(r.name) + PortSuffix(p)| > |RouteName(r.name)|;
  }

  /** A load balancer is exactly its chain: these keys and no others. */
  lemma GraphKeys(r: Request, k: Key)
    ensures k in Graph(r) <==>
      || k in {PoolKey(r.name), SvcKey(r.name), RouteKey(r.name), LBKey(r.name)}
      || (r.existingIP == "" && k == IPKey(r.name))
      || exists p <- r.ports :: IsPortKey(r, k, p)
  {
    MergeParts(PortParts(r, r.ports), Core(r), OwnIP(r));
    CoreParts(r);
    if k in PortParts(r, r.ports) {
      var p := PortPartsOnly(r, r.ports, k);
    }
    forall p <- r.ports ensures IsPortKey(r, k, p) ==> k in Graph(r) { PortPartsHave(r, r.ports, p); }
  }

  /** References inside the chain; a pool also refers to the machines behind it. */
  function ChainRefs(s: Spec): set<Key> {
    if s.PoolSpec? then {} else Refs(s)
  }

  /** Reference-closed: whatever part of the chain is present, everything it
      refers to is present too and belongs to the chain (or is the borrowed
      address `ip`). */
  ghost predicate Closed(s: State, G: map<Key, Resource>, ip: Key) {
    forall k <- G :: k in s.res ==> ChainRefs(s.res[k].spec) <= (G.Keys + {ip}) * s.res.Keys
  }

  ghost predicate Quiet(s: State, G: map<Key, Resource>, ip: Key) {
    s.dying !! G.Keys && ip !in s.dying
  }

  function FrontKey(r: Request): Key { Key(IP, Frontend(r)) }

  lemma ClosedStep(a: State, b: State, G: map<Key, Resource>, ip: Key, k: Key)
    requires Closed(a, G, ip) && Quiet(a, G, ip) && k in G && Grows(a, b, map[k := G[k]])
    requires ChainRefs(G[k].spec) <= (G.Keys + {ip}) * a.res.Keys
    ensures Closed(b, G, ip) && Quiet(b, G, ip) && G.Keys * a.res.Keys <= b.res.Keys && (ip in a.res ==> ip in b.res)
  {}

  lemma ClosedShed(a: State, b: State, G: map<Key, Resource>, ip: Key)
    requires Closed(a, G, ip) && Quiet(a, G, ip) && Shed(a, b, {})
    ensures Closed(b, G, ip) && Quiet(b, G, ip) && G.Keys * a.res.Keys <= b.res.Keys && (ip in a.res ==> ip in b.res)
  {}

  lemma ShedGrows(a: State, b: State, G: map<Key, Resource>)
    requires Shed(a, b, {}) && a.up <= a.res.Keys
    ensures Grows(a, b, G)
  {}

  lemma GrowsWiden(a: State, b: State, k: Key, G: map<Key, Resource>)
    requires k in G && Grows(a, b, map[k := G[k]])
    ensures Grows(a, b, G)
  {}

  /** Pool, API service and route, and the parts of the first `n` extra ports. */
  ghost predicate LinksPresent(r: Request, keys: set<Key>, n: nat)
    requires n <= |r.ports|
  {
    && PoolKey(r.name) in keys && SvcKey(r.name) in keys && RouteKey(r.name) in keys
    && forall i | 0 <= i < n :: PortSvcKey(r.name, r.ports[i]) in keys && PortRouteKey(r.name, r.ports[i]) in keys
  }

  /** Once every link is there, so is everything a load balancer refers to. */
  lemma ListenersPresent(r: Request, G: map<Key, Resource>, keys: set<Key>)
    requires ChainOf(r, G) && LinksPresent(r, keys, |r.ports|) && FrontKey(r) in keys
    ensures ChainRefs(LBSpec(Frontend(r), Listeners(r), r.network)) <= (G.Keys + {FrontKey(r)}) * keys
  {
    var ls := Listeners(r);
    forall l | l in ls ensures Key(Route, l.route) in G.Keys * keys {
      var i :| 0 <= i < |ls| && ls[i] == l;
      if i > 0 {
        assert l == PortListener(r.name, r.ports[i - 1]);
        assert PortPart(r, G, r.ports[i - 1]);
      }
    }
  }

  lemma KeepLinks(r: Request, G: map<Key, Resource>, before: set<Key>, after: set<Key>, n: nat)
    requires n <= |r.ports| && ChainOf(r, G) && LinksPresent(r, before, n) && G.Keys * before <= after
    ensures LinksPresent(r, after, n)
  {
    forall i | 0 <= i < n ensures PortSvcKey(r.name, r.ports[i]) in after && PortRouteKey(r.name, r.ports[i]) in after {
      assert PortPart(r, G, r.ports[i]);
    }
  }

  lemma NextLink(r: Request, keys: set<Key>, n: nat)
    requires n < |r.ports| && LinksPresent(r, keys, n)
    requires PortSvcKey(r.name, r.ports[n]) in keys && PortRouteKey(r.name, r.ports[n]) in keys
    ensures LinksPresent(r, keys, n + 1)
  {}

  /** From `a` to `b` no link of the chain got lost and the chain stayed closed. */
  ghost predicate Held(a: State, b: State, G: map<Key, Resource>, ip: Key) {
    Quiet(b, G, ip) && Closed(b, G, ip) && (G.Keys + {ip}) * a.res.Keys <= b.res.Keys
  }

  lemma HeldTrans(a: State, b: State, c: State, G: map<Key, Resource>, ip: Key)
    requires Held(a, b, G, ip) && Held(b, c, G, ip)
    ensures Held(a, c, G, ip)
  {}

  lemma HeldShed(a: State, b: State, c: State, G: map<Key, Resource>, ip: Key)
    requires Held(a, b, G, ip) && Shed(b, c, {})
    ensures Held(a, c, G, ip) && (G.Keys + {ip}) * b.res.Keys <= c.res.Keys
  {
    ClosedShed(b, c, G, ip);
  }

  /** Links, load balancer and address together are the whole graph. */
  lemma AllLinks(r: Request, keys: set<Key>)
    requires LinksPresent(r, keys, |r.ports|) && {FrontKey(r), LBKey(r.name)} <= keys
    ensures Graph(r).Keys <= keys
  {
    CoreParts(r);
    forall k | k in Graph(r) ensures k in keys {
      GraphKeys(r, k);
      if p :| p in r.ports && IsPortKey(r, k, p) {
        var i :| 0 <= i < |r.ports| && r.ports[i] == p;
      }
    }
  }

  /** Nothing of this load balancer is on its way out, and what there is of it
      is reference-closed. */
  ghost predicate Calm(s: State, r: Request) {
    Quiet(s, Graph(r), FrontKey(r)) && Closed(s, Graph(r), FrontKey(r))
  }

  ghost predicate Agrees(res: map<Key, Resource>, G: map<Key, Resource>) {
    forall k <- G :: k in res ==> res[k] == G[k]
  }

  /** A load balancer is never visible before its address, pool and every
      service and route it needs. */
  lemma LoadBalancerImpliesChain(s: State, r: Request)
    requires Closed(s, Graph(r), FrontKey(r)) && Agrees(s.res, Graph(r)) && LBKey(r.name) in s.res
    ensures Graph(r).Keys + {FrontKey(r)} <= s.res.Keys
  {
    GraphIsChain(r);
    ChainBelowLB(s, r, Graph(r));
    AllLinks(r, s.res.Keys);
  }

  lemma ChainBelowLB(s: State, r: Request, G: map<Key, Resource>)
    requires ChainOf(r, G) && Closed(s, G, FrontKey(r)) && Agrees(s.res, G) && LBKey(r.name) in s.res
    ensures LinksPresent(r, s.res.Keys, |r.ports|) && FrontKey(r) in s.res
  {
    var lb := G[LBKey(r.name)].spec;
    assert ChainRefs(lb) <= s.res.Keys;
    assert lb.listeners[0] in lb.listeners;
    assert RouteKey(r.name) in ChainRefs(lb);
    forall i | 0 <= i < |r.ports| ensures PortRouteKey(r.name, r.ports[i]) in s.res && PortSvcKey(r.name, r.ports[i]) in s.res {
      assert PortPart(r, G, r.ports[i]);
      assert lb.listeners[i + 1] == PortListener(r.name, r.ports[i]) && lb.listeners[i + 1] in lb.listeners;
      assert PortRouteKey(r.name, r.ports[i]) in ChainRefs(lb);
    }
    assert SvcKey(r.name) in ChainRefs(G[RouteKey(r.name)].spec);
    assert PoolKey(r.name) in ChainRefs(G[SvcKey(r.name)].spec);
  }

  /** Running Create again after it stopped anywhere ends in the very state an
      uninterrupted run ends in. */
  lemma RerunEqualsUninterrupted(s0: State, crashed: State, rerun: State, straight: State, r: Request)
    requires s0.dying == {}
    requires Grows(s0, crashed, Graph(r))
    requires Grows(crashed, rerun, Graph(r)) && Graph(r).Keys <= rerun.res.Keys
    requires Grows(s0, straight, Graph(r)) && Graph(r).Keys <= straight.res.Keys
    ensures rerun.res == straight.res
  {
    var G := Graph(r);
    GrowsTrans(s0, crashed, rerun, G);
    Completed(s0, rerun, G);
    Completed(s0, straight, G);
  }

  lemma Completed(s0: State, s: State, G: map<Key, Resource>)
    requires s0.dying == {} && Grows(s0, s, G) && G.Keys <= s.res.Keys
    ensures s.res.Keys == s0.res.Keys + G.Keys
    ensures forall k <- s.res :: k in s0.res ==> s.res[k] == s0.res[k]
    ensures forall k <- s.res :: k !in s0.res ==> s.res[k] == G[k]
  {}

  /** The sub-resource kinds in the order they must go: each refers to the next. */
  const SUBKINDS: seq<Kind> := [Route, Service, Pool]

  /** What tearing down a cluster's load balancer is about to delete. */
  function Doomed(res: map<Key, Resource>, name: string, clusterID: string, deleteIP: bool): set<Key> {
    set k | k in res && (
      || k == LBKey(name)
      || (k.kind in SUBKINDS && Selects(OwnerSelector(CLUSTER_ID, clusterID), res[k].labels))
      || (deleteIP && k == IPKey(name)))
  }

  /** With everything of lower rank gone, a doomed resource is free to go. */
  lemma FreeToGo(base: map<Key, Resource>, res: map<Key, Resource>, doomed: set<Key>, k: Key)
    requires Typed(base) && Isolated(base, doomed) && k in doomed
    requires res.Keys <= base.Keys && forall x <- res :: res[x] == base[x]
    requires forall x <- doomed :: Rank(x.kind) < Rank(k.kind) ==> x !in res
    ensures !Referenced(res, k)
  {
    if r :| r in res && k in Refs(res[r].spec) {
      RefsClimb(res[r].spec, k);
    }
  }

  function BaseKeys(name: string, checkIP: bool): set<Key> {
    {LBKey(name), RouteKey(name), SvcKey(name), PoolKey(name)} + if checkIP then {IPKey(name)} else {}
  }

  /** What keeps DeletionComplete from reporting the end of a teardown. */
  function Blocking(res: map<Key, Resource>, name: string, clusterID: string, checkIP: bool): set<Key> {
    set k | k in res && (
      || k in BaseKeys(name, checkIP)
      || (k.kind in SUBKINDS && Selects(OwnerSelector(CLUSTER_ID, clusterID), res[k].labels)))
  }

  /** Whatever bears a base name of the chain carries the owner's labels. */
  predicate PartsLabelled(res: map<Key, Resource>, name: string, clusterID: string) {
    forall k | k in {RouteKey(name), SvcKey(name), PoolKey(name)} :: k in res ==> Selects(OwnerSelector(CLUSTER_ID, clusterID), res[k].labels)
  }

  /** Delete goes by label where DeletionComplete also goes by name, so the two
      agree that everything is gone if and only if no base-named route, service
      or pool was there without the owner's labels. */
  lemma TeardownCompletesIff(res: map<Key, Resource>, name: string, clusterID: string, ip: bool)
    ensures Blocking(res - Doomed(res, name, clusterID, ip), name, clusterID, ip) == {}
       <==> PartsLabelled(res, name, clusterID)
  {
    var doomed := Doomed(res, name, clusterID, ip);
    var left := res - doomed;
    var blocking := Blocking(left, name, clusterID, ip);
    if k :| k in {RouteKey(name), SvcKey(name), PoolKey(name)} && k in res && !Selects(OwnerSelector(CLUSTER_ID, clusterID), res[k].labels) {
      assert k in left && k in blocking;
    } else {
      forall k | k in left ensures k !in blocking {
        assert k !in doomed;
      }
    }
  }

  /** Delete takes back exactly what Create made, wherever Create stopped, and
      never touches an address it only borrowed. */
  lemma DeleteUndoesCreate(s0: State, s: State, r: Request, clusterID: string)
    requires s0.dying == {} && Grows(s0, s, Graph(r))
    requires Selects(OwnerSelector(CLUSTER_ID, clusterID), r.labels)
    requires Doomed(s0.res, r.name, clusterID, r.existingIP == "") == {}
    requires forall k <- s0.res :: Refs(s0.res[k].spec) <= s0.res.Keys
    ensures s.res - Doomed(s.res, r.name, clusterID, r.existingIP == "") == s0.res
    ensures Isolated(s.res, Doomed(s.res, r.name, clusterID, r.existingIP == ""))
    ensures r.existingIP != "" ==> FrontKey(r) !in Doomed(s.res, r.name, clusterID, r.existingIP == "")
  {
    GraphEntries(r);
    UndoWithin(s0, s, r, Graph(r), clusterID);
  }

  lemma UndoWithin(s0: State, s: State, r: Request, G: map<Key, Resource>, clusterID: string)
    requires s0.dying == {} && Grows(s0, s, G) && forall k <- G :: GraphEntry(r, k, G[k])
    requires Selects(OwnerSelector(CLUSTER_ID, clusterID), r.labels)
    requires Doomed(s0.res, r.name, clusterID, r.existingIP == "") == {}
    requires forall k <- s0.res :: Refs(s0.res[k].spec) <= s0.res.Keys
    ensures s.res - Doomed(s.res, r.name, clusterID, r.existingIP == "") == s0.res
    ensures Isolated(s.res, Doomed(s.res, r.name, clusterID, r.existingIP == ""))
  {
    var doomed := Doomed(s.res, r.name, clusterID, r.existingIP == "");
    assert forall k <- s0.res :: k !in Doomed(s0.res, r.name, clusterID, r.existingIP == "");
    assert forall k <- s.res :: k in doomed <==> k !in s0.res;
  }

  /** Every resource of the graph is the cluster controller's, carries the
      request's labels, and is the load balancer, a labelled part or its address. */
  ghost predicate GraphEntry(r: Request, k: Key, v: Resource) {
    && v.labels == r.labels && v.creator == ClusterController && KindOf(v.spec) == k.kind
    && (k == LBKey(r.name) || k.kind in SUBKINDS || (r.existingIP == "" && k == IPKey(r.name)))
  }

  lemma {:induction false} PortEntries(r: Request, ports: seq<int>)
    ensures forall k <- PortParts(r, ports) :: GraphEntry(r, k, PortParts(r, ports)[k])
  {
    if ports != [] {
      PortEntries(r, ports[..|ports| - 1]);
    }
  }

  lemma GraphEntryAt(r: Request, k: Key)
    requires k in Graph(r)
    ensures GraphEntry(r, k, Graph(r)[k])
  {
    PortEntries(r, r.ports);
    MergeParts(PortParts(r, r.ports), Core(r), OwnIP(r));
    CoreParts(r);
    if k in OwnIP(r) {
      assert k == IPKey(r.name);
    } else if k in Core(r) {
      assert Graph(r)[k] == Core(r)[k];
    } else {
      assert GraphEntry(r, k, PortParts(r, r.ports)[k]);
    }
  }

  lemma GraphEntries(r: Request)
    ensures forall k <- Graph(r) :: GraphEntry(r, k, Graph(r)[k])
  {
    forall k <- Graph(r) ensures GraphEntry(r, k, Graph(r)[k]) { GraphEntryAt(r, k); }
  }

  /** With everything blocking labelled, what blocks is about to be deleted. */
  lemma BlockingDoomed(res: map<Key, Resource>, name: string, clusterID: string, ip: bool)
    requires PartsLabelled(res, name, clusterID)
    ensures Blocking(res, name, clusterID, ip) <= Doomed(res, name, clusterID, ip)
  {}

  // ---- One pass of deletes ----

  /** A pass that began in `base` has come to `s`. */
  ghost predicate Passing(base: State, s: State, doomed: set<Key>) {
    Typed(base.res) && Shed(base, s, doomed) && Freed(base, s)
  }

  lemma PassesOn(base: State, a: State, b: State, doomed: set<Key>, marked: set<Key>)
    requires Passing(base, a, doomed) && Shed(a, b, marked) && Freed(a, b) && marked <= doomed
    ensures Passing(base, b, doomed) && Shrunk(a, b) && Within(a.res, b.res)
  {
    ShedWiden(a, b, marked, doomed);
    ShedTrans(base, a, b, doomed, doomed);
    assert doomed + doomed == doomed;
    FreedTrans(base, a, b);
  }

  /** Nothing refers to any doomed resource of this rank: because nothing did from
      the start, or because what did has already gone. */
  ghost predicate Cleared(base: State, s: State, doomed: set<Key>, rank: nat, instant: bool) {
    || NoneReferenced(base.res, doomed)
    || (instant && Isolated(base.res, doomed) && forall x <- doomed :: Rank(x.kind) < rank ==> x !in s.res)
  }

  lemma ClearedFree(base: State, s: State, doomed: set<Key>, k: Key, instant: bool)
    requires Typed(base.res) && Within(base.res, s.res) && k in doomed && Cleared(base, s, doomed, Rank(k.kind), instant)
    ensures !Referenced(s.res, k)
  {
    if NoneReferenced(base.res, doomed) {
      UnreferencedAt(base.res, s.res, k);
    } else {
      FreeToGo(base.res, s.res, doomed, k);
    }
  }

  /** Of one kind, everything with these labels is gone, or going and unreferenced. */
  ghost predicate KindLoose(base: State, s: State, kind: Kind, sel: Labels) {
    forall k <- base.res :: k.kind == kind && Selects(sel, base.res[k].labels) ==> Loose(s, k)
  }

  /** Of one kind, everything with these labels that was free at the start is gone
      or going. */
  ghost predicate KindFreed(base: State, s: State, kind: Kind, sel: Labels) {
    forall k <- base.res :: k.kind == kind && Selects(sel, base.res[k].labels) ==> GoneIfFree(base, s, k)
  }

  /** The same of the first `n` kinds. */
  ghost predicate KindsLoose(base: State, s: State, n: nat, sel: Labels)
    requires n <= |SUBKINDS|
  {
    forall i | 0 <= i < n :: KindLoose(base, s, SUBKINDS[i], sel)
  }

  ghost predicate KindsFreed(base: State, s: State, n: nat, sel: Labels)
    requires n <= |SUBKINDS|
  {
    forall i | 0 <= i < n :: KindFreed(base, s, SUBKINDS[i], sel)
  }

  lemma KindLasts(base: State, a: State, b: State, kind: Kind, sel: Labels)
    requires Shrunk(a, b) && Within(a.res, b.res)
    ensures KindLoose(base, a, kind, sel) ==> KindLoose(base, b, kind, sel)
    ensures KindFreed(base, a, kind, sel) ==> KindFreed(base, b, kind, sel)
  {
    if KindLoose(base, a, kind, sel) {
      forall k <- base.res | k.kind == kind && Selects(sel, base.res[k].labels) ensures Loose(b, k) { StillLoose(a, b, k); }
    }
  }

  /** A doomed set goes by label, apart from a load balancer and an address. */
  ghost predicate ByLabel(res: map<Key, Resource>, doomed: set<Key>, sel: Labels) {
    && (forall x <- res :: x.kind in SUBKINDS && Selects(sel, res[x].labels) ==> x in doomed)
    && (forall x <- doomed :: x in res && (x.kind in {LB, IP} || (x.kind in SUBKINDS && Selects(sel, res[x].labels))))
  }

  /** How far the parts have got: `clean` without failure, `quiet` without fault. */
  ghost predicate PartsSoFar(base: State, s: State, doomed: set<Key>, n: nat, sel: Labels, clean: bool, quiet: bool, clear: bool, instant: bool)
    requires n <= |SUBKINDS|
  {
    && (clean ==> KindsLoose(base, s, n, sel))
    && (quiet ==> KindsFreed(base, s, n, sel))
    && (clear && quiet ==> clean && Cleared(base, s, doomed, n + 1, instant))
  }

  /** With one more kind gone, the way is clear for the next. */
  lemma NextKind(base: State, a: State, b: State, doomed: set<Key>, i: nat, sel: Labels, so: bool, clean: bool, wasQuiet: bool, quiet: bool,
                 clear: bool, instant: bool)
    requires i < |SUBKINDS| && ByLabel(base.res, doomed, sel) && Shrunk(a, b) && Within(a.res, b.res) && (instant ==> b.dying == {})
    requires PartsSoFar(base, a, doomed, i, sel, so, wasQuiet, clear, instant) && (quiet ==> wasQuiet)
    requires clean ==> KindLoose(base, b, SUBKINDS[i], sel)
    requires quiet ==> KindFreed(base, b, SUBKINDS[i], sel) && (clear ==> clean)
    ensures PartsSoFar(base, b, doomed, i + 1, sel, so && clean, quiet, clear, instant)
  {
    forall j | 0 <= j < i
      ensures KindLoose(base, a, SUBKINDS[j], sel) ==> KindLoose(base, b, SUBKINDS[j], sel)
      ensures KindFreed(base, a, SUBKINDS[j], sel) ==> KindFreed(base, b, SUBKINDS[j], sel)
    {
      KindLasts(base, a, b, SUBKINDS[j], sel);
    }
    if clear && quiet { ClearedNext(base, a, b, doomed, i, sel, instant); }
  }

  lemma RankOfPart(i: nat)
    requires i < |SUBKINDS|
    ensures Rank(SUBKINDS[i]) == i + 1
  {
    assert SUBKINDS[0] == Route && SUBKINDS[1] == Service && SUBKINDS[2] == Pool;
  }

  lemma ClearedNext(base: State, a: State, b: State, doomed: set<Key>, i: nat, sel: Labels, instant: bool)
    requires i < |SUBKINDS| && ByLabel(base.res, doomed, sel) && Cleared(base, a, doomed, i + 1, instant)
    requires Within(a.res, b.res) && (instant ==> b.dying == {}) && KindLoose(base, b, SUBKINDS[i], sel)
    ensures Cleared(base, b, doomed, i + 2, instant)
  {
    assert SUBKINDS == [Route, Service, Pool];
    forall x <- doomed | instant && Rank(x.kind) == i + 1 ensures x !in b.res {
      assert x.kind == SUBKINDS[i] && Loose(b, x);
    }
  }

  lemma ListedKind(base: State, listed: State, s: State, kind: Kind, sel: Labels, names: seq<string>)
    requires Within(base.res, listed.res) && Within(listed.res, s.res)
    requires forall n :: n in names <==> Key(kind, n) in listed.res && Selects(sel, listed.res[Key(kind, n)].labels)
    ensures EachLoose(s, kind, names) ==> KindLoose(base, s, kind, sel)
    ensures EachGone(base, s, kind, names) ==> KindFreed(base, s, kind, sel)
  {
    forall k <- s.res | k.kind == kind && k in base.res && Selects(sel, base.res[k].labels) ensures k.name in names && k == Key(kind, k.name) {
      assert k in listed.res && k == Key(kind, k.name);
    }
  }

  /** What one pass achieved for everything doomed. */
  ghost predicate AllLoose(s: State, doomed: set<Key>) {
    forall k <- doomed :: Loose(s, k)
  }

  ghost predicate AllFreed(base: State, s: State, doomed: set<Key>) {
    forall k <- doomed :: GoneIfFree(base, s, k)
  }

  /** The part of `doomed` that goes by label. */
  function Parts(doomed: set<Key>): set<Key> {
    set k | k in doomed && k.kind in SUBKINDS
  }

  lemma KindsTogether(base: State, s: State, doomed: set<Key>, sel: Labels, clean: bool, quiet: bool, clear: bool, instant: bool)
    requires ByLabel(base.res, doomed, sel) && PartsSoFar(base, s, doomed, |SUBKINDS|, sel, clean, quiet, clear, instant)
    ensures clean ==> AllLoose(s, Parts(doomed))
    ensures quiet ==> AllFreed(base, s, Parts(doomed)) && (clear ==> Cleared(base, s, doomed, Rank(IP), instant))
  {
    forall k <- Parts(doomed)
      ensures clean ==> Loose(s, k)
      ensures quiet ==> GoneIfFree(base, s, k)
    {
      var i :| 0 <= i < |SUBKINDS| && SUBKINDS[i] == k.kind;
      assert clean ==> KindLoose(base, s, SUBKINDS[i], sel);
      assert quiet ==> KindFreed(base, s, SUBKINDS[i], sel);
    }
  }

  /** Where deletes act at once and nothing else went, a pass got everything doomed
      if and only if nothing from outside refers into it. */
  lemma ExactPass(a: State, b: State, doomed: set<Key>)
    requires Passing(a, b, doomed) && a.dying == {} && b.dying == {} && doomed <= a.res.Keys && AllLoose(b, doomed)
    ensures b.res == a.res - doomed && Isolated(a.res, doomed)
  {
    ShedExactly(a, b, doomed);
    forall r <- a.res, k <- doomed | k in Refs(a.res[r].spec) ensures r in doomed {
      if r !in doomed { assert b.res[r] == a.res[r] && k !in b.res && Referenced(b.res, k); }
    }
  }

  /** What one pass over everything doomed amounts to, from `a` to `b`. */
  ghost predicate OnePass(a: State, b: State, doomed: set<Key>, error: Option<Error>, quiet: bool, unhindered: bool, instant: bool) {
    && Shed(a, b, doomed) && error != Some(NotFound)
    // Success means everything doomed is gone, or going with nothing in its way.
    && (error.None? ==> AllLoose(b, doomed))
    && (error.None? && instant ==> b.res == a.res - doomed)
    // Short of faults, whatever was free is gone or going, and only conflicts are errors.
    && (quiet ==> AllFreed(a, b, doomed) && (error.None? <==> unhindered))
    // When there are none: always if nothing refers to anything doomed;
    && (quiet && NoneReferenced(a.res, doomed) ==> error.None?)
    // only then, if no accepted delete finishes during the pass;
    && (quiet && b.res == a.res ==> (error.None? <==> NoneReferenced(a.res, doomed)))
    // and where deletes act at once, exactly if nothing from outside refers in.
    && (quiet && instant ==> (error.None? <==> Isolated(a.res, doomed)))
  }

  lemma PassVerdict(a: State, b: State, doomed: set<Key>, error: Option<Error>, quiet: bool, unhindered: bool, instant: bool)
    requires Passing(a, b, doomed) && doomed <= a.res.Keys && (instant ==> a.dying == {} && b.dying == {})
    requires (error.None? ==> AllLoose(b, doomed)) && error != Some(NotFound)
    requires quiet ==> AllFreed(a, b, doomed) && (error.None? <==> unhindered)
    requires quiet && (NoneReferenced(a.res, doomed) || (instant && Isolated(a.res, doomed))) ==> error.None?
    ensures OnePass(a, b, doomed, error, quiet, unhindered, instant)
  {
    if instant && error.None? { ExactPass(a, b, doomed); }
  }

  lemma DoomedKinds(res: map<Key, Resource>, name: string, clusterID: string, ip: bool)
    ensures ByLabel(res, Doomed(res, name, clusterID, ip), OwnerSelector(CLUSTER_ID, clusterID))
    ensures forall x <- Doomed(res, name, clusterID, ip) :: x.kind != VM && Depth(x.kind) <= 3
  {}

  /** With the load balancer gone, the way is clear for its routes. */
  lemma BalancerCleared(base: State, s: State, doomed: set<Key>, name: string, instant: bool)
    requires NoneReferenced(base.res, doomed) || (instant && Isolated(base.res, doomed))
    requires forall x <- doomed :: x.kind == LB ==> x == LBKey(name)
    requires Loose(s, LBKey(name)) && (instant ==> s.dying == {})
    ensures Cleared(base, s, doomed, 1, instant)
  {}

  /** Everything doomed but the address. */
  function Linked(doomed: set<Key>): set<Key> {
    set k | k in doomed && k.kind != IP
  }

  /** `clean` without failure, `quiet` without fault. */
  ghost predicate Got(base: State, s: State, doomed: set<Key>, clean: bool, quiet: bool) {
    (clean ==> AllLoose(s, doomed)) && (quiet ==> AllFreed(base, s, doomed))
  }

  lemma BalancerAndParts(base: State, a: State, b: State, doomed: set<Key>, name: string, sel: Labels, so: bool, clean: bool, wasQuiet: bool, quiet: bool)
    requires Shrunk(a, b) && Within(a.res, b.res) && ByLabel(base.res, doomed, sel)
    requires forall k <- doomed :: k.kind == LB ==> k == LBKey(name)
    requires (so ==> Loose(a, LBKey(name))) && (wasQuiet ==> GoneIfFree(base, a, LBKey(name)))
    requires Got(base, b, Parts(doomed), clean, quiet) && (quiet ==> wasQuiet)
    ensures Got(base, b, Linked(doomed), so && clean, quiet)
  {
    if so { StillLoose(a, b, LBKey(name)); }
    forall k <- Linked(doomed) ensures k == LBKey(name) || k in Parts(doomed) {}
  }

  lemma AddressToo(base: State, a: State, b: State, doomed: set<Key>, name: string, ip: bool, so: bool, clean: bool, wasQuiet: bool, quiet: bool)
    requires Shrunk(a, b) && Within(a.res, b.res) && Got(base, a, Linked(doomed), so, wasQuiet) && (clean ==> so) && (quiet ==> wasQuiet)
    requires forall k <- doomed :: k.kind == IP ==> ip && k == IPKey(name)
    requires ip ==> (clean ==> Loose(b, IPKey(name))) && (quiet ==> GoneIfFree(base, b, IPKey(name)))
    ensures Got(base, b, doomed, clean, quiet)
  {
    if clean {
      forall k <- doomed ensures Loose(b, k) {
        if k in Linked(doomed) { StillLoose(a, b, k); }
      }
    }
    if quiet {
      forall k <- doomed ensures GoneIfFree(base, b, k) {
        if k in Linked(doomed) { assert GoneIfFree(base, a, k); }
      }
    }
  }

  lemma ShedAgain(s0: State, a: State, b: State, doomed: set<Key>, marked: set<Key>)
    requires Shed(s0, a, doomed) && Shed(a, b, marked) && marked <= doomed
    ensures Shed(s0, b, doomed) && Within(s0.res, b.res) && Within(a.res, b.res)
  {
    ShedWiden(a, b, marked, doomed);
    ShedTrans(s0, a, b, doomed, doomed);
    assert doomed + doomed == doomed;
  }

  /** After accepted deletes have finished, the same is left to do. */
  lemma SettledDoomed(s0: State, p: State, a: State, name: string, clusterID: string, ip: bool)
    requires Within(s0.res, p.res) && a.dying == {} && a.res == p.res - p.dying
    ensures Doomed(a.res, name, clusterID, ip) == Doomed(s0.res, name, clusterID, ip) * a.res.Keys
    ensures Live(a, Doomed(s0.res, name, clusterID, ip)) == Live(p, Doomed(s0.res, name, clusterID, ip))
  {
    assert forall k <- a.res :: a.res[k] == s0.res[k];
  }

  /** A pass that ends with something left got one link deeper. */
  lemma PassWorked(a: State, b: State, c: State, doomed: set<Key>, n: nat)
    requires Typed(a.res) && a.dying == {} && Isolated(a.res, doomed) && AllFreed(a, b, doomed * a.res.Keys)
    requires forall x <- doomed :: x.kind != VM && Depth(x.kind) <= 3
    requires Within(a.res, b.res) && Shed(b, c, {}) && Live(a, doomed) != {}
    ensures Dug(a, doomed, n) ==> Dug(c, doomed, n + 1) && n < 4
    ensures |Live(c, doomed)| < |Live(a, doomed)|
  {
    AllFreedAfter(a, b, c, doomed);
    LiveShrinks(a, c, doomed);
    if Dug(a, doomed, n) {
      var k :| k in Live(a, doomed);
      DigDeeper(a, c, doomed, n);
    }
  }

  lemma AllFreedAfter(a: State, b: State, c: State, doomed: set<Key>)
    requires Within(a.res, b.res) && Shed(b, c, {}) && AllFreed(a, b, doomed * a.res.Keys)
    ensures AllFreed(a, c, doomed) && Within(a.res, c.res)
  {
    forall k <- doomed ensures GoneIfFree(a, c, k) {
      if k in c.res { assert k in doomed * a.res.Keys && GoneIfFree(a, b, k); }
    }
  }

  lemma SomethingLive(s0: State, a: State, b: State, name: string, clusterID: string, ip: bool)
    requires PartsLabelled(s0.res, name, clusterID) && a.dying == {} && Within(s0.res, a.res) && Within(a.res, b.res)
    requires Blocking(b.res, name, clusterID, ip) != {}
    ensures Live(a, Doomed(s0.res, name, clusterID, ip)) != {}
  {
    var k :| k in Blocking(b.res, name, clusterID, ip);
    assert k in Live(a, Doomed(s0.res, name, clusterID, ip));
  }

  // ---- What a teardown asks, answer by answer ----

  /** An error other than that the resource is not there. */
  predicate Rejected(error: Option<Error>) {
    error.Some? && error != Some(NotFound)
  }

  /** Tries the names from the `i`-th on, whatever fails. */
  ghost function NamesScript(kind: Kind, names: seq<string>, i: nat, broken: bool, k: Verdict -> Script): Script
    requires i <= |names|
    decreases |names| - i, 1
  {
    if i == |names| then k(Verdict(broken, false)) else Ask(AskDelete(Key(kind, names[i])), AfterName(kind, names, i, broken, k))
  }

  ghost function AfterName(kind: Kind, names: seq<string>, i: nat, broken: bool, k: Verdict -> Script): Reply -> Script
    requires i < |names|
    decreases |names| - i, 0
  {
    (r: Reply) => NamesScript(kind, names, i + 1, broken || Rejected(r.error), k)
  }

  lemma NameAnswered(a: seq<Call>, b: seq<Call>, kind: Kind, names: seq<string>, i: nat, broken: bool, error: Option<Error>, k: Verdict -> Script)
    requires i < |names| && Ran(a, b, NamesScript(kind, names, 0, false, k), NamesScript(kind, names, i, broken, k))
    ensures Ran(a, b + [Call(DeleteOp(Key(kind, names[i])), error)], NamesScript(kind, names, 0, false, k),
                NamesScript(kind, names, i + 1, broken || Rejected(error), k))
  {
    RanAsk(a, b, Call(DeleteOp(Key(kind, names[i])), error), NamesScript(kind, names, 0, false, k), NamesScript(kind, names, i, broken, k));
    assert NamesScript(kind, names, i, broken, k) == Ask(AskDelete(Key(kind, names[i])), AfterName(kind, names, i, broken, k));
    assert AfterName(kind, names, i, broken, k)(Reply(error, [])) == NamesScript(kind, names, i + 1, broken || Rejected(error), k);
  }

  ghost function KindScript(kind: Kind, sel: Labels, k: Verdict -> Script): Script {
    Ask(AskList(kind, sel), AfterKindListing(kind, k))
  }

  ghost function AfterKindListing(kind: Kind, k: Verdict -> Script): Reply -> Script {
    (r: Reply) => if r.error.Some? then k(Verdict(true, false)) else NamesScript(kind, r.names, 0, false, k)
  }

  ghost function PartsScript(clusterID: string, i: nat, broken: bool, k: Verdict -> Script): Script
    requires i <= |SUBKINDS|
    decreases |SUBKINDS| - i, 1
  {
    if i == |SUBKINDS| then k(Verdict(broken, false))
    else KindScript(SUBKINDS[i], OwnerSelector(CLUSTER_ID, clusterID), AfterPart(clusterID, i, broken, k))
  }

  ghost function AfterPart(clusterID: string, i: nat, broken: bool, k: Verdict -> Script): Verdict -> Script
    requires i < |SUBKINDS|
    decreases |SUBKINDS| - i, 0
  {
    (v: Verdict) => PartsScript(clusterID, i + 1, broken || v.broken, k)
  }

  ghost function DeleteScript(name: string, clusterID: string, ip: bool, k: Verdict -> Script): Script {
    Ask(AskDelete(LBKey(name)), AfterBalancerDelete(name, clusterID, ip, k))
  }

  ghost function AfterBalancerDelete(name: string, clusterID: string, ip: bool, k: Verdict -> Script): Reply -> Script {
    (r: Reply) => PartsScript(clusterID, 0, Rejected(r.error), AfterParts(name, ip, k))
  }

  ghost function AfterParts(name: string, ip: bool, k: Verdict -> Script): Verdict -> Script {
    (v: Verdict) => if ip then Ask(AskDelete(IPKey(name)), AfterAddress(v.broken, k)) else k(Verdict(v.broken, false))
  }

  ghost function AfterAddress(broken: bool, k: Verdict -> Script): Reply -> Script {
    (r: Reply) => k(Verdict(broken || Rejected(r.error), false))
  }

  lemma AddressAnswered(a: seq<Call>, name: string, so: bool, error: Option<Error>, k: Verdict -> Script)
    ensures Ran(a, a + [Call(DeleteOp(IPKey(name)), error)], AfterParts(name, true, k)(Verdict(so, false)), k(Verdict(so || Rejected(error), false)))
  {
    var script := AfterParts(name, true, k)(Verdict(so, false));
    RanFirst(a, Call(DeleteOp(IPKey(name)), error), script);
    assert script == Ask(AskDelete(IPKey(name)), AfterAddress(so, k));
  }

  /** Asks for each until one is there or cannot be read. */
  ghost function ExistsScript(checks: seq<Key>, i: nat, k: Verdict -> Script): Script
    requires i <= |checks|
    decreases |checks| - i, 1
  {
    if i == |checks| then k(Verdict(false, false)) else Ask(AskGet(checks[i]), AfterCheck(checks, i, k))
  }

  ghost function AfterCheck(checks: seq<Key>, i: nat, k: Verdict -> Script): Reply -> Script
    requires i < |checks|
    decreases |checks| - i, 0
  {
    (r: Reply) => if r.error == Some(NotFound) then ExistsScript(checks, i + 1, k) else k(Verdict(r.error.Some?, r.error.None?))
  }

  ghost function NoneOwnedScript(clusterID: string, i: nat, k: Verdict -> Script): Script
    requires i <= |SUBKINDS|
    decreases |SUBKINDS| - i, 1
  {
    if i == |SUBKINDS| then k(Verdict(false, false))
    else Ask(AskList(SUBKINDS[i], OwnerSelector(CLUSTER_ID, clusterID)), AfterOwned(clusterID, i, k))
  }

  ghost function AfterOwned(clusterID: string, i: nat, k: Verdict -> Script): Reply -> Script
    requires i < |SUBKINDS|
    decreases |SUBKINDS| - i, 0
  {
    (r: Reply) => if r.error.Some? || |r.names| > 0 then k(Verdict(r.error.Some?, r.error.None?))
                  else NoneOwnedScript(clusterID, i + 1, k)
  }

  lemma CheckAnswered(a: seq<Call>, b: seq<Call>, checks: seq<Key>, i: nat, error: Option<Error>, members: seq<string>,
                      k: Verdict -> Script)
    requires i < |checks| && Ran(a, b, ExistsScript(checks, 0, k), ExistsScript(checks, i, k))
    ensures Ran(a, b + [Call(GetOp(checks[i], members), error)], ExistsScript(checks, 0, k),
      if error == Some(NotFound) then ExistsScript(checks, i + 1, k) else k(Verdict(error.Some?, error.None?)))
  {
    RanAsk(a, b, Call(GetOp(checks[i], members), error), ExistsScript(checks, 0, k), ExistsScript(checks, i, k));
    assert ExistsScript(checks, i, k) == Ask(AskGet(checks[i]), AfterCheck(checks, i, k));
    assert AfterCheck(checks, i, k)(Reply(error, members)) ==
      if error == Some(NotFound) then ExistsScript(checks, i + 1, k) else k(Verdict(error.Some?, error.None?));
  }

  lemma OwnedAnswered(a: seq<Call>, b: seq<Call>, clusterID: string, i: nat, error: Option<Error>, names: seq<string>, k: Verdict -> Script)
    requires i < |SUBKINDS| && Ran(a, b, NoneOwnedScript(clusterID, 0, k), NoneOwnedScript(clusterID, i, k))
    ensures Ran(a, b + [Call(ListOp(SUBKINDS[i], OwnerSelector(CLUSTER_ID, clusterID), names), error)], NoneOwnedScript(clusterID, 0, k),
      if error.Some? || |names| > 0 then k(Verdict(error.Some?, error.None?)) else NoneOwnedScript(clusterID, i + 1, k))
  {
    RanAsk(a, b, Call(ListOp(SUBKINDS[i], OwnerSelector(CLUSTER_ID, clusterID), names), error),
           NoneOwnedScript(clusterID, 0, k), NoneOwnedScript(clusterID, i, k));
    assert NoneOwnedScript(clusterID, i, k) == Ask(AskList(SUBKINDS[i], OwnerSelector(CLUSTER_ID, clusterID)), AfterOwned(clusterID, i, k));
    assert AfterOwned(clusterID, i, k)(Reply(error, names)) ==
      if error.Some? || |names| > 0 then k(Verdict(error.Some?, error.None?)) else NoneOwnedScript(clusterID, i + 1, k);
  }

  function Checks(name: string, ip: bool): seq<Key> {
    [LBKey(name), RouteKey(name), SvcKey(name), PoolKey(name)] + if ip then [IPKey(name)] else []
  }

  ghost function CompleteScript(name: string, clusterID: string, ip: bool, k: Verdict -> Script): Script {
    ExistsScript(Checks(name, ip), 0, AfterExists(clusterID, k))
  }

  ghost function AfterExists(clusterID: string, k: Verdict -> Script): Verdict -> Script {
    (v: Verdict) => if v.broken || v.pending then k(v) else NoneOwnedScript(clusterID, 0, k)
  }

  /** Nothing of the first `n` kinds has these labels. */
  ghost predicate NoneOf(res: map<Key, Resource>, n: nat, sel: Labels)
    requires n <= |SUBKINDS|
  {
    forall i | 0 <= i < n :: forall x <- res :: x.kind == SUBKINDS[i] ==> !Selects(sel, res[x].labels)
  }

  lemma NextNone(a: map<Key, Resource>, b: map<Key, Resource>, i: nat, sel: Labels)
    requires i < |SUBKINDS| && NoneOf(a, i, sel) && Within(a, b)
    requires forall n :: Key(SUBKINDS[i], n) in b ==> !Selects(sel, b[Key(SUBKINDS[i], n)].labels)
    ensures NoneOf(b, i + 1, sel)
  {
    forall x <- b | x.kind == SUBKINDS[i] ensures !Selects(sel, b[x].labels) { assert x == Key(SUBKINDS[i], x.name); }
  }

  lemma NoneAtAll(res: map<Key, Resource>, sel: Labels)
    requires NoneOf(res, |SUBKINDS|, sel)
    ensures forall x <- res :: x.kind in SUBKINDS ==> !Selects(sel, res[x].labels)
  {
    forall x <- res | x.kind in SUBKINDS ensures !Selects(sel, res[x].labels) {
      var i :| 0 <= i < |SUBKINDS| && SUBKINDS[i] == x.kind;
    }
  }

  /** What a report says of a load balancer is so as long as it is there. */
  ghost predicate Reported(s: State, lb: LoadBalancer) {
    LBKey(lb.name) in s.res ==>
      && (lb.active ==> LBKey(lb.name) in s.up)
      && (lb.address != "" ==> At(s, lb.name, lb.address))
  }

  /** The address of the load balancer's own frontend. */
  ghost predicate At(s: State, name: string, address: string) {
    LBKey(name) in s.res ==>
      var spec := s.res[LBKey(name)].spec;
      spec.LBSpec? && spec.frontend in s.addr && s.addr[spec.frontend] == address
  }

  class LoadBalancerService {
    const cloud: Cloud

    constructor (cloud: Cloud)
      ensures this.cloud == cloud
    {
      this.cloud := cloud;
    }

    /** The create-or-adopt step every sub-resource goes through. */
    method CreateOrGet(k: Key, res: Resource) returns (error: Option<Error>)
      requires cloud.Valid() && KindOf(res.spec) == k.kind && k.kind != VM
      modifies cloud
      ensures cloud.Valid() && cloud.faults >= old(cloud.faults)
      ensures Grows(old(cloud.s), cloud.s, map[k := res])
      ensures error.None? ==> k in cloud.s.res
      ensures cloud.faults == old(cloud.faults) && k !in old(cloud.s).dying ==> error.None?
    {
      error := cloud.Create(k, res);
      if error == Some(Conflict) {
        label conflicted:
        ghost var mid := cloud.s;
        var view;
        error, view := cloud.Get(k);
        ShedGrows(mid, cloud.s, map[k := res]);
        GrowsTrans(old(cloud.s), mid, cloud.s, map[k := res]);
      }
    }

    /** What the API reports about a load balancer and its chain. */
    method Build(name: string) returns (error: Option<Error>, lb: Option<LoadBalancer>)
      requires cloud.Valid()
      modifies cloud
      ensures cloud.Valid() && cloud.faults >= old(cloud.faults)
      ensures Shed(old(cloud.s), cloud.s, {})
      ensures error.None? <==> lb.Some?
      ensures error.Some? ==> error == Some(NotFound) || error == Some(Failed)
      ensures lb.Some? ==> lb.value.name == name && LBKey(name) in old(cloud.s).res
      ensures error == Some(NotFound) ==> LBKey(name) !in cloud.s.res
      ensures cloud.faults == old(cloud.faults) && error.Some? ==> error == Some(NotFound)
      ensures lb.Some? ==> Reported(cloud.s, lb.value)
      ensures lb.Some? && lb.value.backends != {} ==>
        PoolKey(name) in old(cloud.s).res && old(cloud.s).res[PoolKey(name)].spec == PoolSpec(lb.value.backends)
    {
      ghost var start := cloud.s;
      var view;
      lb := None;
      error, view := cloud.Get(LBKey(name));
      if error.None? {
        ghost var got := cloud.s;
        var address, backends := ReadParts(name, view.value.resource.spec.frontend);
        ShedTrans(start, got, cloud.s, {}, {});
        lb := Some(LoadBalancer(name, address, view.value.ready, backends));
      }
    }

    /** The address of a frontend and the members of a pool, as far as they can be read. */
    method ReadParts(name: string, frontend: string) returns (address: string, backends: set<string>)
      requires cloud.Valid()
      modifies cloud
      ensures cloud.Valid() && cloud.faults >= old(cloud.faults) && Shed(old(cloud.s), cloud.s, {})
      ensures address != "" ==> frontend in cloud.s.addr && cloud.s.addr[frontend] == address
      ensures backends != {} ==> PoolKey(name) in old(cloud.s).res && old(cloud.s).res[PoolKey(name)].spec == PoolSpec(backends)
    {
      ghost var start := cloud.s;
      ShedRefl(start, {});
      address, backends := "", {};
      if frontend != "" {
        var ipError, ip := cloud.Get(Key(IP, frontend));
        if ipError.None? {
          address := ip.value.address;
        }
      }
      ghost var mid := cloud.s;
      var poolError, pool := cloud.Get(PoolKey(name));
      if poolError.None? {
        backends := pool.value.resource.spec.backends;
      }
      ShedTrans(start, mid, cloud.s, {}, {});
    }

    /** Ensures one link of the chain whose referents are already there. */
    method EnsureLink(k: Key, ghost G: map<Key, Resource>, ghost ip: Key, res: Resource) returns (error: Option<Error>)
      requires cloud.Valid() && KindOf(res.spec) == k.kind && k.kind != VM && k in G && G[k] == res
      modifies cloud
      ensures cloud.Valid() && cloud.faults >= old(cloud.faults)
      ensures Grows(old(cloud.s), cloud.s, G)
      ensures error.None? ==> k in cloud.s.res
      ensures Quiet(old(cloud.s), G, ip) && Closed(old(cloud.s), G, ip) && ChainRefs(res.spec) <= (G.Keys + {ip}) * old(cloud.s).res.Keys ==>
        Held(old(cloud.s), cloud.s, G, ip) && (cloud.faults == old(cloud.faults) ==> error.None?)
    {
      ghost var s0 := cloud.s;
      error := CreateOrGet(k, res);
      GrowsWiden(s0, cloud.s, k, G);
      if Quiet(s0, G, ip) && Closed(s0, G, ip) && ChainRefs(res.spec) <= (G.Keys + {ip}) * s0.res.Keys {
        ClosedStep(s0, cloud.s, G, ip, k);
      }
    }

    /** Two links, the second referring to the first. */
    method EnsurePair(service: string, route: string, spec: Spec, r: Request, ghost G: map<Key, Resource>, ghost ip: Key)
      returns (error: Option<Error>)
      requires cloud.Valid() && spec.ServiceSpec? && spec.pool == PoolName(r.name)
      requires PoolKey(r.name) in G
      requires Key(Service, service) in G && G[Key(Service, service)] == Made(r, spec)
      requires Key(Route, route) in G && G[Key(Route, route)] == Made(r, RouteSpec(service))
      modifies cloud
      ensures cloud.Valid() && cloud.faults >= old(cloud.faults)
      ensures Grows(old(cloud.s), cloud.s, G)
      ensures Quiet(old(cloud.s), G, ip) && Closed(old(cloud.s), G, ip) && PoolKey(r.name) in old(cloud.s).res ==>
        && Held(old(cloud.s), cloud.s, G, ip)
        && (error.None? ==> Key(Service, service) in cloud.s.res && Key(Route, route) in cloud.s.res)
        && (cloud.faults == old(cloud.faults) ==> error.None?)
    {
      ghost var s0 := cloud.s;
      error := EnsureLink(Key(Service, service), G, ip, Made(r, spec));
      if error.None? {
        ghost var s1 := cloud.s;
        error := EnsureLink(Key(Route, route), G, ip, Made(r, RouteSpec(service)));
        GrowsTrans(s0, s1, cloud.s, G);
        if Held(s0, s1, G, ip) && Held(s1, cloud.s, G, ip) { HeldTrans(s0, s1, cloud.s, G, ip); }
      }
    }

    /** Steps 2 to 5: pool, service and route, then one of each per extra port. */
    method EnsureChain(r: Request, ghost G: map<Key, Resource>, ghost ip: Key) returns (error: Option<Error>)
      requires cloud.Valid() && ChainOf(r, G)
      modifies cloud
      ensures cloud.Valid() && cloud.faults >= old(cloud.faults)
      ensures Grows(old(cloud.s), cloud.s, G)
      ensures Quiet(old(cloud.s), G, ip) && Closed(old(cloud.s), G, ip) ==>
        && Held(old(cloud.s), cloud.s, G, ip)
        && (error.None? ==> LinksPresent(r, cloud.s.res.Keys, |r.ports|))
        && (cloud.faults == old(cloud.faults) ==> error.None?)
    {
      ghost var s0 := cloud.s;
      error := EnsureLink(PoolKey(r.name), G, ip, Made(r, PoolSpec({})));
      if error.Some? { return; }
      ghost var s1 := cloud.s;
      error := EnsurePair(SvcName(r.name), RouteName(r.name),
        ServiceSpec(r.backendPort, r.stackType == "ipv6-only", PoolName(r.name)), r, G, ip);
      GrowsTrans(s0, s1, cloud.s, G);
      if error.Some? { return; }
      ghost var s2 := cloud.s;
      error := EnsurePorts(r, G, ip);
      GrowsTrans(s0, s2, cloud.s, G);
    }

    method EnsurePorts(r: Request, ghost G: map<Key, Resource>, ghost ip: Key) returns (error: Option<Error>)
      requires cloud.Valid() && ChainOf(r, G)
      modifies cloud
      ensures cloud.Valid() && cloud.faults >= old(cloud.faults)
      ensures Grows(old(cloud.s), cloud.s, G)
      ensures Quiet(old(cloud.s), G, ip) && Closed(old(cloud.s), G, ip) && LinksPresent(r, old(cloud.s).res.Keys, 0) ==>
        && Held(old(cloud.s), cloud.s, G, ip)
        && (error.None? ==> LinksPresent(r, cloud.s.res.Keys, |r.ports|))
        && (cloud.faults == old(cloud.faults) ==> error.None?)
    {
      ghost var s0, f0 := cloud.s, cloud.faults;
      ghost var calm := Quiet(s0, G, ip) && Closed(s0, G, ip) && LinksPresent(r, s0.res.Keys, 0);
      error := None;
      ShedGrows(s0, s0, G);
      for i := 0 to |r.ports|
        invariant cloud.Valid() && cloud.faults >= f0 && Grows(s0, cloud.s, G) && error.None?
        invariant calm ==> Held(s0, cloud.s, G, ip) && LinksPresent(r, cloud.s.res.Keys, i)
      {
        ghost var before := cloud.s;
        var port := r.ports[i];
        assert PortPart(r, G, port);
        error := EnsurePair(PortSvcName(r.name, port), PortRouteName(r.name, port),
          ServiceSpec(port, false, PoolName(r.name)), r, G, ip);
        GrowsTrans(s0, before, cloud.s, G);
        if calm {
          HeldTrans(s0, before, cloud.s, G, ip);
          KeepLinks(r, G, before.res.Keys, cloud.s.res.Keys, i);
          if error.None? { NextLink(r, cloud.s.res.Keys, i); }
        }
        if error.Some? { return; }
      }
    }

    /** Creates the whole chain.  Every exit, at whatever call it happens, leaves
        a reference-closed part of `Graph(r)`; success leaves all of it. */
    method Create(r: Request) returns (error: Option<Error>, lb: Option<LoadBalancer>)
      requires cloud.Valid()
      modifies cloud
      ensures cloud.Valid() && cloud.faults >= old(cloud.faults)
      ensures error.None? <==> lb.Some?
      ensures lb.Some? ==> lb.value.name == r.name && Reported(cloud.s, lb.value)
      ensures Grows(old(cloud.s), cloud.s, Graph(r))
      ensures Calm(old(cloud.s), r) ==>
        && Calm(cloud.s, r)
        && (error.None? ==> Graph(r).Keys + {FrontKey(r)} <= cloud.s.res.Keys)
        && (cloud.faults == old(cloud.faults) && (r.existingIP == "" || FrontKey(r) in old(cloud.s).res) ==> error.None?)
    {
      GraphIsChain(r);
      ghost var calm := Calm(cloud.s, r);
      error, lb := CreateChain(r, Graph(r));
      if error.None? && calm { AllLinks(r, cloud.s.res.Keys); }
    }

    method CreateChain(r: Request, ghost G: map<Key, Resource>) returns (error: Option<Error>, lb: Option<LoadBalancer>)
      requires cloud.Valid() && ChainOf(r, G)
      modifies cloud
      ensures cloud.Valid() && cloud.faults >= old(cloud.faults)
      ensures error.None? <==> lb.Some?
      ensures lb.Some? ==> lb.value.name == r.name && Reported(cloud.s, lb.value)
      ensures Grows(old(cloud.s), cloud.s, G)
      ensures Quiet(old(cloud.s), G, FrontKey(r)) && Closed(old(cloud.s), G, FrontKey(r)) ==>
        && Quiet(cloud.s, G, FrontKey(r)) && Closed(cloud.s, G, FrontKey(r))
        && (error.None? ==> LinksPresent(r, cloud.s.res.Keys, |r.ports|) && {FrontKey(r), LBKey(r.name)} <= cloud.s.res.Keys)
        && (cloud.faults == old(cloud.faults) && (r.existingIP == "" || FrontKey(r) in old(cloud.s).res) ==> error.None?)
    {
      lb := None;
      ghost var ip, s0 := FrontKey(r), cloud.s;
      ghost var calm := Quiet(s0, G, ip) && Closed(s0, G, ip);

      // 1. The address: borrowed, or created and waited for.
      error := EnsureAddress(r, G);
      if error.Some? { return; }

      // 2.-5. Pool, then service and route for the API port and each extra port.
      ghost var s1 := cloud.s;
      error := EnsureChain(r, G, ip);
      GrowsTrans(s0, s1, cloud.s, G);
      if error.Some? { return; }

      // 6. The load balancer itself.
      ghost var s2 := cloud.s;
      error, lb := FinishLoadBalancer(r, G);
      GrowsTrans(s0, s2, cloud.s, G);
    }

    method EnsureAddress(r: Request, ghost G: map<Key, Resource>) returns (error: Option<Error>)
      requires cloud.Valid() && ChainOf(r, G)
      modifies cloud
      ensures cloud.Valid() && cloud.faults >= old(cloud.faults)
      ensures Grows(old(cloud.s), cloud.s, G)
      ensures Quiet(old(cloud.s), G, FrontKey(r)) && Closed(old(cloud.s), G, FrontKey(r)) ==>
        && Quiet(cloud.s, G, FrontKey(r)) && Closed(cloud.s, G, FrontKey(r))
        && (error.None? ==> FrontKey(r) in cloud.s.res)
        && (cloud.faults == old(cloud.faults) && (r.existingIP == "" || FrontKey(r) in old(cloud.s).res) ==> error.None?)
      // A borrowed address is only waited for.
      ensures r.existingIP != "" ==> Shed(old(cloud.s), cloud.s, {})
    {
      ghost var ip, s0 := FrontKey(r), cloud.s;
      ghost var calm := Quiet(s0, G, ip) && Closed(s0, G, ip);
      if r.existingIP == "" {
        error := cloud.Create(IPKey(r.name), Made(r, IPSpec));
        GrowsWiden(s0, cloud.s, IPKey(r.name), G);
        if calm { ClosedStep(s0, cloud.s, G, ip, IPKey(r.name)); }
        if error.Some? && error != Some(Conflict) {
          return;
        }
      }
      ghost var s1 := cloud.s;
      assert r.existingIP == "" ==> FrontKey(r) in s1.res;
      error := cloud.WaitForReady(FrontKey(r));
      ShedGrows(s1, cloud.s, G);
      if r.existingIP == "" { GrowsTrans(s0, s1, cloud.s, G); }
      if calm { ClosedShed(s1, cloud.s, G, ip); }
    }

    /** Creates the load balancer itself; one that is there already will do. */
    method PlaceLoadBalancer(r: Request, ghost G: map<Key, Resource>) returns (error: Option<Error>)
      requires cloud.Valid() && ChainOf(r, G)
      modifies cloud
      ensures cloud.Valid() && cloud.faults >= old(cloud.faults)
      ensures Grows(old(cloud.s), cloud.s, G)
      ensures error.None? ==> LBKey(r.name) in cloud.s.res
      ensures Quiet(old(cloud.s), G, FrontKey(r)) && Closed(old(cloud.s), G, FrontKey(r))
              && LinksPresent(r, old(cloud.s).res.Keys, |r.ports|) && FrontKey(r) in old(cloud.s).res ==>
        Held(old(cloud.s), cloud.s, G, FrontKey(r)) && (cloud.faults == old(cloud.faults) ==> error.None?)
    {
      ghost var ip, s0 := FrontKey(r), cloud.s;
      error := cloud.Create(LBKey(r.name), Made(r, LBSpec(Frontend(r), Listeners(r), r.network)));
      GrowsWiden(s0, cloud.s, LBKey(r.name), G);
      if Quiet(s0, G, ip) && Closed(s0, G, ip) && LinksPresent(r, s0.res.Keys, |r.ports|) && ip in s0.res {
        ListenersPresent(r, G, s0.res.Keys);
        ClosedStep(s0, cloud.s, G, ip, LBKey(r.name));
      }
      if error == Some(Conflict) {
        error := None;
      }
    }

    method FinishLoadBalancer(r: Request, ghost G: map<Key, Resource>) returns (error: Option<Error>, lb: Option<LoadBalancer>)
      requires cloud.Valid() && ChainOf(r, G)
      modifies cloud
      ensures cloud.Valid() && cloud.faults >= old(cloud.faults)
      ensures error.None? <==> lb.Some?
      ensures lb.Some? ==> lb.value.name == r.name && Reported(cloud.s, lb.value)
      ensures Grows(old(cloud.s), cloud.s, G)
      ensures Quiet(old(cloud.s), G, FrontKey(r)) && Closed(old(cloud.s), G, FrontKey(r))
              && LinksPresent(r, old(cloud.s).res.Keys, |r.ports|) && FrontKey(r) in old(cloud.s).res ==>
        && Quiet(cloud.s, G, FrontKey(r)) && Closed(cloud.s, G, FrontKey(r))
        && (error.None? ==> LinksPresent(r, cloud.s.res.Keys, |r.ports|) && {FrontKey(r), LBKey(r.name)} <= cloud.s.res.Keys)
        && (cloud.faults == old(cloud.faults) ==> error.None?)
    {
      lb := None;
      ghost var ip, s0 := FrontKey(r), cloud.s;
      error := PlaceLoadBalancer(r, G);
      if error.Some? {
        return;
      }
      ghost var s1 := cloud.s;
      error, lb := Build(r.name);
      ShedGrows(s1, cloud.s, G);
      GrowsTrans(s0, s1, cloud.s, G);
      if Held(s0, s1, G, ip) {
        HeldShed(s0, s1, cloud.s, G, ip);
        if LinksPresent(r, s0.res.Keys, |r.ports|) { KeepLinks(r, G, s0.res.Keys, cloud.s.res.Keys, |r.ports|); }
      }
    }

    /** One delete of a pass that began in `base`; `clear` when nothing can refer to
        `k` any more. */
    method DeleteOne(k: Key, ghost base: State, ghost doomed: set<Key>, ghost clear: bool) returns (error: Option<Error>)
      requires cloud.Valid() && Passing(base, cloud.s, doomed)
      requires k in base.res ==> k in doomed
      requires clear ==> Cleared(base, cloud.s, doomed, Rank(k.kind), cloud.instant)
      modifies cloud
      ensures cloud.Valid() && cloud.faults == old(cloud.faults) + (if error == Some(Failed) then 1 else 0)
      ensures cloud.conflicts == old(cloud.conflicts) + (if error == Some(Conflict) then 1 else 0)
      ensures cloud.calls == old(cloud.calls) + [Call(DeleteOp(k), error)]
      ensures Passing(base, cloud.s, doomed) && Shrunk(old(cloud.s), cloud.s) && Within(old(cloud.s).res, cloud.s.res)
      ensures !Rejected(error) ==> Loose(cloud.s, k)
      ensures error != Some(Failed) ==> GoneIfFree(base, cloud.s, k)
      ensures clear ==> error != Some(Conflict)
      ensures error.Some? ==> error.value in {NotFound, Conflict, Failed}
    {
      ghost var before := cloud.s;
      error := cloud.Delete(k);
      if k in base.res {
        PassesOn(base, before, cloud.s, doomed, {k});
        UnreferencedAt(base.res, cloud.s.res, k);
        if clear {
          ClearedFree(base, before, doomed, k, cloud.instant);
          UnreferencedAt(before.res, cloud.s.res, k);
        }
      } else {
        PassesOn(base, before, cloud.s, doomed, {});
      }
    }

    method DeleteNames(kind: Kind, names: seq<string>, ghost base: State, ghost doomed: set<Key>, ghost clear: bool, ghost k: Verdict -> Script)
      returns (failures: nat)
      requires cloud.Valid() && Passing(base, cloud.s, doomed)
      requires forall n <- names :: Key(kind, n) in base.res ==> Key(kind, n) in doomed
      requires clear ==> Cleared(base, cloud.s, doomed, Rank(kind), cloud.instant)
      modifies cloud
      ensures cloud.Valid() && cloud.faults >= old(cloud.faults) && cloud.conflicts >= old(cloud.conflicts)
      ensures Passing(base, cloud.s, doomed) && Shrunk(old(cloud.s), cloud.s) && Within(old(cloud.s).res, cloud.s.res)
      ensures failures == 0 ==> EachLoose(cloud.s, kind, names)
      ensures cloud.faults == old(cloud.faults) ==>
        EachGone(base, cloud.s, kind, names) && (failures == 0 <==> cloud.conflicts == old(cloud.conflicts))
      ensures clear && cloud.faults == old(cloud.faults) ==> failures == 0
      ensures Ran(old(cloud.calls), cloud.calls, NamesScript(kind, names, 0, false, k), k(Verdict(failures > 0, false)))
    {
      ghost var s0, f0, c0, log0 := cloud.s, cloud.faults, cloud.conflicts, cloud.calls;
      failures := 0;
      for i := 0 to |names|
        invariant cloud.Valid() && cloud.faults >= f0 && cloud.conflicts >= c0
        invariant Passing(base, cloud.s, doomed) && Shrunk(s0, cloud.s) && Within(s0.res, cloud.s.res)
        invariant failures == 0 ==> EachLoose(cloud.s, kind, names[..i])
        invariant cloud.faults == f0 ==>
          EachGone(base, cloud.s, kind, names[..i]) && (failures == 0 <==> cloud.conflicts == c0)
        invariant clear && cloud.faults == f0 ==> failures == 0
        invariant Ran(log0, cloud.calls, NamesScript(kind, names, 0, false, k), NamesScript(kind, names, i, failures > 0, k))
      {
        ghost var before, log := cloud.s, cloud.calls;
        var error := DeleteOne(Key(kind, names[i]), base, doomed, clear);
        NameAnswered(log0, log, kind, names, i, failures > 0, error, k);
        assert names[..i + 1] == names[..i] + [names[i]];
        if cloud.faults == f0 { NextGone(base, before, cloud.s, kind, names[..i], names[i]); }
        if Rejected(error) {
          failures := failures + 1;
        } else if failures == 0 {
          NextLoose(before, cloud.s, kind, names[..i], names[i]);
        }
      }
      assert names[..|names|] == names;
    }

    /** Deletes every owned resource of one kind, counting the failures. */
    method DeleteKind(kind: Kind, sel: Labels, ghost base: State, ghost doomed: set<Key>, ghost clear: bool, ghost k: Verdict -> Script)
      returns (failures: nat)
      requires cloud.Valid() && Passing(base, cloud.s, doomed)
      requires kind in SUBKINDS && ByLabel(base.res, doomed, sel)
      requires clear ==> Cleared(base, cloud.s, doomed, Rank(kind), cloud.instant)
      modifies cloud
      ensures cloud.Valid() && cloud.faults >= old(cloud.faults) && cloud.conflicts >= old(cloud.conflicts)
      ensures Passing(base, cloud.s, doomed) && Shrunk(old(cloud.s), cloud.s) && Within(old(cloud.s).res, cloud.s.res)
      ensures failures == 0 ==> KindLoose(base, cloud.s, kind, sel)
      ensures cloud.faults == old(cloud.faults) ==>
        KindFreed(base, cloud.s, kind, sel) && (failures == 0 <==> cloud.conflicts == old(cloud.conflicts))
      ensures clear && cloud.faults == old(cloud.faults) ==> failures == 0
      ensures Ran(old(cloud.calls), cloud.calls, KindScript(kind, sel, k), k(Verdict(failures > 0, false)))
    {
      ghost var s0, log0 := cloud.s, cloud.calls;
      failures := 0;
      var error, names := cloud.List(kind, sel);
      ghost var listed, log1 := cloud.s, cloud.calls;
      RanFirst(log0, Call(ListOp(kind, sel, names), error), KindScript(kind, sel, k));
      PassesOn(base, s0, listed, doomed, {});
      if error.Some? {
        failures := 1;
      } else {
        failures := DeleteNames(kind, names, base, doomed, clear, k);
        RanThen(log0, log1, cloud.calls, KindScript(kind, sel, k), NamesScript(kind, names, 0, false, k), k(Verdict(failures > 0, false)));
        ShrunkTrans(s0, listed, cloud.s);
        ListedKind(base, listed, cloud.s, kind, sel, names);
      }
    }

    /** The parts by owner label, referrers first. */
    method DeleteParts(clusterID: string, ghost base: State, ghost doomed: set<Key>, ghost clear: bool, ghost so: bool, ghost k: Verdict -> Script)
      returns (failures: nat)
      requires cloud.Valid() && Passing(base, cloud.s, doomed) && ByLabel(base.res, doomed, OwnerSelector(CLUSTER_ID, clusterID))
      requires clear ==> Cleared(base, cloud.s, doomed, 1, cloud.instant)
      modifies cloud
      ensures cloud.Valid() && cloud.faults >= old(cloud.faults) && cloud.conflicts >= old(cloud.conflicts)
      ensures Passing(base, cloud.s, doomed) && Shrunk(old(cloud.s), cloud.s) && Within(old(cloud.s).res, cloud.s.res)
      ensures Got(base, cloud.s, Parts(doomed), failures == 0, cloud.faults == old(cloud.faults))
      ensures cloud.faults == old(cloud.faults) ==> (failures == 0 <==> cloud.conflicts == old(cloud.conflicts))
      ensures clear && cloud.faults == old(cloud.faults) ==> failures == 0 && Cleared(base, cloud.s, doomed, Rank(IP), cloud.instant)
      ensures Ran(old(cloud.calls), cloud.calls, PartsScript(clusterID, 0, so, k), k(Verdict(so || failures > 0, false)))
    {
      ghost var s0, f0, c0, log0 := cloud.s, cloud.faults, cloud.conflicts, cloud.calls;
      ghost var script := PartsScript(clusterID, 0, so, k);
      var sel := OwnerSelector(CLUSTER_ID, clusterID);
      failures := 0;
      for i := 0 to |SUBKINDS|
        invariant cloud.Valid() && cloud.faults >= f0 && cloud.conflicts >= c0
        invariant Passing(base, cloud.s, doomed) && Shrunk(s0, cloud.s) && Within(s0.res, cloud.s.res)
        invariant PartsSoFar(base, cloud.s, doomed, i, sel, failures == 0, cloud.faults == f0, clear, cloud.instant)
        invariant cloud.faults == f0 ==> (failures == 0 <==> cloud.conflicts == c0)
        invariant Ran(log0, cloud.calls, script, PartsScript(clusterID, i, so || failures > 0, k))
      {
        ghost var before, log, broken, f1 := cloud.s, cloud.calls, so || failures > 0, cloud.faults;
        RankOfPart(i);
        var more := DeleteKind(SUBKINDS[i], sel, base, doomed, clear && cloud.faults == f0, AfterPart(clusterID, i, broken, k));
        RanThen(log0, log, cloud.calls, script, PartsScript(clusterID, i, broken, k), PartsScript(clusterID, i + 1, broken || more > 0, k));
        NextKind(base, before, cloud.s, doomed, i, sel, failures == 0, more == 0, f1 == f0, cloud.faults == f0, clear, cloud.instant);
        failures := failures + more;
      }
      KindsTogether(base, cloud.s, doomed, sel, failures == 0, cloud.faults == f0, clear, cloud.instant);
    }

    /** One pass: deletes the load balancer, then its parts by owner label, referrers
        first, then the address if the provider made it. */
    method Delete(name: string, clusterID: string, deletePublicIP: bool, ghost k: Verdict -> Script) returns (error: Option<Error>)
      requires cloud.Valid()
      modifies cloud
      ensures cloud.Valid() && cloud.faults >= old(cloud.faults)
      ensures OnePass(old(cloud.s), cloud.s, Doomed(old(cloud.s).res, name, clusterID, deletePublicIP), error,
                      cloud.faults == old(cloud.faults), cloud.conflicts == old(cloud.conflicts), cloud.instant)
      ensures Ran(old(cloud.calls), cloud.calls, DeleteScript(name, clusterID, deletePublicIP, k), k(Verdict(error.Some?, false)))
    {
      ghost var s0 := cloud.s;
      ghost var doomed := Doomed(s0.res, name, clusterID, deletePublicIP);
      ghost var clear := NoneReferenced(s0.res, doomed) || (cloud.instant && Isolated(s0.res, doomed));
      ShedRefl(s0, doomed);
      DoomedKinds(s0.res, name, clusterID, deletePublicIP);
      var failures := TryAll(name, clusterID, deletePublicIP, s0, doomed, clear, k);
      error := if failures > 0 then Some(Failed) else None;
      PassVerdict(s0, cloud.s, doomed, error, cloud.faults == old(cloud.faults), cloud.conflicts == old(cloud.conflicts), cloud.instant);
    }

    method TryAll(name: string, clusterID: string, deletePublicIP: bool, ghost base: State, ghost doomed: set<Key>, ghost clear: bool, ghost k: Verdict -> Script)
      returns (failures: nat)
      requires cloud.Valid() && cloud.s == base && Passing(base, base, doomed) && ByLabel(base.res, doomed, OwnerSelector(CLUSTER_ID, clusterID))
      requires forall x <- base.res :: x == LBKey(name) || (deletePublicIP && x == IPKey(name)) ==> x in doomed
      requires forall x <- doomed :: (x.kind == LB ==> x == LBKey(name)) && (x.kind == IP ==> deletePublicIP && x == IPKey(name))
      requires clear ==> NoneReferenced(base.res, doomed) || (cloud.instant && Isolated(base.res, doomed))
      modifies cloud
      ensures cloud.Valid() && cloud.faults >= old(cloud.faults) && cloud.conflicts >= old(cloud.conflicts)
      ensures Passing(base, cloud.s, doomed) && Got(base, cloud.s, doomed, failures == 0, cloud.faults == old(cloud.faults))
      ensures cloud.faults == old(cloud.faults) ==> (failures == 0 <==> cloud.conflicts == old(cloud.conflicts)) && (clear ==> failures == 0)
      ensures Ran(old(cloud.calls), cloud.calls, DeleteScript(name, clusterID, deletePublicIP, k), k(Verdict(failures > 0, false)))
    {
      ghost var f0, log0, script := cloud.faults, cloud.calls, DeleteScript(name, clusterID, deletePublicIP, k);
      var so := DeleteLinks(name, clusterID, base, doomed, clear, deletePublicIP, k);
      ghost var s1, f1, log1 := cloud.s, cloud.faults, cloud.calls;
      failures := DeleteAddress(name, deletePublicIP, so, base, doomed, clear && f1 == f0, k);
      RanThen(log0, log1, cloud.calls, script, AfterParts(name, deletePublicIP, k)(Verdict(so > 0, false)), k(Verdict(failures > 0, false)));
      AddressToo(base, s1, cloud.s, doomed, name, deletePublicIP, so == 0, failures == 0, f1 == f0, cloud.faults == f0);
    }

    /** The load balancer, then its parts. */
    method DeleteLinks(name: string, clusterID: string, ghost base: State, ghost doomed: set<Key>, ghost clear: bool, ghost ip: bool, ghost k: Verdict -> Script)
      returns (failures: nat)
      requires cloud.Valid() && cloud.s == base && Passing(base, base, doomed) && ByLabel(base.res, doomed, OwnerSelector(CLUSTER_ID, clusterID))
      requires LBKey(name) in base.res ==> LBKey(name) in doomed
      requires forall x <- doomed :: x.kind == LB ==> x == LBKey(name)
      requires clear ==> NoneReferenced(base.res, doomed) || (cloud.instant && Isolated(base.res, doomed))
      modifies cloud
      ensures cloud.Valid() && cloud.faults >= old(cloud.faults) && cloud.conflicts >= old(cloud.conflicts)
      ensures Passing(base, cloud.s, doomed) && Got(base, cloud.s, Linked(doomed), failures == 0, cloud.faults == old(cloud.faults))
      ensures cloud.faults == old(cloud.faults) ==>
        && (failures == 0 <==> cloud.conflicts == old(cloud.conflicts))
        && (clear ==> failures == 0 && Cleared(base, cloud.s, doomed, Rank(IP), cloud.instant))
      ensures Ran(old(cloud.calls), cloud.calls, DeleteScript(name, clusterID, ip, k), AfterParts(name, ip, k)(Verdict(failures > 0, false)))
    {
      ghost var f0, log0, script := cloud.faults, cloud.calls, DeleteScript(name, clusterID, ip, k);
      var failed := DeleteOne(LBKey(name), base, doomed, clear);
      ghost var s1, f1, log1 := cloud.s, cloud.faults, cloud.calls;
      if clear && f1 == f0 { BalancerCleared(base, s1, doomed, name, cloud.instant); }
      RanFirst(log0, Call(DeleteOp(LBKey(name)), failed), script);
      failures := DeleteParts(clusterID, base, doomed, clear && f1 == f0, Rejected(failed), AfterParts(name, ip, k));
      BalancerAndParts(base, s1, cloud.s, doomed, name, OwnerSelector(CLUSTER_ID, clusterID), !Rejected(failed), failures == 0, f1 == f0, cloud.faults == f0);
      if Rejected(failed) {
        failures := failures + 1;
      }
      RanThen(log0, log1, cloud.calls, script, PartsScript(clusterID, 0, Rejected(failed), AfterParts(name, ip, k)),
              AfterParts(name, ip, k)(Verdict(failures > 0, false)));
    }

    method DeleteAddress(name: string, deletePublicIP: bool, so: nat, ghost base: State, ghost doomed: set<Key>, ghost clear: bool, ghost k: Verdict -> Script)
      returns (failures: nat)
      requires cloud.Valid() && Passing(base, cloud.s, doomed)
      requires deletePublicIP && IPKey(name) in base.res ==> IPKey(name) in doomed
      requires clear ==> Cleared(base, cloud.s, doomed, Rank(IP), cloud.instant)
      modifies cloud
      ensures cloud.Valid() && cloud.faults >= old(cloud.faults) && cloud.conflicts >= old(cloud.conflicts)
      ensures Passing(base, cloud.s, doomed) && Shrunk(old(cloud.s), cloud.s) && Within(old(cloud.s).res, cloud.s.res)
      ensures failures == 0 ==> so == 0 && (deletePublicIP ==> Loose(cloud.s, IPKey(name)))
      ensures cloud.faults == old(cloud.faults) ==>
        && (deletePublicIP ==> GoneIfFree(base, cloud.s, IPKey(name)))
        && (failures == 0 <==> so == 0 && cloud.conflicts == old(cloud.conflicts))
      ensures clear && cloud.faults == old(cloud.faults) ==> failures == so
      ensures Ran(old(cloud.calls), cloud.calls, AfterParts(name, deletePublicIP, k)(Verdict(so > 0, false)), k(Verdict(failures > 0, false)))
    {
      ghost var log0 := cloud.calls;
      failures := so;
      RanNone(log0, AfterParts(name, deletePublicIP, k)(Verdict(so > 0, false)));
      if deletePublicIP {
        var error := DeleteOne(IPKey(name), base, doomed, clear);
        AddressAnswered(log0, name, so > 0, error, k);
        if Rejected(error) {
          failures := failures + 1;
        }
      }
    }

    /** Pass after pass, as the finalizer's requeue drives them, with accepted deletes
        finishing in between: whatever a pass was refused because something still
        referred to it, a later one gets, and the last link is gone after four. */
    method DeleteUntilGone(name: string, clusterID: string, deletePublicIP: bool) returns (done: bool, passes: nat)
      requires cloud.Valid() && PartsLabelled(cloud.s.res, name, clusterID)
      requires Isolated(cloud.s.res, Doomed(cloud.s.res, name, clusterID, deletePublicIP))
      modifies cloud
      ensures cloud.Valid() && passes <= 5
      ensures Shed(old(cloud.s), cloud.s, Doomed(old(cloud.s).res, name, clusterID, deletePublicIP))
      ensures cloud.faults == old(cloud.faults) ==>
        && done && Blocking(cloud.s.res, name, clusterID, deletePublicIP) == {}
        && passes <= |Live(old(cloud.s), Doomed(old(cloud.s).res, name, clusterID, deletePublicIP))| + 1
    {
      ghost var s0, f0 := cloud.s, cloud.faults;
      ghost var doomed := Doomed(s0.res, name, clusterID, deletePublicIP);
      done, passes := false, 0;
      ShedRefl(s0, doomed);
      while !done && passes < 5
        invariant cloud.Valid() && cloud.faults >= f0 && passes <= 5 && Shed(s0, cloud.s, doomed)
        invariant cloud.faults == f0 && done ==> Blocking(cloud.s.res, name, clusterID, deletePublicIP) == {}
        invariant cloud.faults == f0 && !done ==> Dug(cloud.s, doomed, passes) && passes < 5
        invariant cloud.faults == f0 ==> passes + (if done then 0 else |Live(cloud.s, doomed)| + 1) <= |Live(s0, doomed)| + 1
      {
        done := SettleAndDelete(name, clusterID, deletePublicIP, s0, doomed, passes);
        passes := passes + 1;
      }
    }

    method SettleAndDelete(name: string, clusterID: string, deletePublicIP: bool, ghost s0: State, ghost doomed: set<Key>, ghost n: nat)
      returns (done: bool)
      requires cloud.Valid() && Typed(s0.res) && doomed == Doomed(s0.res, name, clusterID, deletePublicIP) && Shed(s0, cloud.s, doomed)
      requires PartsLabelled(s0.res, name, clusterID) && Isolated(s0.res, doomed)
      modifies cloud
      ensures cloud.Valid() && cloud.faults >= old(cloud.faults) && Shed(s0, cloud.s, doomed)
      ensures cloud.faults == old(cloud.faults) && done ==> Blocking(cloud.s.res, name, clusterID, deletePublicIP) == {}
      ensures cloud.faults == old(cloud.faults) && !done && Dug(old(cloud.s), doomed, n) ==> Dug(cloud.s, doomed, n + 1) && n < 4
      ensures cloud.faults == old(cloud.faults) && !done ==> |Live(cloud.s, doomed)| < |Live(old(cloud.s), doomed)|
    {
      ghost var p := cloud.s;
      cloud.Settle();
      ghost var a := cloud.s;
      ShedAgain(s0, p, a, doomed, {});
      ghost var now := Doomed(a.res, name, clusterID, deletePublicIP);
      SettledDoomed(s0, p, a, name, clusterID, deletePublicIP);
      var _ := Delete(name, clusterID, deletePublicIP, (v: Verdict) => Finish(v));
      ghost var b, f1 := cloud.s, cloud.faults;
      ShedAgain(s0, a, b, doomed, now);
      var error;
      error, done := DeletionComplete(name, clusterID, deletePublicIP, (v: Verdict) => Finish(v));
      ghost var c := cloud.s;
      ShedAgain(s0, b, c, doomed, {});
      if AllFreed(a, b, now) && !done && error.None? {
        DoomedKinds(s0.res, name, clusterID, deletePublicIP);
        SomethingLive(s0, a, b, name, clusterID, deletePublicIP);
        PassWorked(a, b, c, doomed, n);
      }
    }

    /** Whether any base-named link, or the address, is still there. */
    method Exists(name: string, checkPublicIP: bool, ghost k: Verdict -> Script) returns (error: Option<Error>, exists_: bool)
      requires cloud.Valid()
      modifies cloud
      ensures cloud.Valid() && Shed(old(cloud.s), cloud.s, {}) && cloud.faults >= old(cloud.faults)
      ensures cloud.faults == old(cloud.faults) ==> error.None?
      ensures error.Some? ==> !exists_
      ensures error.None? ==>
        if exists_ then BaseKeys(name, checkPublicIP) * old(cloud.s).res.Keys != {}
        else BaseKeys(name, checkPublicIP) * cloud.s.res.Keys == {}
      ensures Ran(old(cloud.calls), cloud.calls, ExistsScript(Checks(name, checkPublicIP), 0, k), k(Verdict(error.Some?, exists_)))
    {
      ghost var s0, f0, log0 := cloud.s, cloud.faults, cloud.calls;
      var checks := [LBKey(name), RouteKey(name), SvcKey(name), PoolKey(name)];
      if checkPublicIP {
        checks := checks + [IPKey(name)];
      }
      assert checks == Checks(name, checkPublicIP);
      assert forall x :: x in checks <==> x in BaseKeys(name, checkPublicIP);
      for i := 0 to |checks|
        invariant cloud.Valid() && Shed(s0, cloud.s, {}) && cloud.faults == f0
        invariant forall x <- checks[..i] :: x !in cloud.s.res
        invariant Ran(log0, cloud.calls, ExistsScript(checks, 0, k), ExistsScript(checks, i, k))
      {
        ghost var before, log := cloud.s, cloud.calls;
        var getError, view := cloud.Get(checks[i]);
        CheckAnswered(log0, log, checks, i, getError, Members(view), k);
        ShedTrans(s0, before, cloud.s, {}, {});
        if getError.None? {
          assert checks[i] in checks && checks[i] in BaseKeys(name, checkPublicIP) * s0.res.Keys;
          return None, true;
        } else if getError != Some(NotFound) {
          return getError, false;
        }
        assert checks[..i + 1] == checks[..i] + [checks[i]];
      }
      assert checks[..|checks|] == checks;
      return None, false;
    }

    /** Whether teardown has actually finished, not merely been accepted. */
    method DeletionComplete(name: string, clusterID: string, checkPublicIP: bool, ghost k: Verdict -> Script)
      returns (error: Option<Error>, done: bool)
      requires cloud.Valid()
      modifies cloud
      ensures cloud.Valid() && Shed(old(cloud.s), cloud.s, {}) && cloud.faults >= old(cloud.faults)
      ensures cloud.faults == old(cloud.faults) ==> error.None?
      ensures error.Some? ==> !done
      ensures error.None? ==>
        if done then Blocking(cloud.s.res, name, clusterID, checkPublicIP) == {}
        else Blocking(old(cloud.s).res, name, clusterID, checkPublicIP) != {}
      ensures Ran(old(cloud.calls), cloud.calls, CompleteScript(name, clusterID, checkPublicIP, k),
                  k(Verdict(error.Some?, error.None? && !done)))
    {
      ghost var s0, log0 := cloud.s, cloud.calls;
      var there;
      error, there := Exists(name, checkPublicIP, AfterExists(clusterID, k));
      done := false;
      if there {
        ghost var x :| x in BaseKeys(name, checkPublicIP) * s0.res.Keys;
        assert x in Blocking(s0.res, name, clusterID, checkPublicIP);
      } else if error.None? {
        ghost var s1, log1 := cloud.s, cloud.calls;
        error, done := NoneOwned(clusterID, k);
        RanThen(log0, log1, cloud.calls, CompleteScript(name, clusterID, checkPublicIP, k), NoneOwnedScript(clusterID, 0, k),
                k(Verdict(error.Some?, error.None? && !done)));
        ShedTrans(s0, s1, cloud.s, {}, {});
        if error.None? && !done {
          ghost var x :| x in s1.res && x.kind in SUBKINDS && Selects(OwnerSelector(CLUSTER_ID, clusterID), s1.res[x].labels);
          assert x in Blocking(s0.res, name, clusterID, checkPublicIP);
        }
      }
    }

    /** Whether no part carries the owner's labels any more. */
    method NoneOwned(clusterID: string, ghost k: Verdict -> Script) returns (error: Option<Error>, none: bool)
      requires cloud.Valid()
      modifies cloud
      ensures cloud.Valid() && Shed(old(cloud.s), cloud.s, {}) && cloud.faults >= old(cloud.faults)
      ensures cloud.faults == old(cloud.faults) ==> error.None?
      ensures error.Some? ==> !none
      ensures error.None? && none ==>
        forall k <- cloud.s.res :: k.kind in SUBKINDS ==> !Selects(OwnerSelector(CLUSTER_ID, clusterID), cloud.s.res[k].labels)
      ensures error.None? && !none ==>
        exists k <- old(cloud.s).res :: k.kind in SUBKINDS && Selects(OwnerSelector(CLUSTER_ID, clusterID), old(cloud.s).res[k].labels)
      ensures Ran(old(cloud.calls), cloud.calls, NoneOwnedScript(clusterID, 0, k), k(Verdict(error.Some?, error.None? && !none)))
    {
      ghost var s0, f0, log0 := cloud.s, cloud.faults, cloud.calls;
      var sel := OwnerSelector(CLUSTER_ID, clusterID);
      for i := 0 to |SUBKINDS|
        invariant cloud.Valid() && Shed(s0, cloud.s, {}) && cloud.faults >= f0
        invariant NoneOf(cloud.s.res, i, sel)
        invariant Ran(log0, cloud.calls, NoneOwnedScript(clusterID, 0, k), NoneOwnedScript(clusterID, i, k))
      {
        ghost var before, log := cloud.s, cloud.calls;
        var names;
        error, names := cloud.List(SUBKINDS[i], sel);
        OwnedAnswered(log0, log, clusterID, i, error, names, k);
        ShedTrans(s0, before, cloud.s, {}, {});
        none := false;
        if error.Some? {
          return;
        }
        if |names| > 0 {
          assert names[0] in names && Key(SUBKINDS[i], names[0]) in s0.res;
          return;
        }
        NextNone(before.res, cloud.s.res, i, sel);
      }
      error, none := None, true;
      NoneAtAll(cloud.s.res, sel);
    }
  }
}
