/** The evroc API as the provider sees it: named, labelled resources that refer
    to one another, deletes that are accepted before they take effect, and calls
    that may fail whether or not they were applied.  Nothing here is a server;
    it is the most adversarial behaviour the provider's code is written for. */
module CloudApi {
  import opened Prelude

  datatype Kind =
    | VM | LB | Route | Service | Pool | IP | Attachment | Disk | SG | Group

  datatype Key = Key(kind: Kind, name: string)

  type Labels = map<string, string>

  datatype Listener = Listener(name: string, port: int, route: string)
  /** One security group rule, as the user writes it and as the API takes it. */
  datatype Rule = Rule(remoteCIDR: string, remoteGroup: string, port: Option<int>, endPort: Option<int>)
  datatype Network = Network(vpc: string, subnets: map<string, string>)

  datatype Spec =
    | VMSpec(zone: string, disks: seq<string>, publicIP: Option<string>, groups: seq<string>, placement: Option<string>)
    | LBSpec(frontend: string, listeners: seq<Listener>, network: Option<Network>)
    | RouteSpec(service: string)
    | ServiceSpec(port: int, ipv6: bool, pool: string)
    | PoolSpec(backends: set<string>)
    | IPSpec
    | AttachmentSpec(disk: string, vm: string)
    | DiskSpec(sizeGB: int, image: string, zone: string)
    | SGSpec(rules: seq<Rule>)
    | GroupSpec

  /** Which program issued the create.  The provider's code never reads it; it is
      how the theorems tell what the provider made from what it merely sees. */
  datatype Actor = ClusterController | MachineController | Others

  datatype Resource = Resource(spec: Spec, labels: Labels, creator: Actor)

  function KindOf(s: Spec): Kind {
    match s
    case VMSpec(_, _, _, _, _) => VM
    case LBSpec(_, _, _) => LB
    case RouteSpec(_) => Route
    case ServiceSpec(_, _, _) => Service
    case PoolSpec(_) => Pool
    case IPSpec => IP
    case AttachmentSpec(_, _) => Attachment
    case DiskSpec(_, _, _) => Disk
    case SGSpec(_) => SG
    case GroupSpec => Group
  }

  function Refs(s: Spec): set<Key> {
    match s
    case VMSpec(_, disks, ip, groups, placement) =>
      (set d | d in disks :: Key(Disk, d)) + (set g | g in groups :: Key(SG, g))
      + (if ip.Some? then {Key(IP, ip.value)} else {})
      + (if placement.Some? then {Key(Group, placement.value)} else {})
    case LBSpec(ip, listeners, _) => {Key(IP, ip)} + set l | l in listeners :: Key(Route, l.route)
    case RouteSpec(service) => {Key(Service, service)}
    case ServiceSpec(_, _, pool) => {Key(Pool, pool)}
    case PoolSpec(backends) => set b | b in backends :: Key(VM, b)
    case AttachmentSpec(disk, vm) => {Key(Disk, disk), Key(VM, vm)}
    case IPSpec => {}
    case DiskSpec(_, _, _) => {}
    case SGSpec(_) => {}
    case GroupSpec => {}
  }

  /** The kinds whose resources may refer to one of kind `k`. */
  function Referrers(k: Kind): set<Kind> {
    match k
    case LB => {} case Route => {LB} case Service => {Route} case Pool => {Service} case Attachment => {}
    case VM => {Pool, Attachment} case IP => {LB, VM} case Disk => {VM, Attachment} case SG => {VM} case Group => {VM}
  }

  /** Every reference goes to a kind of strictly higher rank. */
  function Rank(k: Kind): nat {
    match k
    case LB => 0 case Route => 1 case Service => 2 case Pool => 3 case Attachment => 3
    case VM => 4 case IP => 5 case Disk => 5 case SG => 5 case Group => 5
  }

  ghost predicate Typed(res: map<Key, Resource>) {
    forall k <- res :: KindOf(res[k].spec) == k.kind
  }

  lemma RefsClimb(s: Spec, k: Key)
    ensures k in Refs(s) ==> Rank(KindOf(s)) < Rank(k.kind) && KindOf(s) in Referrers(k.kind)
  {}

  predicate Referenced(res: map<Key, Resource>, k: Key) {
    exists r <- res :: k in Refs(res[r].spec)
  }

  /** `dying`: delete accepted, not gone yet.  `up`: reported ready. */
  datatype State = State(res: map<Key, Resource>, dying: set<Key>, up: set<Key>, addr: map<string, string>)

  predicate Selects(sel: Labels, labels: Labels) {
    forall l <- sel :: l in labels && labels[l] == sel[l]
  }

  function Matching(res: map<Key, Resource>, kind: Kind, sel: Labels): set<string> {
    set k | k in res && k.kind == kind && Selects(sel, res[k].labels) :: k.name
  }

  /** From `a` to `b` resources only went away, and only those already dying or
      among the ones whose delete may have been accepted meanwhile (`marked`). */
  ghost predicate Shed(a: State, b: State, marked: set<Key>) {
    && b.res.Keys <= a.res.Keys
    && (forall k <- b.res :: b.res[k] == a.res[k])
    && (forall k <- a.res :: k in b.res || k in a.dying || k in marked)
    && a.dying * b.res.Keys <= b.dying <= (a.dying + marked) * b.res.Keys
    && a.up * b.res.Keys <= b.up <= b.res.Keys
    && (forall n <- a.addr :: n in b.addr && b.addr[n] == a.addr[n])
  }

  lemma ShedTrans(a: State, b: State, c: State, m: set<Key>, n: set<Key>)
    requires Shed(a, b, m) && Shed(b, c, n)
    ensures Shed(a, c, m + n)
  {}

  lemma ShedRefl(a: State, marked: set<Key>)
    requires a.dying <= a.res.Keys && a.up <= a.res.Keys
    ensures Shed(a, a, marked)
  {}

  lemma ShedWiden(a: State, b: State, m: set<Key>, n: set<Key>)
    requires Shed(a, b, m) && m <= n
    ensures Shed(a, b, n)
  {}

  /** When no delete is outstanding, all that was marked is all that went. */
  lemma ShedExactly(a: State, b: State, marked: set<Key>)
    requires Shed(a, b, marked) && a.dying == {} && b.dying == {}
    requires forall k <- marked :: k in b.res ==> k in b.dying
    ensures b.res == a.res - marked
  {}

  /** `b` is part of `a`. */
  ghost predicate Within(a: map<Key, Resource>, b: map<Key, Resource>) {
    b.Keys <= a.Keys && forall k <- b :: b[k] == a[k]
  }

  /** The part of `Shed` that says nothing about which resources went. */
  predicate Shrunk(a: State, b: State) {
    b.res.Keys <= a.res.Keys && a.dying * b.res.Keys <= b.dying
  }

  lemma ShrunkTrans(a: State, b: State, c: State)
    requires Shrunk(a, b) && Shrunk(b, c)
    ensures Shrunk(a, c)
  {}

  /** From `a` to `b` resources were only added, each of them one of `made`,
      apart from dying ones that finished going away. */
  ghost predicate Grows(a: State, b: State, made: map<Key, Resource>) {
    && (forall k <- b.res :: (k in a.res && b.res[k] == a.res[k])
                          || (k in made && b.res[k] == made[k] && (k !in a.res || k in a.dying)))
    && (forall k <- a.res :: k in b.res || k in a.dying)
    && b.dying <= a.dying
    && (forall k <- a.dying :: k in b.res && !(k in made && b.res[k] == made[k]) ==> k in b.dying)
    && a.up <= a.res.Keys
    && a.up * b.res.Keys - a.dying <= b.up <= b.res.Keys
    && (forall n <- a.addr :: n in b.addr && b.addr[n] == a.addr[n])
  }

  lemma GrowsTrans(a: State, b: State, c: State, made: map<Key, Resource>)
    requires Grows(a, b, made) && Grows(b, c, made)
    ensures Grows(a, c, made)
  {}

  // ---- What keeps a resource from being deleted ----

  /** Nothing outside `targets` refers into it. */
  ghost predicate Isolated(res: map<Key, Resource>, targets: set<Key>) {
    forall r <- res, k <- targets :: k in Refs(res[r].spec) ==> r in targets
  }

  ghost predicate NoneReferenced(res: map<Key, Resource>, keys: set<Key>) {
    forall k <- keys :: !Referenced(res, k)
  }

  /** An isolated set holds a resource that nothing refers to. */
  lemma {:induction false} FreeTarget(res: map<Key, Resource>, targets: set<Key>, k: Key) returns (free: Key)
    requires Typed(res) && k in targets && targets <= res.Keys && Isolated(res, targets)
    ensures free in targets && !Referenced(res, free)
    decreases Rank(k.kind)
  {
    free := k;
    if Referenced(res, k) {
      var r :| r in res && k in Refs(res[r].spec);
      RefsClimb(res[r].spec, k);
      free := FreeTarget(res, targets, r);
    }
  }

  /** What nothing referred to, nothing refers to after more has gone. */
  lemma Unreferenced(a: map<Key, Resource>, b: map<Key, Resource>)
    requires b.Keys <= a.Keys && forall k <- b :: b[k] == a[k]
    ensures forall k :: !Referenced(a, k) ==> !Referenced(b, k)
  {}

  lemma UnreferencedAt(a: map<Key, Resource>, b: map<Key, Resource>, k: Key)
    requires b.Keys <= a.Keys && forall k <- b :: b[k] == a[k]
    ensures !Referenced(a, k) ==> !Referenced(b, k)
  {}

  /** Gone or going by `s`, if nothing referred to it at `start`. */
  predicate GoneIfFree(start: State, s: State, k: Key) {
    k in s.res && !Referenced(start.res, k) ==> k in s.dying
  }

  ghost predicate EachGone(start: State, s: State, kind: Kind, names: seq<string>) {
    forall n <- names :: GoneIfFree(start, s, Key(kind, n))
  }

  lemma NextGone(start: State, a: State, b: State, kind: Kind, names: seq<string>, name: string)
    requires Shrunk(a, b) && EachGone(start, a, kind, names) && GoneIfFree(start, b, Key(kind, name))
    ensures EachGone(start, b, kind, names + [name])
  {}

  /** Gone, or going with nothing that refers to it. */
  predicate Loose(s: State, k: Key) {
    k in s.res ==> k in s.dying && !Referenced(s.res, k)
  }

  lemma StillLoose(a: State, b: State, k: Key)
    requires Shrunk(a, b) && Within(a.res, b.res) && Loose(a, k)
    ensures Loose(b, k)
  {
    UnreferencedAt(a.res, b.res, k);
  }

  ghost predicate EachLoose(s: State, kind: Kind, names: seq<string>) {
    forall n <- names :: Loose(s, Key(kind, n))
  }

  lemma NextLoose(a: State, b: State, kind: Kind, names: seq<string>, name: string)
    requires Shrunk(a, b) && Within(a.res, b.res) && EachLoose(a, kind, names) && Loose(b, Key(kind, name))
    ensures EachLoose(b, kind, names + [name])
  {
    forall n <- names ensures Loose(b, Key(kind, n)) { StillLoose(a, b, Key(kind, n)); }
  }

  /** Whatever was accepted for deletion since `a` has no referrer left. */
  ghost predicate Freed(a: State, b: State) {
    forall k <- a.res :: (k in b.res && k !in b.dying) || k in a.dying || !Referenced(b.res, k)
  }

  lemma FreedTrans(a: State, b: State, c: State)
    requires Freed(a, b) && Freed(b, c) && Within(b.res, c.res)
    ensures Freed(a, c)
  {
    Unreferenced(b.res, c.res);
  }

  /** How many links may lie above a resource of this kind when no VM refers to it. */
  function Depth(k: Kind): nat {
    match k
    case LB => 0 case Attachment => 0 case SG => 0
    case Route => 1 case IP => 1 case Disk => 1
    case Service => 2 case Pool => 3 case VM => 4 case Group => 4
  }

  lemma RefsDeepen(s: Spec, k: Key)
    ensures k in Refs(s) && !s.VMSpec? ==> Depth(KindOf(s)) < Depth(k.kind)
  {
    RefsClimb(s, k);
  }

  /** Those of `targets` that are neither gone nor going. */
  function Live(s: State, targets: set<Key>): set<Key> {
    set k | k in targets && k in s.res && k !in s.dying
  }

  /** A pass that accepts whatever is free leaves strictly less to do. */
  lemma LiveShrinks(a: State, b: State, targets: set<Key>)
    requires Typed(a.res) && a.dying == {} && Isolated(a.res, targets) && Within(a.res, b.res)
    requires forall k <- targets :: GoneIfFree(a, b, k)
    ensures Live(a, targets) != {} ==> |Live(b, targets)| < |Live(a, targets)|
  {
    var live := Live(a, targets);
    if k :| k in live {
      assert Isolated(a.res, live);
      var free := FreeTarget(a.res, live, k);
      assert GoneIfFree(a, b, free);
      assert Live(b, targets) <= live - {free};
      SubsetSize(Live(b, targets), live - {free});
    }
  }

  /** Of `targets`, only those at least `n` links deep are neither gone nor going. */
  ghost predicate Dug(s: State, targets: set<Key>, n: nat) {
    forall k <- targets :: k in s.res && k !in s.dying ==> Depth(k.kind) >= n
  }

  /** A pass that accepts whatever is free gets one link deeper. */
  lemma DigDeeper(a: State, b: State, targets: set<Key>, n: nat)
    requires Typed(a.res) && a.dying == {} && Isolated(a.res, targets) && forall k <- targets :: k.kind != VM
    requires Dug(a, targets, n) && Within(a.res, b.res)
    requires forall k <- targets :: Depth(k.kind) == n ==> GoneIfFree(a, b, k)
    ensures Dug(b, targets, n + 1)
  {
    forall k | k in targets && k in b.res && k !in b.dying ensures Depth(k.kind) > n {
      if Depth(k.kind) == n {
        var r :| r in a.res && k in Refs(a.res[r].spec);
        RefsDeepen(a.res[r].spec, k);
      }
    }
  }

  /** From `a` to `b` nothing was added or altered but `k`, and nothing deleted. */
  ghost predicate OnlyAt(a: State, b: State, k: Key) {
    && (forall x <- b.res :: x == k || (x in a.res && b.res[x] == a.res[x]))
    && (forall x <- a.res :: x in b.res || x in a.dying)
    && b.dying <= a.dying
  }

  lemma OnlyAtTrans(a: State, b: State, c: State, k: Key)
    requires OnlyAt(a, b, k) && OnlyAt(b, c, k)
    ensures OnlyAt(a, c, k)
  {}

  datatype Error = NotFound | Conflict | Failed

  /** A read records the memberships it reported of a VM, a list the names. */
  datatype Op =
    | CreateOp(key: Key, resource: Resource)
    | GetOp(key: Key, members: seq<string>)
    | ListOp(kind: Kind, selector: Labels, names: seq<string>)
    | DeleteOp(key: Key)
    | PatchOp(key: Key, spec: Spec)

  /** One API call and how it ended. */
  datatype Call = Call(op: Op, error: Option<Error>)

  /** What a read reports: the resource, and from its status whether it is ready,
      its address, and the groups a VM is a member of right now. */
  datatype View = View(resource: Resource, ready: bool, address: string, members: seq<string>)

  function Members(view: Option<View>): seq<string> {
    if view.Some? then view.value.members else []
  }

  /** The log only grew, and every new call satisfies `p`. */
  ghost predicate AllNew(before: seq<Call>, after: seq<Call>, p: Call -> bool) {
    && |before| <= |after| && after[..|before|] == before
    && forall i | |before| <= i < |after| :: p(after[i])
  }

  lemma AllNewTrans(a: seq<Call>, b: seq<Call>, c: seq<Call>, p: Call -> bool)
    requires AllNew(a, b, p) && AllNew(b, c, p)
    ensures AllNew(a, c, p)
  {
    assert c[..|a|] == c[..|b|][..|a|];
    forall i | |a| <= i < |c| ensures p(c[i]) {
      if i < |b| { assert c[i] == c[..|b|][i]; }
    }
  }

  lemma AllNewWeaken(a: seq<Call>, b: seq<Call>, p: Call -> bool, q: Call -> bool)
    requires AllNew(a, b, p) && forall c :: p(c) ==> q(c)
    ensures AllNew(a, b, q)
  {}

  /** From `a` to `b` the creation of `k` was asked for and answered with `error`. */
  ghost predicate Created(a: State, b: State, k: Key, r: Resource, error: Option<Error>) {
    && Grows(a, b, map[k := r])
    && (error.None? || error == Some(Conflict) || error == Some(Failed))
    && (error.None? ==> k in b.res && b.res[k] == r && k !in b.dying && (k in a.res ==> k in a.dying))
    && (error == Some(Conflict) ==> k in b.res && k in a.res && b.res[k] == a.res[k])
  }

  /** The create of a VM, and the state of the cloud when it was issued. */
  datatype Birth = Birth(key: Key, resource: Resource, at: State)

  class Cloud {
    var s: State
    /** Accepted deletes take effect at once. */
    const instant: bool
    ghost var calls: seq<Call>
    /** How many calls failed for a reason of their own (network, quota, crash). */
    ghost var faults: nat
    /** How many deletes were refused because something still refers to the target. */
    ghost var conflicts: nat
    /** Every VM whose creation was asked for, and the cloud it was asked of. */
    ghost var births: seq<Birth>

    ghost predicate Valid()
      reads this
    {
      && Typed(s.res)
      && s.dying <= s.res.Keys
      && s.up <= s.res.Keys
      && (instant ==> s.dying == {})
    }

    /** What goes on in the cloud between two calls: accepted deletes finish and
        resources become ready. */
    method Advance()
      requires Valid()
      modifies this`s
      ensures Valid() && Shed(old(s), s, {})
    {
      var gone: set<Key> := *;
      gone := gone * s.dying;
      var ready: set<Key> := *;
      var addr: map<string, string> := *;
      var left := s.res - gone;
      s := State(left, s.dying - gone, (s.up + ready) * left.Keys, addr + s.addr);
    }

    /** Lets every accepted delete finish. */
    method Settle()
      requires Valid()
      modifies this`s
      ensures Valid() && s.dying == {} && s.res == old(s).res - old(s).dying
      ensures Shed(old(s), s, {})
    {
      var left := s.res - s.dying;
      s := State(left, {}, s.up * left.Keys, s.addr);
    }

    /** Lets every accepted delete finish and everything else become ready. */
    method Ripen()
      requires Valid()
      modifies this`s
      ensures Valid() && s.dying == {} && s.res == old(s).res - old(s).dying && s.up == s.res.Keys
      ensures forall k <- s.res :: k.kind == IP ==> k.name in s.addr && s.addr[k.name] != ""
    {
      var left := s.res - s.dying;
      var addr := map k | k in left && k.kind == IP :: k.name := "address";
      s := State(left, {}, left.Keys, addr);
    }

    ghost method Record(op: Op, error: Option<Error>)
      modifies this`calls, this`faults, this`conflicts
      ensures calls == old(calls) + [Call(op, error)]
      ensures faults == old(faults) + (if error == Some(Failed) then 1 else 0)
      ensures conflicts == old(conflicts) + (if op.DeleteOp? && error == Some(Conflict) then 1 else 0)
    {
      calls := calls + [Call(op, error)];
      conflicts := conflicts + if op.DeleteOp? && error == Some(Conflict) then 1 else 0;
      faults := faults + if error == Some(Failed) then 1 else 0;
    }

    /** Any create but a VM's. */
    method Create(k: Key, r: Resource) returns (error: Option<Error>)
      requires Valid() && KindOf(r.spec) == k.kind && k.kind != VM
      modifies this`s, this`calls, this`faults, this`conflicts
      ensures Valid() && calls == old(calls) + [Call(CreateOp(k, r), error)] && conflicts == old(conflicts)
      ensures faults == old(faults) + (if error == Some(Failed) then 1 else 0)
      ensures Created(old(s), s, k, r, error)
    {
      error := Issue(k, r);
    }

    /** The create of a VM. */
    method Launch(k: Key, r: Resource) returns (error: Option<Error>)
      requires Valid() && KindOf(r.spec) == k.kind == VM
      modifies this
      ensures births == old(births) + [Birth(k, r, old(s))]
      ensures Valid() && calls == old(calls) + [Call(CreateOp(k, r), error)] && conflicts == old(conflicts)
      ensures faults == old(faults) + (if error == Some(Failed) then 1 else 0)
      ensures Created(old(s), s, k, r, error)
    {
      births := births + [Birth(k, r, s)];
      error := Issue(k, r);
    }

    method Issue(k: Key, r: Resource) returns (error: Option<Error>)
      requires Valid() && KindOf(r.spec) == k.kind
      modifies this`s, this`calls, this`faults, this`conflicts
      ensures Valid() && calls == old(calls) + [Call(CreateOp(k, r), error)] && conflicts == old(conflicts)
      ensures faults == old(faults) + (if error == Some(Failed) then 1 else 0)
      ensures Created(old(s), s, k, r, error)
    {
      Advance();
      var fails, applied := *, *;
      if k in s.res {
        error := if fails then Some(Failed) else Some(Conflict);
      } else {
        error := if fails then Some(Failed) else None;
        if !fails || applied {
          s := s.(res := s.res[k := r]);
        }
      }
      Record(CreateOp(k, r), error);
    }

    method Get(k: Key) returns (error: Option<Error>, view: Option<View>)
      requires Valid()
      modifies this`s, this`calls, this`faults, this`conflicts
      ensures Valid() && calls == old(calls) + [Call(GetOp(k, Members(view)), error)] && conflicts == old(conflicts)
      ensures faults == old(faults) + (if error == Some(Failed) then 1 else 0)
      ensures Shed(old(s), s, {})
      ensures error.None? || error == Some(NotFound) || error == Some(Failed)
      ensures error.None? <==> view.Some?
      ensures error.None? ==> KindOf(view.value.resource.spec) == k.kind
      ensures error.None? ==> k in s.res && view.value.resource == s.res[k] && view.value.ready == (k in s.up)
      ensures error.None? ==> view.value.address == if k.name in s.addr then s.addr[k.name] else ""
      ensures error == Some(NotFound) ==> k !in s.res
    {
      Advance();
      var fails := *;
      if fails {
        error, view := Some(Failed), None;
      } else if k !in s.res {
        error, view := Some(NotFound), None;
      } else {
        error := None;
        var members: seq<string> := *;
        view := Some(View(s.res[k], k in s.up, if k.name in s.addr then s.addr[k.name] else "", members));
      }
      Record(GetOp(k, Members(view)), error);
    }

    /** The SDK waiter: a timeout is a failure. */
    method WaitForReady(k: Key) returns (error: Option<Error>)
      requires Valid()
      modifies this`s, this`calls, this`faults, this`conflicts
      ensures Valid() && calls == old(calls) + [Call(GetOp(k, []), error)] && conflicts == old(conflicts)
      ensures faults == old(faults) + (if error == Some(Failed) then 1 else 0)
      ensures Shed(old(s), s, {})
      ensures error.None? ==> k in s.res && k in s.up
      ensures error.None? || error == Some(NotFound) || error == Some(Failed)
      ensures error == Some(NotFound) ==> k !in s.res
    {
      Advance();
      error := if k !in s.res then Some(NotFound) else if k in s.up then None else Some(Failed);
      Record(GetOp(k, []), error);
    }

    static method Enumerate(wanted: set<string>) returns (names: seq<string>)
      ensures forall n :: n in names <==> n in wanted
    {
      names := [];
      var left := wanted;
      while left != {}
        invariant forall n :: n in names || n in left <==> n in wanted
        decreases left
      {
        var n :| n in left;
        names := names + [n];
        left := left - {n};
      }
    }

    method List(kind: Kind, sel: Labels) returns (error: Option<Error>, names: seq<string>)
      requires Valid()
      modifies this`s, this`calls, this`faults, this`conflicts
      ensures Valid() && calls == old(calls) + [Call(ListOp(kind, sel, names), error)] && conflicts == old(conflicts)
      ensures faults == old(faults) + (if error == Some(Failed) then 1 else 0)
      ensures Shed(old(s), s, {})
      ensures error.None? || error == Some(Failed)
      ensures error.Some? ==> names == []
      ensures error.None? ==> forall n :: n in names <==> Key(kind, n) in s.res && Selects(sel, s.res[Key(kind, n)].labels)
    {
      Advance();
      names := [];
      var fails := *;
      if fails {
        error := Some(Failed);
      } else {
        error := None;
        names := Enumerate(Matching(s.res, kind, sel));
      }
      Record(ListOp(kind, sel, names), error);
    }

    method Delete(k: Key) returns (error: Option<Error>)
      requires Valid()
      modifies this`s, this`calls, this`faults, this`conflicts
      ensures Valid() && calls == old(calls) + [Call(DeleteOp(k), error)]
      ensures faults == old(faults) + (if error == Some(Failed) then 1 else 0)
      ensures conflicts == old(conflicts) + (if error == Some(Conflict) then 1 else 0)
      ensures Shed(old(s), s, {k})
      ensures error == Some(NotFound) || error == Some(Conflict) ==> Shed(old(s), s, {})
      ensures Freed(old(s), s)
      ensures error.None? || error == Some(NotFound) || error == Some(Conflict) || error == Some(Failed)
      ensures error.None? ==> k in old(s).res && (k in s.res ==> k in s.dying) && !Referenced(s.res, k)
      ensures error == Some(NotFound) ==> k !in s.res
      ensures error == Some(Conflict) ==> k in s.res && Referenced(s.res, k)
    {
      Advance();
      var fails, applied := *, *;
      if k !in s.res {
        error := if fails then Some(Failed) else Some(NotFound);
      } else if Referenced(s.res, k) {
        error := if fails then Some(Failed) else Some(Conflict);
      } else {
        error := if fails then Some(Failed) else None;
        if !fails || applied {
          if instant {
            s := s.(res := s.res - {k}, up := s.up - {k});
          } else {
            s := s.(dying := s.dying + {k});
          }
        }
      }
      Record(DeleteOp(k), error);
    }

    /** Replaces the spec of an existing resource; labels are not touched. */
    method Patch(k: Key, spec: Spec) returns (error: Option<Error>)
      requires Valid() && KindOf(spec) == k.kind
      modifies this`s, this`calls, this`faults, this`conflicts
      ensures Valid() && calls == old(calls) + [Call(PatchOp(k, spec), error)] && conflicts == old(conflicts)
      ensures faults == old(faults) + (if error == Some(Failed) then 1 else 0)
      ensures error.None? || error == Some(NotFound) || error == Some(Failed)
      ensures error == Some(NotFound) ==> k !in s.res
      ensures error.None? ==> k in s.res && s.res[k].spec == spec
      ensures Shed(old(s), s, {}) ||
              (k in old(s).res && error != Some(NotFound) && k in s.res && s.res[k].spec == spec
               && Shed(old(s), s.(res := s.res[k := old(s).res[k]]), {})
               && s.res[k] == old(s).res[k].(spec := spec))
    {
      Advance();
      var fails, applied := *, *;
      if k !in s.res {
        error := if fails then Some(Failed) else Some(NotFound);
      } else {
        error := if fails then Some(Failed) else None;
        if !fails || applied {
          ghost var before := s.res;
          s := s.(res := s.res[k := s.res[k].(spec := spec)]);
          assert s.res[k := before[k]] == before;
        }
      }
      Record(PatchOp(k, spec), error);
    }
  }
}
