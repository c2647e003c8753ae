/** Whole lives of a cluster: any interleaving of reconciles (each of which may
    fail or stop at any call), other writers, other programs in the cloud, deletes
    finishing and resources becoming ready, and moves between management clusters. */
module ClusterLife {
  import opened Prelude
  import opened CloudApi
  import opened OwnershipLabels
  import opened LoadBalancers
  import opened Api
  import opened ClusterWebhook
  import opened Kube
  import opened Ownership
  import opened ClusterController

  datatype Moment = Moment(r: Record, res: map<Key, Resource>)

  /** What a life keeps at every moment. */
  ghost predicate Safe(m: Moment) {
    Inv(m.r, m.res)
  }

  /** The ownership ID, once given, is the same ever after, through every move. */
  ghost predicate SameOwner(life: seq<Moment>) {
    forall i, j {:trigger life[i], life[j]} :: 0 <= i <= j < |life| && Safe(life[i]) && Safe(life[j]) ==>
      TextSetOnce(OwnerID(Last(life[i].r)), OwnerID(Last(life[j].r)))
  }

  /** While anything the controller made exists, the identity it carries does not
      change from one moment to the next, moves included. */
  ghost predicate SteadyBrand(a: Moment, b: Moment) {
    Safe(a) && Safe(b) && AnyMade(a.res) ==> BrandOf(Last(b.r)) == BrandOf(Last(a.r))
  }

  ghost predicate Lived(life: seq<Moment>) {
    && life != [] && (forall m <- life :: Safe(m)) && SameOwner(life)
    && forall i {:trigger life[i]} | 0 <= i < |life| - 1 :: SteadyBrand(life[i], life[i + 1])
  }

  // ---- The specifications a life goes through ----

  ghost predicate Clusters(versions: seq<Object>) {
    forall i | 0 <= i < |versions| :: versions[i].body.Cluster?
  }

  ghost function Specs(versions: seq<Object>): seq<ClusterSpec>
    requires Clusters(versions)
  {
    seq(|versions|, i requires 0 <= i < |versions| => versions[i].body.cluster)
  }

  /** The versions stored since the moment before, all of them after a move. */
  ghost function Fresh(before: seq<Object>, now: seq<Object>): seq<Object> {
    if before <= now then now[|before|..] else now
  }

  /** Every version ever stored, through every move, in order. */
  ghost function Story(life: seq<Moment>): seq<Object> {
    if |life| < 2 then (if life == [] then [] else life[0].r.versions) else
    var n := |life| - 1;
    Story(life[..n]) + Fresh(life[n - 1].r.versions, life[n].r.versions)
  }

  /** A story admission would have accepted step by step. */
  ghost predicate Admitted(versions: seq<Object>) {
    versions != [] && Clusters(versions) && Accepted(Specs(versions))
  }

  /** The whole story is admitted, and it ends with what is stored now. */
  ghost predicate Told(life: seq<Moment>) {
    && life != [] && life[|life| - 1].r.versions != []
    && Admitted(Story(life)) && Story(life)[|Story(life)| - 1].body == Last(life[|life| - 1].r).body
  }

  lemma HistoryAdmitted(versions: seq<Object>)
    requires versions != [] && History(versions) && versions[|versions| - 1].body.Cluster?
    ensures Admitted(versions)
  {
    forall i | 0 <= i < |versions| ensures versions[i].body.Cluster? { assert Follows(versions[i], versions[|versions| - 1]); }
    forall i | 0 <= i < |versions| - 1 ensures Immutables(versions[i].body.cluster, versions[i + 1].body.cluster) {
      assert Follows(versions[i], versions[i + 1]);
    }
  }

  lemma AdmittedConcat(a: seq<Object>, b: seq<Object>)
    requires Admitted(a) && (b != [] ==> Admitted(b) && Immutables(a[|a| - 1].body.cluster, b[0].body.cluster))
    ensures Admitted(a + b)
  {
    var c := a + b;
    assert Clusters(c);
    forall i | 0 <= i < |c| - 1 ensures Immutables(c[i].body.cluster, c[i + 1].body.cluster) {
      if i < |a| - 1 {
        assert Immutables(Specs(a)[i], Specs(a)[i + 1]);
      } else if i >= |a| {
        assert Immutables(Specs(b)[i - |a|], Specs(b)[i + 1 - |a|]);
      }
    }
  }

  /** From one moment to the next the stored object got more versions, or was moved
      with its specification as it is. */
  ghost predicate Continues(a: Record, b: Record) {
    && a.versions != [] && b.versions != []
    && (a.versions <= b.versions
        || (|b.versions| == 1 && Last(a).body.Cluster? && Last(b).body.Cluster? && Last(b).body.cluster == Last(a).body.cluster))
  }

  lemma TellOn(life: seq<Moment>, next: Moment)
    requires Told(life) && Safe(next) && Continues(life[|life| - 1].r, next.r)
    ensures Told(life + [next])
  {
    var longer, last := life + [next], life[|life| - 1].r;
    assert longer[..|life|] == life && longer[|life|] == next;
    var more := Fresh(last.versions, next.r.versions);
    assert Story(longer) == Story(life) + more;
    FreshAdmitted(last, next.r);
    AdmittedConcat(Story(life), more);
  }

  lemma FreshAdmitted(a: Record, b: Record)
    requires Continues(a, b) && Sound(b) && Last(b).body.Cluster? && Last(a).body.Cluster?
    ensures var more := Fresh(a.versions, b.versions);
      if more == [] then Last(b) == Last(a)
      else Admitted(more) && Immutables(Last(a).body.cluster, more[0].body.cluster) && more[|more| - 1] == Last(b)
  {
    var before, now := a.versions, b.versions;
    if before <= now {
      var more := now[|before|..];
      if more != [] {
        assert Follows(now[|before| - 1], now[|before|]);
        assert History(more) by {
          forall i, j | 0 <= i <= j < |more| ensures Follows(more[i], more[j]) { assert Follows(now[|before| + i], now[|before| + j]); }
        }
        HistoryAdmitted(more);
      }
    } else {
      HistoryAdmitted(now);
    }
  }

  lemma Begun(m: Moment)
    requires Safe(m)
    ensures Told([m])
  {
    HistoryAdmitted(m.r.versions);
  }

  /** In a whole life, moves included, the endpoint changes at most once, and only
      by being set. */
  lemma EndpointSetOnce(life: seq<Moment>)
    requires Told(life)
    ensures var story := Specs(Story(life));
      && EndpointChanges(story) <= 1
      && (EndpointChanges(story) == 1 ==> story[0].endpoint.IsZero() && !story[|story| - 1].endpoint.IsZero())
      && (EndpointChanges(story) == 0 ==> story[|story| - 1].endpoint == story[0].endpoint)
  {
    EndpointChangesOnce(Specs(Story(life)));
  }

  lemma LiveOn(life: seq<Moment>, next: Moment)
    requires Lived(life) && Safe(next)
    requires var last := life[|life| - 1];
      TextSetOnce(OwnerID(Last(last.r)), OwnerID(Last(next.r))) && SteadyBrand(last, next)
    ensures Lived(life + [next])
  {
    var longer, last := life + [next], life[|life| - 1];
    forall i, j | 0 <= i <= j < |longer| && Safe(longer[i]) && Safe(longer[j])
      ensures TextSetOnce(OwnerID(Last(longer[i].r)), OwnerID(Last(longer[j].r)))
    {
      if j == |life| && i < j {
        assert Safe(life[i]) && Safe(last);
        assert TextSetOnce(OwnerID(Last(life[i].r)), OwnerID(Last(last.r)));
      } else if j < |life| {
        assert longer[i] == life[i] && longer[j] == life[j];
      }
    }
    forall i | 0 <= i < |longer| - 1 ensures SteadyBrand(longer[i], longer[i + 1]) {
      if i < |life| - 1 { assert longer[i] == life[i] && longer[i + 1] == life[i + 1]; }
    }
  }

  lemma Continued(a: Record, b: Record, ra: map<Key, Resource>, rb: map<Key, Resource>)
    requires Inv(a, ra) && Inv(b, rb) && a.versions <= b.versions
    ensures TextSetOnce(OwnerID(Last(a)), OwnerID(Last(b))) && SteadyBrand(Moment(a, ra), Moment(b, rb)) && Continues(a, b)
  {
    assert Follows(b.versions[|a.versions| - 1], b.versions[|b.versions| - 1]);
    if OwnerID(Last(a)) != "" { BrandStable(Last(a), Last(b)); }
  }

  /** Nothing the controller made was added or altered by others. */
  lemma OthersHarmless(r: Record, a: State, b: State)
    requires Inv(r, a.res) && forall k <- b.res :: b.res[k].creator == ClusterController ==>
      k in a.res && b.res[k].labels == a.res[k].labels && a.res[k].creator == ClusterController
    ensures Inv(r, b.res)
  {
    assert forall k <- b.res :: b.res[k].creator == ClusterController ==> Stamped(BrandOf(Last(r)), k, a.res[k]);
    assert AnyMade(b.res) ==> AnyMade(a.res);
  }

  /** Anyone else may create, delete or change what they please in the cloud. */
  method OthersInTheCloud(cloud: Cloud, ghost r: Record)
    requires cloud.Valid() && Inv(r, cloud.s.res)
    modifies cloud
    ensures cloud.Valid() && Inv(r, cloud.s.res)
  {
    ghost var s0 := cloud.s;
    var deed: nat := *;
    var k: Key, made: Resource := *, *;
    if deed == 0 {
      cloud.Advance();
    } else if deed == 1 && KindOf(made.spec) == k.kind && made.creator != ClusterController {
      if k.kind == VM {
        var _ := cloud.Launch(k, made);
      } else {
        var _ := cloud.Create(k, made);
      }
    } else if deed == 2 {
      var _ := cloud.Delete(k);
    } else if KindOf(made.spec) == k.kind {
      var _ := cloud.Patch(k, made.spec);
    }
    OthersHarmless(r, s0, cloud.s);
  }

  /** When a move is safe: the object is alive, and its prefix is recorded or
      nothing was made yet. */
  predicate Movable(r: Record, res: map<Key, Resource>)
    requires r.versions != [] && Last(r).body.Cluster?
  {
    && !r.gone && !Last(r).meta.deleting
    && (Lookup(Last(r).meta.annotations, RESOURCE_PREFIX) != "" || forall k <- res :: res[k].creator != ClusterController)
  }

  lemma MoveIsSafe(r: Record, res: map<Key, Resource>, uid: string)
    requires Inv(r, res) && Movable(r, res)
    ensures var there := Record([Moved(Last(r), uid)], 0, false);
      && (Sound(there) ==> Inv(there, res))
      && OwnerID(Last(there)) == OwnerID(Last(r))
      && SteadyBrand(Moment(r, res), Moment(there, res))
  {}

  /** Any number of steps of any kind, from a cluster object for which nothing has
      been made.  Every moment is safe: nothing is made that is not marked with the
      persisted ownership ID, while anything made remains the object remains with
      its finalizer, and an object that is gone leaves nothing behind. */
  method Live(first: Object, cloud: Cloud, steps: nat) returns (ghost life: seq<Moment>)
    requires cloud.Valid() && first.body.Cluster? && !first.meta.deleting && !AnyMade(cloud.s.res)
    modifies cloud
    ensures Lived(life) && |life| == steps + 1
    ensures Told(life) && EndpointChanges(Specs(Story(life))) <= 1
    ensures forall m <- life :: m.r.gone ==> forall k <- m.res :: m.res[k].creator != ClusterController
  {
    var store := new Store(first);
    life := [Moment(store.r, cloud.s.res)];
    Begun(life[0]);
    for step := 0 to steps
      invariant cloud.Valid() && fresh(store) && Lived(life) && Told(life) && |life| == step + 1
      invariant life[step] == Moment(store.r, cloud.s.res)
    {
      ghost var now := life[step];
      assert Safe(now);
      store := Step(store, cloud);
      LiveOn(life, Moment(store.r, cloud.s.res));
      TellOn(life, Moment(store.r, cloud.s.res));
      life := life + [Moment(store.r, cloud.s.res)];
    }
    EndpointSetOnce(life);
    forall m | m in life && m.r.gone ensures forall k <- m.res :: m.res[k].creator != ClusterController {
      assert Safe(m);
      NoOrphans(m.r, m.res);
    }
  }

  method Step(store: Store, cloud: Cloud) returns (there: Store)
    requires cloud.Valid() && Inv(store.r, cloud.s.res)
    modifies cloud, store
    ensures cloud.Valid() && Inv(there.r, cloud.s.res) && (there == store || fresh(there))
    ensures TextSetOnce(OwnerID(Last(old(store.r))), OwnerID(Last(there.r)))
    ensures SteadyBrand(Moment(old(store.r), old(cloud.s).res), Moment(there.r, cloud.s.res)) && Continues(old(store.r), there.r)
  {
    ghost var r0, res0 := store.r, cloud.s.res;
    var choice: nat := *;
    there := store;
    if choice == 0 {
      var reconciler := new ClusterReconciler(cloud, store);
      var paused, readable, credentials := *, *, *;
      var _, _ := reconciler.Reconcile(if readable then OwnerFound(paused) else OwnerUnreadable, credentials);
      Continued(r0, store.r, res0, cloud.s.res);
    } else if choice == 1 {
      store.Drift();
      InvElapsed(r0, store.r, res0);
      Continued(r0, store.r, res0, cloud.s.res);
    } else if choice == 2 && Movable(store.r, cloud.s.res) {
      var uid: string := *;
      MoveIsSafe(store.r, cloud.s.res, uid);
      there := new Store(Moved(Last(store.r), uid));
    } else {
      OthersInTheCloud(cloud, store.r);
      Continued(r0, store.r, res0, cloud.s.res);
    }
  }
}
