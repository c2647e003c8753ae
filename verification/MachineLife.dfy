/** Whole lives of a machine within one management cluster: any interleaving of
    reconciles, other writers and other programs in the cloud. */
module MachineLife {
  import opened Prelude
  import opened CloudApi
  import opened Api
  import opened ClusterWebhook
  import opened Kube
  import opened MachineProvisioning
  import opened MachineTeardown
  import opened MachineController

  /** The stored machine, the cloud, and every VM whose creation was asked for so far. */
  datatype Moment = Moment(r: Record, s: State, births: seq<Birth>)

  ghost predicate Safe(m: Moment) {
    Inv(m.r, m.s)
  }

  /** From one moment to a later one zone and owner are only ever set. */
  ghost predicate Settled(a: Moment, b: Moment) {
    Safe(a) && Safe(b) ==>
      TextSetOnce(ZoneOf(Last(a.r)), ZoneOf(Last(b.r))) && TextSetOnce(OwnerID(Last(a.r)), OwnerID(Last(b.r)))
  }

  /** Every VM and disk the controller made, at any moment of a life, is in one and
      the same zone. */
  ghost predicate OneZone(life: seq<Moment>, zone: string) {
    forall m <- life, k <- m.s.res :: m.s.res[k].creator == MachineController && k.kind in {VM, Disk} ==> In(m.s.res[k].spec, zone)
  }

  predicate In(s: Spec, zone: string) {
    (s.VMSpec? || s.DiskSpec?) && s.zone == zone
  }

  /** From one moment to the next the controller asked for a VM at most once, as some
      stored version wants it and not before all that VM depends on was there. */
  ghost predicate BornGated(a: Moment, b: Moment) {
    && a.births <= b.births
    && forall i | |a.births| <= i < |b.births| :: b.births[i].resource.creator == MachineController ==> AskedFor(a.s, b.births[i], b.r.versions)
  }

  ghost predicate AskedFor(s0: State, birth: Birth, versions: seq<Object>) {
    exists v <- versions :: v.body.Machine? && GatedBirth(s0, birth, v)
  }

  ghost predicate NoHaste(life: seq<Moment>) {
    forall i {:trigger life[i]} | 0 <= i < |life| - 1 :: BornGated(life[i], life[i + 1])
  }

  lemma HasteNever(life: seq<Moment>, next: Moment)
    requires life != [] && NoHaste(life) && BornGated(life[|life| - 1], next)
    ensures NoHaste(life + [next])
  {
    var longer := life + [next];
    forall i | 0 <= i < |longer| - 1 ensures BornGated(longer[i], longer[i + 1]) {
      if i < |life| - 1 { assert longer[i] == life[i] && longer[i + 1] == life[i + 1]; }
    }
  }

  lemma GatedMoment(a: Moment, b: Moment, v: Object)
    requires v in b.r.versions && v.body.Machine? && Gated(a.births, b.births, a.s, v)
    ensures BornGated(a, b)
  {
    if |b.births| == |a.births| + 1 { assert b.births[..|a.births|] == a.births; }
  }

  ghost function ZoneAt(m: Moment): string {
    if m.r.versions != [] && Last(m.r).body.Machine? then ZoneOf(Last(m.r)) else ""
  }

  ghost predicate Lived(life: seq<Moment>) {
    && life != [] && (forall m <- life :: Safe(m))
    && forall m <- life :: Settled(m, life[|life| - 1])
  }

  lemma LiveOn(life: seq<Moment>, next: Moment)
    requires Lived(life) && Safe(next) && Settled(life[|life| - 1], next)
    ensures Lived(life + [next])
  {
    var last := life[|life| - 1];
    forall m | m in life ensures Settled(m, next) {
      assert Safe(m) && Safe(last) && Settled(m, last);
    }
  }

  /** The zone at the end of a life is the zone of everything ever made in it. */
  lemma EverythingInOneZone(life: seq<Moment>)
    requires Lived(life)
    ensures OneZone(life, ZoneAt(life[|life| - 1]))
  {
    var last := life[|life| - 1];
    forall m, k | m in life && k in m.s.res && m.s.res[k].creator == MachineController && k.kind in {VM, Disk}
      ensures In(m.s.res[k].spec, ZoneAt(last))
    {
      assert Safe(m) && Safe(last) && Settled(m, last);
      ZoneOfMade(m.r, m.s, k);
    }
  }

  lemma ZoneOfMade(r: Record, s: State, k: Key)
    requires Inv(r, s) && k in s.res && s.res[k].creator == MachineController && k.kind in {VM, Disk}
    ensures In(s.res[k].spec, ZoneOf(Last(r))) && ZoneOf(Last(r)) != ""
  {
    assert Stamped(Last(r), k, s.res[k]);
  }

  /** Others may create, delete and change what they please, except that nobody
      moves a VM or a disk between zones. */
  method OthersInTheCloud(cloud: Cloud, ghost r: Record)
    requires cloud.Valid() && Inv(r, cloud.s)
    modifies cloud
    ensures cloud.Valid() && Inv(r, cloud.s)
    ensures old(cloud.births) <= cloud.births
    ensures forall i | |old(cloud.births)| <= i < |cloud.births| :: cloud.births[i].resource.creator != MachineController
  {
    ghost var s0 := cloud.s;
    var deed: nat := *;
    var k: Key, made: Resource := *, *;
    if deed == 0 {
      cloud.Advance();
    } else if deed == 1 && KindOf(made.spec) == k.kind && made.creator != MachineController {
      if k.kind == VM {
        var _ := cloud.Launch(k, made);
      } else {
        var _ := cloud.Create(k, made);
      }
    } else if deed == 2 {
      var _ := cloud.Delete(k);
    } else if KindOf(made.spec) == k.kind && k.kind !in {VM, Disk} {
      var _ := cloud.Patch(k, made.spec);
    }
    OthersHarmless(r, s0, cloud.s);
  }

  lemma OthersHarmless(r: Record, a: State, b: State)
    requires Inv(r, a)
    requires forall k <- b.res :: b.res[k].creator == MachineController ==>
      k in a.res && b.res[k].labels == a.res[k].labels && a.res[k].creator == MachineController
      && (k.kind in {VM, Disk} ==> b.res[k].spec == a.res[k].spec) && (k in a.dying ==> k in b.dying)
    ensures Inv(r, b)
  {
    assert forall k <- b.res :: b.res[k].creator == MachineController ==> Stamped(Last(r), k, a.res[k]);
    assert Staying(b) ==> Staying(a);
  }

  /** Any number of steps of any kind, from a machine for which nothing has been
      made: nothing is made before owner and finalizer are written down, everything
      is made in the one zone, and a machine that is gone leaves behind only what
      is already being deleted. */
  method Live(first: Object, cloud: Cloud, steps: nat) returns (ghost life: seq<Moment>)
    requires cloud.Valid() && first.body.Machine? && !first.meta.deleting
    requires forall k <- cloud.s.res :: cloud.s.res[k].creator != MachineController
    modifies cloud
    ensures Lived(life) && |life| == steps + 1
    ensures OneZone(life, ZoneAt(life[steps])) && NoHaste(life)
    ensures forall m <- life :: m.r.gone ==> forall k <- m.s.res :: m.s.res[k].creator == MachineController ==> k in m.s.dying
  {
    var store := new Store(first);
    assert !Staying(cloud.s);
    life := [Moment(store.r, cloud.s, cloud.births)];
    for step := 0 to steps
      invariant cloud.Valid() && fresh(store) && Lived(life) && NoHaste(life) && |life| == step + 1
      invariant life[step] == Moment(store.r, cloud.s, cloud.births)
    {
      ghost var now := life[step];
      assert Safe(now);
      Step(store, cloud);
      LiveOn(life, Moment(store.r, cloud.s, cloud.births));
      HasteNever(life, Moment(store.r, cloud.s, cloud.births));
      life := life + [Moment(store.r, cloud.s, cloud.births)];
    }
    EverythingInOneZone(life);
    forall m | m in life && m.r.gone ensures forall k <- m.s.res :: m.s.res[k].creator == MachineController ==> k in m.s.dying {
      assert Safe(m);
      NoOrphans(m.r, m.s);
    }
  }

  method Step(store: Store, cloud: Cloud)
    requires cloud.Valid() && Inv(store.r, cloud.s)
    modifies cloud, store
    ensures cloud.Valid() && Inv(store.r, cloud.s)
    ensures Settled(Moment(old(store.r), old(cloud.s), old(cloud.births)), Moment(store.r, cloud.s, cloud.births))
    ensures BornGated(Moment(old(store.r), old(cloud.s), old(cloud.births)), Moment(store.r, cloud.s, cloud.births))
  {
    ghost var r0, s0, b0 := store.r, cloud.s, cloud.births;
    var choice: nat := *;
    var world: World := *;
    if choice == 0 && WellTyped(world) {
      var reconciler := new MachineReconciler(cloud, store);
      ghost var v;
      var result;
      result, v := reconciler.Reconcile(world);
      GatedMoment(Moment(r0, s0, b0), Moment(store.r, cloud.s, cloud.births), v);
    } else if choice == 1 {
      store.Drift();
      InvElapsed(r0, store.r, s0);
    } else {
      OthersInTheCloud(cloud, store.r);
    }
    assert Follows(store.r.versions[|r0.versions| - 1], store.r.versions[|store.r.versions| - 1]);
  }
}
