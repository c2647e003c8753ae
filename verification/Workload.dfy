/** Removal of what the CCM and CSI drivers created from inside the workload
    cluster (internal/cloud/workload.go): several passes, each issuing every
    delete it can and leaving referenced resources for the next one. */
module Workload {
  import opened Prelude
  import opened CloudApi
  import opened OwnershipLabels
  import opened Scripts

  /** Deleted on every pass, referrers first; disks only on request. */
  const LB_STEPS: seq<Kind> := [LB, Route, Service, Pool, IP]

  predicate Owned(res: map<Key, Resource>, k: Key, id: string) {
    k in res && Selects(DriverSelector(id), res[k].labels)
  }

  /** Owned resources of the kinds cleanup does not retain. */
  function Targets(res: map<Key, Resource>, id: string, deleteDisks: bool): set<Key> {
    set k | k in res && Owned(res, k, id) &&
      (k.kind in LB_STEPS || k.kind == Attachment || (deleteDisks && k.kind == Disk))
  }

  function StackTargets(res: map<Key, Resource>, id: string): set<Key> {
    set k | k in res && Owned(res, k, id) && k.kind in LB_STEPS
  }

  /** What the guard at the head of a pass looks for. */
  predicate GuardSees(res: map<Key, Resource>, id: string) {
    exists k <- res :: k.kind == VM && Selects(OwnerSelector(CLUSTER_ID, id), res[k].labels)
  }

  /** Free to be deleted in this pass: unreferenced, and for a disk, not held
      back by an owned attachment. */
  predicate Deletable(res: map<Key, Resource>, k: Key, id: string) {
    !Referenced(res, k) && (k.kind == Disk ==> forall a <- res :: a.kind == Attachment ==> !Owned(res, a, id))
  }

  /** Targets not yet accepted for deletion: what is left to do. */
  function Unaccepted(s: State, id: string, deleteDisks: bool): set<Key> {
    Targets(s.res, id, deleteDisks) - s.dying
  }

  /** While targets remain, some target is deletable right now. */
  lemma SomeDeletable(res: map<Key, Resource>, id: string, dd: bool) returns (free: Key)
    requires Typed(res) && Isolated(res, Targets(res, id, dd)) && Targets(res, id, dd) != {}
    ensures free in Targets(res, id, dd) && Deletable(res, free, id)
  {
    if a :| a in res && a.kind == Attachment && Owned(res, a, id) {
      free := a;
      if r :| r in res && a in Refs(res[r].spec) { RefsClimb(res[r].spec, a); }
    } else {
      var k :| k in Targets(res, id, dd);
      free := FreeTarget(res, Targets(res, id, dd), k);
    }
  }

  /** A pass that accepts every deletable target leaves strictly less to do. */
  lemma PassProgress(a: State, b: State, id: string, dd: bool)
    requires Typed(a.res) && Isolated(a.res, Targets(a.res, id, dd)) && a.dying == {}
    requires Shed(a, b, Targets(a.res, id, dd)) && Targets(a.res, id, dd) != {}
    requires forall k <- Targets(a.res, id, dd) :: Deletable(a.res, k, id) && k in b.res ==> k in b.dying
    ensures |Unaccepted(b, id, dd)| < |Unaccepted(a, id, dd)|
  {
    var free := SomeDeletable(a.res, id, dd);
    assert Unaccepted(b, id, dd) <= Unaccepted(a, id, dd) - {free};
    SubsetSize(Unaccepted(b, id, dd), Unaccepted(a, id, dd) - {free});
  }

  /** One undisturbed pass where accepted deletes act at once. */
  function PassResult(res: map<Key, Resource>, id: string, dd: bool): map<Key, Resource> {
    res - (set k | k in Targets(res, id, dd) && (k.kind == Disk ==> forall a <- res :: a.kind == Attachment ==> !Owned(res, a, id)))
  }

  /** Two passes empty everything; one does when disks are retained. */
  lemma TwoPassesSuffice(res: map<Key, Resource>, id: string, dd: bool)
    ensures Targets(PassResult(PassResult(res, id, dd), id, dd), id, dd) == {}
    ensures !dd ==> Targets(PassResult(res, id, dd), id, dd) == {}
  {
    var once := PassResult(res, id, dd);
    forall k | k in Targets(once, id, dd) ensures k.kind == Disk && dd {
      assert k in Targets(res, id, dd);
    }
    forall a | a in once && a.kind == Attachment ensures !Owned(once, a, id) {
      assert Owned(res, a, id) ==> a in Targets(res, id, dd);
    }
    var twice := PassResult(once, id, dd);
    assert forall k <- twice :: k !in Targets(once, id, dd);
    assert forall k <- twice :: Owned(twice, k, id) ==> Owned(once, k, id);
  }

  /** Calls of one step: list the kind, delete targets of it. */
  ghost function StepOf(targets: set<Key>, kind: Kind): Call -> bool {
    (c: Call) => && (c.op.DeleteOp? ==> c.op.key in targets && c.op.key.kind == kind)
                 && (c.op.ListOp? ==> c.op.kind == kind)
  }

  /** Only targets are deleted, and no disk among them. */
  ghost function SparesDisks(targets: set<Key>): Call -> bool {
    (c: Call) => c.op.DeleteOp? ==> c.op.key in targets && c.op.key.kind != Disk
  }

  /** Only targets are deleted, and no VM or attachment was listed. */
  ghost function NothingHolds(targets: set<Key>): Call -> bool {
    (c: Call) => && (c.op.DeleteOp? ==> c.op.key in targets)
                 && (c.op.ListOp? && c.op.kind in {VM, Attachment} ==> c.op.names == [])
  }

  /** No owned resource of the first `n` kinds is left. */
  ghost predicate NoneLeft(s0: State, s: State, id: string, n: nat)
    requires n <= |LB_STEPS|
  {
    forall k <- s.res :: k.kind in LB_STEPS[..n] ==> !Owned(s0.res, k, id)
  }

  /** Of the first `n` kinds, whatever nothing referred to is gone or going. */
  ghost predicate FreeOnesGone(s0: State, start: State, s: State, id: string, n: nat)
    requires n <= |LB_STEPS|
  {
    forall k <- s.res :: k.kind in LB_STEPS[..n] && Owned(s0.res, k, id) && !Referenced(start.res, k) ==> k in s.dying
  }

  lemma FreeOnesStep(s0: State, start: State, a: State, b: State, id: string, targets: set<Key>, i: nat)
    requires i < |LB_STEPS| && FreeOnesGone(s0, start, a, id, i)
    requires Shed(s0, start, targets) && Shed(s0, a, targets) && Shrunk(start, a) && Shrunk(a, b)
    requires forall k <- b.res :: k.kind == LB_STEPS[i] && Owned(s0.res, k, id) && !Referenced(a.res, k) ==> k in b.dying
    ensures FreeOnesGone(s0, start, b, id, i + 1)
  {
    Unreferenced(start.res, a.res);
  }

  lemma NoneLeftStep(s0: State, a: State, b: State, id: string, i: nat)
    requires i < |LB_STEPS| && NoneLeft(s0, a, id, i) && Shrunk(a, b)
    requires forall k <- b.res :: k.kind == LB_STEPS[i] ==> !Owned(s0.res, k, id)
    ensures NoneLeft(s0, b, id, i + 1)
  {}

  /** With the kinds before it gone, an owned resource has no referrer left. */
  lemma StackFree(s0: State, a: State, id: string, targets: set<Key>, i: nat, k: Key)
    requires i < |LB_STEPS| && targets == StackTargets(s0.res, id) && Typed(s0.res) && Isolated(s0.res, targets)
    requires Shed(s0, a, targets) && NoneLeft(s0, a, id, i) && k.kind == LB_STEPS[i] && Owned(s0.res, k, id)
    ensures !Referenced(a.res, k)
  {
    assert k in targets;
    assert LB_STEPS[..i] == [LB, Route, Service, Pool][..i];
    forall r <- a.res ensures k !in Refs(a.res[r].spec) {
      RefsClimb(s0.res[r].spec, k);
      assert k in Refs(s0.res[r].spec) ==> r in targets;
    }
  }

  /** How far the stacks have got in a pass that began in `start`. */
  ghost predicate StacksSoFar(s0: State, start: State, s: State, id: string, targets: set<Key>, n: nat, found: bool, exact: bool)
    requires n <= |LB_STEPS|
  {
    && Shed(s0, start, targets) && Shed(s0, s, targets) && Shrunk(start, s)
    && (found ==> targets != {})
    && (!found ==> Shed(start, s, {}) && NoneLeft(s0, s, id, n))
    && FreeOnesGone(s0, start, s, id, n)
    && (exact ==> NoneLeft(s0, s, id, n))
  }

  lemma NextStack(s0: State, start: State, a: State, b: State, id: string, targets: set<Key>, i: nat, found: bool, more: bool, exact: bool, still: bool)
    requires i < |LB_STEPS| && StacksSoFar(s0, start, a, id, targets, i, found, exact) && Shed(s0, b, targets) && Shrunk(a, b)
    requires more ==> targets != {}
    requires !more ==> Shed(a, b, {}) && forall k <- b.res :: k.kind == LB_STEPS[i] ==> !Owned(s0.res, k, id)
    requires forall k <- b.res :: k.kind == LB_STEPS[i] && Owned(s0.res, k, id) && !Referenced(a.res, k) ==> k in b.dying
    requires still ==> exact && b.dying == {} && targets == StackTargets(s0.res, id) && Typed(s0.res) && Isolated(s0.res, targets)
    ensures StacksSoFar(s0, start, b, id, targets, i + 1, found || more, still)
  {
    ShrunkTrans(start, a, b);
    FreeOnesStep(s0, start, a, b, id, targets, i);
    if still {
      forall k <- b.res | k.kind == LB_STEPS[i] ensures !Owned(s0.res, k, id) {
        if Owned(s0.res, k, id) { StackFree(s0, a, id, targets, i, k); }
      }
      NoneLeftStep(s0, a, b, id, i);
    }
    if !more && !found {
      ShedTrans(start, a, b, {}, {});
      NoneLeftStep(s0, a, b, id, i);
    }
  }

  /** Only targets were deleted, no disk among them, and no VM or attachment listed. */
  ghost predicate StackCalls(a: seq<Call>, b: seq<Call>, targets: set<Key>) {
    AllNew(a, b, SparesDisks(targets)) && AllNew(a, b, NothingHolds(targets))
  }

  lemma StackStep(a: seq<Call>, b: seq<Call>, c: seq<Call>, targets: set<Key>, kind: Kind)
    requires StackCalls(a, b, targets) && AllNew(b, c, StepOf(targets, kind)) && kind in LB_STEPS
    ensures StackCalls(a, c, targets)
  {
    AllNewWeaken(b, c, StepOf(targets, kind), SparesDisks(targets));
    AllNewWeaken(b, c, StepOf(targets, kind), NothingHolds(targets));
    AllNewTrans(a, b, c, SparesDisks(targets));
    AllNewTrans(a, b, c, NothingHolds(targets));
  }

  lemma Widen(a: seq<Call>, b: seq<Call>, targets: set<Key>, all: set<Key>)
    requires targets <= all
    ensures AllNew(a, b, SparesDisks(targets)) ==> AllNew(a, b, SparesDisks(all))
    ensures AllNew(a, b, NothingHolds(targets)) ==> AllNew(a, b, NothingHolds(all))
  {}

  ghost predicate NoAttachments(s0: State, s: State, id: string) {
    forall k <- s.res :: k.kind == Attachment ==> !Owned(s0.res, k, id)
  }

  ghost predicate AttachmentsGoing(s0: State, s: State, id: string) {
    forall k <- s.res :: k.kind == Attachment && Owned(s0.res, k, id) ==> k in s.dying
  }

  lemma NothingOwned(s0: State, s: State, id: string, dd: bool)
    requires s.res.Keys <= s0.res.Keys && forall k <- s.res :: s.res[k] == s0.res[k]
    requires NoneLeft(s0, s, id, |LB_STEPS|) && NoAttachments(s0, s, id)
    requires dd ==> forall k <- s.res :: k.kind == Disk ==> !Owned(s0.res, k, id)
    ensures Targets(s.res, id, dd) == {}
  {
    forall k <- s.res | Owned(s.res, k, id) ensures k !in Targets(s.res, id, dd) {
      assert Owned(s0.res, k, id) && LB_STEPS[..|LB_STEPS|] == LB_STEPS;
    }
  }

  lemma NeverAttached(s0: State, s2: State, s3: State, id: string)
    requires s0.dying == {} && Shed(s0, s2, StackTargets(s0.res, id)) && s2.dying == {} && Shed(s2, s3, {})
    requires NoAttachments(s0, s3, id)
    ensures NoAttachments(s0, s0, id)
  {}

  lemma NoAttachmentReferrers(res: map<Key, Resource>)
    requires Typed(res)
    ensures forall k: Key :: k.kind == Attachment ==> !Referenced(res, k)
  {
    forall k: Key | k.kind == Attachment ensures !Referenced(res, k) {
      if r :| r in res && k in Refs(res[r].spec) { RefsClimb(res[r].spec, k); }
    }
  }

  lemma StagesCompose(s0: State, start: State, s2: State, s3: State, id: string)
    requires Shrunk(s2, s3)
    ensures FreeOnesGone(s0, start, s2, id, |LB_STEPS|) ==> FreeOnesGone(s0, start, s3, id, |LB_STEPS|)
    ensures NoneLeft(s0, s2, id, |LB_STEPS|) ==> NoneLeft(s0, s3, id, |LB_STEPS|)
  {}

  /** Every target that could go at the start of the pass is gone or going. */
  ghost predicate Accepted(a: State, b: State, id: string, deleteDisks: bool) {
    forall k <- Targets(a.res, id, deleteDisks) :: Deletable(a.res, k, id) && k in b.res ==> k in b.dying
  }

  lemma FirstStageAccepted(s0: State, s1: State, s2: State, id: string, dd: bool)
    requires Shed(s0, s1, {}) && FreeOnesGone(s0, s1, s2, id, |LB_STEPS|) && AttachmentsGoing(s0, s2, id)
    requires !dd || exists k <- s0.res :: k.kind == Attachment && Owned(s0.res, k, id)
    ensures Accepted(s0, s2, id, dd)
  {
    Unreferenced(s0.res, s1.res);
  }

  lemma LastStageAccepted(s0: State, s1: State, s2: State, s3: State, id: string)
    requires Shed(s0, s1, {}) && Shed(s0, s2, Targets(s0.res, id, true)) && Shrunk(s2, s3)
    requires FreeOnesGone(s0, s1, s2, id, |LB_STEPS|) && AttachmentsGoing(s0, s2, id)
    requires forall k <- s3.res :: k.kind == Disk && Owned(s0.res, k, id) && !Referenced(s2.res, k) ==> k in s3.dying
    ensures Accepted(s0, s3, id, true)
  {
    Unreferenced(s0.res, s1.res);
    Unreferenced(s0.res, s2.res);
    StagesCompose(s0, s1, s2, s3, id);
  }

  lemma StacksIsolated(res: map<Key, Resource>, all: set<Key>, stacks: set<Key>)
    requires Typed(res) && Isolated(res, all) && stacks <= all && all <= res.Keys
    requires forall k <- all :: k.kind in LB_STEPS || k.kind in {Attachment, Disk}
    requires forall k <- all :: k.kind in LB_STEPS ==> k in stacks
    requires forall k <- stacks :: k.kind in LB_STEPS
    ensures Isolated(res, stacks)
  {
    forall r <- res, k <- stacks | k in Refs(res[r].spec) ensures r in stacks {
      RefsClimb(res[r].spec, k);
    }
  }

  /** The disks of a cluster whose attachments are gone are free. */
  lemma DisksFree(res: map<Key, Resource>, left: map<Key, Resource>, all: set<Key>, k: Key)
    requires Typed(res) && Isolated(res, all) && left.Keys <= res.Keys && forall x <- left :: left[x] == res[x]
    requires k in all && k.kind == Disk && forall x <- all :: x.kind != VM && (x.kind == Attachment ==> x !in left)
    ensures !Referenced(left, k)
  {
    if r :| r in left && k in Refs(left[r].spec) {
      RefsClimb(res[r].spec, k);
    }
  }

  lemma FirstStageExact(s0: State, s2: State, id: string, dd: bool)
    requires s0.dying == {} && s2.dying == {} && Shed(s0, s2, Targets(s0.res, id, false))
    requires NoneLeft(s0, s2, id, |LB_STEPS|) && AttachmentsGoing(s0, s2, id)
    requires !dd || exists k <- s0.res :: k.kind == Attachment && Owned(s0.res, k, id)
    ensures s2.res == PassResult(s0.res, id, dd)
  {
    NothingStays(s0, s2, id, Targets(s0.res, id, false));
    ShedExactly(s0, s2, Targets(s0.res, id, false));
    PassResultIs(s0.res, id, dd);
  }

  /** A pass takes everything but the disks, and the disks too if none is attached. */
  lemma PassResultIs(res: map<Key, Resource>, id: string, dd: bool)
    ensures !dd || (exists k <- res :: k.kind == Attachment && Owned(res, k, id)) ==> PassResult(res, id, dd) == res - Targets(res, id, false)
    ensures (forall k <- res :: k.kind == Attachment ==> !Owned(res, k, id)) ==> PassResult(res, id, true) == res - Targets(res, id, true)
  {}

  lemma NothingStays(s0: State, s: State, id: string, targets: set<Key>)
    requires NoneLeft(s0, s, id, |LB_STEPS|) && AttachmentsGoing(s0, s, id) && s.dying == {}
    requires forall k <- targets :: Owned(s0.res, k, id) && (k.kind in LB_STEPS || k.kind == Attachment)
    ensures targets !! s.res.Keys
  {
    assert LB_STEPS[..|LB_STEPS|] == LB_STEPS;
  }

  /** What a pass comes to that stops short of the disks. */
  lemma FirstStage(s0: State, s1: State, s2: State, id: string, dd: bool, clean: bool, exact: bool)
    requires Shed(s0, s1, {}) && Shed(s0, s2, Targets(s0.res, id, false))
    requires FreeOnesGone(s0, s1, s2, id, |LB_STEPS|) && AttachmentsGoing(s0, s2, id)
    requires !dd || exists k <- s0.res :: k.kind == Attachment && Owned(s0.res, k, id)
    requires clean ==> !dd && NoneLeft(s0, s2, id, |LB_STEPS|) && NoAttachments(s0, s2, id)
    requires exact ==> s0.dying == {} && s2.dying == {} && NoneLeft(s0, s2, id, |LB_STEPS|)
    ensures Accepted(s0, s2, id, dd) && (clean ==> Targets(s2.res, id, dd) == {})
    ensures exact ==> s2.res == PassResult(s0.res, id, dd)
  {
    FirstStageAccepted(s0, s1, s2, id, dd);
    if exact { FirstStageExact(s0, s2, id, dd); }
    if clean { NothingOwned(s0, s2, id, dd); }
  }

  lemma LastStageExact(s0: State, s2: State, s3: State, id: string)
    requires s0.dying == {} && s3.dying == {} && Typed(s0.res) && Isolated(s0.res, Targets(s0.res, id, true))
    requires Shed(s0, s2, Targets(s0.res, id, true)) && Shed(s0, s3, Targets(s0.res, id, true)) && Shrunk(s2, s3)
    requires NoneLeft(s0, s2, id, |LB_STEPS|) && NoAttachments(s0, s0, id) && s2.dying == {}
    requires forall k <- s3.res :: k.kind == Disk && Owned(s0.res, k, id) && !Referenced(s2.res, k) ==> k in s3.dying
    ensures s3.res == PassResult(s0.res, id, true)
  {
    var targets := Targets(s0.res, id, true);
    NothingStays(s0, s2, id, Targets(s0.res, id, false));
    forall k | k in targets ensures k !in s3.res {
      if k.kind == Disk { DisksFree(s0.res, s2.res, targets, k); } else { assert k in Targets(s0.res, id, false); }
    }
    ShedExactly(s0, s3, targets);
    PassResultIs(s0.res, id, true);
  }

  /** What holds of a cloud still holds when less of it is left. */
  lemma Narrower(a: State, b: State, id: string, dd: bool)
    requires b.res.Keys <= a.res.Keys && forall k <- b.res :: b.res[k] == a.res[k]
    requires !GuardSees(a.res, id) && Isolated(a.res, Targets(a.res, id, dd))
    ensures !GuardSees(b.res, id) && Isolated(b.res, Targets(b.res, id, dd))
    ensures Targets(b.res, id, dd) <= Targets(a.res, id, dd)
  {
    forall r <- b.res, k <- Targets(b.res, id, dd) | k in Refs(b.res[r].spec) ensures r in Targets(b.res, id, dd) {
      assert k in Targets(a.res, id, dd) && r in Targets(a.res, id, dd);
    }
  }

  lemma SettleKeepsLive(p: State, a: State, id: string, dd: bool)
    requires a.dying == {} && a.res == p.res - p.dying
    ensures Unaccepted(a, id, dd) == Unaccepted(p, id, dd)
    ensures p.dying == {} ==> a.res == p.res
  {
    assert forall k <- a.res :: Owned(a.res, k, id) == Owned(p.res, k, id);
  }

  lemma Settled(s0: State, p: State, a: State, id: string, dd: bool)
    requires !GuardSees(s0.res, id) && Isolated(s0.res, Targets(s0.res, id, dd)) && Typed(s0.res)
    requires Shed(s0, p, Targets(s0.res, id, dd)) && Shed(p, a, {}) && a.dying == {} && a.res == p.res - p.dying
    ensures Shed(s0, a, Targets(s0.res, id, dd)) && Typed(a.res)
    ensures !GuardSees(a.res, id) && Isolated(a.res, Targets(a.res, id, dd)) && Targets(a.res, id, dd) <= Targets(s0.res, id, dd)
    ensures Unaccepted(a, id, dd) == Unaccepted(p, id, dd) && (p.dying == {} ==> a.res == p.res)
  {
    var all := Targets(s0.res, id, dd);
    ShedWiden(p, a, {}, all);
    ShedTrans(s0, p, a, all, all);
    assert all + all == all;
    Narrower(s0, a, id, dd);
    SettleKeepsLive(p, a, id, dd);
  }

  lemma Resumed(s0: State, a: State, b: State, all: set<Key>, targets: set<Key>)
    requires Shed(s0, a, all) && Shed(a, b, targets) && targets <= all
    ensures Shed(s0, b, all)
  {
    ShedWiden(a, b, targets, all);
    ShedTrans(s0, a, b, all, all);
    assert all + all == all;
  }

  /** Where an undisturbed cleanup stands after each pass. */
  ghost predicate Trajectory(res0: map<Key, Resource>, res: map<Key, Resource>, id: string, dd: bool, passes: nat, pending: bool) {
    var last := if dd then 2 else 1;
    && passes <= last + 1
    && (pending ==> passes <= last)
    && (passes == 0 ==> res == res0)
    && (passes == 1 ==> res == PassResult(res0, id, dd))
    && (passes == 2 && dd ==> res == PassResult(PassResult(res0, id, dd), id, dd))
  }

  lemma NextPass(res0: map<Key, Resource>, a: map<Key, Resource>, b: map<Key, Resource>, id: string, dd: bool, passes: nat, pending: bool)
    requires Trajectory(res0, a, id, dd, passes, true) && b == PassResult(a, id, dd)
    requires pending ==> Targets(a, id, dd) != {}
    ensures Trajectory(res0, b, id, dd, passes + 1, pending)
  {
    TwoPassesSuffice(res0, id, dd);
  }

  // ---- What a pass asks, answer by answer ----

  /** Tries the names from the `i`-th on, and stops at a failure. */
  ghost function EachScript(kind: Kind, names: seq<string>, i: nat, k: Verdict -> Script): Script
    requires i <= |names|
    decreases |names| - i, 1
  {
    if i == |names| then k(Verdict(false, false)) else Ask(AskDelete(Key(kind, names[i])), AfterOne(kind, names, i, k))
  }

  ghost function AfterOne(kind: Kind, names: seq<string>, i: nat, k: Verdict -> Script): Reply -> Script
    requires i < |names|
    decreases |names| - i, 0
  {
    (r: Reply) => if r.error == Some(Failed) then k(Verdict(true, false)) else EachScript(kind, names, i + 1, k)
  }

  lemma OneAnswered(a: seq<Call>, b: seq<Call>, kind: Kind, names: seq<string>, i: nat, error: Option<Error>, k: Verdict -> Script)
    requires i < |names| && Ran(a, b, EachScript(kind, names, 0, k), EachScript(kind, names, i, k))
    ensures Ran(a, b + [Call(DeleteOp(Key(kind, names[i])), error)], EachScript(kind, names, 0, k),
      if error == Some(Failed) then k(Verdict(true, false)) else EachScript(kind, names, i + 1, k))
  {
    RanAsk(a, b, Call(DeleteOp(Key(kind, names[i])), error), EachScript(kind, names, 0, k), EachScript(kind, names, i, k));
    assert EachScript(kind, names, i, k) == Ask(AskDelete(Key(kind, names[i])), AfterOne(kind, names, i, k));
    assert AfterOne(kind, names, i, k)(Reply(error, [])) ==
      if error == Some(Failed) then k(Verdict(true, false)) else EachScript(kind, names, i + 1, k);
  }

  ghost function OwnedScript(kind: Kind, id: string, k: Verdict -> Script): Script {
    Ask(AskList(kind, DriverSelector(id)), AfterListing(kind, k))
  }

  ghost function AfterListing(kind: Kind, k: Verdict -> Script): Reply -> Script {
    (r: Reply) => if r.error.Some? then k(Verdict(true, false))
                  else if r.names == [] then k(Verdict(false, false))
                  else EachScript(kind, r.names, 0, AfterEach(k))
  }

  ghost function AfterEach(k: Verdict -> Script): Verdict -> Script {
    (v: Verdict) => k(Verdict(v.broken, !v.broken))
  }

  /** The load-balancer kinds from the `i`-th on. */
  ghost function StacksScript(id: string, i: nat, found: bool, k: Verdict -> Script): Script
    requires i <= |LB_STEPS|
    decreases |LB_STEPS| - i, 1
  {
    if i == |LB_STEPS| then k(Verdict(false, found)) else OwnedScript(LB_STEPS[i], id, AfterStack(id, i, found, k))
  }

  ghost function AfterStack(id: string, i: nat, found: bool, k: Verdict -> Script): Verdict -> Script
    requires i < |LB_STEPS|
    decreases |LB_STEPS| - i, 0
  {
    (v: Verdict) => if v.broken then k(Verdict(true, false)) else StacksScript(id, i + 1, found || v.pending, k)
  }

  lemma StackAnswered(a: seq<Call>, b: seq<Call>, c: seq<Call>, id: string, i: nat, found: bool, v: Verdict, k: Verdict -> Script)
    requires i < |LB_STEPS| && Ran(a, b, StacksScript(id, 0, false, k), StacksScript(id, i, found, k))
    requires Ran(b, c, OwnedScript(LB_STEPS[i], id, AfterStack(id, i, found, k)), AfterStack(id, i, found, k)(v))
    ensures Ran(a, c, StacksScript(id, 0, false, k), if v.broken then k(Verdict(true, false)) else StacksScript(id, i + 1, found || v.pending, k))
  {
    RanThen(a, b, c, StacksScript(id, 0, false, k), StacksScript(id, i, found, k), AfterStack(id, i, found, k)(v));
  }

  /** One pass: the guard, the stacks, the attachments, and the disks only on
      request and when no attachment was listed. */
  ghost function CleanupScript(id: string, deleteDisks: bool, k: Verdict -> Script): Script {
    Ask(AskList(VM, OwnerSelector(CLUSTER_ID, id)), AfterGuard(id, deleteDisks, k))
  }

  ghost function AfterGuard(id: string, deleteDisks: bool, k: Verdict -> Script): Reply -> Script {
    (r: Reply) => if r.error.Some? then k(Verdict(true, false))
                  else if |r.names| > 0 then k(Verdict(false, true))
                  else StacksScript(id, 0, false, AfterStacks(id, deleteDisks, k))
  }

  ghost function AfterStacks(id: string, deleteDisks: bool, k: Verdict -> Script): Verdict -> Script {
    (v: Verdict) => if v.broken then k(Verdict(true, false))
                    else OwnedScript(Attachment, id, AfterAttachments(id, deleteDisks, v.pending, k))
  }

  ghost function AfterAttachments(id: string, deleteDisks: bool, found: bool, k: Verdict -> Script): Verdict -> Script {
    (v: Verdict) => if v.broken then k(Verdict(true, false))
                    else if v.pending || !deleteDisks then k(Verdict(false, found || v.pending))
                    else OwnedScript(Disk, id, AfterDisks(found, k))
  }

  ghost function AfterDisks(found: bool, k: Verdict -> Script): Verdict -> Script {
    (v: Verdict) => k(if v.broken then Verdict(true, false) else Verdict(false, found || v.pending))
  }

  class WorkloadResourceService {
    const cloud: Cloud

    constructor (cloud: Cloud)
      ensures this.cloud == cloud
    {
      this.cloud := cloud;
    }

    /** One delete of a pass over one kind that began in `start` with log `c0`. */
    method DeleteTarget(k: Key, ghost s0: State, ghost start: State, ghost c0: seq<Call>, ghost targets: set<Key>) returns (error: Option<Error>)
      requires cloud.Valid() && Shed(s0, cloud.s, targets) && k in targets && Shed(s0, start, targets) && Shrunk(start, cloud.s)
      requires AllNew(c0, cloud.calls, StepOf(targets, k.kind))
      modifies cloud
      ensures cloud.Valid() && cloud.faults == old(cloud.faults) + (if error == Some(Failed) then 1 else 0)
      ensures cloud.calls == old(cloud.calls) + [Call(DeleteOp(k), error)]
      ensures Shed(s0, cloud.s, targets) && Shrunk(start, cloud.s)
      ensures error != Some(Failed) ==> GoneIfFree(start, cloud.s, k)
      ensures Shrunk(old(cloud.s), cloud.s)
      ensures AllNew(c0, cloud.calls, StepOf(targets, k.kind))
    {
      ghost var before, callsBefore := cloud.s, cloud.calls;
      error := cloud.Delete(k);
      ShedWiden(before, cloud.s, {k}, targets);
      ShedTrans(s0, before, cloud.s, targets, targets);
      assert targets + targets == targets;
      ShrunkTrans(start, before, cloud.s);
      AllNewTrans(c0, callsBefore, cloud.calls, StepOf(targets, k.kind));
      UnreferencedAt(start.res, cloud.s.res, k);
    }

    method DeleteEach(kind: Kind, names: seq<string>, ghost s0: State, ghost targets: set<Key>, ghost k: Verdict -> Script)
      returns (error: Option<Error>)
      requires cloud.Valid() && Shed(s0, cloud.s, targets) && forall n <- names :: Key(kind, n) in targets
      modifies cloud
      ensures cloud.Valid() && cloud.faults >= old(cloud.faults)
      ensures Shed(s0, cloud.s, targets) && Shrunk(old(cloud.s), cloud.s)
      ensures error.None? ==> EachGone(old(cloud.s), cloud.s, kind, names)
      ensures cloud.faults == old(cloud.faults) ==> error.None?
      ensures AllNew(old(cloud.calls), cloud.calls, StepOf(targets, kind))
      ensures Ran(old(cloud.calls), cloud.calls, EachScript(kind, names, 0, k), k(Verdict(error.Some?, false)))
    {
      ghost var start, f0, c0 := cloud.s, cloud.faults, cloud.calls;
      for i := 0 to |names|
        invariant cloud.Valid() && cloud.faults == f0
        invariant Shed(s0, cloud.s, targets) && Shrunk(start, cloud.s)
        invariant EachGone(start, cloud.s, kind, names[..i])
        invariant AllNew(c0, cloud.calls, StepOf(targets, kind))
        invariant Ran(c0, cloud.calls, EachScript(kind, names, 0, k), EachScript(kind, names, i, k))
      {
        ghost var before, log := cloud.s, cloud.calls;
        error := DeleteTarget(Key(kind, names[i]), s0, start, c0, targets);
        OneAnswered(c0, log, kind, names, i, error, k);
        if error == Some(Failed) {
          return;
        }
        NextGone(start, before, cloud.s, kind, names[..i], names[i]);
        assert names[..i + 1] == names[..i] + [names[i]];
      }
      assert names[..|names|] == names;
      error := None;
    }

    /** Deletes every owned resource of one kind.  A conflict means something
        still refers to it; it is left for the next pass. */
    method DeleteOwned(kind: Kind, id: string, ghost s0: State, ghost targets: set<Key>, ghost k: Verdict -> Script)
      returns (error: Option<Error>, found: bool)
      requires cloud.Valid() && Shed(s0, cloud.s, targets)
      requires forall k <- s0.res :: k.kind == kind && Owned(s0.res, k, id) ==> k in targets
      modifies cloud
      ensures cloud.Valid() && cloud.faults >= old(cloud.faults)
      ensures Shed(s0, cloud.s, targets) && Shrunk(old(cloud.s), cloud.s)
      ensures error.Some? ==> !found
      ensures found ==> exists k <- old(cloud.s).res :: k.kind == kind && Owned(s0.res, k, id)
      ensures error.None? && !found ==>
        Shed(old(cloud.s), cloud.s, {}) && forall k <- cloud.s.res :: k.kind == kind ==> !Owned(s0.res, k, id)
      ensures error.None? ==>
        forall k <- cloud.s.res :: k.kind == kind && Owned(s0.res, k, id) && !Referenced(old(cloud.s).res, k) ==> k in cloud.s.dying
      ensures cloud.faults == old(cloud.faults) ==> error.None?
      ensures AllNew(old(cloud.calls), cloud.calls, StepOf(targets, kind))
      ensures error.None? && !found ==> AllNew(old(cloud.calls), cloud.calls, NothingHolds(targets))
      ensures Ran(old(cloud.calls), cloud.calls, OwnedScript(kind, id, k), k(Verdict(error.Some?, found)))
    {
      ghost var start, c0 := cloud.s, cloud.calls;
      found := false;
      var names;
      error, names := cloud.List(kind, DriverSelector(id));
      ghost var c1 := cloud.calls;
      RanFirst(c0, Call(ListOp(kind, DriverSelector(id), names), error), OwnedScript(kind, id, k));
      ghost var listed := cloud.s;
      ShedWiden(start, listed, {}, targets);
      ShedTrans(s0, start, listed, targets, targets);
      assert targets + targets == targets;
      if error.Some? { return; }
      if |names| == 0 {
        forall k <- cloud.s.res | k.kind == kind ensures !Owned(s0.res, k, id) { assert k == Key(kind, k.name) && k.name !in names; }
        return;
      }
      error := DeleteEach(kind, names, s0, targets, AfterEach(k));
      RanThen(c0, c1, cloud.calls, OwnedScript(kind, id, k), EachScript(kind, names, 0, AfterEach(k)), k(Verdict(error.Some?, error.None?)));
      AllNewTrans(c0, c1, cloud.calls, StepOf(targets, kind));
      ShrunkTrans(start, listed, cloud.s);
      if error.Some? { return; }
      found := true;
      Unreferenced(start.res, listed.res);
      assert names[0] in names && Key(kind, names[0]) in start.res;
      forall k <- cloud.s.res | k.kind == kind && Owned(s0.res, k, id)
        ensures k.name in names
      {
        assert k == Key(kind, k.name) && k in listed.res;
      }
    }

    /** The load-balancer kinds, in order, stopping at the first failure. */
    method DeleteStacks(id: string, ghost s0: State, ghost targets: set<Key>, ghost k: Verdict -> Script)
      returns (error: Option<Error>, found: bool)
      requires cloud.Valid() && Typed(s0.res) && Shed(s0, cloud.s, targets) && targets == StackTargets(s0.res, id)
      modifies cloud
      ensures cloud.Valid() && cloud.faults >= old(cloud.faults)
      ensures Shed(s0, cloud.s, targets) && Shrunk(old(cloud.s), cloud.s)
      ensures error.Some? ==> !found
      ensures found ==> targets != {}
      ensures error.None? && !found ==> Shed(old(cloud.s), cloud.s, {}) && NoneLeft(s0, cloud.s, id, |LB_STEPS|)
      ensures error.None? ==> FreeOnesGone(s0, old(cloud.s), cloud.s, id, |LB_STEPS|)
      ensures cloud.faults == old(cloud.faults) ==> error.None?
      ensures cloud.faults == old(cloud.faults) && cloud.instant && Isolated(s0.res, targets) ==>
        NoneLeft(s0, cloud.s, id, |LB_STEPS|)
      ensures StackCalls(old(cloud.calls), cloud.calls, targets)
      ensures Ran(old(cloud.calls), cloud.calls, StacksScript(id, 0, false, k), k(Verdict(error.Some?, found)))
    {
      ghost var start, f0, c0 := cloud.s, cloud.faults, cloud.calls;
      error, found := None, false;
      for i := 0 to |LB_STEPS|
        invariant cloud.Valid() && cloud.faults >= f0 && error.None?
        invariant StacksSoFar(s0, start, cloud.s, id, targets, i, found, cloud.faults == f0 && cloud.instant && Isolated(s0.res, targets))
        invariant StackCalls(c0, cloud.calls, targets)
        invariant Ran(c0, cloud.calls, StacksScript(id, 0, false, k), StacksScript(id, i, found, k))
      {
        ghost var before, callsBefore, exact := cloud.s, cloud.calls, cloud.faults == f0 && cloud.instant && Isolated(s0.res, targets);
        var more;
        error, more := DeleteOwned(LB_STEPS[i], id, s0, targets, AfterStack(id, i, found, k));
        StackAnswered(c0, callsBefore, cloud.calls, id, i, found, Verdict(error.Some?, more), k);
        StackStep(c0, callsBefore, cloud.calls, targets, LB_STEPS[i]);
        if error.Some? {
          found := false;
          return;
        }
        NextStack(s0, start, before, cloud.s, id, targets, i, found, more, exact, exact && cloud.faults == f0);
        found := found || more;
      }
    }

    /** One pass.  `pending` stays true until a pass finds nothing owned. */
    method Cleanup(id: string, deleteDisks: bool, ghost k: Verdict -> Script) returns (error: Option<Error>, pending: bool)
      requires cloud.Valid()
      modifies cloud
      ensures cloud.Valid() && cloud.faults >= old(cloud.faults)
      // Only owned resources go, disks only on request and never in a pass that saw one held.
      ensures Shed(old(cloud.s), cloud.s, Targets(old(cloud.s).res, id, deleteDisks))
      ensures AllNew(old(cloud.calls), cloud.calls, SparesDisks(Targets(old(cloud.s).res, id, deleteDisks)))
           || AllNew(old(cloud.calls), cloud.calls, NothingHolds(Targets(old(cloud.s).res, id, deleteDisks)))
      // What the answer means.
      ensures error.Some? ==> !pending
      ensures error.None? && !pending ==> Shed(old(cloud.s), cloud.s, {}) && Targets(cloud.s.res, id, deleteDisks) == {}
      ensures pending ==> GuardSees(old(cloud.s).res, id) || Targets(old(cloud.s).res, id, deleteDisks) != {}
      // Every target that can go is accepted.
      ensures error.None? && !GuardSees(old(cloud.s).res, id) ==>
        Accepted(old(cloud.s), cloud.s, id, deleteDisks)
      ensures cloud.faults == old(cloud.faults) ==> error.None?
      ensures cloud.instant && cloud.faults == old(cloud.faults) && !GuardSees(old(cloud.s).res, id)
              && Isolated(old(cloud.s).res, Targets(old(cloud.s).res, id, deleteDisks)) ==>
        cloud.s.res == PassResult(old(cloud.s).res, id, deleteDisks)
      // What was asked was determined by the arguments and the answers.
      ensures Ran(old(cloud.calls), cloud.calls, CleanupScript(id, deleteDisks, k), k(Verdict(error.Some?, pending)))
    {
      ghost var s0, c0 := cloud.s, cloud.calls;
      ghost var all := Targets(s0.res, id, deleteDisks);
      var vms;
      error, vms := cloud.List(VM, OwnerSelector(CLUSTER_ID, id));
      ghost var s1, c1 := cloud.s, cloud.calls;
      ghost var script := CleanupScript(id, deleteDisks, k);
      RanFirst(c0, Call(ListOp(VM, OwnerSelector(CLUSTER_ID, id), vms), error), script);
      ShedWiden(s0, s1, {}, all);
      pending := error.None? && |vms| > 0;
      if pending {
        assert vms[0] in vms && Key(VM, vms[0]) in s0.res;
      } else if error.None? {
        error, pending := DeleteUnguarded(id, deleteDisks, s0, k);
        RanThen(c0, c1, cloud.calls, script, StacksScript(id, 0, false, AfterStacks(id, deleteDisks, k)), k(Verdict(error.Some?, pending)));
        AllNewTrans(c0, c1, cloud.calls, if AllNew(c1, cloud.calls, SparesDisks(all)) then SparesDisks(all) else NothingHolds(all));
        if error.None? && !pending { ShedTrans(s0, s1, cloud.s, {}, {}); }
      }
    }

    /** The part of a pass that runs once no guarded VM was found. */
    method DeleteUnguarded(id: string, deleteDisks: bool, ghost s0: State, ghost k: Verdict -> Script)
      returns (error: Option<Error>, pending: bool)
      requires cloud.Valid() && Typed(s0.res) && Shed(s0, cloud.s, {})
      requires cloud.instant ==> s0.dying == {}
      modifies cloud
      ensures cloud.Valid() && cloud.faults >= old(cloud.faults)
      ensures Shed(s0, cloud.s, Targets(s0.res, id, deleteDisks))
      ensures AllNew(old(cloud.calls), cloud.calls, SparesDisks(Targets(s0.res, id, deleteDisks)))
           || AllNew(old(cloud.calls), cloud.calls, NothingHolds(Targets(s0.res, id, deleteDisks)))
      ensures error.Some? ==> !pending
      ensures error.None? && !pending ==> Shed(old(cloud.s), cloud.s, {}) && Targets(cloud.s.res, id, deleteDisks) == {}
      ensures pending ==> Targets(s0.res, id, deleteDisks) != {}
      ensures error.None? ==> Accepted(s0, cloud.s, id, deleteDisks)
      ensures cloud.faults == old(cloud.faults) ==> error.None?
      ensures cloud.instant && cloud.faults == old(cloud.faults) && Isolated(s0.res, Targets(s0.res, id, deleteDisks)) ==>
        cloud.s.res == PassResult(s0.res, id, deleteDisks)
      ensures Ran(old(cloud.calls), cloud.calls, StacksScript(id, 0, false, AfterStacks(id, deleteDisks, k)), k(Verdict(error.Some?, pending)))
    {
      ghost var s1, f0, c1 := cloud.s, cloud.faults, cloud.calls;
      ghost var targets, all := Targets(s0.res, id, false), Targets(s0.res, id, deleteDisks);
      if Isolated(s0.res, all) { StacksIsolated(s0.res, all, StackTargets(s0.res, id)); }
      var attached;
      error, pending, attached := ReleaseStacks(id, s0, targets, deleteDisks, k);
      ghost var s2, c2 := cloud.s, cloud.calls;
      Widen(c1, c2, targets, all);
      ShedWiden(s0, s2, targets, all);
      ghost var exact := cloud.instant && cloud.faults == f0 && Isolated(s0.res, all);
      if error.Some? {
        pending := false;
      } else if attached || !deleteDisks {
        pending := pending || attached;
        FirstStage(s0, s1, s2, id, deleteDisks, !pending, exact);
      } else {
        ghost var so := pending;
        error, pending := DropDisks(id, pending, s0, s1, all, exact, k);
        RanThen(c1, c2, cloud.calls, StacksScript(id, 0, false, AfterStacks(id, deleteDisks, k)), OwnedScript(Disk, id, AfterDisks(so, k)),
                k(Verdict(error.Some?, pending)));
        AllNewTrans(c1, c2, cloud.calls, NothingHolds(all));
      }
    }

    /** The disks, once no attachment holds them. */
    method DropDisks(id: string, so: bool, ghost s0: State, ghost s1: State, ghost all: set<Key>, ghost exact: bool, ghost k: Verdict -> Script)
      returns (error: Option<Error>, pending: bool)
      requires cloud.Valid() && Typed(s0.res) && Shed(s0, s1, {}) && all == Targets(s0.res, id, true) && Shed(s0, cloud.s, all)
      requires NoAttachments(s0, cloud.s, id) && FreeOnesGone(s0, s1, cloud.s, id, |LB_STEPS|) && AttachmentsGoing(s0, cloud.s, id)
      requires if so then all != {} else Shed(s1, cloud.s, {}) && NoneLeft(s0, cloud.s, id, |LB_STEPS|)
      requires exact ==> cloud.instant && s0.dying == {} && Isolated(s0.res, all)
      requires exact ==> NoneLeft(s0, cloud.s, id, |LB_STEPS|) && NoAttachments(s0, s0, id)
      modifies cloud
      ensures cloud.Valid() && cloud.faults >= old(cloud.faults) && Shed(s0, cloud.s, all)
      ensures error.Some? ==> !pending
      ensures error.None? && !pending ==> Shed(s1, cloud.s, {}) && Targets(cloud.s.res, id, true) == {}
      ensures pending ==> all != {}
      ensures error.None? ==> Accepted(s0, cloud.s, id, true)
      ensures cloud.faults == old(cloud.faults) ==> error.None?
      ensures exact && cloud.faults == old(cloud.faults) ==> cloud.s.res == PassResult(s0.res, id, true)
      ensures AllNew(old(cloud.calls), cloud.calls, NothingHolds(all))
      ensures Ran(old(cloud.calls), cloud.calls, OwnedScript(Disk, id, AfterDisks(so, k)), k(Verdict(error.Some?, pending)))
    {
      ghost var s2, c2 := cloud.s, cloud.calls;
      var found;
      error, found := DeleteOwned(Disk, id, s0, all, AfterDisks(so, k));
      AllNewWeaken(c2, cloud.calls, StepOf(all, Disk), NothingHolds(all));
      pending := error.None? && (so || found);
      if error.None? {
        LastStageAccepted(s0, s1, s2, cloud.s, id);
        if exact { LastStageExact(s0, s2, cloud.s, id); }
        if !pending {
          ShedTrans(s1, s2, cloud.s, {}, {});
          NothingOwned(s0, cloud.s, id, true);
        }
      }
    }

    /** Everything but the disks. */
    method ReleaseStacks(id: string, ghost s0: State, ghost targets: set<Key>, ghost deleteDisks: bool, ghost k: Verdict -> Script)
      returns (error: Option<Error>, found: bool, attached: bool)
      requires cloud.Valid() && Typed(s0.res) && Shed(s0, cloud.s, {}) && targets == Targets(s0.res, id, false)
      requires cloud.instant ==> s0.dying == {}
      modifies cloud
      ensures cloud.Valid() && cloud.faults >= old(cloud.faults)
      ensures Shed(s0, cloud.s, targets)
      ensures error.None? && (found || attached) ==> targets != {}
      ensures error.None? && attached ==> exists k <- s0.res :: k.kind == Attachment && Owned(s0.res, k, id)
      ensures error.None? && !attached ==> NoAttachments(s0, cloud.s, id)
      ensures error.None? && !found && !attached ==>
        Shed(old(cloud.s), cloud.s, {}) && NoneLeft(s0, cloud.s, id, |LB_STEPS|)
      ensures error.None? ==>
        FreeOnesGone(s0, old(cloud.s), cloud.s, id, |LB_STEPS|) && AttachmentsGoing(s0, cloud.s, id)
      ensures cloud.faults == old(cloud.faults) ==> error.None?
      ensures cloud.faults == old(cloud.faults) && cloud.instant && Isolated(s0.res, StackTargets(s0.res, id)) ==>
        NoneLeft(s0, cloud.s, id, |LB_STEPS|) && (!attached ==> NoAttachments(s0, s0, id))
      ensures AllNew(old(cloud.calls), cloud.calls, SparesDisks(targets))
      ensures error.None? && !attached ==> AllNew(old(cloud.calls), cloud.calls, NothingHolds(targets))
      ensures Ran(old(cloud.calls), cloud.calls, StacksScript(id, 0, false, AfterStacks(id, deleteDisks, k)),
        if error.Some? then k(Verdict(true, false)) else AfterAttachments(id, deleteDisks, found, k)(Verdict(false, attached)))
    {
      ghost var start, c0 := cloud.s, cloud.calls;
      ghost var stacks := StackTargets(s0.res, id);
      attached := false;
      ShedWiden(s0, start, {}, stacks);
      error, found := DeleteStacks(id, s0, stacks, AfterStacks(id, deleteDisks, k));
      ghost var s2, c2 := cloud.s, cloud.calls;
      Widen(c0, c2, stacks, targets);
      ShedWiden(s0, s2, stacks, targets);
      if error.Some? { return; }
      error, attached := DeleteOwned(Attachment, id, s0, targets, AfterAttachments(id, deleteDisks, found, k));
      RanThen(c0, c2, cloud.calls, StacksScript(id, 0, false, AfterStacks(id, deleteDisks, k)),
              OwnedScript(Attachment, id, AfterAttachments(id, deleteDisks, found, k)),
              AfterAttachments(id, deleteDisks, found, k)(Verdict(error.Some?, attached)));
      AllNewWeaken(c2, cloud.calls, StepOf(targets, Attachment), SparesDisks(targets));
      AllNewTrans(c0, c2, cloud.calls, SparesDisks(targets));
      if error.Some? { return; }
      NoAttachmentReferrers(s2.res);
      StagesCompose(s0, start, s2, cloud.s, id);
      if !attached {
        AllNewTrans(c0, c2, cloud.calls, NothingHolds(targets));
        if !found { ShedTrans(start, s2, cloud.s, {}, {}); }
        if cloud.instant { NeverAttached(s0, s2, cloud.s, id); }
      }
    }

    /** Pass after pass, as the finalizer's requeue drives it, with accepted
        deletes finishing in between: it always ends, and says done only when
        nothing owned is left. */
    method CleanupUntilDone(id: string, deleteDisks: bool) returns (error: Option<Error>, passes: nat)
      requires cloud.Valid() && !GuardSees(cloud.s.res, id)
      requires Isolated(cloud.s.res, Targets(cloud.s.res, id, deleteDisks))
      modifies cloud
      ensures cloud.Valid()
      ensures Shed(old(cloud.s), cloud.s, Targets(old(cloud.s).res, id, deleteDisks))
      ensures error.None? ==> Targets(cloud.s.res, id, deleteDisks) == {}
      ensures cloud.faults == old(cloud.faults) ==> error.None?
      ensures passes <= |Unaccepted(old(cloud.s), id, deleteDisks)| + 1
      ensures cloud.instant && cloud.faults == old(cloud.faults) ==> passes <= if deleteDisks then 3 else 2
    {
      ghost var s0, f0 := cloud.s, cloud.faults;
      ghost var all := Targets(s0.res, id, deleteDisks);
      var pending := true;
      error, passes := None, 0;
      ShedRefl(s0, all);
      while pending && error.None?
        invariant cloud.Valid() && cloud.faults >= f0 && Shed(s0, cloud.s, all)
        invariant cloud.faults == f0 ==> error.None?
        invariant error.None? && !pending ==> Targets(cloud.s.res, id, deleteDisks) == {}
        invariant passes + (if pending && error.None? then |Unaccepted(cloud.s, id, deleteDisks)| + 1 else 0) <= |Unaccepted(s0, id, deleteDisks)| + 1
        invariant cloud.instant && cloud.faults == f0 ==>
          Trajectory(s0.res, cloud.s.res, id, deleteDisks, passes, pending)
        decreases pending && error.None?, |Unaccepted(cloud.s, id, deleteDisks)|
      {
        ghost var before, q := cloud.s, passes;
        error, pending := SettleAndClean(id, deleteDisks, s0, all);
        passes := passes + 1;
        if cloud.instant && cloud.faults == f0 {
          NextPass(s0.res, before.res, cloud.s.res, id, deleteDisks, q, pending);
        }
      }
    }

    method SettleAndClean(id: string, deleteDisks: bool, ghost s0: State, ghost all: set<Key>) returns (error: Option<Error>, pending: bool)
      requires cloud.Valid() && all == Targets(s0.res, id, deleteDisks) && Shed(s0, cloud.s, all)
      requires !GuardSees(s0.res, id) && Isolated(s0.res, all) && Typed(s0.res)
      modifies cloud
      ensures cloud.Valid() && cloud.faults >= old(cloud.faults)
      ensures Shed(s0, cloud.s, all)
      ensures cloud.faults == old(cloud.faults) ==> error.None?
      ensures error.None? && !pending ==> Targets(cloud.s.res, id, deleteDisks) == {}
      ensures error.Some? ==> !pending
      ensures pending && error.None? ==> |Unaccepted(cloud.s, id, deleteDisks)| < |Unaccepted(old(cloud.s), id, deleteDisks)|
      ensures cloud.instant && cloud.faults == old(cloud.faults) ==>
        cloud.s.res == PassResult(old(cloud.s).res, id, deleteDisks) && (pending ==> Targets(old(cloud.s).res, id, deleteDisks) != {})
    {
      ghost var p := cloud.s;
      cloud.Settle();
      ghost var a := cloud.s;
      Settled(s0, p, a, id, deleteDisks);
      error, pending := Cleanup(id, deleteDisks, (v: Verdict) => Finish(v));
      Resumed(s0, a, cloud.s, all, Targets(a.res, id, deleteDisks));
      if pending { PassProgress(a, cloud.s, id, deleteDisks); }
    }
  }
}
