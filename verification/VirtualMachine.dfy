/** Security group membership of a VM (internal/cloud/virtualmachine.go). */
module VirtualMachines {
  import opened Prelude
  import opened CloudApi

  /** What the source's comparison computes. */
  predicate SameMembers(a: seq<string>, b: seq<string>) {
    |a| == |b| && ToSet(b) <= ToSet(a)
  }

  method SecurityGroupsEqual(a: seq<string>, b: seq<string>) returns (equal: bool)
    ensures equal <==> SameMembers(a, b)
  {
    if |a| != |b| {
      return false;
    }
    var aMap: set<string> := {};
    for i := 0 to |a|
      invariant aMap == ToSet(a[..i])
    {
      assert a[..i + 1] == a[..i] + [a[i]];
      aMap := aMap + {a[i]};
    }
    assert a[..|a|] == a;
    for i := 0 to |b|
      invariant forall j | 0 <= j < i :: b[j] in aMap
    {
      if b[i] !in aMap {
        assert b[i] in ToSet(b);
        return false;
      }
    }
    equal := true;
  }

  lemma {:induction false} DistinctSize(s: seq<string>)
    ensures |ToSet(s)| <= |s| && (NoDup(s) <==> |ToSet(s)| == |s|)
  {
    if s != [] {
      var n := |s| - 1;
      var front := s[..n];
      DistinctSize(front);
      assert s == front + [s[n]];
      assert ToSet(s) == ToSet(front) + {s[n]};
      if s[n] in front {
        var i :| 0 <= i < n && front[i] == s[n];
        assert s[i] == s[n];
      } else {
        assert forall i | 0 <= i < n :: s[i] == front[i] && front[i] in front;
        assert NoDup(front) ==> NoDup(s);
        assert NoDup(s) ==> NoDup(front);
      }
    }
  }

  /** Pigeonhole: between lists without repeats, equal length and inclusion one way
      already mean the same set. */
  lemma DistinctListsCompare(a: seq<string>, b: seq<string>)
    requires NoDup(a) && NoDup(b)
    ensures SameMembers(a, b) <==> ToSet(a) == ToSet(b)
  {
    DistinctSize(a);
    DistinctSize(b);
    if SameMembers(a, b) { SubsetSize(ToSet(b), ToSet(a)); }
  }

  lemma {:induction false} Listing(s: set<string>) returns (list: seq<string>)
    ensures NoDup(list) && ToSet(list) == s
  {
    list := [];
    if s != {} {
      var x :| x in s;
      var rest := Listing(s - {x});
      list := rest + [x];
      assert x !in ToSet(rest) && ToSet(list) == ToSet(rest) + {x};
      forall i, j | 0 <= i < j < |list| ensures list[i] != list[j] {
        assert list[i] == rest[i] && rest[i] in ToSet(rest);
      }
    }
  }

  /** The comparison tells every membership (a membership lists no group twice)
      from the desired set correctly, if and only if the desired list itself names
      no group twice. */
  lemma ComparisonCorrectIff(desired: seq<string>)
    ensures (forall current :: NoDup(current) ==> (SameMembers(current, desired) <==> ToSet(current) == ToSet(desired)))
       <==> NoDup(desired)
  {
    if NoDup(desired) {
      forall current | NoDup(current) ensures SameMembers(current, desired) <==> ToSet(current) == ToSet(desired) {
        DistinctListsCompare(current, desired);
      }
    } else {
      var current := Listing(ToSet(desired));
      DistinctSize(current);
      DistinctSize(desired);
      assert NoDup(current) && !SameMembers(current, desired) && ToSet(current) == ToSet(desired);
    }
  }

  /** A repeated name can also hide a group that must be detached. */
  lemma RepeatHidesStaleGroup()
    ensures SameMembers(["web", "old"], ["web", "web"]) && ToSet(["web", "old"]) != ToSet(["web", "web"])
  {
    assert "old" in ToSet(["web", "old"]) && "old" !in ToSet(["web", "web"]);
    assert ["web", "old"][0] == "web";
  }

  class VirtualMachineService {
    const cloud: Cloud

    constructor (cloud: Cloud)
      ensures this.cloud == cloud
    {
      this.cloud := cloud;
    }

    /** Patches the VM's groups when, and only when, the comparison of its active
        memberships with the desired list fails, so for lists without repeats exactly
        when membership differs from the desired set, whatever the VM's specification
        says.  The patch carries the desired list and changes nothing else of it. */
    method UpdateSecurityGroups(name: string, desired: seq<string>)
      returns (error: Option<Error>, ghost vm: Option<Spec>, ghost members: seq<string>)
      requires cloud.Valid()
      modifies cloud
      ensures cloud.Valid()
      ensures vm.Some? ==> vm.value.VMSpec?
      ensures vm.Some? ==>
        if SameMembers(members, desired)
        then cloud.calls == old(cloud.calls) + [Call(GetOp(Key(VM, name), members), None)] && error.None?
        else cloud.calls == old(cloud.calls)
             + [Call(GetOp(Key(VM, name), members), None), Call(PatchOp(Key(VM, name), vm.value.(groups := desired)), error)]
      ensures vm.Some? && NoDup(members) && NoDup(desired) ==>
        (SameMembers(members, desired) <==> ToSet(members) == ToSet(desired))
      ensures vm.Some? ==> Key(VM, name) in old(cloud.s).res && vm.value == old(cloud.s).res[Key(VM, name)].spec
      ensures vm.None? ==> cloud.calls == old(cloud.calls) + [Call(GetOp(Key(VM, name), []), error)] && error.Some?
    {
      vm, members := None, [];
      var view;
      error, view := cloud.Get(Key(VM, name));
      if error.Some? {
        return;
      }
      var spec, current := view.value.resource.spec, view.value.members;
      vm, members := Some(spec), current;
      var same := SecurityGroupsEqual(current, desired);
      if NoDup(current) && NoDup(desired) { DistinctListsCompare(current, desired); }
      if same {
        return;
      }
      error := cloud.Patch(Key(VM, name), spec.(groups := desired));
    }
  }
}
