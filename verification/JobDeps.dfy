/**
 Dependencies of a scheduler job: drm_sched_job_add_dependency (scheduler/sched_main.c) and
 drm_sched_job_dependency (scheduler/sched_entity.c).

 A job keeps its dependency fences in an allocating xarray, at most one per fence context.
 Sequence numbers are unbounded here; module `Fence` relates them to the 32-bit ones.
 */
module JobDeps {

  datatype Option<+T> = None | Some(value: T)

  datatype Context = EntityContext(entity: nat) | ForeignContext(id: nat)

  /** Either the finished fence of the `seqno`-th job armed for a scheduler entity, or a fence of
      some other timeline. */
  datatype Fence =
    | SchedFence(entity: nat, seqno: nat)
    | ForeignFence(id: nat, seqno: nat)
  {
    function Context(): Context {
      if SchedFence? then EntityContext(entity) else ForeignContext(id)
    }
  }

  predicate IsLater(f: Fence, g: Fence) {
    f.seqno > g.seqno
  }

  /** `f` is `g`, or an earlier fence of the same context. */
  predicate NotAfter(f: Fence, g: Fence) {
    f.Context() == g.Context() && f.seqno <= g.seqno
  }

  // ---------------------------------------------------------------- what adding means

  /** The kept fences, in index order, after `f` is added. */
  function Add(kept: seq<Fence>, f: Fence): seq<Fence>
  {
    if kept == [] then [f]
    else if kept[0].Context() != f.Context() then [kept[0]] + Add(kept[1..], f)
    else if IsLater(f, kept[0]) then [f] + kept[1..]
    else kept
  }

  function AddAll(added: seq<Fence>): seq<Fence>
  {
    if added == [] then []
    else Add(AddAll(added[..|added| - 1]), added[|added| - 1])
  }

  ghost predicate DistinctContexts(kept: seq<Fence>) {
    forall i, j :: 0 <= i < j < |kept| ==> kept[i].Context() != kept[j].Context()
  }

  /** Some fence of `kept` is `f` or a later fence of its context. */
  ghost predicate Covered(f: Fence, kept: seq<Fence>) {
    exists i :: 0 <= i < |kept| && NotAfter(f, kept[i])
  }

  ghost predicate Covers(kept: seq<Fence>, added: seq<Fence>) {
    forall i :: 0 <= i < |added| ==> Covered(added[i], kept)
  }

  ghost predicate DrawnFrom(kept: seq<Fence>, added: seq<Fence>) {
    forall i :: 0 <= i < |kept| ==> kept[i] in added
  }

  /** Fence contexts signal in order. */
  ghost predicate InOrder(signaled: iset<Fence>) {
    forall f, g :: g in signaled && NotAfter(f, g) ==> f in signaled
  }

  ghost predicate AllSignaled(fences: seq<Fence>, signaled: iset<Fence>) {
    forall i :: 0 <= i < |fences| ==> fences[i] in signaled
  }

  lemma {:induction false} AddKeeps(kept: seq<Fence>, f: Fence)
    requires DistinctContexts(kept)
    ensures DistinctContexts(Add(kept, f))
    ensures forall g :: g in Add(kept, f) ==> g == f || g in kept
  {
    if kept != [] && kept[0].Context() != f.Context() {
      AddKeeps(kept[1..], f);
      var rest := Add(kept[1..], f);
      var all := [kept[0]] + rest;
      forall i, j | 0 <= i < j < |all| ensures all[i].Context() != all[j].Context() {
        assert all[j] == rest[j - 1] && rest[j - 1] in rest;
        if i == 0 {
          if all[j] != f {
            var k :| 0 <= k < |kept[1..]| && kept[1..][k] == all[j];
            assert all[j] == kept[k + 1];
          }
        } else {
          assert all[i] == rest[i - 1];
        }
      }
    }
  }

  lemma {:induction false} AddCovers(kept: seq<Fence>, f: Fence)
    ensures Covered(f, Add(kept, f))
    ensures forall g :: Covered(g, kept) ==> Covered(g, Add(kept, f))
  {
    var after := Add(kept, f);
    if kept == [] {
      assert NotAfter(f, after[0]);
    } else if kept[0].Context() != f.Context() {
      AddCovers(kept[1..], f);
      var rest := Add(kept[1..], f);
      forall g, i | 0 <= i < |rest| && NotAfter(g, rest[i]) ensures Covered(g, after) {
        assert NotAfter(g, after[i + 1]);
      }
      forall g | Covered(g, kept) ensures Covered(g, after) {
        var i :| 0 <= i < |kept| && NotAfter(g, kept[i]);
        if i == 0 {
          assert NotAfter(g, after[0]);
        } else {
          assert NotAfter(g, kept[1..][i - 1]);
          assert Covered(g, kept[1..]);
        }
      }
    } else {
      assert NotAfter(f, after[0]);
      forall g | Covered(g, kept) ensures Covered(g, after) {
        var i :| 0 <= i < |kept| && NotAfter(g, kept[i]);
        assert NotAfter(g, after[i]);
      }
    }
  }

  /** What adding does once the fences before `index` are known to be of other contexts. */
  lemma {:induction false} AddAt(kept: seq<Fence>, f: Fence, index: nat)
    requires index <= |kept|
    requires forall i :: 0 <= i < index ==> kept[i].Context() != f.Context()
    ensures index == |kept| ==> Add(kept, f) == kept + [f]
    ensures index < |kept| && kept[index].Context() == f.Context() ==>
              Add(kept, f) == if IsLater(f, kept[index]) then kept[index := f] else kept
  {
    if index > 0 {
      AddAt(kept[1..], f, index - 1);
    }
  }

  /** De-duplication loses nothing and invents nothing, whatever was added in whatever order. */
  lemma {:induction false} AddAllFaithful(added: seq<Fence>)
    ensures DistinctContexts(AddAll(added))
    ensures Covers(AddAll(added), added)
    ensures DrawnFrom(AddAll(added), added)
  {
    if added != [] {
      var before, f := added[..|added| - 1], added[|added| - 1];
      AddAllFaithful(before);
      AddKeeps(AddAll(before), f);
      AddCovers(AddAll(before), f);
      forall i | 0 <= i < |added| ensures Covered(added[i], AddAll(added)) {
        if i < |added| - 1 {
          assert before[i] == added[i];
        }
      }
      forall i | 0 <= i < |AddAll(added)| ensures AddAll(added)[i] in added {
        var g := AddAll(added)[i];
        assert g in AddAll(added);
        if g != f {
          assert g in AddAll(before);
          var k :| 0 <= k < |AddAll(before)| && AddAll(before)[k] == g;
        }
      }
    }
  }

  /** A kept fence, itself one that was added, stands for each added one. */
  lemma KeptStandsFor(added: seq<Fence>, f: Fence) returns (i: nat, k: nat, m: nat)
    requires f in added
    ensures i < |added| && added[i] == f
    ensures k < |AddAll(added)| && NotAfter(f, AddAll(added)[k])
    ensures m < |added| && added[m] == AddAll(added)[k]
  {
    AddAllFaithful(added);
    i :| 0 <= i < |added| && added[i] == f;
    assert Covered(added[i], AddAll(added));
    k :| 0 <= k < |AddAll(added)| && NotAfter(f, AddAll(added)[k]);
    assert AddAll(added)[k] in added;
    m :| 0 <= m < |added| && added[m] == AddAll(added)[k];
  }

  /** Waiting for the kept fences is waiting for every fence that was ever added. */
  lemma WaitingOnKeptIsWaitingOnAll(added: seq<Fence>, signaled: iset<Fence>)
    requires InOrder(signaled)
    ensures AllSignaled(AddAll(added), signaled) <==> AllSignaled(added, signaled)
  {
    AddAllFaithful(added);
    var kept := AddAll(added);
    if AllSignaled(kept, signaled) {
      forall i | 0 <= i < |added| ensures added[i] in signaled {
        assert Covered(added[i], kept);
        var k :| 0 <= k < |kept| && NotAfter(added[i], kept[k]);
        assert kept[k] in signaled;
      }
    }
    if AllSignaled(added, signaled) {
      forall i | 0 <= i < |kept| ensures kept[i] in signaled {
        assert kept[i] in added;
        var k :| 0 <= k < |added| && added[k] == kept[i];
        assert added[k] in signaled;
      }
    }
  }

  /** Without in-order contexts the equivalence fails: a later fence may signal first. */
  lemma OutOfOrderContextLosesADependency()
    ensures var early, late := ForeignFence(0, 1), ForeignFence(0, 2);
            var signaled := iset{late};
            && AllSignaled(AddAll([early, late]), signaled)
            && !AllSignaled([early, late], signaled)
  {
    var early, late := ForeignFence(0, 1), ForeignFence(0, 2);
    var added := [early, late];
    assert added[..1] == [early];
    assert added[..1][..0] == [];
    assert AddAll([early]) == Add(AddAll([]), early) by { assert [early][..0] == []; }
    assert AddAll(added) == [late];
    assert added[0] !in iset{late};
  }

  // ---------------------------------------------------------------- the job's xarray

  class Job {
    var dependencies: map<nat, Fence>
    var lastDependency: nat

    /** The used indices are the contiguous range that starts at lastDependency. */
    ghost predicate Valid()
      reads this
    {
      forall i: nat :: i in dependencies <==> lastDependency <= i < lastDependency + |dependencies|
    }

    ghost function Kept(): (s: seq<Fence>)
      reads this
      requires Valid()
      ensures |s| == |dependencies|
      ensures forall i :: 0 <= i < |s| ==> s[i] == dependencies[lastDependency + i]
    {
      var deps, first := dependencies, lastDependency;
      seq(|deps|, i requires 0 <= i < |deps| && first + i in deps => deps[first + i])
    }

    constructor ()
      ensures Valid() && Kept() == [] && lastDependency == 0
    {
      dependencies := map[];
      lastDependency := 0;
    }

    /** Adds `fence`, or does nothing for a null one; `allocOk` says whether xa_alloc finds memory.
        Fences are only added before the job is pushed, hence before any is taken out. */
    method AddDependency(fence: Option<Fence>, allocOk: bool) returns (ok: bool)
      requires Valid() && lastDependency == 0
      modifies this
      ensures Valid() && lastDependency == 0
      ensures fence.None? ==> ok && Kept() == old(Kept())
      ensures fence.Some? && ok ==> Kept() == Add(old(Kept()), fence.value)
      ensures !ok ==> !allocOk && Kept() == old(Kept())
    {
      if fence.None? {
        return true;
      }
      var f := fence.value;
      var index := 0;
      while index < |dependencies|
        invariant 0 <= index <= |dependencies|
        invariant forall i :: 0 <= i < index ==> Kept()[i].Context() != f.Context()
      {
        var entry := dependencies[index];
        if entry.Context() == f.Context() {
          AddAt(Kept(), f, index);
          if IsLater(f, entry) {
            Store(index, f);
          }
          return true;
        }
        index := index + 1;
      }
      AddAt(Kept(), f, index);
      if allocOk {
        Allocate(f);
      }
      return allocOk;
    }

    method Store(index: nat, f: Fence)
      requires Valid() && lastDependency == 0 && index < |dependencies|
      modifies `dependencies
      ensures Valid() && Kept() == old(Kept())[index := f]
    {
      dependencies := dependencies[index := f];
      assert dependencies.Keys == old(dependencies).Keys;
      assert |dependencies| == |dependencies.Keys| == |old(dependencies)|;
    }

    method Allocate(f: Fence)
      requires Valid() && lastDependency == 0
      modifies `dependencies
      ensures Valid() && Kept() == old(Kept()) + [f]
    {
      var id := LeastFreeIndex(dependencies);
      assert id == |dependencies| by {
        assert id < |dependencies| ==> id in dependencies;
        assert |dependencies| < id ==> |dependencies| in dependencies;
      }
      dependencies := dependencies[id := f];
    }

    /** drm_sched_job_dependency: takes out the fence at lastDependency, if any is left. */
    method NextDependency() returns (f: Option<Fence>)
      requires Valid()
      modifies this
      ensures Valid()
      ensures old(Kept()) == [] ==> f == None && Kept() == []
      ensures old(Kept()) != [] ==> f == Some(old(Kept())[0]) && Kept() == old(Kept())[1..]
    {
      if dependencies == map[] {
        return None;
      }
      assert lastDependency in dependencies by {
        assert |dependencies| > 0 by {
          var k :| k in dependencies;
          assert k in dependencies.Keys;
        }
      }
      ghost var kept := Kept();
      f := Some(dependencies[lastDependency]);
      dependencies := dependencies - {lastDependency};
      assert dependencies.Keys == old(dependencies).Keys - {lastDependency};
      assert |dependencies| == |old(dependencies)| - 1;
      lastDependency := lastDependency + 1;
      assert Kept() == kept[1..];
    }

    lemma SomeKept()
      requires Valid() && dependencies != map[]
      ensures Kept() != []
    {
      var k :| k in dependencies;
      assert k in dependencies.Keys;
    }

    /** The dependency loop of a scheduler thread that never has to wait: it sees each kept fence
        exactly once, in order, and stops. */
    method TakeAll() returns (visited: seq<Fence>)
      requires Valid()
      modifies this
      ensures Valid() && visited == old(Kept()) && dependencies == map[]
    {
      visited := [];
      while dependencies != map[]
        invariant Valid() && visited + Kept() == old(Kept())
        decreases |Kept()|
      {
        SomeKept();
        OneOver(visited, Kept());
        var f := NextDependency();
        visited := visited + [f.value];
      }
    }
  }

  lemma OneOver(a: seq<Fence>, b: seq<Fence>)
    requires b != []
    ensures (a + [b[0]]) + b[1..] == a + b
  {
  }

  /** xa_alloc picks the least free index. */
  method LeastFreeIndex(m: map<nat, Fence>) returns (id: nat)
    ensures id !in m && forall i: nat :: i < id ==> i in m
  {
    id := 0;
    ghost var below: set<nat> := {};
    while id in m
      invariant forall i: nat :: i in below <==> i < id
      invariant below <= m.Keys && |below| == id
      decreases |m.Keys| - id
    {
      below := below + {id};
      SubsetCard(below, m.Keys);
      id := id + 1;
    }
  }

  lemma SubsetCard(a: set<nat>, b: set<nat>)
    requires a <= b
    ensures |a| <= |b|
  {
    assert b == a + (b - a);
  }
}
