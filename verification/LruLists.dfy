/**
 The lists that a buffer object's mm_list links it into: the active list of the GPU, the three
 inactive lists of the device, and the temporary lists of running shrinker scans
 (msm/msm_gem.c, msm/msm_gem_shrinker.c).
 */
module LruLists {
  import opened GemObject

  datatype Kind = ActiveList | WillNeedList | DontNeedList | UnpinnedList

  /** A list and the kind of objects it is for; a scan's temporary list has the kind of the list
      the scan takes objects from. */
  datatype LruList = LruList(kind: Kind, members: seq<nat>)

  /** The first four lists are the permanent ones. `on[o]` is the list that object `o` is on. */
  datatype Lists = Lists(lists: seq<LruList>, on: seq<nat>)

  function Base(kind: Kind): (k: nat)
    ensures k < 4
  {
    match kind
    case ActiveList => 0
    case WillNeedList => 1
    case DontNeedList => 2
    case UnpinnedList => 3
  }

  /** Where update_inactive and msm_gem_active_get want the object. */
  function Home(obj: Obj): Kind {
    if obj.activeCount != 0 then ActiveList
    else if obj.madv == WillNeed && obj.sgt then WillNeedList
    else if obj.madv == DontNeed then DontNeedList
    else UnpinnedList
  }

  /** Object `o` is on a list for objects of this kind. */
  predicate OnKind(l: Lists, o: nat, kind: Kind) {
    o < |l.on| && l.on[o] < |l.lists| && l.lists[l.on[o]].kind == kind
  }

  // ---------------------------------------------------------------- operations

  function Without(s: seq<nat>, o: nat): (r: seq<nat>)
    ensures |r| <= |s| && forall x :: x in r <==> x in s && x != o
  {
    if s == [] then []
    else if s[0] == o then Without(s[1..], o)
    else [s[0]] + Without(s[1..], o)
  }

  /** list_del and list_add_tail, or list_move_tail. */
  function Move(l: Lists, o: nat, k: nat): (r: Lists)
    requires o < |l.on| && l.on[o] < |l.lists| && k < |l.lists|
    ensures OnKind(r, o, l.lists[k].kind)
    ensures forall p: nat, kind :: p != o && OnKind(l, p, kind) ==> OnKind(r, p, kind)
  {
    var from := l.lists[l.on[o]];
    var lists := l.lists[l.on[o] := from.(members := Without(from.members, o))];
    Lists(lists[k := lists[k].(members := lists[k].members + [o])], l.on[o := k])
  }

  function Remove(l: Lists, o: nat): (r: Lists)
    requires o < |l.on| && l.on[o] < |l.lists|
  {
    var from := l.lists[l.on[o]];
    l.(lists := l.lists[l.on[o] := from.(members := Without(from.members, o))])
  }

  /** A new object starts on the unpinned list. */
  function AddNew(l: Lists): Lists
    requires |l.lists| >= 4
  {
    var k := Base(UnpinnedList);
    Lists(l.lists[k := l.lists[k].(members := l.lists[k].members + [|l.on|])], l.on + [k])
  }

  /** A scan starts: its list still_in_list is empty. */
  function OpenScan(l: Lists, kind: Kind): Lists {
    l.(lists := l.lists + [LruList(kind, [])])
  }

  /** A scan ends: what it still holds goes back to the tail of the list it came from. */
  function CloseScan(l: Lists, t: nat): Lists
    requires 4 <= t < |l.lists|
  {
    var k := Base(l.lists[t].kind);
    Lists(l.lists[k := l.lists[k].(members := l.lists[k].members + l.lists[t].members)]
                 [t := l.lists[t].(members := [])],
          seq(|l.on|, o requires 0 <= o < |l.on| => if l.on[o] == t then k else l.on[o]))
  }

  // ---------------------------------------------------------------- every object on one list

  ghost predicate Distinct(s: seq<nat>) {
    forall i, j :: 0 <= i < j < |s| ==> s[i] != s[j]
  }

  /** List `k` holds objects that exist and say so, each once. */
  ghost predicate ListSound(l: Lists, objs: seq<Obj>, k: nat, list: LruList) {
    && Distinct(list.members)
    && forall o :: o in list.members ==> o < |objs| && o < |l.on| && objs[o].live && l.on[o] == k
  }

  predicate OnItsList(l: Lists, o: nat, k: nat) {
    k < |l.lists| && o in l.lists[k].members
  }

  ghost predicate Linked(l: Lists, objs: seq<Obj>) {
    && |l.on| == |objs| && |l.lists| >= 4
    && (forall kind :: l.lists[Base(kind)].kind == kind)
    && (forall k :: 0 <= k < |l.lists| ==> ListSound(l, objs, k, l.lists[k]))
    && (forall o :: 0 <= o < |l.on| && objs[o].live ==> OnItsList(l, o, l.on[o]))
  }

  /** The lists of kind `kind` on which `o` can be found; what `Linked` is about. */
  lemma ExactlyOneList(l: Lists, objs: seq<Obj>, o: nat)
    requires Linked(l, objs) && o < |objs| && objs[o].live
    ensures exists k, i :: 0 <= k < |l.lists| && 0 <= i < |l.lists[k].members| && l.lists[k].members[i] == o
    ensures forall k, i, k', i' ::
              && 0 <= k < |l.lists| && 0 <= i < |l.lists[k].members| && l.lists[k].members[i] == o
              && 0 <= k' < |l.lists| && 0 <= i' < |l.lists[k'].members| && l.lists[k'].members[i'] == o
              ==> k == k' && i == i'
  {
    assert OnItsList(l, o, l.on[o]);
    forall k, i | 0 <= k < |l.lists| && 0 <= i < |l.lists[k].members| && l.lists[k].members[i] == o
      ensures k == l.on[o]
    {
      assert ListSound(l, objs, k, l.lists[k]);
      assert o in l.lists[k].members;
    }
    assert ListSound(l, objs, l.on[o], l.lists[l.on[o]]);
  }

  lemma {:induction false} WithoutDistinct(s: seq<nat>, o: nat)
    requires Distinct(s)
    ensures Distinct(Without(s, o))
  {
    if s != [] {
      WithoutDistinct(s[1..], o);
      if s[0] != o {
        var rest := Without(s[1..], o);
        assert forall i :: 0 <= i < |rest| ==> rest[i] in rest;
        assert s[0] !in s[1..];
      }
    }
  }

  /** Objects may change as long as the same ones exist. */
  ghost predicate SameLive(objs: seq<Obj>, objs': seq<Obj>) {
    |objs| == |objs'| && forall o :: 0 <= o < |objs| ==> objs[o].live == objs'[o].live
  }

  lemma LinkedSameLive(l: Lists, objs: seq<Obj>, objs': seq<Obj>)
    requires Linked(l, objs) && SameLive(objs, objs')
    ensures Linked(l, objs')
  {
    forall k | 0 <= k < |l.lists| ensures ListSound(l, objs', k, l.lists[k]) {
      assert ListSound(l, objs, k, l.lists[k]);
    }
  }

  lemma MoveLinked(l: Lists, objs: seq<Obj>, o: nat, k: nat)
    requires Linked(l, objs) && o < |objs| && objs[o].live && k < |l.lists|
    ensures OnItsList(l, o, l.on[o]) && Linked(Move(l, o, k), objs)
  {
    assert OnItsList(l, o, l.on[o]);
    var l' := Move(l, o, k);
    forall x | 0 <= x < |l'.lists| ensures ListSound(l', objs, x, l'.lists[x]) {
      assert ListSound(l, objs, x, l.lists[x]);
      WithoutDistinct(l.lists[x].members, o);
    }
    forall p | 0 <= p < |l'.on| && objs[p].live ensures OnItsList(l', p, l'.on[p]) {
      assert OnItsList(l, p, l.on[p]);
    }
  }

  lemma RemoveLinked(l: Lists, objs: seq<Obj>, o: nat, objs': seq<Obj>)
    requires Linked(l, objs) && o < |objs| && objs[o].live
    requires |objs'| == |objs| && !objs'[o].live
    requires forall p :: 0 <= p < |objs| && p != o ==> objs'[p].live == objs[p].live
    ensures OnItsList(l, o, l.on[o]) && Linked(Remove(l, o), objs')
  {
    assert OnItsList(l, o, l.on[o]);
    var l' := Remove(l, o);
    forall x | 0 <= x < |l'.lists| ensures ListSound(l', objs', x, l'.lists[x]) {
      assert ListSound(l, objs, x, l.lists[x]);
      WithoutDistinct(l.lists[x].members, o);
    }
    forall p | 0 <= p < |l'.on| && objs'[p].live ensures OnItsList(l', p, l'.on[p]) {
      assert OnItsList(l, p, l.on[p]);
    }
  }

  lemma AddNewLinked(l: Lists, objs: seq<Obj>, obj: Obj)
    requires Linked(l, objs) && obj.live
    ensures Linked(AddNew(l), objs + [obj])
  {
    var l', objs' := AddNew(l), objs + [obj];
    forall x | 0 <= x < |l'.lists| ensures ListSound(l', objs', x, l'.lists[x]) {
      assert ListSound(l, objs, x, l.lists[x]);
      assert |objs| !in l.lists[x].members;
    }
    forall p | 0 <= p < |l'.on| && objs'[p].live ensures OnItsList(l', p, l'.on[p]) {
      if p < |objs| {
        assert OnItsList(l, p, l.on[p]);
      }
    }
  }

  lemma OpenScanLinked(l: Lists, objs: seq<Obj>, kind: Kind)
    requires Linked(l, objs)
    ensures Linked(OpenScan(l, kind), objs)
  {
    var l' := OpenScan(l, kind);
    forall x | 0 <= x < |l'.lists| ensures ListSound(l', objs, x, l'.lists[x]) {
      if x < |l.lists| {
        assert ListSound(l, objs, x, l.lists[x]);
      }
    }
    forall p | 0 <= p < |l'.on| && objs[p].live ensures OnItsList(l', p, l'.on[p]) {
      assert OnItsList(l, p, l.on[p]);
    }
  }

  lemma CloseScanLinked(l: Lists, objs: seq<Obj>, t: nat)
    requires Linked(l, objs) && 4 <= t < |l.lists|
    ensures Linked(CloseScan(l, t), objs)
  {
    var l' := CloseScan(l, t);
    var k := Base(l.lists[t].kind);
    forall x | 0 <= x < |l'.lists| ensures ListSound(l', objs, x, l'.lists[x]) {
      assert ListSound(l, objs, x, l.lists[x]);
      if x == k {
        SplicedDistinct(l, objs, k, t);
      }
    }
    forall p | 0 <= p < |l'.on| && objs[p].live ensures OnItsList(l', p, l'.on[p]) {
      assert OnItsList(l, p, l.on[p]);
    }
  }

  lemma SplicedDistinct(l: Lists, objs: seq<Obj>, k: nat, t: nat)
    requires k < |l.lists| && t < |l.lists| && k != t
    requires ListSound(l, objs, k, l.lists[k]) && ListSound(l, objs, t, l.lists[t])
    ensures Distinct(l.lists[k].members + l.lists[t].members)
  {
    var a, b := l.lists[k].members, l.lists[t].members;
    forall i, j | 0 <= i < j < |a + b| ensures (a + b)[i] != (a + b)[j] {
      assert (a + b)[i] in (if i < |a| then a else b);
      assert (a + b)[j] in (if j < |a| then a else b);
    }
  }
}
