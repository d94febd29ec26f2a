/**
 The shrinker's scan loop and its callbacks: msm/msm_gem_shrinker.c.
 */
module Shrinker {
  import opened JobDeps
  import opened GemObject
  import opened LruLists
  import opened Inactive
  import opened Residency
  import opened ResidencyCore
  import opened ResidencyMm
  import opened ResidencySafety

  datatype Callback = PurgePages | EvictPages | UnmapKernel

  /** What the callback looks at before it acts. */
  predicate Shrinks(cb: Callback, obj: Obj) {
    match cb
    case PurgePages => Purgeable(obj)
    case EvictPages => !Unevictable(obj)
    case UnmapKernel => Vunmapable(obj)
  }

  function StepOf(cb: Callback, o: nat): ShrinkStep {
    match cb
    case PurgePages => Purge(o)
    case EvictPages => Evict(o)
    case UnmapKernel => Vunmap(o)
  }

  /** The lists that the shrinker and the vmap notifier scan with this callback. */
  predicate Scanned(cb: Callback, kind: Kind) {
    match cb
    case PurgePages => kind == DontNeedList
    case EvictPages => kind == WillNeedList
    case UnmapKernel => kind != UnpinnedList
  }

  // ---------------------------------------------------------------- sequences

  /** The elements of `s` that are not in `out`, in order. */
  function Except(s: seq<nat>, out: seq<nat>): seq<nat> {
    if s == [] then []
    else
      var rest := Except(s[..|s| - 1], out);
      if s[|s| - 1] in out then rest else rest + [s[|s| - 1]]
  }

  function SumPages(objs: seq<Obj>, s: seq<nat>): nat {
    if s == [] then 0
    else SumPages(objs, s[..|s| - 1]) + if s[|s| - 1] < |objs| then objs[s[|s| - 1]].size else 0
  }

  lemma {:induction false} ExceptMore(s: seq<nat>, out: seq<nat>, o: nat)
    requires o !in s
    ensures Except(s, out + [o]) == Except(s, out)
  {
    if s != [] {
      ExceptMore(s[..|s| - 1], out, o);
    }
  }

  lemma {:induction false} WithoutAbsent(s: seq<nat>, o: nat)
    requires o !in s
    ensures Without(s, o) == s
  {
    if s != [] {
      WithoutAbsent(s[1..], o);
    }
  }

  lemma {:induction false} WithoutLast(s: seq<nat>, o: nat)
    requires o !in s
    ensures Without(s + [o], o) == s
  {
    if s != [] {
      assert (s + [o])[1..] == s[1..] + [o];
      WithoutLast(s[1..], o);
    }
  }

  lemma {:induction false} SameSizes(objs: seq<Obj>, objs': seq<Obj>, s: seq<nat>)
    requires |objs'| == |objs| && forall o :: 0 <= o < |objs| ==> objs'[o].size == objs[o].size
    ensures SumPages(objs', s) == SumPages(objs, s)
  {
    if s != [] {
      SameSizes(objs, objs', s[..|s| - 1]);
    }
  }

  // ---------------------------------------------------------------- one object

  /** The base list of `kind` holds `rest`, the scan's own list holds `kept`. */
  ghost predicate Scanning(st: State, t: nat, kind: Kind, rest: seq<nat>, kept: seq<nat>) {
    && Inv(st) && 4 <= t < |st.mm.lists.lists| && st.mm.lists.lists[t].kind == kind
    && st.mm.lists.lists[Base(kind)].members == rest && st.mm.lists.lists[t].members == kept
  }

  /** list_first_entry_or_null and list_move_tail. */
  lemma TakesFirst(st: State, t: nat, kind: Kind, rest: seq<nat>, kept: seq<nat>)
    requires Scanning(st, t, kind, rest, kept) && rest != []
    ensures Live(st.core, rest[0]) && rest[0] !in kept && WellPlaced(st.core.objs, st.mm)
    ensures Enabled(st, ByShrinker(ScanNext(t)))
    ensures Scanning(Apply(st, ByShrinker(ScanNext(t))), t, kind, rest[1..], kept + [rest[0]])
    ensures Apply(st, ByShrinker(ScanNext(t))).core == st.core
    ensures Apply(st, ByShrinker(ScanNext(t))).mm.lists.on[rest[0]] == t
  {
    var lists := st.mm.lists;
    assert ListSound(lists, st.core.objs, Base(kind), lists.lists[Base(kind)]);
    assert ListSound(lists, st.core.objs, t, lists.lists[t]);
    assert rest[0] in rest;
    PlacedWell(st.core.objs, st.mm);
    InvKept(st, ByShrinker(ScanNext(t)));
    WithoutAbsent(rest[1..], rest[0]);
  }

  /** The callback's effect on the two lists: a shrunk object leaves the scan's list, and does not
      come back to the list being scanned. */
  lemma ShrinkLeavesList(st: State, t: nat, kind: Kind, rest: seq<nat>, kept: seq<nat>, o: nat, cb: Callback)
    requires Scanning(st, t, kind, rest, kept + [o]) && Scanned(cb, kind) && o !in kept
    requires o < |st.mm.lists.on| && st.mm.lists.on[o] == t
    requires Available(st.core, o) && Shrinks(cb, st.core.objs[o]) && !cb.UnmapKernel?
    ensures WellPlaced(st.core.objs, st.mm)
    ensures Scanning(Apply(st, ByShrinker(StepOf(cb, o))), t, kind, rest, kept)
  {
    PlacedWell(st.core.objs, st.mm);
    InvKept(st, ByShrinker(StepOf(cb, o)));
    ActiveIsPinned(st.core, o);
    var home := Base(Home(Shrunk(cb, st.core.objs[o])));
    assert Apply(st, ByShrinker(StepOf(cb, o))).mm.lists == Move(st.mm.lists, o, home);
    LeavesList(st.mm.lists, o, t, Base(kind), home, kept);
  }

  /** What the callback does to the object and to the scan. */
  lemma ShrinkEffect(st: State, t: nat, kind: Kind, rest: seq<nat>, kept: seq<nat>, o: nat, cb: Callback)
    requires Scanning(st, t, kind, rest, kept + [o]) && Scanned(cb, kind) && o !in kept
    requires o < |st.mm.lists.on| && st.mm.lists.on[o] == t
    requires Available(st.core, o) && Shrinks(cb, st.core.objs[o])
    ensures WellPlaced(st.core.objs, st.mm)
    ensures var st' := Apply(st, ByShrinker(StepOf(cb, o)));
            && Scanning(st', t, kind, rest, if cb == UnmapKernel then kept + [o] else kept)
            && st'.core.objs == st.core.objs[o := Shrunk(cb, st.core.objs[o])] && st'.core.uses == st.core.uses
  {
    PlacedWell(st.core.objs, st.mm);
    if cb == UnmapKernel {
      InvKept(st, ByShrinker(Vunmap(o)));
    } else {
      ShrinkLeavesList(st, t, kind, rest, kept, o, cb);
    }
  }

  lemma LeavesList(l: Lists, o: nat, t: nat, base: nat, home: nat, kept: seq<nat>)
    requires o < |l.on| && l.on[o] == t < |l.lists| && base < |l.lists| && home < |l.lists|
    requires t != base && t != home && base != home && l.lists[t].members == kept + [o] && o !in kept
    ensures Move(l, o, home).lists[t] == l.lists[t].(members := kept)
    ensures Move(l, o, home).lists[base] == l.lists[base] && |Move(l, o, home).lists| == |l.lists|
  {
    WithoutLast(kept, o);
  }

  function Shrunk(cb: Callback, obj: Obj): Obj {
    match cb
    case PurgePages => PurgedObj(obj)
    case EvictPages => EvictedObj(obj)
    case UnmapKernel => obj.(vaddr := false)
  }

  /** What is left of the visited objects on the scan's own list. */
  function Kept(cb: Callback, visited: seq<nat>, shrunk: seq<nat>): seq<nat> {
    if cb == UnmapKernel then visited else Except(visited, shrunk)
  }

  predicate Shrinkable(c: Core, contended: set<nat>, cb: Callback, o: nat) {
    Available(c, o) && o !in contended && Shrinks(cb, c.objs[o])
  }

  class Device {
    var core: Core
    var mm: Mm

    ghost function Now(): State
      reads this
    {
      State(core, mm)
    }

    constructor (core: Core, mm: Mm)
      ensures this.core == core && this.mm == mm
    {
      this.core := core;
      this.mm := mm;
    }

    /** put_iova_spaces, with the removal of the list entries if `close`. */
    method PutIovaSpaces(o: nat, close: bool)
      modifies `core
      ensures core == DropMappings(old(core), o, close)
    {
      ghost var before := core;
      ghost var busy := false;
      var v := 0;
      while v < |core.vmas|
        invariant 0 <= v <= |core.vmas| == |before.vmas|
        invariant forall w :: 0 <= w < v ==> core.vmas[w] == UnmapAll(before.vmas, o, close)[w]
        invariant forall w :: v <= w < |core.vmas| ==> core.vmas[w] == before.vmas[w]
        invariant busy <==> exists w :: 0 <= w < v && before.vmas[w].live && before.vmas[w].obj == o
                                        && VmaBusy(before, before.vmas[w])
        invariant core == before.(vmas := core.vmas,
          warned := Warn(Warn(before.warned, busy, PurgeVmaInUse), close && busy, CloseVmaInUse))
      {
        var vma := core.vmas[v];
        if vma.live && vma.obj == o {
          if VmaBusy(core, vma) {
            busy := true;
            core := WarnIf(WarnIf(core, true, PurgeVmaInUse), close, CloseVmaInUse);
          }
          core := core.(vmas := core.vmas[v := vma.(mapped := false, live := !close)]);
        }
        v := v + 1;
      }
      assert core.vmas == UnmapAll(before.vmas, o, close);
    }

    /** The callbacks purge, evict and vmap_shrink. */
    method Shrink(o: nat, cb: Callback) returns (done: bool)
      requires Inv(Now()) && Available(core, o)
      modifies this
      ensures done == Shrinks(cb, old(core).objs[o])
      ensures !done ==> Now() == old(Now())
      ensures done ==> WellPlaced(old(core).objs, old(mm)) && Now() == Apply(old(Now()), ByShrinker(StepOf(cb, o)))
    {
      done := Shrinks(cb, core.objs[o]);
      if !done {
        return;
      }
      PlacedWell(core.objs, mm);
      match cb
      case PurgePages =>
        var obj := PurgedObj(core.objs[o]);
        core := WarnIf(WarnIf(core, !Purgeable(core.objs[o]), PurgeUnpurgeable), obj.vaddr, VunmapBusy);
        PutIovaSpaces(o, true);
        core := SetObj(core, o, obj);
        mm := UpdateInactive(core.objs, mm, o);
      case EvictPages =>
        var obj := core.objs[o];
        core := WarnIf(WarnIf(core, Unevictable(obj), EvictUnevictable), obj.activeCount != 0, EvictActive);
        mm := mm.(warned := Warn(mm.warned, !mm.flags[o].evictable, EvictUnmarked));
        PutIovaSpaces(o, false);
        core := SetObj(core, o, EvictedObj(obj));
        mm := UpdateInactive(core.objs, mm, o);
      case UnmapKernel =>
        core := SetObj(core, o, core.objs[o].(vaddr := false));
        mm := NoteUnmapped(mm, o);
    }

    method TakeFirst(t: nat, kind: Kind, ghost rest: seq<nat>, ghost kept: seq<nat>) returns (o: nat)
      requires Scanning(Now(), t, kind, rest, kept) && rest != []
      modifies `mm
      ensures o == rest[0] && Live(core, o) && o !in kept && o < |mm.lists.on| && mm.lists.on[o] == t
      ensures Scanning(Now(), t, kind, rest[1..], kept + [o])
    {
      TakesFirst(Now(), t, kind, rest, kept);
      o := mm.lists.lists[Base(mm.lists.lists[t].kind)].members[0];
      mm := mm.(lists := Move(mm.lists, o, t));
    }

    /** One turn of the loop of scan, from list_move_tail on. `contended` are the objects whose lock
        somebody else happens to hold. */
    method Visit(t: nat, kind: Kind, cb: Callback, contended: set<nat>, ghost rest: seq<nat>, ghost kept: seq<nat>)
      returns (o: nat, done: bool)
      requires Scanning(Now(), t, kind, rest, kept) && rest != [] && Scanned(cb, kind)
      modifies this
      ensures o == rest[0] && o < |old(core).objs| && o !in kept
      ensures done == Shrinkable(old(core), contended, cb, o)
      ensures Scanning(Now(), t, kind, rest[1..], if done && cb != UnmapKernel then kept else kept + [o])
      ensures core.objs == if done then old(core).objs[o := Shrunk(cb, old(core).objs[o])] else old(core).objs
      ensures core.uses == old(core).uses
    {
      o := TakeFirst(t, kind, rest, kept);
      if core.objs[o].refs <= 0 || o in contended || core.objs[o].lock != None {
        return o, false;
      }
      if Shrinks(cb, core.objs[o]) {
        ShrinkEffect(Now(), t, kind, rest[1..], kept, o, cb);
      }
      done := Shrink(o, cb);
    }

    method OpenList(kind: Kind) returns (t: nat)
      requires Inv(Now())
      modifies `mm
      ensures Listed(old(mm), kind) && Distinct(Members(old(mm), kind))
      ensures Scanning(Now(), t, kind, Members(old(mm), kind), [])
    {
      PlacedWell(core.objs, mm);
      InvKept(Now(), ByShrinker(BeginScan(kind)));
      assert ListSound(mm.lists, core.objs, Base(kind), mm.lists.lists[Base(kind)]);
      t := |mm.lists.lists|;
      mm := mm.(lists := OpenScan(mm.lists, kind));
    }

    method SpliceBack(t: nat, kind: Kind, ghost rest: seq<nat>, ghost kept: seq<nat>)
      requires Scanning(Now(), t, kind, rest, kept)
      modifies `mm
      ensures Inv(Now()) && Listed(mm, kind) && Members(mm, kind) == rest + kept
    {
      PlacedWell(core.objs, mm);
      InvKept(Now(), ByShrinker(EndScan(t)));
      mm := mm.(lists := CloseScan(mm.lists, t));
    }

    /** One turn, with its part of what the scan as a whole achieves. */
    method Turn(scan: ScanArgs, t: nat, freed: nat, ghost c: Core, ghost list: seq<nat>,
                ghost visited: seq<nat>, ghost shrunk: seq<nat>)
      returns (freed': nat, ghost visited': seq<nat>, ghost shrunk': seq<nat>)
      requires Underway(scan, c, list, Now(), t, visited, shrunk, freed) && |visited| < |list|
      modifies this
      ensures Underway(scan, c, list, Now(), t, visited', shrunk', freed') && |visited'| == |visited| + 1
    {
      ghost var before := core;
      var o, done := Visit(t, scan.kind, scan.cb, scan.contended, list[|visited|..], Kept(scan.cb, visited, shrunk));
      OneMore(scan, c, before, core.objs, list, visited, shrunk, freed, done);
      visited' := visited + [o];
      freed' := if done then freed + core.objs[o].size else freed;
      shrunk' := if done then shrunk + [o] else shrunk;
    }

    /** scan: visits a prefix of the list, shrinks exactly those visited objects that it can, puts
        the others back at the tail in order, and returns exactly the pages of the shrunk ones. It
        stops when enough was freed or the list is at its end, and loses no object. */
    method Scan(nr: nat, scan: ScanArgs) returns (freed: nat, ghost visited: seq<nat>, ghost shrunk: seq<nat>)
      requires Inv(Now()) && Scanned(scan.cb, scan.kind)
      modifies this
      ensures Inv(Now()) && Listed(old(mm), scan.kind) && Listed(mm, scan.kind)
      ensures visited <= Members(old(mm), scan.kind)
      ensures freed >= nr || visited == Members(old(mm), scan.kind)
      ensures Members(mm, scan.kind) ==
              Members(old(mm), scan.kind)[|visited|..] + Kept(scan.cb, visited, shrunk)
      ensures HasShrunk(old(core), core.objs, scan.contended, scan.cb, visited, shrunk, freed)
    {
      ghost var c := core;
      ghost var list := Members(mm, scan.kind);
      freed, visited, shrunk := 0, [], [];
      var t := OpenList(scan.kind);
      assert list[0..] == list;
      while freed < nr && mm.lists.lists[Base(scan.kind)].members != []
        invariant Underway(scan, c, list, Now(), t, visited, shrunk, freed)
        decreases |list| - |visited|
      {
        freed, visited, shrunk := Turn(scan, t, freed, c, list, visited, shrunk);
      }
      SpliceBack(t, scan.kind, list[|visited|..], Kept(scan.cb, visited, shrunk));
    }

    /** msm_gem_shrinker_scan: purges what is not needed, and evicts only if that was not enough and
        there is swap. The pages returned are exactly those of the objects shrunk. */
    method ShrinkerScan(nr: nat, canSwap: bool, contended: set<nat>)
      returns (freed: nat, ghost purged: seq<nat>, ghost evicted: seq<nat>)
      requires Inv(Now())
      modifies this
      ensures Inv(Now()) && Shrank(old(core), purged, evicted, freed)
      ensures forall o :: o in purged ==> Shrinkable(old(core), contended, PurgePages, o)
      ensures !canSwap || SumPages(old(core).objs, purged) >= nr ==> evicted == []
    {
      ghost var c, visited := core, [];
      evicted := [];
      freed, visited, purged := Scan(nr, ScanArgs(DontNeedList, PurgePages, contended));
      if canSwap && freed < nr {
        ghost var objs := core.objs;
        var more;
        more, visited, evicted := Scan(nr - freed, ScanArgs(WillNeedList, EvictPages, contended));
        SameSizes(c.objs, objs, evicted);
        freed := freed + more;
      }
    }
  }

  /** `freed` is what purging `purged` and evicting `evicted` gave. */
  ghost predicate Shrank(c: Core, purged: seq<nat>, evicted: seq<nat>, freed: nat) {
    freed == SumPages(c.objs, purged) + SumPages(c.objs, evicted)
  }

  /** Which list, which callback, and the objects whose lock somebody else happens to hold. */
  datatype ScanArgs = ScanArgs(kind: Kind, cb: Callback, contended: set<nat>)

  ghost predicate Underway(scan: ScanArgs, c: Core, list: seq<nat>, st: State, t: nat,
                           visited: seq<nat>, shrunk: seq<nat>, freed: nat) {
    && Scanned(scan.cb, scan.kind) && visited <= list && Distinct(list)
    && Scanning(st, t, scan.kind, list[|visited|..], Kept(scan.cb, visited, shrunk))
    && HasShrunk(c, st.core.objs, scan.contended, scan.cb, visited, shrunk, freed)
  }

  /** `objs` is what shrinking made of the objects of `c`: exactly those visited objects that could
      be shrunk were, the others are untouched, and `freed` is their size. */
  ghost predicate HasShrunk(c: Core, objs: seq<Obj>, contended: set<nat>, cb: Callback,
                            visited: seq<nat>, shrunk: seq<nat>, freed: nat) {
    && (forall o :: o in shrunk <==> o in visited && Shrinkable(c, contended, cb, o))
    && freed == SumPages(c.objs, shrunk)
    && |objs| == |c.objs|
    && forall o :: 0 <= o < |objs| ==> objs[o] == if o in shrunk then Shrunk(cb, c.objs[o]) else c.objs[o]
  }

  lemma NextIsNew(list: seq<nat>, visited: seq<nat>)
    requires visited <= list && Distinct(list) && |visited| < |list|
    ensures list[|visited|] !in visited && visited + [list[|visited|]] <= list
    ensures list[|visited| + 1..] == list[|visited|..][1..]
  {
    forall i | 0 <= i < |visited| ensures visited[i] != list[|visited|] {
      assert visited[i] == list[i];
    }
  }

  /** What a turn of the loop adds. An object not visited yet is as it was when the scan began. */
  lemma OneMore(scan: ScanArgs, c: Core, before: Core, objs': seq<Obj>, list: seq<nat>,
                visited: seq<nat>, shrunk: seq<nat>, freed: nat, done: bool)
    requires visited <= list && Distinct(list) && |visited| < |list| && list[|visited|] < |before.objs|
    requires HasShrunk(c, before.objs, scan.contended, scan.cb, visited, shrunk, freed)
    requires var o := list[|visited|];
             && done == Shrinkable(before, scan.contended, scan.cb, o)
             && objs' == if done then before.objs[o := Shrunk(scan.cb, before.objs[o])] else before.objs
    ensures var o := list[|visited|];
            var shrunk' := if done then shrunk + [o] else shrunk;
            var kept := Kept(scan.cb, visited, shrunk);
            && visited + [o] <= list && list[|visited| + 1..] == list[|visited|..][1..]
            && HasShrunk(c, objs', scan.contended, scan.cb, visited + [o], shrunk',
                         if done then freed + objs'[o].size else freed)
            && Kept(scan.cb, visited + [o], shrunk') == if done && scan.cb != UnmapKernel then kept else kept + [o]
  {
    var o := list[|visited|];
    NextIsNew(list, visited);
    assert (visited + [o])[..|visited|] == visited;
    if done {
      assert (shrunk + [o])[..|shrunk|] == shrunk;
      ExceptMore(visited, shrunk, o);
    }
  }

  predicate Listed(mm: Mm, kind: Kind) {
    Base(kind) < |mm.lists.lists|
  }

  function Members(mm: Mm, kind: Kind): seq<nat>
    requires Listed(mm, kind)
  {
    mm.lists.lists[Base(kind)].members
  }
}
