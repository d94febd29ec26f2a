/**
 What the driver keeps under mm_lock: the lists and the two page counts, with the operations that
 change them: update_inactive, msm_gem_active_get and the mm_lock section of msm_gem_free_object
 (msm/msm_gem.c, msm/msm_gem.h).
 */
module Inactive {
  import opened GemObject
  import opened LruLists

  /** `leaked` is ghost state: pages of objects that were freed while counted as evictable. */
  datatype Mm = Mm(
    flags: seq<Flags>, lists: Lists, shrinkable: int, evictable: int, leaked: nat, warned: set<Warning>)

  // ---------------------------------------------------------------- operations

  predicate Placed(objs: seq<Obj>, mm: Mm, o: nat) {
    && o < |objs| && objs[o].live && o < |mm.flags|
    && o < |mm.lists.on| && mm.lists.on[o] < |mm.lists.lists| && |mm.lists.lists| >= 4
  }

  function MarksOf(mm: Mm, o: nat): Marks
    requires o < |mm.flags|
  {
    Marks(mm.flags[o], mm.shrinkable, mm.evictable, mm.warned)
  }

  function WithMarks(mm: Mm, o: nat, m: Marks): Mm
    requires o < |mm.flags|
  {
    mm.(flags := mm.flags[o := m.flags], shrinkable := m.shrinkable, evictable := m.evictable, warned := m.warned)
  }

  function UpdateInactive(objs: seq<Obj>, mm: Mm, o: nat): Mm
    requires Placed(objs, mm, o)
  {
    if objs[o].activeCount != 0 then mm
    else
      WithMarks(mm, o, UpdateMarks(objs[o], MarksOf(mm, o)))
        .(lists := Move(mm.lists, o, Base(Home(objs[o]))))
  }

  /** msm_gem_active_get, on an object that already counts as active once more. */
  function MakeActive(objs: seq<Obj>, mm: Mm, o: nat): Mm
    requires Placed(objs, mm, o)
  {
    var warned := Warn(mm.warned, objs[o].madv != WillNeed || mm.flags[o].dontneed, UseNotWillNeed);
    if objs[o].activeCount != 1 then mm.(warned := warned)
    else
      var marks := MarksOf(mm.(warned := warned), o);
      var m := if mm.flags[o].evictable then MarkUnevictable(objs[o], marks) else marks;
      var last := if Unevictable(objs[o]) then m.flags.last else AsActive;
      WithMarks(mm, o, m.(flags := m.flags.(last := last))).(lists := Move(mm.lists, o, Base(ActiveList)))
  }

  /** msm_gem_free_object: takes the pages out of shrinkable_count but not out of evictable_count. */
  function Forget(objs: seq<Obj>, mm: Mm, o: nat): Mm
    requires Placed(objs, mm, o)
  {
    var m := if mm.flags[o].dontneed then MarkUnpurgeable(objs[o], MarksOf(mm, o)) else MarksOf(mm, o);
    WithMarks(mm, o, m).(lists := Remove(mm.lists, o), leaked := mm.leaked + PagesIf(mm.flags[o].evictable, objs[o]))
  }

  /** msm_gem_vunmap by the shrinker: the flags stay as they are. */
  function NoteUnmapped(mm: Mm, o: nat): Mm
    requires o < |mm.flags|
  {
    mm.(flags := mm.flags[o := mm.flags[o].(unmapped := true)])
  }

  function ListNew(mm: Mm): Mm
    requires |mm.lists.lists| >= 4
  {
    mm.(flags := mm.flags + [Flags(false, false, Never, false)], lists := AddNew(mm.lists))
  }

  // ---------------------------------------------------------------- page counts

  function Pages(evict: bool, obj: Obj, flags: Flags): nat {
    PagesIf(obj.live && (if evict then flags.evictable else flags.dontneed), obj)
  }

  /** The pages of the first `n` objects as far as they are flagged dontneed, or evictable. */
  function FlaggedPages(objs: seq<Obj>, flags: seq<Flags>, evict: bool, n: nat): nat
    requires n <= |objs| && n <= |flags|
  {
    if n == 0 then 0 else FlaggedPages(objs, flags, evict, n - 1) + Pages(evict, objs[n - 1], flags[n - 1])
  }

  /** The sum changes with the one object that changes. */
  lemma {:induction false} FlaggedPagesChange(
      objs: seq<Obj>, flags: seq<Flags>, objs': seq<Obj>, flags': seq<Flags>, evict: bool, o: nat, n: nat)
    requires o < |objs| && |objs| == |flags| == |objs'| == |flags'| && n <= |objs|
    requires forall p :: 0 <= p < n && p != o ==> Pages(evict, objs'[p], flags'[p]) == Pages(evict, objs[p], flags[p])
    ensures FlaggedPages(objs', flags', evict, n) == FlaggedPages(objs, flags, evict, n) +
            if o < n then Pages(evict, objs'[o], flags'[o]) - Pages(evict, objs[o], flags[o]) else 0
    ensures o < n ==> FlaggedPages(objs, flags, evict, n) >= Pages(evict, objs[o], flags[o])
  {
    if n > 0 {
      FlaggedPagesChange(objs, flags, objs', flags', evict, o, n - 1);
    }
  }

  lemma {:induction false} FlaggedPagesPrefix(
      objs: seq<Obj>, flags: seq<Flags>, objs': seq<Obj>, flags': seq<Flags>, evict: bool, n: nat)
    requires n <= |objs| && n <= |flags| && n <= |objs'| && n <= |flags'|
    requires forall p :: 0 <= p < n ==> Pages(evict, objs'[p], flags'[p]) == Pages(evict, objs[p], flags[p])
    ensures FlaggedPages(objs', flags', evict, n) == FlaggedPages(objs, flags, evict, n)
  {
    if n > 0 {
      FlaggedPagesPrefix(objs, flags, objs', flags', evict, n - 1);
    }
  }

  // ---------------------------------------------------------------- invariant

  ghost predicate CountsPages(objs: seq<Obj>, mm: Mm) {
    && |mm.flags| == |objs|
    && mm.shrinkable == FlaggedPages(objs, mm.flags, false, |objs|)
    && mm.evictable == FlaggedPages(objs, mm.flags, true, |objs|) + mm.leaked
  }

  /** Only pages that may be dropped at any time are counted as shrinkable, and all of them are unless
      the object is active. */
  predicate DontneedSound(obj: Obj, flags: Flags) {
    && (obj.live && flags.dontneed ==> obj.madv == DontNeed && !Unpurgeable(obj))
    && (obj.live && obj.activeCount == 0 && obj.madv == DontNeed && !Unpurgeable(obj) ==> flags.dontneed)
  }

  /** The evictable flag is what the last call that could set it made of it; and it is right for an
      object that is neither active nor unevictable, unless the kernel mapping was taken meanwhile. */
  predicate EvictableSound(obj: Obj, flags: Flags) {
    && (obj.live ==> flags.evictable == (flags.last == AsInactive(true)))
    && (obj.live && obj.activeCount == 0 && !Unevictable(obj) && !flags.unmapped ==>
          flags.evictable == (obj.madv == WillNeed && obj.sgt))
  }

  predicate FlagsSound(obj: Obj, flags: Flags) {
    DontneedSound(obj, flags) && EvictableSound(obj, flags)
  }

  predicate AtHome(lists: Lists, o: nat, obj: Obj) {
    obj.live && !obj.imported ==> OnKind(lists, o, Home(obj))
  }

  ghost predicate FlagsAndHomes(objs: seq<Obj>, mm: Mm) {
    && |mm.flags| == |objs|
    && (forall o :: 0 <= o < |objs| ==> FlagsSound(objs[o], mm.flags[o]))
    && (forall o :: 0 <= o < |objs| ==> AtHome(mm.lists, o, objs[o]))
  }

  /** shrinkable_count and evictable_count are right, every object is on exactly one list, that list
      is the one it belongs on, and no warning was given that must not be. */
  ghost predicate MmInv(objs: seq<Obj>, mm: Mm) {
    && CountsPages(objs, mm) && Linked(mm.lists, objs) && FlagsAndHomes(objs, mm)
    && forall w :: w in mm.warned ==> !Forbidden(w)
  }

  /** `objs'` differs from `objs` at most in object `o`, which stays the same object. */
  ghost predicate OnlyChanges(objs: seq<Obj>, objs': seq<Obj>, o: nat) {
    && |objs'| == |objs| && o < |objs|
    && (forall p :: 0 <= p < |objs| && p != o ==> objs'[p] == objs[p])
    && objs'[o].live == objs[o].live && objs'[o].size == objs[o].size && objs'[o].imported == objs[o].imported
  }

  /** The counts include the pages of each flagged object. */
  lemma CountsInclude(objs: seq<Obj>, mm: Mm, o: nat)
    requires CountsPages(objs, mm) && o < |objs| && objs[o].live
    ensures mm.shrinkable >= PagesIf(mm.flags[o].dontneed, objs[o])
    ensures mm.evictable >= PagesIf(mm.flags[o].evictable, objs[o])
  {
    FlaggedPagesChange(objs, mm.flags, objs, mm.flags, false, o, |objs|);
    FlaggedPagesChange(objs, mm.flags, objs, mm.flags, true, o, |objs|);
  }

  /** A change that does not concern lists and flags. */
  lemma QuietChange(objs: seq<Obj>, objs': seq<Obj>, mm: Mm, o: nat)
    requires MmInv(objs, mm) && OnlyChanges(objs, objs', o)
    requires Home(objs'[o]) == Home(objs[o]) && FlagsSound(objs'[o], mm.flags[o])
    ensures MmInv(objs', mm)
  {
    FlaggedPagesPrefix(objs, mm.flags, objs', mm.flags, false, |objs|);
    FlaggedPagesPrefix(objs, mm.flags, objs', mm.flags, true, |objs|);
    LinkedSameLive(mm.lists, objs, objs');
  }

  lemma UpdateCounts(objs: seq<Obj>, objs': seq<Obj>, mm: Mm, o: nat)
    requires CountsPages(objs, mm) && OnlyChanges(objs, objs', o) && Placed(objs', mm, o)
    ensures CountsPages(objs', UpdateInactive(objs', mm, o))
    ensures UpdateInactive(objs', mm, o).warned == mm.warned
    ensures objs'[o].activeCount == 0 ==>
              UpdateInactive(objs', mm, o).flags[o].dontneed ==
              if Unpurgeable(objs'[o]) then mm.flags[o].dontneed else objs'[o].madv == DontNeed
    ensures EvictableSound(objs[o], mm.flags[o]) ==> EvictableSound(objs'[o], UpdateInactive(objs', mm, o).flags[o])
  {
    var mm' := UpdateInactive(objs', mm, o);
    FlaggedPagesChange(objs, mm.flags, objs', mm'.flags, false, o, |objs|);
    FlaggedPagesChange(objs, mm.flags, objs', mm'.flags, true, o, |objs|);
    if objs'[o].activeCount == 0 {
      UpdateMarksEffect(objs'[o], MarksOf(mm, o));
    }
  }

  lemma UpdateLists(objs: seq<Obj>, objs': seq<Obj>, mm: Mm, o: nat)
    requires Linked(mm.lists, objs) && OnlyChanges(objs, objs', o) && Placed(objs', mm, o)
    ensures Linked(UpdateInactive(objs', mm, o).lists, objs')
    ensures forall p: nat, kind ::
              p != o && OnKind(mm.lists, p, kind) ==> OnKind(UpdateInactive(objs', mm, o).lists, p, kind)
    ensures objs'[o].activeCount == 0 ==> OnKind(UpdateInactive(objs', mm, o).lists, o, Home(objs'[o]))
  {
    LinkedSameLive(mm.lists, objs, objs');
    if objs'[o].activeCount == 0 {
      MoveLinked(mm.lists, objs', o, Base(Home(objs'[o])));
      assert mm.lists.lists[Base(Home(objs'[o]))].kind == Home(objs'[o]);
    }
  }

  /** A change to one object followed by update_inactive. The change may drop pins, as long as the
      object does not stay flagged while it is pinned. */
  lemma UpdateKeeps(objs: seq<Obj>, objs': seq<Obj>, mm: Mm, o: nat)
    requires MmInv(objs, mm) && OnlyChanges(objs, objs', o) && Placed(objs', mm, o)
    requires objs'[o].activeCount != 0 ==> objs[o].activeCount != 0
    requires DontneedSound(objs'[o], mm.flags[o]) || (!Unpurgeable(objs'[o]) && objs'[o].activeCount == 0)
    ensures MmInv(objs', UpdateInactive(objs', mm, o))
  {
    UpdateCounts(objs, objs', mm, o);
    UpdateLists(objs, objs', mm, o);
  }

  lemma NoteUnmappedKeeps(objs: seq<Obj>, objs': seq<Obj>, mm: Mm, o: nat)
    requires MmInv(objs, mm) && OnlyChanges(objs, objs', o) && objs'[o] == objs[o].(vaddr := false)
    ensures MmInv(objs', NoteUnmapped(mm, o))
  {
    var mm' := NoteUnmapped(mm, o);
    FlaggedPagesPrefix(objs, mm.flags, objs', mm'.flags, false, |objs|);
    FlaggedPagesPrefix(objs, mm.flags, objs', mm'.flags, true, |objs|);
    LinkedSameLive(mm.lists, objs, objs');
    assert FlagsSound(objs[o], mm.flags[o]);
  }

  lemma MakeActiveCounts(objs: seq<Obj>, objs': seq<Obj>, mm: Mm, o: nat)
    requires CountsPages(objs, mm) && OnlyChanges(objs, objs', o) && Placed(objs', mm, o)
    ensures CountsPages(objs', MakeActive(objs', mm, o))
    ensures forall w :: w in MakeActive(objs', mm, o).warned && w !in mm.warned ==> !Forbidden(w)
  {
    var mm' := MakeActive(objs', mm, o);
    FlaggedPagesChange(objs, mm.flags, objs', mm'.flags, false, o, |objs|);
    FlaggedPagesChange(objs, mm.flags, objs', mm'.flags, true, o, |objs|);
  }

  lemma MakeActiveKeeps(objs: seq<Obj>, objs': seq<Obj>, mm: Mm, o: nat)
    requires MmInv(objs, mm) && OnlyChanges(objs, objs', o) && Placed(objs', mm, o)
    requires objs[o].activeCount >= 0 && objs'[o] == objs[o].(activeCount := objs[o].activeCount + 1)
    ensures MmInv(objs', MakeActive(objs', mm, o))
  {
    MakeActiveCounts(objs, objs', mm, o);
    LinkedSameLive(mm.lists, objs, objs');
    MoveLinked(mm.lists, objs', o, Base(ActiveList));
  }

  lemma ForgetKeeps(objs: seq<Obj>, objs': seq<Obj>, mm: Mm, o: nat)
    requires MmInv(objs, mm) && Placed(objs, mm, o) && |objs'| == |objs| && !objs'[o].live
    requires forall p :: 0 <= p < |objs| && p != o ==> objs'[p] == objs[p]
    ensures MmInv(objs', Forget(objs, mm, o))
  {
    var mm' := Forget(objs, mm, o);
    FlaggedPagesChange(objs, mm.flags, objs', mm'.flags, false, o, |objs|);
    FlaggedPagesChange(objs, mm.flags, objs', mm'.flags, true, o, |objs|);
    RemoveLinked(mm.lists, objs, o, objs');
  }

  lemma ListNewKeeps(objs: seq<Obj>, obj: Obj, mm: Mm)
    requires MmInv(objs, mm) && obj.live && (obj.imported || Home(obj) == UnpinnedList)
    ensures MmInv(objs + [obj], ListNew(mm))
  {
    var objs', mm' := objs + [obj], ListNew(mm);
    FlaggedPagesPrefix(objs, mm.flags, objs', mm'.flags, false, |objs|);
    FlaggedPagesPrefix(objs, mm.flags, objs', mm'.flags, true, |objs|);
    AddNewLinked(mm.lists, objs, obj);
  }
}
