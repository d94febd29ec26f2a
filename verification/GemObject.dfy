/**
 Buffer objects and the device-wide page counts: msm/msm_gem.h, and update_inactive of msm/msm_gem.c.
 */
module GemObject {
  import opened JobDeps

  datatype Madv = WillNeed | DontNeed | Purged

  /** A page-backed buffer object of `size` pages. `lock` names the submit's use that holds the
      reservation lock across critical sections. The flags `dontneed` and `evictable`, which belong
      to the bookkeeping under mm_lock, are kept in `Flags`. */
  datatype Obj = Obj(
    live: bool, size: nat, imported: bool, madv: Madv,
    pages: bool, sgt: bool, vaddr: bool, vmapCount: nat,
    activeCount: int, pinCount: int, refs: int, lock: Option<nat>)

  /** Which call last set the evictable flag, or left it cleared: update_inactive, having found the
      object WILLNEED with an sg table or not, or msm_gem_active_get. */
  datatype LastMark = Never | AsInactive(willNeedSgt: bool) | AsActive

  /** `last` and `unmapped` are history: the last of the calls that found the object not unevictable,
      and whether the shrinker has taken the kernel mapping since the last update_inactive. */
  datatype Flags = Flags(dontneed: bool, evictable: bool, last: LastMark, unmapped: bool)

  /** The GEM_WARN_ONs of the driver. */
  datatype Warning =
    | DoubleMark           // marked or unmarked twice
    | NegativeCount        // shrinkable_count or evictable_count below zero
    | SgtOnUnpinnedList    // update_inactive finds an sg table it did not expect
    | NegativePinCount
    | UnpinUnusedVma
    | PurgeVmaInUse
    | CloseVmaInUse
    | PurgeUnpurgeable
    | EvictUnevictable
    | EvictActive
    | FreeActive
    | EvictUnmarked        // the object was not counted as evictable
    | VunmapBusy           // the kernel mapping is in use
    | UseNotWillNeed       // pinned, made active or faulted in although not WILLNEED

  /** The warnings that the device's bookkeeping must never give. */
  predicate Forbidden(w: Warning) {
    !w.EvictUnmarked? && !w.VunmapBusy? && !w.UseNotWillNeed?
  }

  // ---------------------------------------------------------------- predicates on objects

  predicate Unpurgeable(obj: Obj) {
    obj.imported || obj.pinCount != 0
  }

  predicate Purgeable(obj: Obj) {
    obj.madv == DontNeed && obj.sgt && !Unpurgeable(obj)
  }

  predicate Vunmapable(obj: Obj) {
    obj.vmapCount == 0 && obj.vaddr
  }

  predicate Unevictable(obj: Obj) {
    Unpurgeable(obj) || obj.vaddr
  }

  // ---------------------------------------------------------------- counted flags

  /** An object's flags, the two counts of the device, and the warnings given so far. */
  datatype Marks = Marks(flags: Flags, shrinkable: int, evictable: int, warned: set<Warning>)

  function Warn(warned: set<Warning>, when: bool, w: Warning): set<Warning> {
    if when then warned + {w} else warned
  }

  function MarkPurgeable(obj: Obj, m: Marks): Marks {
    if Unpurgeable(obj) then m
    else if m.flags.dontneed then m.(warned := m.warned + {DoubleMark})
    else m.(flags := m.flags.(dontneed := true), shrinkable := m.shrinkable + obj.size)
  }

  function MarkUnpurgeable(obj: Obj, m: Marks): Marks {
    if Unpurgeable(obj) then m
    else if !m.flags.dontneed then m.(warned := m.warned + {DoubleMark})
    else
      var count := m.shrinkable - obj.size;
      m.(flags := m.flags.(dontneed := false), shrinkable := count, warned := Warn(m.warned, count < 0, NegativeCount))
  }

  function MarkEvictable(obj: Obj, m: Marks): Marks {
    if Unevictable(obj) then m
    else if m.flags.evictable then m.(warned := m.warned + {DoubleMark})
    else m.(flags := m.flags.(evictable := true), evictable := m.evictable + obj.size)
  }

  function MarkUnevictable(obj: Obj, m: Marks): Marks {
    if Unevictable(obj) then m
    else if !m.flags.evictable then m.(warned := m.warned + {DoubleMark})
    else
      var count := m.evictable - obj.size;
      m.(flags := m.flags.(evictable := false), evictable := count, warned := Warn(m.warned, count < 0, NegativeCount))
  }

  /** The history after update_inactive. */
  function Updated(obj: Obj, flags: Flags): Flags {
    flags.(unmapped := false,
           last := if Unevictable(obj) then flags.last else AsInactive(obj.madv == WillNeed && obj.sgt))
  }

  /** The flag part of update_inactive for an object that is not active. */
  function UpdateMarks(obj: Obj, m: Marks): Marks {
    var m := m.(flags := Updated(obj, m.flags));
    var m := if m.flags.dontneed then MarkUnpurgeable(obj, m) else m;
    var m := if m.flags.evictable then MarkUnevictable(obj, m) else m;
    if obj.madv == WillNeed && obj.sgt then MarkEvictable(obj, m)
    else if obj.madv == DontNeed then MarkPurgeable(obj, m)
    else m.(warned := Warn(m.warned, obj.madv != Purged && obj.sgt, SgtOnUnpinnedList))
  }

  function PagesIf(flag: bool, obj: Obj): nat {
    if flag then obj.size else 0
  }

  /** update_inactive keeps both counts in step with the flags and gives no warning, provided the
      counts include this object's pages; and it leaves the right flags. */
  lemma UpdateMarksEffect(obj: Obj, m: Marks)
    requires m.shrinkable >= PagesIf(m.flags.dontneed, obj) && m.evictable >= PagesIf(m.flags.evictable, obj)
    ensures var m' := UpdateMarks(obj, m);
            && m'.warned == m.warned
            && m'.shrinkable - PagesIf(m'.flags.dontneed, obj) == m.shrinkable - PagesIf(m.flags.dontneed, obj)
            && m'.evictable - PagesIf(m'.flags.evictable, obj) == m.evictable - PagesIf(m.flags.evictable, obj)
            && m'.flags.dontneed == (if Unpurgeable(obj) then m.flags.dontneed else obj.madv == DontNeed)
            && m'.flags.evictable ==
               (if Unevictable(obj) then m.flags.evictable else obj.madv == WillNeed && obj.sgt)
            && m'.flags.last == Updated(obj, m.flags).last && !m'.flags.unmapped
  {
  }
}
