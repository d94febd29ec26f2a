/**
 Where the residency bookkeeping falls short, and exactly when it does.
 */
module ResidencyLimits {
  import opened JobDeps
  import opened GemObject
  import opened LruLists
  import opened Inactive
  import opened Residency
  import opened ResidencyCore
  import opened ResidencySafety

  // ---------------------------------------------------------------- purging under a kernel mapping

  /** Kernel mappings point to pages that are there. */
  ghost predicate KernelMapsOk(c: Core) {
    forall o :: 0 <= o < |c.objs| && c.objs[o].live ==> (c.objs[o].vaddr ==> c.objs[o].pages)
  }

  /** is_purgeable does not look at vmap_count, and put_pages follows a refused vunmap. */
  predicate PurgesMapped(c: Core, step: Step) {
    && step.ByShrinker? && step.shrink.Purge? && step.shrink.o < |c.objs|
    && c.objs[step.shrink.o].vaddr && c.objs[step.shrink.o].vmapCount > 0
  }

  lemma ClientsKeepKernelMaps(c: Core, step: ClientStep)
    requires ClientEnabled(c, step) && KernelMapsOk(c)
    ensures KernelMapsOk(ClientApply(c, step))
  {
    var c' := ClientApply(c, step);
    forall o | 0 <= o < |c.objs| ensures c'.objs[o].live ==> c'.objs[o].vaddr ==> c'.objs[o].pages {
      assert c.objs[o].live ==> c.objs[o].vaddr ==> c.objs[o].pages;
    }
  }

  lemma SubmitsKeepKernelMaps(c: Core, step: SubmitStep)
    requires SubmitEnabled(c, step) && KernelMapsOk(c)
    ensures KernelMapsOk(SubmitApply(c, step))
  {
  }

  lemma ShrinkerAndKernelMaps(c: Core, step: ShrinkStep)
    requires ShrinkEnabled(c, step) && KernelMapsOk(c)
    ensures KernelMapsOk(ShrinkApply(c, step)) <==> !PurgesMapped(c, ByShrinker(step))
  {
    if step.Purge? {
      assert ShrinkApply(c, step).objs[step.o] == PurgedObj(c.objs[step.o]);
    }
  }

  /** The pages under a kernel mapping stay, except when an object is purged whose mapping is in
      use; then they always go. */
  lemma KernelMapsLostIffPurged(st: State, step: Step)
    requires WellPlaced(st.core.objs, st.mm) && Enabled(st, step) && KernelMapsOk(st.core)
    ensures KernelMapsOk(Apply(st, step).core) <==> !PurgesMapped(st.core, step)
  {
    match step
    case ByClient(s) => ClientsKeepKernelMaps(st.core, s);
    case BySubmit(s) => SubmitsKeepKernelMaps(st.core, s);
    case ByJob(s) =>
    case ByShrinker(s) => ShrinkerAndKernelMaps(st.core, s);
  }

  lemma ClientsDoNotUnmap(c: Core, step: ClientStep)
    requires ClientEnabled(c, step)
    ensures VunmapBusy in ClientApply(c, step).warned <==> VunmapBusy in c.warned
  {
  }

  lemma SubmitsDoNotUnmap(c: Core, step: SubmitStep)
    requires SubmitEnabled(c, step)
    ensures VunmapBusy in SubmitApply(c, step).warned <==> VunmapBusy in c.warned
  {
  }

  /** msm_gem_vunmap refuses a mapping in use, and warns, exactly in that case. */
  lemma VunmapWarnsIffPurgesMapped(st: State, step: Step)
    requires WellPlaced(st.core.objs, st.mm) && Enabled(st, step)
    ensures VunmapBusy in Apply(st, step).core.warned <==> VunmapBusy in st.core.warned || PurgesMapped(st.core, step)
  {
    match step
    case ByClient(s) => ClientsDoNotUnmap(st.core, s);
    case BySubmit(s) => SubmitsDoNotUnmap(st.core, s);
    case ByJob(s) =>
    case ByShrinker(s) =>
  }

  // ---------------------------------------------------------------- pages without an sg table

  ghost predicate SgTablesOk(c: Core) {
    forall o :: 0 <= o < |c.objs| && c.objs[o].live ==> (c.objs[o].pages <==> c.objs[o].sgt)
  }

  predicate LosesSgt(obj: Obj, how: Backing) {
    obj.madv == WillNeed && !obj.pages && how == NoSgt
  }

  /** get_pages has its pages but cannot make the sg table. */
  predicate SgtFails(c: Core, step: Step) {
    match step
    case ByClient(PinIova(o, v, how, mapOk)) => o < |c.objs| && LosesSgt(c.objs[o], how)
    case ByClient(PinPages(o, how)) => o < |c.objs| && LosesSgt(c.objs[o], how)
    case ByClient(Fault(o, how)) => o < |c.objs| && LosesSgt(c.objs[o], how)
    case ByClient(GetVaddr(o, how, vmapOk)) => o < |c.objs| && !c.objs[o].vaddr && LosesSgt(c.objs[o], how)
    case BySubmit(Pin(i, v, how, mapOk)) =>
      i < |c.uses| && c.uses[i].obj < |c.objs| && LosesSgt(c.objs[c.uses[i].obj], how)
    case _ => false
  }

  lemma ClientsAndSgTables(c: Core, step: ClientStep)
    requires ClientEnabled(c, step) && SgTablesOk(c)
    ensures SgTablesOk(ClientApply(c, step)) <==> !SgtFails(c, ByClient(step))
  {
    if SgtFails(c, ByClient(step)) {
      var obj := ClientApply(c, step).objs[step.o];
      assert obj.live && obj.pages && !obj.sgt;
    }
  }

  lemma SubmitsAndSgTables(c: Core, step: SubmitStep)
    requires SubmitEnabled(c, step) && SgTablesOk(c)
    ensures SgTablesOk(SubmitApply(c, step)) <==> !SgtFails(c, BySubmit(step))
  {
    if SgtFails(c, BySubmit(step)) {
      var obj := SubmitApply(c, step).objs[c.uses[step.i].obj];
      assert obj.live && obj.pages && !obj.sgt;
    }
  }

  /** Pages and sg table come and go together, except when get_pages fails half way; then the pages
      always stay behind alone. */
  lemma SgTablesLostIffSgtFails(st: State, step: Step)
    requires WellPlaced(st.core.objs, st.mm) && Enabled(st, step) && SgTablesOk(st.core)
    ensures SgTablesOk(Apply(st, step).core) <==> !SgtFails(st.core, step)
  {
    match step
    case ByClient(s) => ClientsAndSgTables(st.core, s);
    case BySubmit(s) => SubmitsAndSgTables(st.core, s);
    case ByJob(s) =>
    case ByShrinker(s) =>
  }

  /** As long as that has not happened, whatever is mapped has an sg table. */
  lemma {:induction false} MappedHasSgTable(states: seq<State>, steps: seq<Step>, n: nat, v: nat)
    requires IsRun(states, steps) && n < |states| && v < |states[n].core.vmas| && states[n].core.vmas[v].mapped
    requires forall i :: 0 <= i < n ==> !SgtFails(states[i].core, steps[i])
    ensures states[n].core.vmas[v].obj < |states[n].core.objs| && states[n].core.objs[states[n].core.vmas[v].obj].sgt
  {
    SgTablesAlways(states, steps, n);
    InvAlways(states, steps, n);
    assert VmaOk(states[n].core, states[n].core.vmas[v]);
  }

  lemma {:induction false} SgTablesAlways(states: seq<State>, steps: seq<Step>, n: nat)
    requires IsRun(states, steps) && n < |states|
    requires forall i :: 0 <= i < n ==> !SgtFails(states[i].core, steps[i])
    ensures SgTablesOk(states[n].core)
  {
    if n > 0 {
      SgTablesAlways(states, steps, n - 1);
      assert StepsTo(states[n - 1], steps[n - 1], states[n]);
      SgTablesLostIffSgtFails(states[n - 1], steps[n - 1]);
    }
  }

  // ---------------------------------------------------------------- evicting what is not counted as evictable

  /** The evictable flag is right for every object that is_unevictable would let go, unless the shrinker
      took its kernel mapping after the last update_inactive. */
  lemma EvictableIsWhatMayGo(states: seq<State>, steps: seq<Step>, n: nat, o: nat)
    requires IsRun(states, steps) && n < |states| && Live(states[n].core, o)
    requires states[n].core.objs[o].lock == None && !Unevictable(states[n].core.objs[o])
    ensures var obj := states[n].core.objs[o];
            && o < |states[n].mm.flags|
            && (!states[n].mm.flags[o].unmapped ==>
                  (states[n].mm.flags[o].evictable <==> obj.madv == WillNeed && obj.sgt))
            && (states[n].mm.flags[o].evictable <==> states[n].mm.flags[o].last == AsInactive(true))
  {
    InvAlways(states, steps, n);
    assert FlagsSound(states[n].core.objs[o], states[n].mm.flags[o]);
    ActiveIsPinned(states[n].core, o);
  }

  /** The object is no longer WILLNEED, or lost its sg table; or its kernel mapping was taken after the
      last update_inactive, and when the flag could last be set it was not. */
  predicate EvictsUncounted(st: State, step: Step) {
    && step.ByShrinker? && step.shrink.Evict? && step.shrink.o < |st.core.objs| && step.shrink.o < |st.mm.flags|
    && var obj, flags := st.core.objs[step.shrink.o], st.mm.flags[step.shrink.o];
       if flags.unmapped then flags.last != AsInactive(true) else obj.madv != WillNeed || !obj.sgt
  }

  lemma NoOtherWarning(objs: seq<Obj>, mm: Mm, o: nat)
    requires Placed(objs, mm, o)
    ensures EvictUnmarked in UpdateInactive(objs, mm, o).warned <==> EvictUnmarked in mm.warned
    ensures EvictUnmarked in MakeActive(objs, mm, o).warned <==> EvictUnmarked in mm.warned
    ensures EvictUnmarked in Forget(objs, mm, o).warned <==> EvictUnmarked in mm.warned
  {
  }

  lemma ReleaseWarnsOther(objs: seq<Obj>, mm: Mm, use: Use)
    requires Placed(objs, mm, use.obj)
    ensures EvictUnmarked in MmRelease(objs, mm, use).warned <==> EvictUnmarked in mm.warned
  {
    NoOtherWarning(objs[use.obj := WithoutPins(objs[use.obj], use)], mm, use.obj);
  }

  lemma GetPagesWarnsOther(objs: seq<Obj>, mm: Mm, o: nat, how: Backing)
    requires Placed(objs, mm, o)
    ensures EvictUnmarked in MmGetPages(objs, mm, o, how).warned <==> EvictUnmarked in mm.warned
    ensures forall objs' :: Placed(objs', mm, o) ==> Placed(objs', MmGetPages(objs, mm, o, how), o)
  {
    NoOtherWarning(objs[o := WithPages(objs[o], how)], mm, o);
  }

  lemma ClientsWarnOther(c: Core, mm: Mm, step: ClientStep)
    requires WellPlaced(c.objs, mm) && ClientEnabled(c, step)
    ensures EvictUnmarked in ClientMm(c, mm, step).warned <==> EvictUnmarked in mm.warned
  {
    match step
    case DropRef(i) => ReleaseWarnsOther(c.objs, mm, c.uses[i]);
    case UnpinIova(i) => ReleaseWarnsOther(c.objs, mm, c.uses[i]);
    case UnpinPages(i) => ReleaseWarnsOther(c.objs, mm, c.uses[i]);
    case PinIova(o, v, how, mapOk) => GetPagesWarnsOther(c.objs, mm, o, how);
    case Fault(o, how) => GetPagesWarnsOther(c.objs, mm, o, how);
    case PinPages(o, how) =>
      GetPagesWarnsOther(c.objs, mm, o, how);
      var obj := WithPages(c.objs[o], how);
      NoOtherWarning(c.objs[o := obj.(pinCount := obj.pinCount + 1)], MmGetPages(c.objs, mm, o, how), o);
    case GetVaddr(o, how, vmapOk) =>
      GetPagesWarnsOther(c.objs, mm, o, how);
      NoOtherWarning(c.objs[o := WithPages(c.objs[o], how).(vaddr := true)], MmGetPages(c.objs, mm, o, how), o);
    case Madvise(o, madv) => NoOtherWarning(c.objs[o := AdvisedObj(c.objs[o], madv)], mm, o);
    case Free(o) => NoOtherWarning(c.objs, mm, o);
    case _ =>
  }

  lemma SubmitsWarnOther(c: Core, mm: Mm, step: SubmitStep)
    requires WellPlaced(c.objs, mm) && SubmitEnabled(c, step)
    ensures EvictUnmarked in SubmitMm(c, mm, step).warned <==> EvictUnmarked in mm.warned
  {
    match step
    case Activate(i) => NoOtherWarning(SubmitApply(c, step).objs, mm, c.uses[i].obj);
    case Pin(i, v, how, mapOk) => GetPagesWarnsOther(c.objs, mm, c.uses[i].obj, how);
    case BackOff(i) => ReleaseWarnsOther(c.objs, mm, c.uses[i]);
    case Fail(i) => ReleaseWarnsOther(c.objs, mm, c.uses[i]);
    case _ =>
  }

  lemma ShrinkerWarns(c: Core, mm: Mm, step: ShrinkStep)
    requires WellPlaced(c.objs, mm) && ShrinkEnabled(c, step) && CanScan(c, mm, step)
    ensures EvictUnmarked in ShrinkMm(c, mm, step).warned
       <==> EvictUnmarked in mm.warned || (step.Evict? && !mm.flags[step.o].evictable)
  {
    match step
    case Purge(o) => NoOtherWarning(c.objs[o := PurgedObj(c.objs[o])], mm, o);
    case Evict(o) =>
      var warned := mm.(warned := Warn(mm.warned, !mm.flags[o].evictable, EvictUnmarked));
      NoOtherWarning(c.objs[o := EvictedObj(c.objs[o])], warned, o);
    case _ =>
  }

  lemma StepWarns(st: State, step: Step)
    requires WellPlaced(st.core.objs, st.mm) && Enabled(st, step)
    ensures EvictUnmarked in Apply(st, step).mm.warned
       <==> EvictUnmarked in st.mm.warned
            || (step.ByShrinker? && step.shrink.Evict? && !st.mm.flags[step.shrink.o].evictable)
  {
    match step
    case ByClient(s) => ClientsWarnOther(st.core, st.mm, s);
    case BySubmit(s) => SubmitsWarnOther(st.core, st.mm, s);
    case ByJob(s) =>
      if s.Retire? {
        ReleaseWarnsOther(st.core.objs, st.mm, st.core.uses[s.i]);
      }
    case ByShrinker(s) => ShrinkerWarns(st.core, st.mm, s);
  }

  /** msm_gem_evict warns of an object that is not counted as evictable exactly if, at some point of the
      run, it was called for such an object. */
  lemma {:induction false} EvictWarnsIffUncounted(states: seq<State>, steps: seq<Step>, n: nat)
    requires IsRun(states, steps) && n < |states|
    ensures EvictUnmarked in states[n].mm.warned <==> EvictedUncounted(states, steps, n)
  {
    if n > 0 {
      EvictWarnsIffUncounted(states, steps, n - 1);
      EvictWarnsNow(states, steps, n - 1);
      OneStepMore(states, steps, n - 1);
    }
  }

  /** In the first `n` steps. */
  ghost predicate EvictedUncounted(states: seq<State>, steps: seq<Step>, n: nat)
    requires n <= |steps| && n <= |states|
  {
    exists i :: 0 <= i < n && EvictsUncounted(states[i], steps[i])
  }

  lemma OneStepMore(states: seq<State>, steps: seq<Step>, n: nat)
    requires n < |steps| && n < |states|
    ensures EvictedUncounted(states, steps, n + 1)
       <==> EvictedUncounted(states, steps, n) || EvictsUncounted(states[n], steps[n])
  {
  }

  lemma EvictWarnsNow(states: seq<State>, steps: seq<Step>, n: nat)
    requires IsRun(states, steps) && n < |steps|
    ensures EvictUnmarked in states[n + 1].mm.warned
       <==> EvictUnmarked in states[n].mm.warned || EvictsUncounted(states[n], steps[n])
  {
    assert StepsTo(states[n], steps[n], states[n + 1]);
    StepWarns(states[n], steps[n]);
    if steps[n].ByShrinker? && steps[n].shrink.Evict? {
      EvictableIsWhatMayGo(states, steps, n, steps[n].shrink.o);
    }
  }

  // ---------------------------------------------------------------- runs that get there

  datatype Trace = Trace(states: seq<State>, steps: seq<Step>) {
    ghost predicate Valid() {
      IsRun(states, steps)
    }

    function Last(): State
      requires states != []
    {
      states[|states| - 1]
    }

    ghost function Then(step: Step): (t: Trace)
      requires Valid() && WellPlaced(Last().core.objs, Last().mm) && Enabled(Last(), step)
      ensures t.Valid() && t.Last() == Apply(Last(), step)
    {
      Trace(states + [Apply(Last(), step)], steps + [step])
    }
  }

  function Start(): State {
    State(Core([], [], [], [], [Ring(0, 0, None)], {}), Mm([], NoLists(), 0, 0, 0, {}))
  }

  lemma Extend(t: Trace, step: Step) returns (t': Trace)
    requires t.Valid() && Enabled(t.Last(), step)
    ensures t'.Valid() && WellPlaced(t.Last().core.objs, t.Last().mm) && t'.Last() == Apply(t.Last(), step)
  {
    InvAlways(t.states, t.steps, |t.steps|);
    t' := t.Then(step);
  }

  lemma OneObject() returns (t: Trace)
    ensures t.Valid() && t.Last().core.objs == [NewObj(1, false)] && t.Last().core.vmas == []
    ensures t.Last().core.uses == [NewUse(Client, 0)] && t.Last().core.warned == {}
    ensures t.Last().core.subs == [] && t.Last().core.rings == [Ring(0, 0, None)]
    ensures t.Last().mm.flags == [Flags(false, false, Never, false)] && |t.Last().mm.lists.lists| == 4
  {
    t := Trace([Start()], []);
    t := Extend(t, ByClient(New(1, false)));
  }

  lemma MappedAndUnneeded() returns (t: Trace)
    ensures t.Valid() && t.Last().core.objs ==
      [NewObj(1, false).(pages := true, sgt := true, vaddr := true, vmapCount := 1, madv := DontNeed)]
  {
    t := OneObject();
    t := Extend(t, ByClient(GetVaddr(0, Backed, true)));
    t := Extend(t, ByClient(Madvise(0, DontNeed)));
  }

  /** A client maps a buffer into the kernel and calls it unneeded; the shrinker takes the pages. */
  lemma PurgedUnderKernelMapping() returns (t: Trace)
    ensures t.Valid() && |t.Last().core.objs| == 1 && VunmapBusy in t.Last().core.warned
    ensures var obj := t.Last().core.objs[0]; obj.live && obj.vaddr && obj.vmapCount == 1 && !obj.pages
  {
    t := MappedAndUnneeded();
    t := Extend(t, ByShrinker(Purge(0)));
  }

  /** After a failure to make the sg table the next pin succeeds and maps without one. */
  lemma MappedWithoutSgTable() returns (t: Trace)
    ensures t.Valid() && |t.Last().core.vmas| == 1 && |t.Last().core.objs| == 1
    ensures t.Last().core.vmas[0].mapped && t.Last().core.vmas[0].obj == 0 && !t.Last().core.objs[0].sgt
  {
    t := OneObject();
    t := Extend(t, ByClient(Fault(0, NoSgt)));
    t := Extend(t, ByClient(GetVma(0, 0)));
    t := Extend(t, ByClient(PinIova(0, 0, Backed, true)));
  }

  /** evictable_count keeps the pages of an object that was freed while it counted as evictable. */
  lemma FreedPagesStayEvictable() returns (t: Trace)
    ensures t.Valid() && |t.Last().core.objs| == 1 && !t.Last().core.objs[0].live && t.Last().mm.leaked == 1
  {
    t := Trace([Start()], []);
    t := Extend(t, ByClient(New(1, false)));
    t := Extend(t, ByClient(Fault(0, Backed)));
    assert t.Last().mm.flags == [Flags(false, true, AsInactive(true), false)];
    t := Extend(t, ByClient(DropRef(0)));
    t := Extend(t, ByClient(Free(0)));
  }

  lemma BaseOfKind(lists: Lists, objs: seq<Obj>, k: nat)
    requires Linked(lists, objs) && k < 4
    ensures k == Base(lists.lists[k].kind)
  {
    var kind := if k == 0 then ActiveList else if k == 1 then WillNeedList
                else if k == 2 then DontNeedList else UnpinnedList;
    assert lists.lists[Base(kind)].kind == kind;
  }

  /** A scan of the WILLNEED list reaches the only object. */
  lemma ScanReaches(t: Trace) returns (t': Trace)
    requires t.Valid() && |t.Last().core.objs| == 1 && |t.Last().mm.lists.lists| == 4
    requires var obj := t.Last().core.objs[0];
             obj.live && !obj.imported && obj.madv == WillNeed && obj.sgt && obj.activeCount == 0
    ensures t'.Valid() && t'.Last().core == t.Last().core && t'.Last().mm.flags == t.Last().mm.flags
  {
    var mm := t.Last().mm;
    InvAlways(t.states, t.steps, |t.steps|);
    assert AtHome(mm.lists, 0, t.Last().core.objs[0]);
    assert OnItsList(mm.lists, 0, mm.lists.on[0]);
    BaseOfKind(mm.lists, t.Last().core.objs, mm.lists.on[0]);
    t' := Extend(t, ByShrinker(BeginScan(WillNeedList)));
    var list := t'.Last().mm.lists.lists[Base(WillNeedList)];
    assert list == mm.lists.lists[Base(WillNeedList)];
    assert ListSound(mm.lists, t.Last().core.objs, Base(WillNeedList), list);
    assert list.members[0] in list.members;
    t' := Extend(t', ByShrinker(ScanNext(4)));
  }

  /** While a scan looks at an object, its owner calls it unneeded; the scan evicts it. */
  lemma EvictedThoughUnneeded() returns (t: Trace)
    ensures t.Valid() && EvictUnmarked in t.Last().mm.warned
  {
    t := OneObject();
    t := Extend(t, ByClient(Fault(0, Backed)));
    t := ScanReaches(t);
    t := Extend(t, ByClient(Madvise(0, DontNeed)));
    t := Extend(t, ByShrinker(Evict(0)));
    EvictWarnsNow(t.states, t.steps, |t.steps| - 1);
  }

  /** A new object, with an address for it. */
  function Fresh(): Core {
    Core([NewObj(1, false)], [Vma(0, 0, true, false, 0, [0])], [NewUse(Client, 0)], [], [Ring(0, 0, None)], {})
  }

  /** A submit has pinned the object. */
  function Pinned(): Core {
    var obj := NewObj(1, false).(
      pages := true, sgt := true, activeCount := 1, pinCount := 1, refs := 2, lock := Some(1));
    Fresh().(objs := [obj], vmas := [Vma(0, 0, true, true, 1, [0])], subs := [Sub(0, 0, Building)],
             uses := [NewUse(Client, 0), Use(Submit(0), 0, 0, true, true, true, true, true)])
  }

  lemma OneAddress() returns (t: Trace)
    ensures t.Valid() && t.Last().core == Fresh() && |t.Last().mm.lists.lists| == 4
    ensures t.Last().mm.flags == [Flags(false, false, Never, false)]
  {
    t := OneObject();
    t := Extend(t, ByClient(GetVma(0, 0)));
    assert t.Last().core.vmas[0].fence == [0];
  }

  lemma LockedBySubmit() returns (t: Trace)
    ensures t.Valid() && |t.Last().mm.lists.lists| == 4 && t.Last().mm.flags == [Flags(false, false, Never, false)]
    ensures t.Last().core == Fresh().(
              objs := [NewObj(1, false).(refs := 2, lock := Some(1))], subs := [Sub(0, 0, Building)],
              uses := [NewUse(Client, 0), NewUse(Submit(0), 0).(locked := true)])
  {
    t := OneAddress();
    t := Extend(t, BySubmit(NewSubmit(0, 0)));
    t := Extend(t, BySubmit(Lookup(0, 0)));
    t := Extend(t, BySubmit(Lock(1)));
  }

  lemma PinnedBySubmit() returns (t: Trace)
    ensures t.Valid() && t.Last().core == Pinned() && |t.Last().mm.lists.lists| == 4
    ensures t.Last().mm.flags == [Flags(false, false, AsActive, false)]
  {
    t := LockedBySubmit();
    t := Extend(t, BySubmit(Activate(1)));
    t := Extend(t, BySubmit(Pin(1, 0, Backed, true)));
    assert t.Last().core.objs == Pinned().objs && t.Last().core.uses == Pinned().uses;
  }

  /** The object is patched under its kernel mapping, and the submit fails. */
  lemma PatchedAndFailed() returns (t: Trace)
    ensures t.Valid() && |t.Last().mm.lists.lists| == 4
    ensures t.Last().core.objs == [NewObj(1, false).(pages := true, sgt := true, vaddr := true)]
    ensures t.Last().mm.flags == [Flags(false, false, AsActive, false)]
  {
    t := PinnedBySubmit();
    t := Extend(t, ByClient(GetVaddr(0, Backed, true)));
    t := Extend(t, ByClient(PutVaddr(0)));
    t := Extend(t, BySubmit(Fail(1)));
  }

  /** A submit patches a buffer and is done with it, the shrinker takes the kernel mapping, and a scan
      evicts the buffer, which is not counted as evictable. */
  lemma EvictedThoughNotCounted() returns (t: Trace)
    ensures t.Valid() && EvictUnmarked in t.Last().mm.warned
  {
    t := PatchedAndFailed();
    t := Extend(t, ByShrinker(Vunmap(0)));
    t := ScanReaches(t);
    t := Extend(t, ByShrinker(Evict(0)));
    EvictWarnsNow(t.states, t.steps, |t.steps| - 1);
  }
}
