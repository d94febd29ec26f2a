/**
 Residency over whole runs: every interleaving of clients, submits, job runs, retiring, the hardware
 and the shrinker.
 */
module ResidencySafety {
  import opened JobDeps
  import opened GemObject
  import opened LruLists
  import opened Inactive
  import opened Residency
  import opened ResidencyCore
  import opened ResidencyMm

  ghost predicate Inv(st: State) {
    && CoreInv(st.core) && MmInv(st.core.objs, st.mm)
    && forall w :: w in st.core.warned ==> !Forbidden(w)
  }

  lemma InvKept(st: State, step: Step)
    requires Inv(st) && WellPlaced(st.core.objs, st.mm) && Enabled(st, step)
    ensures Inv(Apply(st, step))
  {
    match step
    case ByClient(s) =>
      ClientKeeps(st.core, s);
      ClientWarnsLittle(st.core, s);
      ClientMmKeeps(st.core, st.mm, s);
    case BySubmit(s) =>
      SubmitKeeps(st.core, s);
      SubmitWarnsLittle(st.core, s);
      SubmitMmKeeps(st.core, st.mm, s);
    case ByJob(s) =>
      JobKeeps(st.core, s);
      JobMmKeeps(st.core, st.mm, s);
    case ByShrinker(s) =>
      ShrinkKeeps(st.core, s);
      ShrinkMmKeeps(st.core, st.mm, s);
  }

  // ---------------------------------------------------------------- runs

  function NoLists(): Lists {
    Lists([LruList(ActiveList, []), LruList(WillNeedList, []), LruList(DontNeedList, []),
           LruList(UnpinnedList, [])], [])
  }

  predicate Init(st: State) {
    && st.core.objs == [] && st.core.vmas == [] && st.core.uses == [] && st.core.subs == []
    && (forall r :: 0 <= r < |st.core.rings| ==> st.core.rings[r] == Ring(0, 0, None))
    && st.core.warned == {} && st.mm == Mm([], NoLists(), 0, 0, 0, {})
  }

  ghost predicate StepsTo(st: State, step: Step, st': State) {
    WellPlaced(st.core.objs, st.mm) && Enabled(st, step) && st' == Apply(st, step)
  }

  ghost predicate IsRun(states: seq<State>, steps: seq<Step>) {
    && |states| == |steps| + 1 && Init(states[0])
    && forall i :: 0 <= i < |steps| ==> StepsTo(states[i], steps[i], states[i + 1])
  }

  lemma InitInv(st: State)
    requires Init(st)
    ensures Inv(st)
  {
  }

  /** Every reachable state is sound; that objects can always be found on their lists, which the
      steps need, is part of it. */
  lemma {:induction false} InvAlways(states: seq<State>, steps: seq<Step>, n: nat)
    requires IsRun(states, steps) && n < |states|
    ensures Inv(states[n]) && WellPlaced(states[n].core.objs, states[n].mm)
  {
    if n == 0 {
      InitInv(states[0]);
    } else {
      InvAlways(states, steps, n - 1);
      assert StepsTo(states[n - 1], steps[n - 1], states[n]);
      InvKept(states[n - 1], steps[n - 1]);
    }
    PlacedWell(states[n].core.objs, states[n].mm);
  }

  // ---------------------------------------------------------------- safety

  /** The bookkeeping warnings of the driver cannot fire. */
  lemma NoForbiddenWarning(states: seq<State>, steps: seq<Step>, n: nat)
    requires IsRun(states, steps) && n < |states|
    ensures forall w :: w in states[n].core.warned + states[n].mm.warned ==> !Forbidden(w)
  {
    InvAlways(states, steps, n);
  }

  /** The hardware may still read or write the buffers of submit `u`. */
  predicate InFlight(c: Core, u: nat) {
    u < |c.subs| && match c.subs[u].phase
    case Running(seqno) => true
    case OnRing(seqno) => Unfinished(c, c.subs[u].ring, seqno)
    case _ => false
  }

  /** Whenever the shrinker may purge or evict an object, nothing uses it: it is not active, none of
      its mappings is pinned or guarded by an unfinished fence, and no submit that is queued or in
      flight has it. */
  lemma ShrinkerTouchesOnlyIdleObjects(states: seq<State>, steps: seq<Step>, n: nat, o: nat)
    requires IsRun(states, steps) && n < |states|
    requires ShrinkEnabled(states[n].core, Purge(o)) || ShrinkEnabled(states[n].core, Evict(o))
    ensures var c := states[n].core;
            && c.objs[o].activeCount == 0 && !AnyVmaBusy(c, o)
            && (forall i :: 0 <= i < |c.uses| && UseOfSubmit(c, i) && c.uses[i].obj == o ==>
                  SubOf(c, i).phase != Queued && !InFlight(c, c.uses[i].holder.sub))
  {
    InvAlways(states, steps, n);
    var c := states[n].core;
    NothingCounted(c, o);
    ActiveIsPinned(c, o);
    UnpinnedIsNotBusy(c, o);
    forall i | 0 <= i < |c.uses| && UseOfSubmit(c, i) && c.uses[i].obj == o
      ensures SubOf(c, i).phase != Queued && !InFlight(c, c.uses[i].holder.sub)
    {
      assert UseOk(c, c.uses[i]);
    }
  }

  /** A queued or in-flight submit finds all its buffers mapped in its address space, with pages,
      whatever clients and the shrinker have done since they were pinned. */
  lemma HardwareFindsItsBuffers(states: seq<State>, steps: seq<Step>, n: nat, i: nat)
    requires IsRun(states, steps) && n < |states| && UseOfSubmit(states[n].core, i)
    requires SubOf(states[n].core, i).phase == Queued || InFlight(states[n].core, states[n].core.uses[i].holder.sub)
    ensures var c := states[n].core;
            var use := c.uses[i];
            && use.vma < |c.vmas| && IsVma(c.vmas[use.vma], use.obj, SubOf(c, i).aspace) && c.vmas[use.vma].mapped
            && use.obj < |c.objs| && c.objs[use.obj].live && c.objs[use.obj].pages
            && c.objs[use.obj].pinCount > 0 && c.objs[use.obj].activeCount > 0
  {
    InvAlways(states, steps, n);
    var c := states[n].core;
    assert UseOk(c, c.uses[i]);
    UseIsCounted(c, i);
    assert SubOk(c, c.uses[i].holder.sub, SubOf(c, i));
    assert RingOk(c, SubOf(c, i).ring, c.rings[SubOf(c, i).ring]);
    assert VmaOk(c, c.vmas[c.uses[i].vma]);
  }

  /** The fence that msm_gem_unpin_vma_fenced records, the last one of the ring, is the submit's own. */
  lemma RecordedFenceIsOwn(states: seq<State>, steps: seq<Step>, n: nat, i: nat)
    requires IsRun(states, steps) && n < |steps| && steps[n] == ByJob(HandOff(i))
    ensures UseOfSubmit(states[n].core, i) && SubOf(states[n].core, i).phase.Running?
    ensures var c, sub := states[n + 1].core, SubOf(states[n].core, i);
            var v := states[n].core.uses[i].vma;
            && v < |c.vmas| && sub.ring < |c.vmas[v].fence| && c.vmas[v].fence[sub.ring] == sub.phase.seqno
            && c.vmas[v].inuse == states[n].core.vmas[v].inuse - 1
  {
    InvAlways(states, steps, n);
    assert StepsTo(states[n], steps[n], states[n + 1]);
    var c := states[n].core;
    assert UseOk(c, c.uses[i]) && SubOk(c, c.uses[i].holder.sub, SubOf(c, i));
    UseIsCounted(c, i);
  }

  // ---------------------------------------------------------------- what pin_count stands for

  /** The inuse counts of the first `n` mappings, as far as they belong to `o`. */
  function InuseSum(vmas: seq<Vma>, o: nat, n: nat): int
    requires n <= |vmas|
  {
    if n == 0 then 0 else InuseSum(vmas, o, n - 1) + if vmas[n - 1].obj == o then vmas[n - 1].inuse else 0
  }

  predicate PinsAVma(use: Use, o: nat, n: nat) {
    use.obj == o && use.vmaPinned && use.vma < n
  }

  predicate PinsOnlyPages(use: Use, o: nat) {
    use.obj == o && use.objPinned && !use.vmaPinned
  }

  /** Uses of `o` that pin one of the first `n` mappings, and uses that only pin its pages: submits
      whose VMA pin was swapped for a fence, and clients of msm_gem_get_pages. */
  function VmaPinners(uses: seq<Use>, o: nat, n: nat): nat {
    if uses == [] then 0
    else VmaPinners(uses[..|uses| - 1], o, n) + if PinsAVma(uses[|uses| - 1], o, n) then 1 else 0
  }

  function PagePinners(uses: seq<Use>, o: nat): nat {
    if uses == [] then 0
    else PagePinners(uses[..|uses| - 1], o) + if PinsOnlyPages(uses[|uses| - 1], o) then 1 else 0
  }

  ghost predicate VmasOfTheirObjects(uses: seq<Use>, vmas: seq<Vma>) {
    forall i :: 0 <= i < |uses| && uses[i].vmaPinned ==>
      uses[i].objPinned && uses[i].vma < |vmas| && vmas[uses[i].vma].obj == uses[i].obj
  }

  lemma {:induction false} OneMoreVma(uses: seq<Use>, vmas: seq<Vma>, o: nat, v: nat)
    requires v < |vmas| && VmasOfTheirObjects(uses, vmas)
    ensures VmaPinners(uses, o, v + 1) ==
            VmaPinners(uses, o, v) + if vmas[v].obj == o then Count(uses, PinsVma(v)) else 0
  {
    if uses != [] {
      assert forall i :: 0 <= i < |uses| - 1 ==> uses[..|uses| - 1][i] == uses[i];
      OneMoreVma(uses[..|uses| - 1], vmas, o, v);
    }
  }

  lemma {:induction false} InuseCountsPinners(c: Core, o: nat, n: nat)
    requires CountsOk(c) && VmasOfTheirObjects(c.uses, c.vmas) && n <= |c.vmas|
    ensures InuseSum(c.vmas, o, n) == VmaPinners(c.uses, o, n)
  {
    if n == 0 {
      NoVmas(c.uses, o);
    } else {
      InuseCountsPinners(c, o, n - 1);
      OneMoreVma(c.uses, c.vmas, o, n - 1);
      assert VmaCounted(c.uses, n - 1, c.vmas[n - 1]);
    }
  }

  lemma {:induction false} NoVmas(uses: seq<Use>, o: nat)
    ensures VmaPinners(uses, o, 0) == 0
  {
    if uses != [] {
      NoVmas(uses[..|uses| - 1], o);
    }
  }

  lemma {:induction false} PinnersSplit(uses: seq<Use>, vmas: seq<Vma>, o: nat)
    requires VmasOfTheirObjects(uses, vmas)
    ensures Count(uses, PinsObj(o)) == VmaPinners(uses, o, |vmas|) + PagePinners(uses, o)
  {
    if uses != [] {
      assert forall i :: 0 <= i < |uses| - 1 ==> uses[..|uses| - 1][i] == uses[i];
      PinnersSplit(uses[..|uses| - 1], vmas, o);
      assert uses[|uses| - 1].vmaPinned ==> uses[|uses| - 1].vma < |vmas|;
    }
  }

  /** pin_count is exactly the sum of the inuse counts of the object's mappings, plus the submits
      past msm_job_run that are not retired, plus the pins of the pages alone; and while the
      object's lock is free an active object is pinned. */
  lemma PinCountIsExact(states: seq<State>, steps: seq<Step>, n: nat, o: nat)
    requires IsRun(states, steps) && n < |states| && o < |states[n].core.objs|
    ensures var c := states[n].core;
            && c.objs[o].pinCount == InuseSum(c.vmas, o, |c.vmas|) + PagePinners(c.uses, o)
            && (c.objs[o].lock == None && c.objs[o].activeCount > 0 ==> c.objs[o].pinCount > 0)
  {
    InvAlways(states, steps, n);
    var c := states[n].core;
    forall i | 0 <= i < |c.uses| && c.uses[i].vmaPinned
      ensures c.uses[i].objPinned && c.uses[i].vma < |c.vmas| && c.vmas[c.uses[i].vma].obj == c.uses[i].obj
    {
      assert UseOk(c, c.uses[i]);
    }
    InuseCountsPinners(c, o, |c.vmas|);
    PinnersSplit(c.uses, c.vmas, o);
    assert ObjCounted(c.uses, o, c.objs[o]);
    if c.objs[o].lock == None && c.objs[o].pinCount == 0 {
      ActiveIsPinned(c, o);
    }
  }

  // ---------------------------------------------------------------- net effect of a submit

  /** Every buffer entry of the submit was given up, by failing or by retiring. */
  ghost predicate Over(c: Core, u: nat) {
    forall i :: 0 <= i < |c.uses| && OfSub(c.uses[i], u) ==> !c.uses[i].ref
  }

  function Others(uses: seq<Use>, u: nat): seq<Use> {
    if uses == [] then []
    else
      var rest := Others(uses[..|uses| - 1], u);
      if OfSub(uses[|uses| - 1], u) then rest else rest + [uses[|uses| - 1]]
  }

  lemma {:induction false} OthersCount(uses: seq<Use>, u: nat, claim: Claim)
    requires forall i :: 0 <= i < |uses| && OfSub(uses[i], u) ==> Match(claim, uses[i]) == 0
    ensures Count(Others(uses, u), claim) == Count(uses, claim)
  {
    if uses != [] {
      var front, last := uses[..|uses| - 1], uses[|uses| - 1];
      forall i | 0 <= i < |front| && OfSub(front[i], u) ensures Match(claim, front[i]) == 0 {
        assert front[i] == uses[i];
      }
      OthersCount(front, u, claim);
      CountAdd(Others(front, u), last, claim);
    }
  }

  /** Wherever a submit failed before arming, and equally after it ran and retired: all counts and
      locks are what the other uses account for, as if the submit had never been. */
  lemma SubmitLeavesNoTrace(states: seq<State>, steps: seq<Step>, n: nat, u: nat)
    requires IsRun(states, steps) && n < |states| && Over(states[n].core, u)
    ensures var c := states[n].core;
            && (forall o :: 0 <= o < |c.objs| ==> ObjCounted(Others(c.uses, u), o, c.objs[o]))
            && (forall v :: 0 <= v < |c.vmas| ==> VmaCounted(Others(c.uses, u), v, c.vmas[v]))
            && (forall o :: 0 <= o < |c.objs| && c.objs[o].lock.Some? ==>
                  c.objs[o].lock.value < |c.uses| && !OfSub(c.uses[c.objs[o].lock.value], u))
  {
    InvAlways(states, steps, n);
    var c := states[n].core;
    forall i | 0 <= i < |c.uses| && OfSub(c.uses[i], u)
      ensures !c.uses[i].ref && !c.uses[i].locked && !c.uses[i].active && !c.uses[i].objPinned && !c.uses[i].vmaPinned
    {
      assert UseOk(c, c.uses[i]);
    }
    forall o | 0 <= o < |c.objs| ensures ObjCounted(Others(c.uses, u), o, c.objs[o]) {
      assert ObjCounted(c.uses, o, c.objs[o]);
      OthersCount(c.uses, u, PinsObj(o));
      OthersCount(c.uses, u, Activates(o));
      OthersCount(c.uses, u, Refers(o));
    }
    forall v | 0 <= v < |c.vmas| ensures VmaCounted(Others(c.uses, u), v, c.vmas[v]) {
      assert VmaCounted(c.uses, v, c.vmas[v]);
      OthersCount(c.uses, u, PinsVma(v));
    }
  }

  // ---------------------------------------------------------------- page counts and lists

  /** shrinkable_count is the page total of the live objects flagged dontneed. evictable_count is
      that of the objects flagged evictable plus what freeing forgot to subtract. */
  lemma PageCountsAreExact(states: seq<State>, steps: seq<Step>, n: nat)
    requires IsRun(states, steps) && n < |states|
    ensures var c, mm := states[n].core, states[n].mm;
            && |mm.flags| == |c.objs|
            && mm.shrinkable == FlaggedPages(c.objs, mm.flags, false, |c.objs|)
            && mm.evictable == FlaggedPages(c.objs, mm.flags, true, |c.objs|) + mm.leaked
  {
    InvAlways(states, steps, n);
  }

  /** What shrinkable_count counts: while its lock is free an object is flagged dontneed if and only if
      it is DONTNEED, not imported and not pinned. */
  lemma ShrinkableIsWhatMayGo(states: seq<State>, steps: seq<Step>, n: nat, o: nat)
    requires IsRun(states, steps) && n < |states| && Live(states[n].core, o) && states[n].core.objs[o].lock == None
    ensures var obj := states[n].core.objs[o];
            && o < |states[n].mm.flags|
            && (states[n].mm.flags[o].dontneed <==> obj.madv == DontNeed && !obj.imported && obj.pinCount == 0)
  {
    InvAlways(states, steps, n);
    assert FlagsSound(states[n].core.objs[o], states[n].mm.flags[o]);
    if states[n].core.objs[o].pinCount == 0 {
      ActiveIsPinned(states[n].core, o);
    }
  }

  /** After a purge the object has neither pages nor mappings, cannot be brought back, is no longer
      counted, and is on the unpinned list; nothing else changed. */
  lemma PurgedIsGone(states: seq<State>, steps: seq<Step>, n: nat, o: nat)
    requires IsRun(states, steps) && n < |steps| && steps[n] == ByShrinker(Purge(o))
    ensures var c, c', mm, mm' := states[n].core, states[n + 1].core, states[n].mm, states[n + 1].mm;
            && o < |c'.objs| == |c.objs| && c'.objs[o].madv == Purged && !c'.objs[o].pages && !c'.objs[o].sgt
            && (forall p :: 0 <= p < |c.objs| && p != o ==> c'.objs[p] == c.objs[p])
            && |c'.vmas| == |c.vmas|
            && (forall v :: 0 <= v < |c.vmas| ==>
                  if c.vmas[v].obj == o then !c'.vmas[v].live else c'.vmas[v] == c.vmas[v])
            && OnKind(mm'.lists, o, UnpinnedList) && mm'.shrinkable == mm.shrinkable - c.objs[o].size
  {
    InvAlways(states, steps, n);
    assert StepsTo(states[n], steps[n], states[n + 1]);
    ShrinkableIsWhatMayGo(states, steps, n, o);
    ActiveIsPinned(states[n].core, o);
    PurgedIsUncounted(states[n].core.objs, states[n].mm, o);
    forall v | 0 <= v < |states[n].core.vmas| ensures states[n].core.vmas[v].mapped ==> states[n].core.vmas[v].live {
      assert VmaOk(states[n].core, states[n].core.vmas[v]);
    }
  }

  lemma PurgedIsUncounted(objs: seq<Obj>, mm: Mm, o: nat)
    requires MmInv(objs, mm) && Placed(objs, mm, o) && objs[o].activeCount == 0 && !Unpurgeable(objs[o])
    requires mm.flags[o].dontneed
    ensures var mm' := UpdateInactive(objs[o := PurgedObj(objs[o])], mm, o);
            OnKind(mm'.lists, o, UnpinnedList) && mm'.shrinkable == mm.shrinkable - objs[o].size
  {
    CountsInclude(objs, mm, o);
    UpdateMarksEffect(PurgedObj(objs[o]), MarksOf(mm, o));
    assert mm.lists.lists[Base(UnpinnedList)].kind == UnpinnedList;
  }

  /** After an eviction the object has no pages and its mappings are unmapped, but they are still
      there; nothing else changed. */
  lemma EvictedMayComeBack(states: seq<State>, steps: seq<Step>, n: nat, o: nat)
    requires IsRun(states, steps) && n < |steps| && steps[n] == ByShrinker(Evict(o))
    ensures var c, c' := states[n].core, states[n + 1].core;
            && o < |c'.objs| == |c.objs| && c'.objs[o] == c.objs[o].(pages := false, sgt := false)
            && (forall p :: 0 <= p < |c.objs| && p != o ==> c'.objs[p] == c.objs[p])
            && |c'.vmas| == |c.vmas|
            && (forall v :: 0 <= v < |c.vmas| ==>
                  c'.vmas[v] == if c.vmas[v].obj == o then c.vmas[v].(mapped := false) else c.vmas[v])
  {
    InvAlways(states, steps, n);
    assert StepsTo(states[n], steps[n], states[n + 1]);
    forall v | 0 <= v < |states[n].core.vmas| ensures states[n].core.vmas[v].mapped ==> states[n].core.vmas[v].live {
      assert VmaOk(states[n].core, states[n].core.vmas[v]);
    }
  }

  /** Pages leak from evictable_count only by freeing an object flagged evictable. */
  lemma LeakOnlyByFree(st: State, step: Step)
    requires WellPlaced(st.core.objs, st.mm) && Enabled(st, step)
    ensures Apply(st, step).mm.leaked == st.mm.leaked +
            if step.ByClient? && step.client.Free?
            then PagesIf(st.mm.flags[step.client.o].evictable, st.core.objs[step.client.o]) else 0
  {
  }

  predicate FreesEvictable(st: State, step: Step) {
    && step.ByClient? && step.client.Free?
    && step.client.o < |st.core.objs| && step.client.o < |st.mm.flags| && st.mm.flags[step.client.o].evictable
  }

  /** So evictable_count is exact as long as no object flagged evictable was freed, and never below
      the flagged total otherwise. */
  lemma {:induction false} EvictableIsExactWithoutFrees(states: seq<State>, steps: seq<Step>, n: nat)
    requires IsRun(states, steps) && n < |states|
    requires forall i :: 0 <= i < n ==> !FreesEvictable(states[i], steps[i])
    ensures states[n].mm.leaked == 0 && |states[n].mm.flags| == |states[n].core.objs|
    ensures states[n].mm.evictable == FlaggedPages(states[n].core.objs, states[n].mm.flags, true, |states[n].core.objs|)
  {
    PageCountsAreExact(states, steps, n);
    if n > 0 {
      EvictableIsExactWithoutFrees(states, steps, n - 1);
      assert StepsTo(states[n - 1], steps[n - 1], states[n]);
      LeakOnlyByFree(states[n - 1], steps[n - 1]);
    }
  }

  /** Every object is on exactly one list, and unless it was imported that list, or the temporary
      list of a scan of that list, is the one that active_count, madv and the sg table call for. */
  lemma EveryObjectIsListed(states: seq<State>, steps: seq<Step>, n: nat, o: nat)
    requires IsRun(states, steps) && n < |states| && Live(states[n].core, o)
    ensures var lists := states[n].mm.lists.lists;
            && (exists k, i :: 0 <= k < |lists| && 0 <= i < |lists[k].members| && lists[k].members[i] == o)
            && (forall k, i, k', i' ::
                  && 0 <= k < |lists| && 0 <= i < |lists[k].members| && lists[k].members[i] == o
                  && 0 <= k' < |lists| && 0 <= i' < |lists[k'].members| && lists[k'].members[i'] == o
                  ==> k == k' && i == i')
            && (!states[n].core.objs[o].imported ==> OnKind(states[n].mm.lists, o, Home(states[n].core.objs[o])))
  {
    InvAlways(states, steps, n);
    ExactlyOneList(states[n].mm.lists, states[n].core.objs, o);
    assert AtHome(states[n].mm.lists, o, states[n].core.objs[o]);
  }
}
