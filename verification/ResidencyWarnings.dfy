/**
 Exactly when the driver warns that an object is used which is not WILLNEED (msm/msm_gem.c).
 */
module ResidencyWarnings {
  import opened JobDeps
  import opened GemObject
  import opened Inactive
  import opened Residency
  import opened ResidencySafety

  predicate Unneeded(c: Core, o: nat) {
    o < |c.objs| && c.objs[o].madv != WillNeed
  }

  /** The step pins an object, faults it in or maps it into the kernel although it is not WILLNEED, or
      makes it active although it is not or still counts as unneeded. */
  predicate UsesUnneeded(st: State, step: Step) {
    match step
    case ByClient(PinIova(o, _, _, _)) => Unneeded(st.core, o)
    case ByClient(PinPages(o, _)) => Unneeded(st.core, o)
    case ByClient(Fault(o, _)) => Unneeded(st.core, o)
    case ByClient(GetVaddr(o, _, _)) => Unneeded(st.core, o)
    case BySubmit(Pin(i, _, _, _)) => i < |st.core.uses| && Unneeded(st.core, st.core.uses[i].obj)
    case BySubmit(Activate(i)) =>
      && i < |st.core.uses|
      && var o := st.core.uses[i].obj;
         Unneeded(st.core, o) || (o < |st.mm.flags| && st.mm.flags[o].dontneed)
    case _ => false
  }

  predicate Warned(st: State) {
    UseNotWillNeed in st.core.warned || UseNotWillNeed in st.mm.warned
  }

  // ---------------------------------------------------------------- objects and mappings

  lemma ClientWarns(c: Core, step: ClientStep, mm: Mm)
    requires ClientEnabled(c, step)
    ensures UseNotWillNeed in ClientApply(c, step).warned <==>
            UseNotWillNeed in c.warned || UsesUnneeded(State(c, mm), ByClient(step))
  {
  }

  lemma SubmitWarns(c: Core, step: SubmitStep, mm: Mm)
    requires SubmitEnabled(c, step)
    ensures UseNotWillNeed in SubmitApply(c, step).warned <==>
            UseNotWillNeed in c.warned || (step.Pin? && UsesUnneeded(State(c, mm), BySubmit(step)))
  {
  }

  lemma OthersWarnNot(c: Core)
    ensures forall step: JobStep :: JobEnabled(c, step) ==>
              (UseNotWillNeed in JobApply(c, step).warned <==> UseNotWillNeed in c.warned)
    ensures forall step: ShrinkStep :: ShrinkEnabled(c, step) ==>
              (UseNotWillNeed in ShrinkApply(c, step).warned <==> UseNotWillNeed in c.warned)
  {
  }

  // ---------------------------------------------------------------- lists and counts

  lemma UpdateWarnsNot(objs: seq<Obj>, mm: Mm, o: nat)
    requires Placed(objs, mm, o)
    ensures UseNotWillNeed in UpdateInactive(objs, mm, o).warned <==> UseNotWillNeed in mm.warned
    ensures UseNotWillNeed in Forget(objs, mm, o).warned <==> UseNotWillNeed in mm.warned
    ensures forall objs' :: Placed(objs', mm, o) ==> Placed(objs', UpdateInactive(objs, mm, o), o)
  {
  }

  lemma ReleaseWarnsNot(objs: seq<Obj>, mm: Mm, use: Use)
    requires Placed(objs, mm, use.obj)
    ensures UseNotWillNeed in MmRelease(objs, mm, use).warned <==> UseNotWillNeed in mm.warned
  {
    UpdateWarnsNot(objs[use.obj := WithoutPins(objs[use.obj], use)], mm, use.obj);
  }

  lemma GetPagesWarnsNot(objs: seq<Obj>, mm: Mm, o: nat, how: Backing)
    requires Placed(objs, mm, o)
    ensures UseNotWillNeed in MmGetPages(objs, mm, o, how).warned <==> UseNotWillNeed in mm.warned
    ensures forall objs' :: Placed(objs', mm, o) ==> Placed(objs', MmGetPages(objs, mm, o, how), o)
  {
    UpdateWarnsNot(objs[o := WithPages(objs[o], how)], mm, o);
  }

  lemma ClientMmWarnsNot(c: Core, mm: Mm, step: ClientStep)
    requires WellPlaced(c.objs, mm) && ClientEnabled(c, step)
    ensures UseNotWillNeed in ClientMm(c, mm, step).warned <==> UseNotWillNeed in mm.warned
  {
    match step
    case DropRef(i) => ReleaseWarnsNot(c.objs, mm, c.uses[i]);
    case UnpinIova(i) => ReleaseWarnsNot(c.objs, mm, c.uses[i]);
    case UnpinPages(i) => ReleaseWarnsNot(c.objs, mm, c.uses[i]);
    case PinIova(o, v, how, mapOk) => GetPagesWarnsNot(c.objs, mm, o, how);
    case Fault(o, how) => GetPagesWarnsNot(c.objs, mm, o, how);
    case PinPages(o, how) =>
      GetPagesWarnsNot(c.objs, mm, o, how);
      var obj := WithPages(c.objs[o], how);
      UpdateWarnsNot(c.objs[o := obj.(pinCount := obj.pinCount + 1)], MmGetPages(c.objs, mm, o, how), o);
    case GetVaddr(o, how, vmapOk) =>
      GetPagesWarnsNot(c.objs, mm, o, how);
      UpdateWarnsNot(c.objs[o := WithPages(c.objs[o], how).(vaddr := true)], MmGetPages(c.objs, mm, o, how), o);
    case Madvise(o, madv) => UpdateWarnsNot(c.objs[o := AdvisedObj(c.objs[o], madv)], mm, o);
    case Free(o) => UpdateWarnsNot(c.objs, mm, o);
    case _ =>
  }

  lemma ActivateWarns(objs: seq<Obj>, mm: Mm, o: nat)
    requires Placed(objs, mm, o)
    ensures UseNotWillNeed in MakeActive(objs, mm, o).warned <==>
            UseNotWillNeed in mm.warned || objs[o].madv != WillNeed || mm.flags[o].dontneed
  {
  }

  lemma SubmitMmWarns(c: Core, mm: Mm, step: SubmitStep)
    requires WellPlaced(c.objs, mm) && SubmitEnabled(c, step)
    ensures UseNotWillNeed in SubmitMm(c, mm, step).warned <==>
            UseNotWillNeed in mm.warned || (step.Activate? && UsesUnneeded(State(c, mm), BySubmit(step)))
  {
    match step
    case Activate(i) => ActivateWarns(SubmitApply(c, step).objs, mm, c.uses[i].obj);
    case Pin(i, v, how, mapOk) => GetPagesWarnsNot(c.objs, mm, c.uses[i].obj, how);
    case BackOff(i) => ReleaseWarnsNot(c.objs, mm, c.uses[i]);
    case Fail(i) => ReleaseWarnsNot(c.objs, mm, c.uses[i]);
    case _ =>
  }

  lemma ShrinkMmWarnsNot(c: Core, mm: Mm, step: ShrinkStep)
    requires WellPlaced(c.objs, mm) && ShrinkEnabled(c, step) && CanScan(c, mm, step)
    ensures UseNotWillNeed in ShrinkMm(c, mm, step).warned <==> UseNotWillNeed in mm.warned
  {
    match step
    case Purge(o) => UpdateWarnsNot(c.objs[o := PurgedObj(c.objs[o])], mm, o);
    case Evict(o) =>
      var warned := mm.(warned := Warn(mm.warned, !mm.flags[o].evictable, EvictUnmarked));
      UpdateWarnsNot(c.objs[o := EvictedObj(c.objs[o])], warned, o);
    case _ =>
  }

  // ---------------------------------------------------------------- steps and runs

  lemma StepWarns(st: State, step: Step, st': State)
    requires StepsTo(st, step, st')
    ensures Warned(st') <==> Warned(st) || UsesUnneeded(st, step)
  {
    match step
    case ByClient(s) =>
      ClientWarns(st.core, s, st.mm);
      ClientMmWarnsNot(st.core, st.mm, s);
    case BySubmit(s) =>
      SubmitWarns(st.core, s, st.mm);
      SubmitMmWarns(st.core, st.mm, s);
    case ByJob(s) =>
      OthersWarnNot(st.core);
      if s.Retire? {
        ReleaseWarnsNot(st.core.objs, st.mm, st.core.uses[s.i]);
      }
    case ByShrinker(s) =>
      OthersWarnNot(st.core);
      ShrinkMmWarnsNot(st.core, st.mm, s);
  }

  ghost predicate Used(states: seq<State>, steps: seq<Step>, n: nat)
    requires n <= |states| && n <= |steps|
  {
    exists i :: 0 <= i < n && UsesUnneeded(states[i], steps[i])
  }

  lemma OneMore(states: seq<State>, steps: seq<Step>, n: nat)
    requires n < |states| && n < |steps|
    ensures Used(states, steps, n + 1) <==> Used(states, steps, n) || UsesUnneeded(states[n], steps[n])
  {
  }

  /** The warning for using an unneeded object was given if and only if one was used. */
  lemma {:induction false} WarnedIffUsed(states: seq<State>, steps: seq<Step>, n: nat)
    requires IsRun(states, steps) && n < |states|
    ensures Warned(states[n]) <==> Used(states, steps, n)
  {
    if n > 0 {
      WarnedIffUsed(states, steps, n - 1);
      StepWarns(states[n - 1], steps[n - 1], states[n]);
      OneMore(states, steps, n - 1);
    }
  }
}
