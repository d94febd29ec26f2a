/**
 Residency: what vmap_count and madv stand for, told by what the clients have done so far.
 */
module ResidencyHistory {
  import opened JobDeps
  import opened GemObject
  import opened Inactive
  import opened Residency
  import opened ResidencyCore
  import opened ResidencySafety
  import opened ResidencyLimits

  // ---------------------------------------------------------------- kernel mappings

  /** The step is a get_vaddr of `o` that succeeds: the object is WILLNEED, and it is mapped already or
      there are pages and vmap can map them. */
  predicate Gets(st: State, step: Step, o: nat) {
    match step
    case ByClient(GetVaddr(p, how, vmapOk)) =>
      && p == o && o < |st.core.objs|
      && var obj := st.core.objs[o];
         obj.madv == WillNeed && (obj.vaddr || ((obj.pages || how == Backed) && vmapOk))
    case _ => false
  }

  predicate Puts(step: Step, o: nat) {
    step == ByClient(PutVaddr(o))
  }

  /** How many mappings of `o` were handed out by the first `n` steps and not given back. */
  function Outstanding(states: seq<State>, steps: seq<Step>, o: nat, n: nat): int
    requires n <= |states| && n <= |steps|
  {
    if n == 0 then 0
    else
      Outstanding(states, steps, o, n - 1)
      + (if Gets(states[n - 1], steps[n - 1], o) then 1 else 0) - (if Puts(steps[n - 1], o) then 1 else 0)
  }

  /** A mapping that somebody holds is there. */
  predicate Held(obj: Obj) {
    obj.live && obj.vmapCount > 0 ==> obj.vaddr
  }

  /** What a step does to the kernel mapping of an object. */
  predicate MapsAs(obj: Obj, obj': Obj, got: bool, put: bool) {
    && obj'.vmapCount == obj.vmapCount + (if got then 1 else 0) - (if put then 1 else 0)
    && (Held(obj) ==> Held(obj'))
  }

  lemma ClientMaps(c: Core, step: ClientStep, o: nat)
    requires ClientEnabled(c, step)
    ensures |ClientApply(c, step).objs| >= |c.objs|
    ensures var c' := ClientApply(c, step);
            if o < |c.objs| then MapsAs(c.objs[o], c'.objs[o], Gets(State(c, NoMm()), ByClient(step), o),
                                        Puts(ByClient(step), o))
            else o < |c'.objs| ==> c'.objs[o].vmapCount == 0
  {
  }

  function NoMm(): Mm {
    Mm([], NoLists(), 0, 0, 0, {})
  }

  lemma SubmitMaps(c: Core, step: SubmitStep, o: nat)
    requires SubmitEnabled(c, step)
    ensures |SubmitApply(c, step).objs| == |c.objs|
    ensures o < |c.objs| ==> MapsAs(c.objs[o], SubmitApply(c, step).objs[o], false, false)
  {
  }

  lemma JobMaps(c: Core, step: JobStep, o: nat)
    requires JobEnabled(c, step)
    ensures |JobApply(c, step).objs| == |c.objs|
    ensures o < |c.objs| ==> MapsAs(c.objs[o], JobApply(c, step).objs[o], false, false)
  {
  }

  lemma ShrinkMaps(c: Core, step: ShrinkStep, o: nat)
    requires ShrinkEnabled(c, step)
    ensures |ShrinkApply(c, step).objs| == |c.objs|
    ensures o < |c.objs| ==> MapsAs(c.objs[o], ShrinkApply(c, step).objs[o], false, false)
  {
  }

  lemma StepMaps(st: State, step: Step, o: nat)
    requires WellPlaced(st.core.objs, st.mm) && Enabled(st, step)
    ensures var objs, objs' := st.core.objs, Apply(st, step).core.objs;
            && |objs'| >= |objs|
            && if o < |objs| then MapsAs(objs[o], objs'[o], Gets(st, step, o), Puts(step, o))
               else !Gets(st, step, o) && !Puts(step, o) && (o < |objs'| ==> objs'[o].vmapCount == 0)
  {
    match step
    case ByClient(s) => ClientMaps(st.core, s, o);
    case BySubmit(s) => SubmitMaps(st.core, s, o);
    case ByJob(s) => JobMaps(st.core, s, o);
    case ByShrinker(s) => ShrinkMaps(st.core, s, o);
  }

  lemma StepsMap(st: State, step: Step, st': State, o: nat)
    requires StepsTo(st, step, st')
    ensures |st'.core.objs| >= |st.core.objs|
    ensures if o < |st.core.objs| then MapsAs(st.core.objs[o], st'.core.objs[o], Gets(st, step, o), Puts(step, o))
            else !Gets(st, step, o) && !Puts(step, o) && (o < |st'.core.objs| ==> st'.core.objs[o].vmapCount == 0)
  {
    StepMaps(st, step, o);
  }

  /** `count` is what the object's vmap_count should be, and the mapping is there as long as it should. */
  predicate CountsMaps(st: State, o: nat, count: int) {
    if o < |st.core.objs| then st.core.objs[o].vmapCount == count && Held(st.core.objs[o]) else count == 0
  }

  lemma StepCountsMaps(st: State, step: Step, st': State, o: nat, count: int)
    requires StepsTo(st, step, st') && CountsMaps(st, o, count)
    ensures CountsMaps(st', o, count + (if Gets(st, step, o) then 1 else 0) - (if Puts(step, o) then 1 else 0))
  {
    StepsMap(st, step, st', o);
  }

  ghost predicate StepAt(states: seq<State>, steps: seq<Step>, i: nat) {
    i < |steps| && i + 1 < |states| && StepsTo(states[i], steps[i], states[i + 1])
  }

  lemma StepOfRun(states: seq<State>, steps: seq<Step>, i: nat)
    requires IsRun(states, steps) && i < |steps|
    ensures StepAt(states, steps, i)
  {
  }

  ghost predicate ExactAt(states: seq<State>, steps: seq<Step>, o: nat, n: nat) {
    n < |states| && n <= |steps| && CountsMaps(states[n], o, Outstanding(states, steps, o, n))
  }

  lemma ExactNext(states: seq<State>, steps: seq<Step>, o: nat, n: nat)
    requires ExactAt(states, steps, o, n) && StepAt(states, steps, n)
    ensures ExactAt(states, steps, o, n + 1)
  {
    StepCountsMaps(states[n], steps[n], states[n + 1], o, Outstanding(states, steps, o, n));
  }

  lemma {:induction false} ExactAlways(states: seq<State>, steps: seq<Step>, o: nat, n: nat)
    requires ExactAt(states, steps, o, 0) && forall i :: 0 <= i < n ==> StepAt(states, steps, i)
    ensures ExactAt(states, steps, o, n)
  {
    if n > 0 {
      ExactAlways(states, steps, o, n - 1);
      ExactNext(states, steps, o, n - 1);
    }
  }

  /** vmap_count is exactly the number of callers that hold a kernel mapping, and as long as there is
      one the mapping is there. */
  lemma VmapCountIsExact(states: seq<State>, steps: seq<Step>, n: nat, o: nat)
    requires IsRun(states, steps) && n < |states|
    ensures CountsMaps(states[n], o, Outstanding(states, steps, o, n))
  {
    assert ExactAt(states, steps, o, 0);
    forall i | 0 <= i < n ensures StepAt(states, steps, i) {
      StepOfRun(states, steps, i);
    }
    ExactAlways(states, steps, o, n);
  }

  /** The shrinker never takes a kernel mapping that somebody holds. */
  lemma HeldMappingStays(states: seq<State>, steps: seq<Step>, n: nat, o: nat)
    requires IsRun(states, steps) && n < |states| && Outstanding(states, steps, o, n) > 0
    ensures o < |states[n].core.objs| && !ShrinkEnabled(states[n].core, Vunmap(o))
    ensures states[n].core.objs[o].live ==> states[n].core.objs[o].vaddr
  {
    VmapCountIsExact(states, steps, n, o);
  }

  /** Step `i` does not purge an object that somebody holds mapped. */
  predicate PurgesNoHeld(states: seq<State>, steps: seq<Step>, i: nat)
    requires i < |steps| && i < |states|
  {
    steps[i].ByShrinker? && steps[i].shrink.Purge? ==> Outstanding(states, steps, steps[i].shrink.o, i) == 0
  }

  /** And what is mapped has its pages, in every run in which no object is purged while it is held. */
  lemma {:induction false} HeldMappingHasPages(states: seq<State>, steps: seq<Step>, n: nat, o: nat)
    requires IsRun(states, steps) && n < |states| && Outstanding(states, steps, o, n) > 0
    requires forall i :: 0 <= i < n ==> PurgesNoHeld(states, steps, i)
    requires o < |states[n].core.objs| && states[n].core.objs[o].live
    ensures states[n].core.objs[o].vaddr && states[n].core.objs[o].pages
  {
    HeldMappingStays(states, steps, n, o);
    KernelMapsAlways(states, steps, n);
  }

  lemma {:induction false} KernelMapsAlways(states: seq<State>, steps: seq<Step>, n: nat)
    requires IsRun(states, steps) && n < |states|
    requires forall i :: 0 <= i < n ==> PurgesNoHeld(states, steps, i)
    ensures KernelMapsOk(states[n].core)
  {
    if n > 0 {
      KernelMapsAlways(states, steps, n - 1);
      NoMappedPurge(states, steps, n - 1);
      KernelMapsStay(states[n - 1], steps[n - 1], states[n]);
    }
  }

  lemma NoMappedPurge(states: seq<State>, steps: seq<Step>, n: nat)
    requires IsRun(states, steps) && n < |steps|
    requires PurgesNoHeld(states, steps, n)
    ensures !PurgesMapped(states[n].core, steps[n])
  {
    if steps[n].ByShrinker? && steps[n].shrink.Purge? {
      VmapCountIsExact(states, steps, n, steps[n].shrink.o);
    }
  }

  lemma KernelMapsStay(st: State, step: Step, st': State)
    requires StepsTo(st, step, st') && KernelMapsOk(st.core) && !PurgesMapped(st.core, step)
    ensures KernelMapsOk(st'.core)
  {
    KernelMapsLostIffPurged(st, step);
  }

  // ---------------------------------------------------------------- madv

  /** What the owner said last about `o` in the first `n` steps, unless it was purged before. */
  function Advice(steps: seq<Step>, o: nat, n: nat): Madv
    requires n <= |steps|
  {
    if n == 0 then WillNeed
    else
      var before := Advice(steps, o, n - 1);
      match steps[n - 1]
      case ByClient(Madvise(p, madv)) => if p == o && before != Purged then madv else before
      case ByShrinker(Purge(p)) => if p == o then Purged else before
      case _ => before
  }

  predicate AdvisedAs(obj: Obj, obj': Obj, step: Step, o: nat) {
    match step
    case ByClient(Madvise(p, madv)) => obj'.madv == if p == o && obj.madv != Purged then madv else obj.madv
    case ByShrinker(Purge(p)) => obj'.madv == if p == o then Purged else obj.madv
    case _ => obj'.madv == obj.madv
  }

  lemma ClientAdvises(c: Core, step: ClientStep, o: nat)
    requires ClientEnabled(c, step)
    ensures var c' := ClientApply(c, step);
            && |c'.objs| >= |c.objs|
            && if o < |c.objs| then AdvisedAs(c.objs[o], c'.objs[o], ByClient(step), o)
               else (step.Madvise? ==> step.o != o) && (o < |c'.objs| ==> c'.objs[o].madv == WillNeed)
  {
  }

  lemma SubmitAdvises(c: Core, step: SubmitStep, o: nat)
    requires SubmitEnabled(c, step)
    ensures |SubmitApply(c, step).objs| == |c.objs|
    ensures o < |c.objs| ==> SubmitApply(c, step).objs[o].madv == c.objs[o].madv
  {
  }

  lemma StepAdvises(st: State, step: Step, o: nat)
    requires WellPlaced(st.core.objs, st.mm) && Enabled(st, step)
    ensures var objs, objs' := st.core.objs, Apply(st, step).core.objs;
            && |objs'| >= |objs|
            && if o < |objs| then AdvisedAs(objs[o], objs'[o], step, o)
               else (step.ByClient? && step.client.Madvise? ==> step.client.o != o) && step != ByShrinker(Purge(o))
                    && (o < |objs'| ==> objs'[o].madv == WillNeed)
  {
    match step
    case ByClient(s) => ClientAdvises(st.core, s, o);
    case BySubmit(s) => SubmitAdvises(st.core, s, o);
    case ByJob(s) =>
    case ByShrinker(s) =>
  }

  /** madv is what the owner said last, WILLNEED at first; but purged objects stay purged. */
  lemma {:induction false} MadvIsLastAdvice(states: seq<State>, steps: seq<Step>, n: nat, o: nat)
    requires IsRun(states, steps) && n < |states|
    ensures if o < |states[n].core.objs| then states[n].core.objs[o].madv == Advice(steps, o, n)
            else Advice(steps, o, n) == WillNeed
  {
    if n > 0 {
      MadvIsLastAdvice(states, steps, n - 1, o);
      assert StepsTo(states[n - 1], steps[n - 1], states[n]);
      StepAdvises(states[n - 1], steps[n - 1], o);
    }
  }
}
