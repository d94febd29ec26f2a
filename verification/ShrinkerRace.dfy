/**
 The scan loop of msm/msm_gem_shrinker.c while everybody else goes on: it drops mm_lock for the
 callback, holding only a reference to the object it looks at.
 */
module ShrinkerRace {
  import opened JobDeps
  import opened GemObject
  import opened LruLists
  import opened Inactive
  import opened Residency
  import opened ResidencyCore
  import opened ResidencyMm
  import opened ResidencySafety
  import opened Shrinker

  /** A stretch of a run; `own[i]` says that step `i` is the scan's. */
  datatype Path = Path(states: seq<State>, steps: seq<Step>, own: seq<bool>) {
    function Front(): Path
      requires states != [] && steps != [] && own != []
    {
      Path(states[..|states| - 1], steps[..|steps| - 1], own[..|own| - 1])
    }
  }

  ghost predicate IsPath(p: Path, from: State, to: State) {
    && |p.states| == |p.steps| + 1 && |p.own| == |p.steps| && p.states[0] == from && p.states[|p.steps|] == to
    && forall i :: 0 <= i < |p.steps| ==> StepsTo(p.states[i], p.steps[i], p.states[i + 1])
  }

  /** The size of the object that the step shrinks. */
  function GivenBack(st: State, step: Step): nat {
    match step
    case ByShrinker(Purge(o)) => if o < |st.core.objs| then st.core.objs[o].size else 0
    case ByShrinker(Evict(o)) => if o < |st.core.objs| then st.core.objs[o].size else 0
    case ByShrinker(Vunmap(o)) => if o < |st.core.objs| then st.core.objs[o].size else 0
    case _ => 0
  }

  /** The pages of the objects that the scan shrank along the way. */
  function Freed(p: Path): nat
    requires |p.states| == |p.steps| + 1 && |p.own| == |p.steps|
    decreases |p.steps|
  {
    if p.steps == [] then 0
    else
      var n := |p.steps| - 1;
      Freed(p.Front()) + if p.own[n] then GivenBack(p.states[n], p.steps[n]) else 0
  }

  lemma PathThen(p: Path, from: State, st: State, step: Step, own: bool) returns (p': Path)
    requires IsPath(p, from, st) && WellPlaced(st.core.objs, st.mm) && Enabled(st, step)
    ensures p' == Path(p.states + [Apply(st, step)], p.steps + [step], p.own + [own])
    ensures IsPath(p', from, Apply(st, step))
    ensures Freed(p') == Freed(p) + if own then GivenBack(st, step) else 0
  {
    p' := Path(p.states + [Apply(st, step)], p.steps + [step], p.own + [own]);
    assert p'.Front() == p;
    forall i | 0 <= i < |p'.steps| ensures StepsTo(p'.states[i], p'.steps[i], p'.states[i + 1]) {
      if i < |p.steps| {
        assert StepsTo(p.states[i], p.steps[i], p.states[i + 1]);
      } else {
        assert StepsTo(st, step, Apply(st, step));
      }
    }
  }

  /** A run goes on along a path, so what holds of runs holds all along it. */
  lemma PathExtendsRun(states: seq<State>, steps: seq<Step>, p: Path, to: State)
    requires IsRun(states, steps) && IsPath(p, states[|steps|], to)
    ensures IsRun(states + p.states[1..], steps + p.steps) && (states + p.states[1..])[|steps| + |p.steps|] == to
  {
    var states', steps' := states + p.states[1..], steps + p.steps;
    forall i | 0 <= i < |steps'| ensures StepsTo(states'[i], steps'[i], states'[i + 1]) {
      JoinedStep(states, steps, p, i);
    }
    assert states'[0] == states[0];
  }

  lemma JoinedStep(states: seq<State>, steps: seq<Step>, p: Path, i: nat)
    requires |states| == |steps| + 1 && |p.states| == |p.steps| + 1 && p.states[0] == states[|steps|]
    requires i < |steps| + |p.steps|
    requires forall k :: 0 <= k < |steps| ==> StepsTo(states[k], steps[k], states[k + 1])
    requires forall k :: 0 <= k < |p.steps| ==> StepsTo(p.states[k], p.steps[k], p.states[k + 1])
    ensures var states', steps' := states + p.states[1..], steps + p.steps;
            StepsTo(states'[i], steps'[i], states'[i + 1])
  {
    var states', steps', k := states + p.states[1..], steps + p.steps, i - |steps|;
    if i < |steps| {
      assert states'[i] == states[i] && states'[i + 1] == states[i + 1] && steps'[i] == steps[i];
    } else {
      assert states'[i] == p.states[k] && states'[i + 1] == p.states[k + 1] && steps'[i] == p.steps[k];
    }
  }

  /** Even so, what is purged or evicted along the way is idle at that moment. */
  lemma ShrinksOnlyIdle(states: seq<State>, steps: seq<Step>, p: Path, to: State, k: nat, o: nat)
    requires IsRun(states, steps) && IsPath(p, states[|steps|], to) && k < |p.steps|
    requires p.steps[k] == ByShrinker(Purge(o)) || p.steps[k] == ByShrinker(Evict(o))
    ensures var c := p.states[k].core;
            && o < |c.objs| && c.objs[o].activeCount == 0 && !AnyVmaBusy(c, o)
            && (forall i :: 0 <= i < |c.uses| && UseOfSubmit(c, i) && c.uses[i].obj == o ==>
                  SubOf(c, i).phase != Queued && !InFlight(c, c.uses[i].holder.sub))
  {
    PathExtendsRun(states, steps, p, to);
    assert StepsTo(p.states[k], p.steps[k], p.states[k + 1]);
    assert (states + p.states[1..])[|steps| + k] == p.states[k];
    ShrinkerTouchesOnlyIdleObjects(states + p.states[1..], steps + p.steps, |steps| + k, o);
  }

  // ---------------------------------------------------------------- what others leave alone

  /** What the scan itself does. */
  predicate OwnStep(scan: ScanArgs, t: nat, step: Step) {
    match step
    case ByShrinker(BeginScan(kind)) => kind == scan.kind
    case ByShrinker(ScanNext(u)) => u == t
    case ByShrinker(EndScan(u)) => u == t
    case ByShrinker(s) => (s.Purge? || s.Evict? || s.Vunmap?) && s == StepOf(scan.cb, s.o)
    case ByClient(s) => s.TakeRef? || s.DropRef?
    case _ => false
  }

  /** Nobody else touches the scan's own list, or drops its reference `i`. */
  predicate LeavesScan(step: Step, t: nat, i: nat) {
    step != ByShrinker(ScanNext(t)) && step != ByShrinker(EndScan(t)) && step != ByClient(DropRef(i))
  }

  predicate ListOfKind(mm: Mm, t: nat, kind: Kind) {
    4 <= t < |mm.lists.lists| && mm.lists.lists[t].kind == kind
  }

  lemma UpdateKeepsKinds(objs: seq<Obj>, mm: Mm, o: nat, t: nat, kind: Kind)
    requires Placed(objs, mm, o) && ListOfKind(mm, t, kind)
    ensures ListOfKind(UpdateInactive(objs, mm, o), t, kind)
    ensures forall objs' :: Placed(objs', mm, o) ==> Placed(objs', UpdateInactive(objs, mm, o), o)
  {
  }

  lemma ReleaseKeepsKinds(objs: seq<Obj>, mm: Mm, use: Use, t: nat, kind: Kind)
    requires Placed(objs, mm, use.obj) && ListOfKind(mm, t, kind)
    ensures ListOfKind(MmRelease(objs, mm, use), t, kind)
  {
    UpdateKeepsKinds(objs[use.obj := WithoutPins(objs[use.obj], use)], mm, use.obj, t, kind);
  }

  lemma GetPagesKeepsKinds(objs: seq<Obj>, mm: Mm, o: nat, how: Backing, t: nat, kind: Kind)
    requires Placed(objs, mm, o) && ListOfKind(mm, t, kind)
    ensures ListOfKind(MmGetPages(objs, mm, o, how), t, kind)
    ensures forall objs' :: Placed(objs', mm, o) ==> Placed(objs', MmGetPages(objs, mm, o, how), o)
  {
    UpdateKeepsKinds(objs[o := WithPages(objs[o], how)], mm, o, t, kind);
  }

  lemma ClientsKeepKinds(c: Core, mm: Mm, step: ClientStep, t: nat, kind: Kind)
    requires WellPlaced(c.objs, mm) && ClientEnabled(c, step) && ListOfKind(mm, t, kind)
    ensures ListOfKind(ClientMm(c, mm, step), t, kind)
  {
    match step
    case DropRef(i) => ReleaseKeepsKinds(c.objs, mm, c.uses[i], t, kind);
    case UnpinIova(i) => ReleaseKeepsKinds(c.objs, mm, c.uses[i], t, kind);
    case UnpinPages(i) => ReleaseKeepsKinds(c.objs, mm, c.uses[i], t, kind);
    case PinIova(o, v, how, mapOk) => GetPagesKeepsKinds(c.objs, mm, o, how, t, kind);
    case Fault(o, how) => GetPagesKeepsKinds(c.objs, mm, o, how, t, kind);
    case PinPages(o, how) =>
      GetPagesKeepsKinds(c.objs, mm, o, how, t, kind);
      var obj := WithPages(c.objs[o], how);
      UpdateKeepsKinds(c.objs[o := obj.(pinCount := obj.pinCount + 1)], MmGetPages(c.objs, mm, o, how), o, t, kind);
    case GetVaddr(o, how, vmapOk) =>
      GetPagesKeepsKinds(c.objs, mm, o, how, t, kind);
      var obj := WithPages(c.objs[o], how);
      UpdateKeepsKinds(c.objs[o := obj.(vaddr := true)], MmGetPages(c.objs, mm, o, how), o, t, kind);
    case Madvise(o, madv) => UpdateKeepsKinds(c.objs[o := AdvisedObj(c.objs[o], madv)], mm, o, t, kind);
    case _ =>
  }

  lemma SubmitsKeepKinds(c: Core, mm: Mm, step: SubmitStep, t: nat, kind: Kind)
    requires WellPlaced(c.objs, mm) && SubmitEnabled(c, step) && ListOfKind(mm, t, kind)
    ensures ListOfKind(SubmitMm(c, mm, step), t, kind)
  {
    match step
    case Pin(i, v, how, mapOk) => GetPagesKeepsKinds(c.objs, mm, c.uses[i].obj, how, t, kind);
    case BackOff(i) => ReleaseKeepsKinds(c.objs, mm, c.uses[i], t, kind);
    case Fail(i) => ReleaseKeepsKinds(c.objs, mm, c.uses[i], t, kind);
    case _ =>
  }

  lemma ShrinkersKeepKinds(c: Core, mm: Mm, step: ShrinkStep, t: nat, kind: Kind)
    requires WellPlaced(c.objs, mm) && ShrinkEnabled(c, step) && CanScan(c, mm, step) && ListOfKind(mm, t, kind)
    ensures ListOfKind(ShrinkMm(c, mm, step), t, kind)
  {
    match step
    case Purge(o) => UpdateKeepsKinds(c.objs[o := PurgedObj(c.objs[o])], mm, o, t, kind);
    case Evict(o) =>
      var warned := mm.(warned := Warn(mm.warned, !mm.flags[o].evictable, EvictUnmarked));
      UpdateKeepsKinds(c.objs[o := EvictedObj(c.objs[o])], warned, o, t, kind);
    case _ =>
  }

  lemma KindsStay(st: State, step: Step, t: nat, kind: Kind)
    requires WellPlaced(st.core.objs, st.mm) && Enabled(st, step) && ListOfKind(st.mm, t, kind)
    ensures ListOfKind(Apply(st, step).mm, t, kind)
  {
    match step
    case ByClient(s) => ClientsKeepKinds(st.core, st.mm, s, t, kind);
    case BySubmit(s) => SubmitsKeepKinds(st.core, st.mm, s, t, kind);
    case ByJob(s) =>
      if s.Retire? {
        ReleaseKeepsKinds(st.core.objs, st.mm, st.core.uses[s.i], t, kind);
      }
    case ByShrinker(s) => ShrinkersKeepKinds(st.core, st.mm, s, t, kind);
  }

  predicate HasRef(c: Core, i: nat, o: nat) {
    i < |c.uses| && c.uses[i] == NewUse(Client, o)
  }

  lemma ClientsKeepRef(c: Core, step: ClientStep, i: nat, o: nat)
    requires ClientEnabled(c, step) && HasRef(c, i, o) && step != DropRef(i)
    ensures HasRef(ClientApply(c, step), i, o)
  {
  }

  lemma SubmitsKeepRef(c: Core, step: SubmitStep, i: nat, o: nat)
    requires SubmitEnabled(c, step) && HasRef(c, i, o)
    ensures HasRef(SubmitApply(c, step), i, o)
  {
  }

  lemma JobsKeepRef(c: Core, step: JobStep, i: nat, o: nat)
    requires JobEnabled(c, step) && HasRef(c, i, o)
    ensures HasRef(JobApply(c, step), i, o)
  {
  }

  lemma RefStays(st: State, step: Step, i: nat, o: nat)
    requires WellPlaced(st.core.objs, st.mm) && Enabled(st, step) && HasRef(st.core, i, o)
    requires step != ByClient(DropRef(i))
    ensures HasRef(Apply(st, step).core, i, o)
  {
    match step
    case ByClient(s) => ClientsKeepRef(st.core, s, i, o);
    case BySubmit(s) => SubmitsKeepRef(st.core, s, i, o);
    case ByJob(s) => JobsKeepRef(st.core, s, i, o);
    case ByShrinker(s) =>
  }

  lemma ReferencedIsThere(st: State, i: nat, o: nat)
    requires Inv(st) && HasRef(st.core, i, o)
    ensures Referenced(st.core, o) && Enabled(st, ByClient(DropRef(i)))
  {
    assert UseOk(st.core, st.core.uses[i]);
    UseIsCounted(st.core, i);
  }

  // ---------------------------------------------------------------- the scan

  /** What others do while the scan looks at an object, and before it takes the next one. */
  datatype Meanwhile = Meanwhile(during: seq<Step>, after: seq<Step>)

  ghost predicate OnItsWay(st: State, p: Path, from: State, scan: ScanArgs, t: nat) {
    && IsPath(p, from, st) && Inv(st) && ListOfKind(st.mm, t, scan.kind)
    && forall k :: 0 <= k < |p.steps| && p.own[k] ==> OwnStep(scan, t, p.steps[k])
  }

  lemma GoesOn(st: State, p: Path, from: State, scan: ScanArgs, t: nat, step: Step, own: bool) returns (p': Path)
    requires OnItsWay(st, p, from, scan, t) && Enabled(st, step) && (own ==> OwnStep(scan, t, step))
    ensures WellPlaced(st.core.objs, st.mm) && OnItsWay(Apply(st, step), p', from, scan, t)
    ensures Freed(p') == Freed(p) + if own then GivenBack(st, step) else 0
  {
    PlacedWell(st.core.objs, st.mm);
    InvKept(st, step);
    KindsStay(st, step, t, scan.kind);
    p' := PathThen(p, from, st, step, own);
  }

  /** A step is taken. */
  method Do(d: Device, step: Step, scan: ScanArgs, t: nat, ghost own: bool, ghost p: Path, ghost from: State)
    returns (ghost p': Path)
    requires OnItsWay(d.Now(), p, from, scan, t) && Enabled(d.Now(), step) && (own ==> OwnStep(scan, t, step))
    modifies d
    ensures WellPlaced(old(d.core).objs, old(d.mm)) && d.Now() == Apply(old(d.Now()), step)
    ensures OnItsWay(d.Now(), p', from, scan, t)
    ensures Freed(p') == Freed(p) + if own then GivenBack(old(d.Now()), step) else 0
  {
    p' := GoesOn(d.Now(), p, from, scan, t, step, own);
    var st := Apply(State(d.core, d.mm), step);
    d.core, d.mm := st.core, st.mm;
  }

  /** Somebody else takes a step, if it is possible and leaves the scan alone. */
  method Other(d: Device, step: Step, scan: ScanArgs, t: nat, i: nat, ghost o: nat, ghost p: Path, ghost from: State)
    returns (ghost p': Path)
    requires OnItsWay(d.Now(), p, from, scan, t)
    modifies d
    ensures OnItsWay(d.Now(), p', from, scan, t) && Freed(p') == Freed(p)
    ensures old(HasRef(d.core, i, o)) ==> HasRef(d.core, i, o)
  {
    p' := p;
    if LeavesScan(step, t, i) && Enabled(State(d.core, d.mm), step) {
      ghost var st := d.Now();
      p' := Do(d, step, scan, t, false, p, from);
      if HasRef(st.core, i, o) {
        RefStays(st, step, i, o);
      }
    }
  }

  method Disturb(d: Device, others: seq<Step>, scan: ScanArgs, t: nat, i: nat, ghost o: nat, ghost p: Path,
                 ghost from: State)
    returns (ghost p': Path)
    requires OnItsWay(d.Now(), p, from, scan, t)
    modifies d
    ensures OnItsWay(d.Now(), p', from, scan, t) && Freed(p') == Freed(p)
    ensures old(HasRef(d.core, i, o)) ==> HasRef(d.core, i, o)
    ensures others == [] ==> d.Now() == old(d.Now())
  {
    p' := p;
    for k := 0 to |others|
      invariant OnItsWay(d.Now(), p', from, scan, t) && Freed(p') == Freed(p)
      invariant old(HasRef(d.core, i, o)) ==> HasRef(d.core, i, o)
      invariant k == 0 ==> d.Now() == old(d.Now())
    {
      p' := Other(d, others[k], scan, t, i, o, p', from);
    }
  }

  lemma ShrinkLeavesBase(st: State, o: nat, t: nat, cb: Callback, kind: Kind)
    requires WellPlaced(st.core.objs, st.mm) && ShrinkEnabled(st.core, StepOf(cb, o)) && Scanned(cb, kind)
    requires t >= 4 && st.mm.lists.on[o] == t
    ensures Listed(st.mm, kind) && Listed(ShrinkMm(st.core, st.mm, StepOf(cb, o)), kind)
    ensures Members(ShrinkMm(st.core, st.mm, StepOf(cb, o)), kind) == Members(st.mm, kind)
  {
  }

  lemma CallbackGoesOn(st: State, p: Path, from: State, scan: ScanArgs, t: nat, o: nat, i: nat) returns (p': Path)
    requires OnItsWay(st, p, from, scan, t) && Scanned(scan.cb, scan.kind) && HasRef(st.core, i, o)
    requires Available(st.core, o) && Shrinks(scan.cb, st.core.objs[o])
    ensures WellPlaced(st.core.objs, st.mm)
    ensures var st' := Apply(st, ByShrinker(StepOf(scan.cb, o)));
            && OnItsWay(st', p', from, scan, t) && HasRef(st'.core, i, o)
            && Freed(p') == Freed(p) + st.core.objs[o].size
            && (st.mm.lists.on[o] == t ==> Members(st'.mm, scan.kind) == Members(st.mm, scan.kind))
  {
    p' := GoesOn(st, p, from, scan, t, ByShrinker(StepOf(scan.cb, o)), true);
    RefStays(st, ByShrinker(StepOf(scan.cb, o)), i, o);
    if st.mm.lists.on[o] == t {
      ShrinkLeavesBase(st, o, t, scan.cb, scan.kind);
    }
  }

  /** The callback on an object that the scan has a reference to. */
  method Look(d: Device, scan: ScanArgs, t: nat, o: nat, i: nat, ghost p: Path, ghost from: State)
    returns (freed: nat, ghost p': Path)
    requires OnItsWay(d.Now(), p, from, scan, t) && Scanned(scan.cb, scan.kind) && HasRef(d.core, i, o)
    modifies d
    ensures OnItsWay(d.Now(), p', from, scan, t) && HasRef(d.core, i, o) && Freed(p') == Freed(p) + freed
    ensures Listed(d.mm, scan.kind) && Listed(old(d.mm), scan.kind)
    ensures o < |old(d.mm).lists.on| && old(d.mm).lists.on[o] == t ==>
              Members(d.mm, scan.kind) == Members(old(d.mm), scan.kind)
  {
    freed, p' := 0, p;
    ReferencedIsThere(d.Now(), i, o);
    if d.core.objs[o].lock == None && o !in scan.contended && Shrinks(scan.cb, d.core.objs[o]) {
      p' := CallbackGoesOn(d.Now(), p, from, scan, t, o, i);
      freed := d.core.objs[o].size;
      var done := d.Shrink(o, scan.cb);
    }
  }

  /** The scan takes a reference for as long as it looks at the object; others go on. */
  method LookUnderRef(d: Device, scan: ScanArgs, t: nat, o: nat, during: seq<Step>, ghost p: Path, ghost from: State)
    returns (freed: nat, ghost p': Path)
    requires OnItsWay(d.Now(), p, from, scan, t) && Scanned(scan.cb, scan.kind) && Referenced(d.core, o)
    modifies d
    ensures OnItsWay(d.Now(), p', from, scan, t) && Freed(p') == Freed(p) + freed
    ensures Listed(d.mm, scan.kind) && Listed(old(d.mm), scan.kind)
    ensures during == [] && o < |old(d.mm).lists.on| && old(d.mm).lists.on[o] == t ==>
              Members(d.mm, scan.kind) == Members(old(d.mm), scan.kind)
  {
    var i := |d.core.uses|;
    p' := Do(d, ByClient(TakeRef(o)), scan, t, true, p, from);
    p' := Disturb(d, during, scan, t, i, o, p', from);
    freed, p' := Look(d, scan, t, o, i, p', from);
    ReferencedIsThere(d.Now(), i, o);
    p' := Do(d, ByClient(DropRef(i)), scan, t, true, p', from);
  }

  /** One turn of the loop: the first object is moved to the scan's list and, unless it is about to be
      freed, looked at. */
  method TurnAmid(d: Device, scan: ScanArgs, t: nat, others: Meanwhile, ghost p: Path, ghost from: State)
    returns (freed: nat, ghost p': Path)
    requires OnItsWay(d.Now(), p, from, scan, t) && Scanned(scan.cb, scan.kind)
    requires Listed(d.mm, scan.kind) && Members(d.mm, scan.kind) != []
    modifies d
    ensures OnItsWay(d.Now(), p', from, scan, t) && Freed(p') == Freed(p) + freed && Listed(d.mm, scan.kind)
    ensures others == Meanwhile([], []) ==> Members(d.mm, scan.kind) == Members(old(d.mm), scan.kind)[1..]
  {
    freed := 0;
    var o := Members(d.mm, scan.kind)[0];
    TakesFirst(d.Now(), t, scan.kind, Members(d.mm, scan.kind), d.mm.lists.lists[t].members);
    p' := Do(d, ByShrinker(ScanNext(t)), scan, t, true, p, from);
    if d.core.objs[o].refs > 0 {
      freed, p' := LookUnderRef(d, scan, t, o, others.during, p', from);
    }
    p' := Disturb(d, others.after, scan, t, |d.core.uses|, o, p', from);
  }

  /** The loop of scan. */
  method TurnsAmid(d: Device, nr: nat, scan: ScanArgs, t: nat, others: seq<Meanwhile>, ghost p: Path, ghost from: State)
    returns (freed: nat, ghost p': Path)
    requires OnItsWay(d.Now(), p, from, scan, t) && Freed(p) == 0 && Scanned(scan.cb, scan.kind)
    modifies d
    ensures OnItsWay(d.Now(), p', from, scan, t) && freed == Freed(p') && Listed(d.mm, scan.kind)
    ensures freed < nr ==> Members(d.mm, scan.kind) == []
  {
    freed, p' := 0, p;
    var n := 0;
    while freed < nr && Members(d.mm, scan.kind) != []
      invariant OnItsWay(d.Now(), p', from, scan, t) && freed == Freed(p') && Listed(d.mm, scan.kind)
      decreases if n < |others| then |others| - n else 0, |Members(d.mm, scan.kind)|
    {
      var more;
      more, p' := TurnAmid(d, scan, t, if n < |others| then others[n] else Meanwhile([], []), p', from);
      freed, n := freed + more, n + 1;
    }
  }

  lemma NoStepYet(st: State)
    requires Inv(st)
    ensures IsPath(Path([st], [], []), st, st) && WellPlaced(st.core.objs, st.mm)
  {
    PlacedWell(st.core.objs, st.mm);
  }

  method OpenAmid(d: Device, scan: ScanArgs) returns (t: nat, ghost p: Path)
    requires Inv(d.Now())
    modifies d
    ensures OnItsWay(d.Now(), p, old(d.Now()), scan, t) && Freed(p) == 0
  {
    ghost var from, step := d.Now(), ByShrinker(BeginScan(scan.kind));
    NoStepYet(from);
    InvKept(from, step);
    p := PathThen(Path([from], [], []), from, from, step, true);
    t := |d.mm.lists.lists|;
    d.mm := d.mm.(lists := OpenScan(d.mm.lists, scan.kind));
  }

  /** scan, with others at work. It takes only steps of a scan, so all that holds of runs holds of it
      (`PathExtendsRun`), and what it returns is the size of the objects that it shrank. It stops only
      when that is enough or the list is empty. */
  method ScanAmidOthers(d: Device, nr: nat, scan: ScanArgs, others: seq<Meanwhile>)
    returns (freed: nat, t: nat, ghost p: Path, ghost last: State)
    requires Inv(d.Now()) && Scanned(scan.cb, scan.kind)
    modifies d
    ensures OnItsWay(d.Now(), p, old(d.Now()), scan, t) && freed == Freed(p)
    ensures StepsTo(last, ByShrinker(EndScan(t)), d.Now()) && Listed(last.mm, scan.kind)
    ensures freed < nr ==> Members(last.mm, scan.kind) == []
  {
    ghost var from := d.Now();
    t, p := OpenAmid(d, scan);
    freed, p := TurnsAmid(d, nr, scan, t, others, p, from);
    last := d.Now();
    p := Do(d, ByShrinker(EndScan(t)), scan, t, true, p, from);
  }

  /** msm_gem_shrinker_scan with others at work: what it returns is the size of all that its two scans
      shrank, and nothing is evicted if purging was enough or there is no swap. */
  method ShrinkerScanAmidOthers(d: Device, nr: nat, canSwap: bool, contended: set<nat>, others: seq<Meanwhile>,
                                more: seq<Meanwhile>)
    returns (freed: nat, ghost mid: State, ghost purging: Path, ghost evicting: Path)
    requires Inv(d.Now())
    modifies d
    ensures Inv(d.Now()) && IsPath(purging, old(d.Now()), mid) && IsPath(evicting, mid, d.Now())
    ensures freed == Freed(purging) + Freed(evicting)
    ensures !canSwap || Freed(purging) >= nr ==> evicting.steps == []
    ensures exists t :: OnItsWay(mid, purging, old(d.Now()), ScanArgs(DontNeedList, PurgePages, contended), t)
    ensures evicting.steps != [] ==>
              exists t :: OnItsWay(d.Now(), evicting, mid, ScanArgs(WillNeedList, EvictPages, contended), t)
  {
    var t;
    ghost var last;
    freed, t, purging, last := ScanAmidOthers(d, nr, ScanArgs(DontNeedList, PurgePages, contended), others);
    mid, evicting := d.Now(), Path([d.Now()], [], []);
    if canSwap && freed < nr {
      var evicted;
      evicted, t, evicting, last := ScanAmidOthers(d, nr - freed, ScanArgs(WillNeedList, EvictPages, contended), more);
      freed := freed + evicted;
    }
  }
}
