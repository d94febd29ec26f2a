/**
 The counters of the GPU scheduler: hw_rq_count, score and the pending list, through job
 submission, completion, time-out, drm_sched_stop, drm_sched_resubmit_jobs_ext and drm_sched_start
 (scheduler/sched_main.c), and entities being listed and moved (scheduler/sched_entity.c).

 One step is one atomic update: an iteration of a loop of stop, resubmit or start is a step, since
 hardware fences may signal between iterations. drm_sched_start is with full recovery.
 */
module SchedCount {
  import opened JobDeps

  datatype Stage =
    | Queued
    | Begun     // counted in hw_rq_count, run_job not returned yet
    | Waiting   // the done callback is on its hardware fence
    | Detached  // the callback was taken off by drm_sched_stop
    | Done

  datatype Parent = NoFence | Unsignaled | Signaled

  /** `dones` counts the calls of drm_sched_job_done for this job. */
  datatype Job = Job(entity: nat, sched: nat, stage: Stage, parent: Parent, dones: nat)

  datatype Entity = Entity(sched: nat, listed: bool)

  /** Where drm_sched_stop and drm_sched_start are. */
  datatype Mode = Going | Stopping(left: nat) | Stopped | Starting(next: nat)

  /** `current` is the job in run_job, `bad` one that the time-out handler has taken off the list. */
  datatype Sched = Sched(
    limit: nat, hwRqCount: int, score: int, pending: seq<nat>, mode: Mode,
    current: Option<nat>, bad: Option<nat>)

  datatype State = State(scheds: seq<Sched>, entities: seq<Entity>, jobs: seq<Job>)

  datatype Step =
    | Push(e: nat)
    | AddEntity(e: nat)
    | RemoveEntity(e: nat)
    | Move(e: nat, s: nat)
    | Begin(s: nat, j: nat)
    | RunReturns(s: nat, parent: Parent)
    | HwSignal(j: nat)
    | Cleanup(s: nat)
    | Timeout(s: nat)
    | StopBegin(s: nat)
    | StopOne(s: nat)
    | StopEnd(s: nat)
    | Resubmit(s: nat, k: nat, parent: Parent)
    | StartBegin(s: nat)
    | StartOne(s: nat)
    | StartEnd(s: nat)

  // ---------------------------------------------------------------- steps

  function SetSched(st: State, s: nat, sched: Sched): State
    requires s < |st.scheds|
  {
    st.(scheds := st.scheds[s := sched])
  }

  /** Job `j` becomes `job`, and the counters of its scheduler change by `hw` and `score`. */
  function Change(st: State, j: nat, job: Job, hw: int, score: int): State
    requires j < |st.jobs| && job.sched < |st.scheds|
  {
    var sched := st.scheds[job.sched];
    st.(jobs := st.jobs[j := job],
        scheds := st.scheds[job.sched := sched.(hwRqCount := sched.hwRqCount + hw, score := sched.score + score)])
  }

  /** drm_sched_job_done. */
  function JobDone(st: State, j: nat, parent: Parent, begun: int): State
    requires j < |st.jobs| && st.jobs[j].sched < |st.scheds|
  {
    var job := st.jobs[j];
    Change(st, j, job.(stage := Done, parent := parent, dones := job.dones + 1), begun - 1, -1)
  }

  predicate EntityKnown(st: State, e: nat) {
    e < |st.entities| && st.entities[e].sched < |st.scheds|
  }

  predicate JobKnown(st: State, j: nat) {
    j < |st.jobs| && st.jobs[j].sched < |st.scheds|
  }

  predicate JobOfSched(st: State, j: nat, s: nat) {
    j < |st.jobs| && st.jobs[j].sched == s
  }

  predicate InMode(st: State, s: nat, mode: Mode) {
    s < |st.scheds| && st.scheds[s].mode == mode
  }

  ghost predicate Enabled(st: State, step: Step) {
    match step
    case Push(e) => EntityKnown(st, e)
    case AddEntity(e) => EntityKnown(st, e) && !st.entities[e].listed
    case RemoveEntity(e) => EntityKnown(st, e) && st.entities[e].listed
    case Move(e, s) =>
      && EntityKnown(st, e) && s < |st.scheds|
      && forall j :: 0 <= j < |st.jobs| && st.jobs[j].entity == e ==> st.jobs[j].stage != Queued
    case Begin(s, j) =>
      && InMode(st, s, Going) && st.scheds[s].current == None && st.scheds[s].hwRqCount < st.scheds[s].limit
      && JobOfSched(st, j, s) && st.jobs[j].stage == Queued
    case RunReturns(s, parent) =>
      s < |st.scheds| && st.scheds[s].current.Some? && JobOfSched(st, st.scheds[s].current.value, s)
    case HwSignal(j) => JobKnown(st, j) && st.jobs[j].parent == Unsignaled
    case Cleanup(s) =>
      && InMode(st, s, Going) && st.scheds[s].pending != []
      && st.scheds[s].pending[0] < |st.jobs| && st.jobs[st.scheds[s].pending[0]].stage == Done
    case Timeout(s) => InMode(st, s, Going) && st.scheds[s].pending != [] && st.scheds[s].bad == None
    case StopBegin(s) => InMode(st, s, Going) && st.scheds[s].current == None
    case StopOne(s) =>
      && s < |st.scheds| && st.scheds[s].mode.Stopping?
      && 0 < st.scheds[s].mode.left <= |st.scheds[s].pending|
      && JobOfSched(st, st.scheds[s].pending[st.scheds[s].mode.left - 1], s)
    case StopEnd(s) => InMode(st, s, Stopping(0))
    case Resubmit(s, k, parent) =>
      InMode(st, s, Stopped) && k < |st.scheds[s].pending| && JobOfSched(st, st.scheds[s].pending[k], s)
    case StartBegin(s) => InMode(st, s, Stopped)
    case StartOne(s) =>
      && s < |st.scheds| && st.scheds[s].mode.Starting?
      && st.scheds[s].mode.next < |st.scheds[s].pending|
      && JobOfSched(st, st.scheds[s].pending[st.scheds[s].mode.next], s)
    case StartEnd(s) => s < |st.scheds| && st.scheds[s].mode == Starting(|st.scheds[s].pending|)
  }

  function Listed(st: State, e: nat, listed: bool): State
    requires EntityKnown(st, e)
  {
    var s := st.entities[e].sched;
    var sched := st.scheds[s];
    st.(entities := st.entities[e := st.entities[e].(listed := listed)],
        scheds := st.scheds[s := sched.(score := sched.score + if listed then 1 else -1)])
  }

  /** A hardware fence signals and calls the done callback if that is on it. */
  function DoSignal(st: State, j: nat): State
    requires JobKnown(st, j)
  {
    if st.jobs[j].stage == Waiting then JobDone(st, j, Signaled, 0)
    else st.(jobs := st.jobs[j := st.jobs[j].(parent := Signaled)])
  }

  /** drm_sched_stop puts the bad job back at the head of the list. */
  function PutBack(sched: Sched): Sched {
    var pending := if sched.bad.Some? then [sched.bad.value] + sched.pending else sched.pending;
    sched.(pending := pending, bad := None, mode := Stopping(|pending|))
  }

  /** An iteration of the loop of drm_sched_stop, from the tail of the list. */
  function DoStopOne(st: State, s: nat): State
    requires s < |st.scheds| && st.scheds[s].mode.Stopping?
    requires 0 < st.scheds[s].mode.left <= |st.scheds[s].pending|
    requires JobOfSched(st, st.scheds[s].pending[st.scheds[s].mode.left - 1], s)
  {
    var sched := st.scheds[s];
    var k := sched.mode.left - 1;
    var j := sched.pending[k];
    if st.jobs[j].parent != NoFence && st.jobs[j].stage == Waiting then
      Change(SetSched(st, s, sched.(mode := Stopping(k))), j, st.jobs[j].(stage := Detached), -1, 0)
    else
      SetSched(st, s, sched.(mode := Stopping(k), pending := sched.pending[..k] + sched.pending[k + 1..]))
  }

  /** An iteration of the loop of drm_sched_start. */
  function DoStartOne(st: State, s: nat): State
    requires s < |st.scheds| && st.scheds[s].mode.Starting? && st.scheds[s].mode.next < |st.scheds[s].pending|
    requires JobOfSched(st, st.scheds[s].pending[st.scheds[s].mode.next], s)
  {
    var sched := st.scheds[s];
    var j := sched.pending[sched.mode.next];
    var st' := SetSched(st, s, sched.(mode := Starting(sched.mode.next + 1)));
    if st.jobs[j].parent == Unsignaled then Change(st', j, st.jobs[j].(stage := Waiting), 1, 0)
    else JobDone(st', j, st.jobs[j].parent, 1)
  }

  ghost function Apply(st: State, step: Step): State
    requires Enabled(st, step)
  {
    match step
    case Push(e) =>
      var s := st.entities[e].sched;
      SetSched(st, s, st.scheds[s].(score := st.scheds[s].score + 1))
        .(jobs := st.jobs + [Job(e, s, Queued, NoFence, 0)])
    case AddEntity(e) => Listed(st, e, true)
    case RemoveEntity(e) => Listed(st, e, false)
    case Move(e, s) =>
      var st' := if st.entities[e].listed then Listed(st, e, false) else st;
      st'.(entities := st'.entities[e := Entity(s, false)])
    case Begin(s, j) =>
      var sched := st.scheds[s];
      Change(SetSched(st, s, sched.(pending := sched.pending + [j], current := Some(j))), j,
             st.jobs[j].(stage := Begun), 1, 0)
    case RunReturns(s, parent) =>
      var j := st.scheds[s].current.value;
      var st' := SetSched(st, s, st.scheds[s].(current := None));
      if parent == Unsignaled then Change(st', j, st.jobs[j].(stage := Waiting, parent := parent), 0, 0)
      else JobDone(st', j, parent, 0)
    case HwSignal(j) => DoSignal(st, j)
    case Cleanup(s) => SetSched(st, s, st.scheds[s].(pending := st.scheds[s].pending[1..]))
    case Timeout(s) =>
      var sched := st.scheds[s];
      SetSched(st, s, sched.(pending := sched.pending[1..], bad := Some(sched.pending[0])))
    case StopBegin(s) => SetSched(st, s, PutBack(st.scheds[s]))
    case StopOne(s) => DoStopOne(st, s)
    case StopEnd(s) => SetSched(st, s, st.scheds[s].(mode := Stopped))
    case Resubmit(s, k, parent) =>
      var j := st.scheds[s].pending[k];
      st.(jobs := st.jobs[j := st.jobs[j].(parent := parent)])
    case StartBegin(s) => SetSched(st, s, st.scheds[s].(mode := Starting(0)))
    case StartOne(s) => DoStartOne(st, s)
    case StartEnd(s) => SetSched(st, s, st.scheds[s].(mode := Going))
  }

  // ---------------------------------------------------------------- counting

  datatype Claim = InFlight(s: nat) | OnHardware(s: nat) | Unfinished(s: nat)

  /** Counted in hw_rq_count; begun and not done; pushed and not done. */
  function Match(claim: Claim, job: Job): nat {
    match claim
    case InFlight(s) => if job.sched == s && (job.stage == Begun || job.stage == Waiting) then 1 else 0
    case OnHardware(s) => if job.sched == s && job.stage != Queued && job.stage != Done then 1 else 0
    case Unfinished(s) => if job.sched == s && job.stage != Done then 1 else 0
  }

  function Count(jobs: seq<Job>, claim: Claim): nat {
    if jobs == [] then 0 else Count(jobs[..|jobs| - 1], claim) + Match(claim, jobs[|jobs| - 1])
  }

  function ListedOn(entities: seq<Entity>, s: nat): nat {
    if entities == [] then 0
    else
      var e := entities[|entities| - 1];
      ListedOn(entities[..|entities| - 1], s) + if e.listed && e.sched == s then 1 else 0
  }

  lemma {:induction false} CountSet(jobs: seq<Job>, j: nat, job: Job, claim: Claim)
    requires j < |jobs|
    ensures Count(jobs[j := job], claim) == Count(jobs, claim) - Match(claim, jobs[j]) + Match(claim, job)
  {
    var last := |jobs| - 1;
    if j < last {
      CountSet(jobs[..last], j, job, claim);
      assert jobs[j := job][..last] == jobs[..last][j := job];
    } else {
      assert jobs[j := job][..last] == jobs[..last];
    }
  }

  lemma CountAdd(jobs: seq<Job>, job: Job, claim: Claim)
    ensures Count(jobs + [job], claim) == Count(jobs, claim) + Match(claim, job)
  {
    assert (jobs + [job])[..|jobs|] == jobs;
  }

  lemma {:induction false} CountNone(jobs: seq<Job>, claim: Claim)
    requires forall j :: 0 <= j < |jobs| ==> Match(claim, jobs[j]) == 0
    ensures Count(jobs, claim) == 0
  {
    if jobs != [] {
      CountNone(jobs[..|jobs| - 1], claim);
    }
  }

  lemma {:induction false} CountSame(jobs: seq<Job>, a: Claim, b: Claim)
    requires forall j :: 0 <= j < |jobs| ==> Match(a, jobs[j]) <= Match(b, jobs[j])
    ensures Count(jobs, a) <= Count(jobs, b)
  {
    if jobs != [] {
      CountSame(jobs[..|jobs| - 1], a, b);
    }
  }

  lemma {:induction false} ListedSet(entities: seq<Entity>, e: nat, entity: Entity, s: nat)
    requires e < |entities|
    ensures ListedOn(entities[e := entity], s) == ListedOn(entities, s)
            - (if entities[e].listed && entities[e].sched == s then 1 else 0)
            + (if entity.listed && entity.sched == s then 1 else 0)
  {
    var last := |entities| - 1;
    if e < last {
      ListedSet(entities[..last], e, entity, s);
      assert entities[e := entity][..last] == entities[..last][e := entity];
    } else {
      assert entities[e := entity][..last] == entities[..last];
    }
  }

  // ---------------------------------------------------------------- invariant

  predicate SchedCounted(st: State, s: nat, sched: Sched) {
    && sched.hwRqCount == Count(st.jobs, InFlight(s))
    && sched.score == Count(st.jobs, Unfinished(s)) + ListedOn(st.entities, s)
    && Count(st.jobs, OnHardware(s)) <= sched.limit
  }

  ghost predicate CountsOk(st: State) {
    forall s :: 0 <= s < |st.scheds| ==> SchedCounted(st, s, st.scheds[s])
  }

  /** A begun job that is not done is on the pending list or in the hands of the time-out handler. */
  predicate JobOk(st: State, j: nat, job: Job) {
    && job.sched < |st.scheds| && job.entity < |st.entities|
    && job.dones == (if job.stage == Done then 1 else 0)
    && (job.stage == Queued ==> st.entities[job.entity].sched == job.sched)
    && (job.stage == Begun <==> st.scheds[job.sched].current == Some(j))
    && (job.stage == Waiting ==> job.parent == Unsignaled)
    && (job.stage == Queued || job.stage == Begun ==> job.parent == NoFence)
    && (job.stage == Done ==> job.parent != Unsignaled)
    && (job.stage == Begun || job.stage == Waiting || job.stage == Detached ==>
          j in st.scheds[job.sched].pending || st.scheds[job.sched].bad == Some(j))
    && (st.scheds[job.sched].mode == Going ==> job.stage != Detached)
  }

  ghost predicate JobsOk(st: State) {
    forall j :: 0 <= j < |st.jobs| ==> JobOk(st, j, st.jobs[j])
  }

  predicate IsOneOf(st: State, j: nat, s: nat) {
    j < |st.jobs| && st.jobs[j].sched == s && st.jobs[j].stage != Queued
  }

  /** Between stop and start, what the loops have dealt with and what they have not. */
  predicate StageInMode(mode: Mode, k: nat, stage: Stage) {
    match mode
    case Going => true
    case Stopping(left) => if k < left then stage == Waiting || stage == Done else stage == Detached
    case Stopped => stage == Detached
    case Starting(next) => if k < next then stage == Waiting || stage == Done else stage == Detached
  }

  predicate EntryOk(st: State, s: nat, mode: Mode, k: nat, j: nat) {
    IsOneOf(st, j, s) && StageInMode(mode, k, st.jobs[j].stage)
  }

  ghost predicate PendingOk(st: State, s: nat, sched: Sched) {
    && (forall a, b :: 0 <= a < b < |sched.pending| ==> sched.pending[a] != sched.pending[b])
    && (forall k :: 0 <= k < |sched.pending| ==> EntryOk(st, s, sched.mode, k, sched.pending[k]))
    && (sched.bad.Some? ==> sched.mode == Going && IsOneOf(st, sched.bad.value, s) && sched.bad.value !in sched.pending)
    && (sched.current.Some? ==> sched.mode == Going && IsOneOf(st, sched.current.value, s))
    && (sched.mode.Stopping? ==> sched.mode.left <= |sched.pending|)
    && (sched.mode.Starting? ==> sched.mode.next <= |sched.pending|)
  }

  ghost predicate SchedsOk(st: State) {
    forall s :: 0 <= s < |st.scheds| ==> PendingOk(st, s, st.scheds[s])
  }

  ghost predicate Inv(st: State) {
    CountsOk(st) && JobsOk(st) && SchedsOk(st)
  }

  // ---------------------------------------------------------------- every step keeps it

  lemma JobsKeptWithEntities(st: State, step: Step)
    requires JobsOk(st) && SchedsOk(st) && Enabled(st, step)
    requires step.Push? || step.AddEntity? || step.RemoveEntity? || step.Move?
    ensures JobsOk(Apply(st, step))
  {
  }

  lemma JobsKeptWithLists(st: State, step: Step)
    requires JobsOk(st) && SchedsOk(st) && Enabled(st, step)
    requires step.Cleanup? || step.Timeout? || step.StopBegin? || step.StopEnd?
    ensures JobsOk(Apply(st, step))
  {
  }

  lemma JobsKeptAtStart(st: State, step: Step)
    requires JobsOk(st) && SchedsOk(st) && Enabled(st, step) && (step.Resubmit? || step.StartBegin? || step.StartEnd?)
    ensures JobsOk(Apply(st, step))
  {
  }

  lemma JobsKeptAsOneBegins(st: State, step: Step)
    requires JobsOk(st) && SchedsOk(st) && Enabled(st, step) && step.Begin?
    ensures JobsOk(Apply(st, step))
  {
  }

  lemma JobsKeptAsRunReturns(st: State, step: Step)
    requires JobsOk(st) && SchedsOk(st) && Enabled(st, step) && step.RunReturns?
    ensures JobsOk(Apply(st, step))
  {
  }

  lemma JobsKeptAsOneSignals(st: State, step: Step)
    requires JobsOk(st) && SchedsOk(st) && Enabled(st, step) && step.HwSignal?
    ensures JobsOk(Apply(st, step))
  {
  }

  lemma JobsKeptAsOneStops(st: State, step: Step)
    requires JobsOk(st) && SchedsOk(st) && Enabled(st, step) && step.StopOne?
    ensures JobsOk(Apply(st, step))
  {
  }

  lemma JobsKeptAsOneStarts(st: State, step: Step)
    requires JobsOk(st) && SchedsOk(st) && Enabled(st, step) && step.StartOne?
    ensures JobsOk(Apply(st, step))
  {
  }

  /** Only stages change, and only in a way that the loops of stop and start do not mind. */
  lemma PendingKept(st: State, st': State)
    requires SchedsOk(st) && |st'.scheds| == |st.scheds| && |st'.jobs| >= |st.jobs|
    requires forall s :: 0 <= s < |st.scheds| ==>
               && st'.scheds[s].pending == st.scheds[s].pending && st'.scheds[s].mode == st.scheds[s].mode
               && st'.scheds[s].bad == st.scheds[s].bad
               && (st'.scheds[s].current == st.scheds[s].current || st'.scheds[s].current == None)
    requires forall j :: 0 <= j < |st.jobs| ==>
               && st'.jobs[j].sched == st.jobs[j].sched
               && (st.jobs[j].stage != Queued ==> st'.jobs[j].stage != Queued)
               && (st'.jobs[j].stage == st.jobs[j].stage
                   || (st.jobs[j].stage == Waiting && st'.jobs[j].stage == Done)
                   || (st.jobs[j].sched < |st.scheds| && st.scheds[st.jobs[j].sched].mode == Going))
    ensures SchedsOk(st')
  {
    forall s | 0 <= s < |st'.scheds| ensures PendingOk(st', s, st'.scheds[s]) {
      assert PendingOk(st, s, st.scheds[s]);
    }
  }

  lemma SchedsKeptAsStagesChange(st: State, step: Step)
    requires JobsOk(st) && SchedsOk(st) && Enabled(st, step)
    requires step.RunReturns? || step.HwSignal? || step.Push? || step.AddEntity? || step.RemoveEntity? || step.Move?
    ensures SchedsOk(Apply(st, step))
  {
    PendingKept(st, Apply(st, step));
  }

  lemma SchedsKeptAsOneBegins(st: State, step: Step)
    requires JobsOk(st) && SchedsOk(st) && Enabled(st, step) && step.Begin?
    ensures SchedsOk(Apply(st, step))
  {
    var st' := Apply(st, step);
    forall s | 0 <= s < |st'.scheds| ensures PendingOk(st', s, st'.scheds[s]) {
      assert PendingOk(st, s, st.scheds[s]);
    }
  }

  /** What happens to scheduler `s` and its jobs does not concern the others. */
  lemma OthersPending(st: State, st': State, s: nat)
    requires SchedsOk(st) && |st'.scheds| == |st.scheds| && |st'.jobs| == |st.jobs|
    requires forall p :: 0 <= p < |st.scheds| && p != s ==> st'.scheds[p] == st.scheds[p]
    requires forall j :: 0 <= j < |st.jobs| ==> st'.jobs[j] == st.jobs[j] || st.jobs[j].sched == s
    ensures forall p :: 0 <= p < |st'.scheds| && p != s ==> PendingOk(st', p, st'.scheds[p])
  {
    forall p | 0 <= p < |st'.scheds| && p != s ensures PendingOk(st', p, st'.scheds[p]) {
      assert PendingOk(st, p, st.scheds[p]);
    }
  }

  lemma OneDetaches(st: State, s: nat)
    requires SchedsOk(st) && Enabled(st, StopOne(s))
    requires st.jobs[st.scheds[s].pending[st.scheds[s].mode.left - 1]].stage == Waiting
    requires st.jobs[st.scheds[s].pending[st.scheds[s].mode.left - 1]].parent != NoFence
    ensures PendingOk(DoStopOne(st, s), s, DoStopOne(st, s).scheds[s])
  {
    assert PendingOk(st, s, st.scheds[s]);
  }

  lemma OneLeavesTheList(st: State, s: nat)
    requires SchedsOk(st) && Enabled(st, StopOne(s))
    requires var job := st.jobs[st.scheds[s].pending[st.scheds[s].mode.left - 1]];
             job.stage != Waiting || job.parent == NoFence
    ensures PendingOk(DoStopOne(st, s), s, DoStopOne(st, s).scheds[s])
  {
    assert PendingOk(st, s, st.scheds[s]);
  }

  lemma SchedsKeptAsOneStops(st: State, s: nat)
    requires SchedsOk(st) && Enabled(st, StopOne(s))
    ensures SchedsOk(Apply(st, StopOne(s)))
  {
    var job := st.jobs[st.scheds[s].pending[st.scheds[s].mode.left - 1]];
    OthersPending(st, Apply(st, StopOne(s)), s);
    if job.stage == Waiting && job.parent != NoFence {
      OneDetaches(st, s);
    } else {
      OneLeavesTheList(st, s);
    }
  }

  lemma OneStarts(st: State, s: nat)
    requires SchedsOk(st) && Enabled(st, StartOne(s))
    ensures PendingOk(DoStartOne(st, s), s, DoStartOne(st, s).scheds[s])
  {
    assert PendingOk(st, s, st.scheds[s]);
  }

  lemma SchedsKeptAsOneStarts(st: State, s: nat)
    requires SchedsOk(st) && Enabled(st, StartOne(s))
    ensures SchedsOk(Apply(st, StartOne(s)))
  {
    OthersPending(st, Apply(st, StartOne(s)), s);
    OneStarts(st, s);
  }

  lemma PutBackIsPending(st: State, s: nat)
    requires JobsOk(st) && s < |st.scheds| && PendingOk(st, s, st.scheds[s])
    requires st.scheds[s].mode == Going && st.scheds[s].current == None
    ensures PendingOk(SetSched(st, s, PutBack(st.scheds[s])), s, PutBack(st.scheds[s]))
  {
    var sched := st.scheds[s];
    var sched' := PutBack(sched);
    forall k | 0 <= k < |sched'.pending| ensures EntryOk(st, s, sched'.mode, k, sched'.pending[k]) {
      var k' := if sched.bad.Some? then k - 1 else k;
      assert k' >= 0 ==> EntryOk(st, s, sched.mode, k', sched.pending[k']);
      assert JobOk(st, sched'.pending[k], st.jobs[sched'.pending[k]]);
    }
  }

  lemma SchedsKeptAtStopBegin(st: State, step: Step)
    requires JobsOk(st) && SchedsOk(st) && Enabled(st, step) && step.StopBegin?
    ensures SchedsOk(Apply(st, step))
  {
    OthersPending(st, Apply(st, step), step.s);
    PutBackIsPending(st, step.s);
  }

  lemma SchedsKeptWithLists(st: State, step: Step)
    requires JobsOk(st) && SchedsOk(st) && Enabled(st, step) && (step.Cleanup? || step.Timeout?)
    ensures SchedsOk(Apply(st, step))
  {
    var st' := Apply(st, step);
    forall s | 0 <= s < |st'.scheds| ensures PendingOk(st', s, st'.scheds[s]) {
      assert PendingOk(st, s, st.scheds[s]);
    }
  }

  lemma SchedsKeptAtResubmit(st: State, step: Step)
    requires JobsOk(st) && SchedsOk(st) && Enabled(st, step) && step.Resubmit?
    ensures SchedsOk(Apply(st, step))
  {
    var st' := Apply(st, step);
    forall s | 0 <= s < |st'.scheds| ensures PendingOk(st', s, st'.scheds[s]) {
      assert PendingOk(st, s, st.scheds[s]);
    }
  }

  lemma SchedsKeptAsModesChange(st: State, step: Step)
    requires JobsOk(st) && SchedsOk(st) && Enabled(st, step) && (step.StopEnd? || step.StartBegin? || step.StartEnd?)
    ensures SchedsOk(Apply(st, step))
  {
    var st' := Apply(st, step);
    forall s | 0 <= s < |st'.scheds| ensures PendingOk(st', s, st'.scheds[s]) {
      assert PendingOk(st, s, st.scheds[s]);
    }
  }

  /** The counters of one scheduler change with the one job that changes. */
  lemma CountsSet(st: State, st': State, j: nat)
    requires CountsOk(st) && j < |st.jobs| == |st'.jobs| && st'.jobs == st.jobs[j := st'.jobs[j]]
    requires st'.entities == st.entities && |st'.scheds| == |st.scheds|
    requires forall s :: 0 <= s < |st.scheds| ==>
               && st'.scheds[s].limit == st.scheds[s].limit
               && st'.scheds[s].hwRqCount ==
                  st.scheds[s].hwRqCount - Match(InFlight(s), st.jobs[j]) + Match(InFlight(s), st'.jobs[j])
               && st'.scheds[s].score ==
                  st.scheds[s].score - Match(Unfinished(s), st.jobs[j]) + Match(Unfinished(s), st'.jobs[j])
               && (Match(OnHardware(s), st'.jobs[j]) <= Match(OnHardware(s), st.jobs[j])
                   || Count(st.jobs, OnHardware(s)) < st.scheds[s].limit)
    ensures CountsOk(st')
  {
    forall s | 0 <= s < |st'.scheds| ensures SchedCounted(st', s, st'.scheds[s]) {
      assert SchedCounted(st, s, st.scheds[s]);
      CountSet(st.jobs, j, st'.jobs[j], InFlight(s));
      CountSet(st.jobs, j, st'.jobs[j], Unfinished(s));
      CountSet(st.jobs, j, st'.jobs[j], OnHardware(s));
    }
  }

  /** While the scheduler is going, what it has begun and not seen done is what it counts. */
  lemma GoingCountsAll(st: State, s: nat)
    requires JobsOk(st) && s < |st.scheds| && st.scheds[s].mode == Going
    ensures Count(st.jobs, OnHardware(s)) == Count(st.jobs, InFlight(s))
  {
    forall j | 0 <= j < |st.jobs| ensures Match(OnHardware(s), st.jobs[j]) == Match(InFlight(s), st.jobs[j]) {
      assert JobOk(st, j, st.jobs[j]);
    }
    CountSame(st.jobs, OnHardware(s), InFlight(s));
    CountSame(st.jobs, InFlight(s), OnHardware(s));
  }

  lemma CountsKeptAsOneBegins(st: State, s: nat, j: nat)
    requires Inv(st) && Enabled(st, Begin(s, j))
    ensures CountsOk(Apply(st, Begin(s, j)))
  {
    GoingCountsAll(st, s);
    assert SchedCounted(st, s, st.scheds[s]);
    CountsSet(st, Apply(st, Begin(s, j)), j);
  }

  lemma CountsKeptAsRunReturns(st: State, s: nat, parent: Parent)
    requires Inv(st) && Enabled(st, RunReturns(s, parent))
    ensures CountsOk(Apply(st, RunReturns(s, parent)))
  {
    var j := st.scheds[s].current.value;
    assert PendingOk(st, s, st.scheds[s]) && JobOk(st, j, st.jobs[j]);
    CountsSet(st, Apply(st, RunReturns(s, parent)), j);
  }

  lemma CountsKeptAsOneSignals(st: State, step: Step)
    requires CountsOk(st) && Enabled(st, step) && (step.HwSignal? || step.Resubmit?)
    ensures CountsOk(Apply(st, step))
  {
    CountsSet(st, Apply(st, step), if step.HwSignal? then step.j else st.scheds[step.s].pending[step.k]);
  }

  /** A change as `Change` makes it keeps the counters right if it moves them as the job moves. */
  lemma CountsChange(st: State, st0: State, j: nat, job: Job, hw: int, score: int)
    requires CountsOk(st) && j < |st.jobs| && job.sched == st.jobs[j].sched < |st.scheds| == |st0.scheds|
    requires st0.jobs == st.jobs && st0.entities == st.entities
    requires forall s :: 0 <= s < |st.scheds| ==>
               && st0.scheds[s].hwRqCount == st.scheds[s].hwRqCount
               && st0.scheds[s].score == st.scheds[s].score && st0.scheds[s].limit == st.scheds[s].limit
    requires hw == Match(InFlight(job.sched), job) - Match(InFlight(job.sched), st.jobs[j])
    requires score == Match(Unfinished(job.sched), job) - Match(Unfinished(job.sched), st.jobs[j])
    requires Match(OnHardware(job.sched), job) <= Match(OnHardware(job.sched), st.jobs[j])
    ensures CountsOk(Change(st0, j, job, hw, score))
  {
    CountsSet(st, Change(st0, j, job, hw, score), j);
  }

  lemma CountsKeptAsOneStops(st: State, s: nat)
    requires Inv(st) && Enabled(st, StopOne(s))
    ensures CountsOk(DoStopOne(st, s))
  {
    var sched := st.scheds[s];
    var j := sched.pending[sched.mode.left - 1];
    if st.jobs[j].parent != NoFence && st.jobs[j].stage == Waiting {
      CountsChange(st, SetSched(st, s, sched.(mode := Stopping(sched.mode.left - 1))), j,
                   st.jobs[j].(stage := Detached), -1, 0);
    } else {
      CountsFrame(st, DoStopOne(st, s));
    }
  }

  lemma CountsFrame(st: State, st': State)
    requires CountsOk(st) && st'.jobs == st.jobs && st'.entities == st.entities && |st'.scheds| == |st.scheds|
    requires forall s :: 0 <= s < |st.scheds| ==>
               && st'.scheds[s].hwRqCount == st.scheds[s].hwRqCount
               && st'.scheds[s].score == st.scheds[s].score && st'.scheds[s].limit == st.scheds[s].limit
    ensures CountsOk(st')
  {
    forall s | 0 <= s < |st'.scheds| ensures SchedCounted(st', s, st'.scheds[s]) {
      assert SchedCounted(st, s, st.scheds[s]);
    }
  }

  lemma CountsKeptAsOneWaits(st: State, s: nat)
    requires CountsOk(st) && Enabled(st, StartOne(s))
    requires var job := st.jobs[st.scheds[s].pending[st.scheds[s].mode.next]];
             job.stage == Detached && job.parent == Unsignaled
    ensures CountsOk(DoStartOne(st, s))
  {
    var sched := st.scheds[s];
    var j := sched.pending[sched.mode.next];
    CountsChange(st, SetSched(st, s, sched.(mode := Starting(sched.mode.next + 1))), j,
                 st.jobs[j].(stage := Waiting), 1, 0);
  }

  lemma CountsKeptAsOneIsDone(st: State, s: nat)
    requires CountsOk(st) && Enabled(st, StartOne(s))
    requires var job := st.jobs[st.scheds[s].pending[st.scheds[s].mode.next]];
             job.stage == Detached && job.parent != Unsignaled
    ensures CountsOk(DoStartOne(st, s))
  {
    var sched := st.scheds[s];
    var j := sched.pending[sched.mode.next];
    var job := st.jobs[j];
    CountsChange(st, SetSched(st, s, sched.(mode := Starting(sched.mode.next + 1))), j,
                 job.(stage := Done, dones := job.dones + 1), 0, -1);
  }

  lemma CountsKeptAsOneStarts(st: State, s: nat)
    requires Inv(st) && Enabled(st, StartOne(s))
    ensures CountsOk(DoStartOne(st, s))
  {
    var sched := st.scheds[s];
    var j := sched.pending[sched.mode.next];
    assert PendingOk(st, s, sched) && EntryOk(st, s, sched.mode, sched.mode.next, j);
    if st.jobs[j].parent == Unsignaled {
      CountsKeptAsOneWaits(st, s);
    } else {
      CountsKeptAsOneIsDone(st, s);
    }
  }

  lemma CountsKeptWithEntities(st: State, step: Step)
    requires CountsOk(st) && Enabled(st, step)
    requires step.Push? || step.AddEntity? || step.RemoveEntity? || step.Move?
    ensures CountsOk(Apply(st, step))
  {
    var st' := Apply(st, step);
    forall s | 0 <= s < |st'.scheds| ensures SchedCounted(st', s, st'.scheds[s]) {
      assert SchedCounted(st, s, st.scheds[s]);
      if step.Push? {
        var job := st'.jobs[|st.jobs|];
        CountAdd(st.jobs, job, InFlight(s));
        CountAdd(st.jobs, job, Unfinished(s));
        CountAdd(st.jobs, job, OnHardware(s));
      } else {
        ListedSet(st.entities, step.e, st'.entities[step.e], s);
        assert st'.entities == st.entities[step.e := st'.entities[step.e]];
      }
    }
  }

  lemma CountsKeptOtherwise(st: State, step: Step)
    requires CountsOk(st) && Enabled(st, step)
    requires step.Cleanup? || step.Timeout? || step.StopBegin? || step.StopEnd? || step.StartBegin? || step.StartEnd?
    ensures CountsOk(Apply(st, step))
  {
    var st' := Apply(st, step);
    forall s | 0 <= s < |st'.scheds| ensures SchedCounted(st', s, st'.scheds[s]) {
      assert SchedCounted(st, s, st.scheds[s]);
    }
  }

  lemma InvKept(st: State, step: Step)
    requires Inv(st) && Enabled(st, step)
    ensures Inv(Apply(st, step))
  {
    match step
    case Push(_) | AddEntity(_) | RemoveEntity(_) | Move(_, _) =>
      JobsKeptWithEntities(st, step);
      SchedsKeptAsStagesChange(st, step);
      CountsKeptWithEntities(st, step);
    case Begin(s, j) =>
      JobsKeptAsOneBegins(st, step);
      SchedsKeptAsOneBegins(st, step);
      CountsKeptAsOneBegins(st, s, j);
    case RunReturns(s, parent) =>
      JobsKeptAsRunReturns(st, step);
      SchedsKeptAsStagesChange(st, step);
      CountsKeptAsRunReturns(st, s, parent);
    case HwSignal(_) =>
      JobsKeptAsOneSignals(st, step);
      SchedsKeptAsStagesChange(st, step);
      CountsKeptAsOneSignals(st, step);
    case Resubmit(_, _, _) =>
      JobsKeptAtStart(st, step);
      SchedsKeptAtResubmit(st, step);
      CountsKeptAsOneSignals(st, step);
    case StopOne(s) =>
      JobsKeptAsOneStops(st, step);
      SchedsKeptAsOneStops(st, s);
      CountsKeptAsOneStops(st, s);
    case StartOne(s) =>
      JobsKeptAsOneStarts(st, step);
      SchedsKeptAsOneStarts(st, s);
      CountsKeptAsOneStarts(st, s);
    case Cleanup(_) | Timeout(_) =>
      JobsKeptWithLists(st, step);
      SchedsKeptWithLists(st, step);
      CountsKeptOtherwise(st, step);
    case StopBegin(_) =>
      JobsKeptWithLists(st, step);
      SchedsKeptAtStopBegin(st, step);
      CountsKeptOtherwise(st, step);
    case StopEnd(_) =>
      JobsKeptWithLists(st, step);
      SchedsKeptAsModesChange(st, step);
      CountsKeptOtherwise(st, step);
    case StartBegin(_) | StartEnd(_) =>
      JobsKeptAtStart(st, step);
      SchedsKeptAsModesChange(st, step);
      CountsKeptOtherwise(st, step);
  }

  // ---------------------------------------------------------------- runs

  ghost predicate Init(st: State) {
    && st.jobs == []
    && (forall s :: 0 <= s < |st.scheds| ==>
          && st.scheds[s].hwRqCount == 0 && st.scheds[s].score == 0 && st.scheds[s].pending == []
          && st.scheds[s].mode == Going && st.scheds[s].current == None && st.scheds[s].bad == None)
    && (forall e :: 0 <= e < |st.entities| ==> !st.entities[e].listed)
  }

  ghost predicate StepsTo(st: State, step: Step, st': State) {
    Enabled(st, step) && st' == Apply(st, step)
  }

  ghost predicate IsRun(states: seq<State>, steps: seq<Step>) {
    && |states| == |steps| + 1 && Init(states[0])
    && forall i :: 0 <= i < |steps| ==> StepsTo(states[i], steps[i], states[i + 1])
  }

  lemma {:induction false} NoneListed(entities: seq<Entity>, s: nat)
    requires forall e :: 0 <= e < |entities| ==> !entities[e].listed
    ensures ListedOn(entities, s) == 0
  {
    if entities != [] {
      NoneListed(entities[..|entities| - 1], s);
    }
  }

  lemma {:induction false} InvAlways(states: seq<State>, steps: seq<Step>, n: nat)
    requires IsRun(states, steps) && n < |states|
    ensures Inv(states[n])
  {
    if n == 0 {
      forall s | 0 <= s < |states[0].scheds| ensures SchedCounted(states[0], s, states[0].scheds[s]) {
        NoneListed(states[0].entities, s);
      }
    } else {
      InvAlways(states, steps, n - 1);
      assert StepsTo(states[n - 1], steps[n - 1], states[n]);
      InvKept(states[n - 1], steps[n - 1]);
    }
  }

  /** hw_rq_count is the number of begun jobs that are not done and not detached; it never exceeds
      the limit and is not negative. Score is the number of unfinished jobs and listed entities. */
  lemma CountersAreExact(states: seq<State>, steps: seq<Step>, n: nat, s: nat)
    requires IsRun(states, steps) && n < |states| && s < |states[n].scheds|
    ensures var st := states[n];
            && 0 <= st.scheds[s].hwRqCount == Count(st.jobs, InFlight(s)) <= st.scheds[s].limit
            && st.scheds[s].score == Count(st.jobs, Unfinished(s)) + ListedOn(st.entities, s)
            && (st.scheds[s].mode == Going ==> st.scheds[s].hwRqCount == Count(st.jobs, OnHardware(s)))
  {
    InvAlways(states, steps, n);
    var st := states[n];
    assert SchedCounted(st, s, st.scheds[s]);
    CountSame(st.jobs, InFlight(s), OnHardware(s));
    if st.scheds[s].mode == Going {
      GoingCountsAll(st, s);
    }
  }

  lemma StoppedIsZero(st: State, s: nat)
    requires Inv(st) && s < |st.scheds|
    requires st.scheds[s].mode == Stopped || st.scheds[s].mode == Stopping(0) || st.scheds[s].mode == Starting(0)
    ensures st.scheds[s].hwRqCount == 0
    ensures forall j: nat :: j in st.scheds[s].pending <==> JobOfSched(st, j, s) && st.jobs[j].stage == Detached
  {
    var sched := st.scheds[s];
    assert SchedCounted(st, s, sched) && PendingOk(st, s, sched);
    forall j | 0 <= j < |st.jobs| && st.jobs[j].sched == s
      ensures Match(InFlight(s), st.jobs[j]) == 0 && (j in sched.pending <==> st.jobs[j].stage == Detached)
    {
      assert JobOk(st, j, st.jobs[j]);
      if j in sched.pending {
        var k :| 0 <= k < |sched.pending| && sched.pending[k] == j;
        assert EntryOk(st, s, sched.mode, k, sched.pending[k]);
      }
    }
    CountNone(st.jobs, InFlight(s));
    forall j: nat | j in sched.pending ensures JobOfSched(st, j, s) {
      var k :| 0 <= k < |sched.pending| && sched.pending[k] == j;
      assert EntryOk(st, s, sched.mode, k, sched.pending[k]);
    }
  }

  /** drm_sched_stop brings hw_rq_count to zero; every begun job that is not done is then pending
      without its callback, and nothing else is. */
  lemma StopReachesZero(states: seq<State>, steps: seq<Step>, n: nat, s: nat)
    requires IsRun(states, steps) && n < |states| && s < |states[n].scheds|
    requires states[n].scheds[s].mode == Stopped
    ensures var st := states[n];
            && st.scheds[s].hwRqCount == 0
            && forall j: nat :: j in st.scheds[s].pending <==> JobOfSched(st, j, s) && st.jobs[j].stage == Detached
  {
    InvAlways(states, steps, n);
    StoppedIsZero(states[n], s);
  }

  /** When drm_sched_start is through, hw_rq_count is again the number of begun jobs not done. */
  lemma StartRestores(states: seq<State>, steps: seq<Step>, n: nat, s: nat)
    requires IsRun(states, steps) && n < |steps| && steps[n] == StartEnd(s)
    ensures s < |states[n + 1].scheds|
    ensures states[n + 1].scheds[s].hwRqCount == Count(states[n + 1].jobs, OnHardware(s))
  {
    assert StepsTo(states[n], steps[n], states[n + 1]);
    CountersAreExact(states, steps, n + 1, s);
  }

  /** Whatever is stopped, resubmitted and started how often, no job is completed twice, and a job
      counts as done exactly when it was completed once. */
  lemma DoneExactlyOnce(states: seq<State>, steps: seq<Step>, n: nat, j: nat)
    requires IsRun(states, steps) && n < |states| && j < |states[n].jobs|
    ensures states[n].jobs[j].dones <= 1
    ensures states[n].jobs[j].dones == 1 <==> states[n].jobs[j].stage == Done
  {
    InvAlways(states, steps, n);
    assert JobOk(states[n], j, states[n].jobs[j]);
  }

  /** A job is done only after its hardware fence signaled, or without one; and while its scheduler is
      going every job that run_job has returned for is done as soon as that is so. */
  lemma DoneIffSignaled(states: seq<State>, steps: seq<Step>, n: nat, j: nat)
    requires IsRun(states, steps) && n < |states| && j < |states[n].jobs|
    ensures var st, job := states[n], states[n].jobs[j];
            && (job.stage == Done ==> job.parent != Unsignaled)
            && job.sched < |st.scheds|
            && (st.scheds[job.sched].mode == Going && job.stage != Queued && st.scheds[job.sched].current != Some(j) ==>
                  (job.stage == Done <==> job.parent != Unsignaled))
  {
    InvAlways(states, steps, n);
    assert JobOk(states[n], j, states[n].jobs[j]);
  }

  /** What completes a job: its hardware fence signals with the callback on it, run_job returns without
      a pending fence, or drm_sched_start finds none. */
  predicate Completes(st: State, step: Step, j: nat) {
    match step
    case HwSignal(i) => i == j && j < |st.jobs| && st.jobs[j].stage == Waiting && st.jobs[j].parent == Unsignaled
    case RunReturns(s, parent) => s < |st.scheds| && st.scheds[s].current == Some(j) && parent != Unsignaled
    case StartOne(s) =>
      && s < |st.scheds| && st.scheds[s].mode.Starting? && st.scheds[s].mode.next < |st.scheds[s].pending|
      && st.scheds[s].pending[st.scheds[s].mode.next] == j && j < |st.jobs| && st.jobs[j].parent != Unsignaled
    case _ => false
  }

  /** Nothing else completes a job, and these always do. */
  lemma DoneByCompletionOnly(states: seq<State>, steps: seq<Step>, n: nat, j: nat)
    requires IsRun(states, steps) && n < |steps| && j < |states[n].jobs| && states[n].jobs[j].stage != Done
    ensures j < |states[n + 1].jobs|
    ensures states[n + 1].jobs[j].stage == Done <==> Completes(states[n], steps[n], j)
  {
    InvAlways(states, steps, n);
    assert StepsTo(states[n], steps[n], states[n + 1]);
    CompletesOnly(states[n], steps[n], j);
  }

  lemma OthersCompleteNothing(st: State, step: Step, j: nat)
    requires Enabled(st, step) && j < |st.jobs| && st.jobs[j].stage != Done
    requires !step.HwSignal? && !step.RunReturns? && !step.StartOne?
    ensures j < |Apply(st, step).jobs| && Apply(st, step).jobs[j].stage != Done
  {
  }

  lemma CompletesOnly(st: State, step: Step, j: nat)
    requires JobsOk(st) && Enabled(st, step) && j < |st.jobs| && st.jobs[j].stage != Done
    ensures j < |Apply(st, step).jobs|
    ensures Apply(st, step).jobs[j].stage == Done <==> Completes(st, step, j)
  {
    assert JobOk(st, j, st.jobs[j]);
    if !step.HwSignal? && !step.RunReturns? && !step.StartOne? {
      OthersCompleteNothing(st, step, j);
    }
  }

  /** No begun job gets lost: while the scheduler is going, one whose hardware fence signals is
      completed by that very step. */
  lemma SignalCompletes(states: seq<State>, steps: seq<Step>, n: nat, j: nat)
    requires IsRun(states, steps) && n < |steps| && steps[n] == HwSignal(j)
    requires j < |states[n].jobs| && states[n].jobs[j].sched < |states[n].scheds|
    requires states[n].scheds[states[n].jobs[j].sched].mode == Going && states[n].jobs[j].stage != Done
    requires states[n].jobs[j].stage != Queued
    ensures j < |states[n + 1].jobs| && states[n + 1].jobs[j].stage == Done
  {
    InvAlways(states, steps, n);
    assert StepsTo(states[n], steps[n], states[n + 1]);
    assert JobOk(states[n], j, states[n].jobs[j]);
  }

  // ---------------------------------------------------------------- told by what happened

  /** The hardware fence of job `j`: what run_job returned last, at first or when resubmitted, unless that
      fence has signaled since. */
  function FenceAfter(fence: Parent, st: State, step: Step, j: nat): Parent {
    match step
    case RunReturns(s, parent) => if s < |st.scheds| && st.scheds[s].current == Some(j) then parent else fence
    case Resubmit(s, k, parent) =>
      if s < |st.scheds| && k < |st.scheds[s].pending| && st.scheds[s].pending[k] == j then parent else fence
    case HwSignal(i) => if i == j then Signaled else fence
    case _ => fence
  }

  function FenceOf(states: seq<State>, steps: seq<Step>, j: nat, n: nat): Parent
    requires n <= |states| && n <= |steps|
  {
    if n == 0 then NoFence else FenceAfter(FenceOf(states, steps, j, n - 1), states[n - 1], steps[n - 1], j)
  }

  /** Whether entity `e` is on a run queue, and of which scheduler. */
  function EntityAfter(entity: Entity, step: Step, e: nat): Entity {
    match step
    case AddEntity(f) => if f == e then entity.(listed := true) else entity
    case RemoveEntity(f) => if f == e then entity.(listed := false) else entity
    case Move(f, s) => if f == e then Entity(s, false) else entity
    case _ => entity
  }

  function EntityNow(first: Entity, steps: seq<Step>, e: nat, n: nat): Entity
    requires n <= |steps|
  {
    if n == 0 then first else EntityAfter(EntityNow(first, steps, e, n - 1), steps[n - 1], e)
  }

  lemma StepTellsFence(st: State, step: Step, st': State, j: nat)
    requires StepsTo(st, step, st')
    ensures |st'.jobs| >= |st.jobs|
    ensures if j < |st.jobs| then st'.jobs[j].parent == FenceAfter(st.jobs[j].parent, st, step, j)
            else FenceAfter(NoFence, st, step, j) == NoFence && (j < |st'.jobs| ==> st'.jobs[j].parent == NoFence)
  {
  }

  lemma StepTellsEntity(st: State, step: Step, st': State, e: nat)
    requires StepsTo(st, step, st')
    ensures |st'.entities| == |st.entities|
    ensures e < |st.entities| ==> st'.entities[e] == EntityAfter(st.entities[e], step, e)
  {
  }

  /** The parent of every job is its hardware fence. */
  lemma {:induction false} FencesAreExact(states: seq<State>, steps: seq<Step>, n: nat, j: nat)
    requires IsRun(states, steps) && n < |states|
    ensures if j < |states[n].jobs| then states[n].jobs[j].parent == FenceOf(states, steps, j, n)
            else FenceOf(states, steps, j, n) == NoFence
  {
    if n > 0 {
      FencesAreExact(states, steps, n - 1, j);
      StepTellsFence(states[n - 1], steps[n - 1], states[n], j);
    }
  }

  /** Every entity is on the scheduler and on or off the run queue where it was put last. */
  lemma {:induction false} EntitiesAreExact(states: seq<State>, steps: seq<Step>, n: nat, e: nat)
    requires IsRun(states, steps) && n < |states| && e < |states[0].entities|
    ensures |states[n].entities| == |states[0].entities|
    ensures states[n].entities[e] == EntityNow(states[0].entities[e], steps, e, n)
  {
    if n > 0 {
      EntitiesAreExact(states, steps, n - 1, e);
      StepTellsEntity(states[n - 1], steps[n - 1], states[n], e);
    }
  }

  // ---------------------------------------------------------------- nothing gets in the way

  /** The state with a new job at the end, and scheduler `s` as `sched`. */
  function WithJob(st: State, job: Job, s: nat, sched: Sched): State
    requires s < |st.scheds|
  {
    st.(jobs := st.jobs + [job], scheds := st.scheds[s := sched])
  }

  lemma JobBegins(st: State, e: nat, s: nat) returns (a: State, b: State)
    requires EntityKnown(st, e) && st.entities[e].sched == s && st.scheds[s].mode == Going
    requires st.scheds[s].current == None && st.scheds[s].hwRqCount < st.scheds[s].limit
    ensures StepsTo(st, Push(e), a) && StepsTo(a, Begin(s, |st.jobs|), b)
    ensures var sched := st.scheds[s];
            b == WithJob(st, Job(e, s, Begun, NoFence, 0), s,
                         sched.(score := sched.score + 1, hwRqCount := sched.hwRqCount + 1,
                                pending := sched.pending + [|st.jobs|], current := Some(|st.jobs|)))
  {
    a := Apply(st, Push(e));
    b := Apply(a, Begin(s, |st.jobs|));
    assert b.jobs == st.jobs + [Job(e, s, Begun, NoFence, 0)];
  }

  lemma JobReturns(st: State, job: Job, s: nat, sched: Sched) returns (c: State)
    requires s < |st.scheds| && job.sched == s && sched.current == Some(|st.jobs|)
    ensures StepsTo(WithJob(st, job, s, sched), RunReturns(s, Unsignaled), c)
    ensures c == WithJob(st, job.(stage := Waiting, parent := Unsignaled), s, sched.(current := None))
  {
    c := Apply(WithJob(st, job, s, sched), RunReturns(s, Unsignaled));
    assert c.jobs == st.jobs + [job.(stage := Waiting, parent := Unsignaled)];
    assert c.scheds == st.scheds[s := sched.(current := None)];
  }

  lemma JobSignals(st: State, job: Job, s: nat, sched: Sched) returns (d: State)
    requires s < |st.scheds| && job.sched == s && job.stage == Waiting && job.parent == Unsignaled
    ensures StepsTo(WithJob(st, job, s, sched), HwSignal(|st.jobs|), d)
    ensures d == WithJob(st, job.(stage := Done, parent := Signaled, dones := job.dones + 1), s,
                         sched.(hwRqCount := sched.hwRqCount - 1, score := sched.score - 1))
  {
    d := Apply(WithJob(st, job, s, sched), HwSignal(|st.jobs|));
    assert d.jobs == st.jobs + [job.(stage := Done, parent := Signaled, dones := job.dones + 1)];
    assert d.scheds == st.scheds[s := sched.(hwRqCount := sched.hwRqCount - 1, score := sched.score - 1)];
  }

  /** A new job of an entity gets through: pushed, begun, with its fence pending, completed by the signal.
      It is left at the end of the pending list, and the counters are what they were. */
  lemma JobGetsThrough(st: State, e: nat, s: nat) returns (a: State, b: State, c: State, d: State)
    requires EntityKnown(st, e) && st.entities[e].sched == s && st.scheds[s].mode == Going
    requires st.scheds[s].current == None && st.scheds[s].hwRqCount < st.scheds[s].limit
    ensures StepsTo(st, Push(e), a) && StepsTo(a, Begin(s, |st.jobs|), b)
    ensures StepsTo(b, RunReturns(s, Unsignaled), c) && StepsTo(c, HwSignal(|st.jobs|), d)
    ensures d == WithJob(st, Job(e, s, Done, Signaled, 1), s,
                         st.scheds[s].(pending := st.scheds[s].pending + [|st.jobs|]))
  {
    a, b := JobBegins(st, e, s);
    c := JobReturns(st, Job(e, s, Begun, NoFence, 0), s, b.scheds[s]);
    d := JobSignals(st, Job(e, s, Waiting, Unsignaled, 0), s, c.scheds[s]);
  }

  /** The time-out handler takes the first job off the list, and drm_sched_stop puts it back there. */
  lemma TimeoutLosesNothing(st: State, s: nat) returns (a: State, b: State)
    requires Inv(st) && s < |st.scheds| && st.scheds[s].mode == Going && st.scheds[s].pending != []
    requires st.scheds[s].bad == None && st.scheds[s].current == None
    ensures StepsTo(st, Timeout(s), a) && StepsTo(a, StopBegin(s), b)
    ensures a.scheds[s].bad == Some(st.scheds[s].pending[0]) && a.scheds[s].pending == st.scheds[s].pending[1..]
    ensures b.scheds[s].pending == st.scheds[s].pending && b.scheds[s].bad == None && b.jobs == st.jobs
  {
    a := Apply(st, Timeout(s));
    b := Apply(a, StopBegin(s));
  }

  /** An entity can be listed, taken off, and moved. */
  lemma EntityGetsThrough(st: State, e: nat) returns (a: State, b: State)
    requires EntityKnown(st, e) && !st.entities[e].listed
    ensures StepsTo(st, AddEntity(e), a) && StepsTo(a, RemoveEntity(e), b) && b == st
    ensures a.scheds[st.entities[e].sched].score == st.scheds[st.entities[e].sched].score + 1
  {
    a := Apply(st, AddEntity(e));
    b := Apply(a, RemoveEntity(e));
    assert b.scheds == st.scheds && b.entities == st.entities;
  }

  // ---------------------------------------------------------------- the loops

  lemma StopOneKeeps(st: State, s: nat)
    requires Inv(st) && s < |st.scheds| && st.scheds[s].mode.Stopping? && st.scheds[s].mode.left > 0
    ensures Enabled(st, StopOne(s)) && Inv(DoStopOne(st, s)) && |DoStopOne(st, s).scheds| == |st.scheds|
    ensures DoStopOne(st, s).entities == st.entities
    ensures DoStopOne(st, s).scheds[s].mode == Stopping(st.scheds[s].mode.left - 1)
  {
    var k := st.scheds[s].mode.left - 1;
    assert PendingOk(st, s, st.scheds[s]);
    assert EntryOk(st, s, st.scheds[s].mode, k, st.scheds[s].pending[k]);
    InvKept(st, StopOne(s));
  }

  lemma StartOneKeeps(st: State, s: nat)
    requires Inv(st) && s < |st.scheds| && st.scheds[s].mode.Starting?
    requires st.scheds[s].mode.next < |st.scheds[s].pending|
    ensures Enabled(st, StartOne(s)) && Inv(DoStartOne(st, s)) && |DoStartOne(st, s).scheds| == |st.scheds|
    ensures DoStartOne(st, s).entities == st.entities && DoStartOne(st, s).scheds[s].pending == st.scheds[s].pending
    ensures DoStartOne(st, s).scheds[s].mode == Starting(st.scheds[s].mode.next + 1)
  {
    var k := st.scheds[s].mode.next;
    assert PendingOk(st, s, st.scheds[s]);
    assert EntryOk(st, s, st.scheds[s].mode, k, st.scheds[s].pending[k]);
    InvKept(st, StartOne(s));
  }

  /** `st'` differs from `st` in jobs and counters only. */
  ghost predicate SameLists(st: State, st': State) {
    && st'.entities == st.entities && |st'.scheds| == |st.scheds|
    && forall s :: 0 <= s < |st.scheds| ==>
         && st'.scheds[s].pending == st.scheds[s].pending && st'.scheds[s].mode == st.scheds[s].mode
         && st'.scheds[s].limit == st.scheds[s].limit
  }

  /** Some hardware fences signal, in the order given; those that have already are skipped. */
  method Signal(st: State, jobs: seq<nat>) returns (st': State)
    requires Inv(st)
    ensures Inv(st') && SameLists(st, st')
  {
    st' := st;
    for i := 0 to |jobs|
      invariant Inv(st') && SameLists(st, st')
    {
      if JobKnown(st', jobs[i]) && st'.jobs[jobs[i]].parent == Unsignaled {
        InvKept(st', HwSignal(jobs[i]));
        st' := DoSignal(st', jobs[i]);
      }
    }
  }

  function Turn(signals: seq<seq<nat>>, n: nat): seq<nat> {
    if n < |signals| then signals[n] else []
  }

  /** drm_sched_stop, while the hardware fences `signals[n]` signal right before turn `n` of its loop. */
  method Stop(st: State, s: nat, signals: seq<seq<nat>>) returns (st': State)
    requires Inv(st) && s < |st.scheds| && st.scheds[s].mode == Going && st.scheds[s].current == None
    ensures Inv(st') && st'.entities == st.entities && |st'.scheds| == |st.scheds| && st'.scheds[s].mode == Stopped
    ensures st'.scheds[s].hwRqCount == 0
    ensures st'.scheds[s].score == Count(st'.jobs, Unfinished(s)) + ListedOn(st'.entities, s)
    ensures forall j: nat ::
              j in st'.scheds[s].pending <==> JobOfSched(st', j, s) && st'.jobs[j].stage == Detached
  {
    InvKept(st, StopBegin(s));
    st' := SetSched(st, s, PutBack(st.scheds[s]));
    var turn := 0;
    while st'.scheds[s].mode != Stopping(0)
      invariant Inv(st') && st'.entities == st.entities && |st'.scheds| == |st.scheds|
      invariant st'.scheds[s].mode.Stopping?
      decreases st'.scheds[s].mode.left
    {
      st' := StopTurn(st', s, Turn(signals, turn));
      turn := turn + 1;
    }
    st' := Signal(st', Turn(signals, turn));
    StopEnds(st', s);
    st' := SetSched(st', s, st'.scheds[s].(mode := Stopped));
  }

  method StopTurn(st: State, s: nat, jobs: seq<nat>) returns (st': State)
    requires Inv(st) && s < |st.scheds| && st.scheds[s].mode.Stopping? && st.scheds[s].mode.left > 0
    ensures Inv(st') && st'.entities == st.entities && |st'.scheds| == |st.scheds|
    ensures st'.scheds[s].mode == Stopping(st.scheds[s].mode.left - 1)
  {
    st' := Signal(st, jobs);
    StopOneKeeps(st', s);
    st' := DoStopOne(st', s);
  }

  lemma StopEnds(st: State, s: nat)
    requires Inv(st) && s < |st.scheds| && st.scheds[s].mode == Stopping(0)
    ensures var st' := SetSched(st, s, st.scheds[s].(mode := Stopped));
            && Inv(st') && st'.scheds[s].hwRqCount == 0
            && st'.scheds[s].score == Count(st'.jobs, Unfinished(s)) + ListedOn(st'.entities, s)
            && forall j: nat :: j in st'.scheds[s].pending <==> JobOfSched(st', j, s) && st'.jobs[j].stage == Detached
  {
    InvKept(st, StopEnd(s));
    StoppedIsZero(st, s);
    assert SchedCounted(st, s, st.scheds[s]);
  }

  /** drm_sched_start likewise: afterwards hw_rq_count is what it should be. */
  method Start(st: State, s: nat, signals: seq<seq<nat>>) returns (st': State)
    requires Inv(st) && s < |st.scheds| && st.scheds[s].mode == Stopped
    ensures Inv(st') && st'.entities == st.entities && |st'.scheds| == |st.scheds| && st'.scheds[s].mode == Going
    ensures st'.scheds[s].pending == st.scheds[s].pending
    ensures st'.scheds[s].hwRqCount == Count(st'.jobs, OnHardware(s)) <= st'.scheds[s].limit
  {
    InvKept(st, StartBegin(s));
    st' := SetSched(st, s, st.scheds[s].(mode := Starting(0)));
    while st'.scheds[s].mode.next < |st'.scheds[s].pending|
      invariant Inv(st') && st'.entities == st.entities && |st'.scheds| == |st.scheds|
      invariant st'.scheds[s].mode.Starting? && st'.scheds[s].pending == st.scheds[s].pending
      invariant st'.scheds[s].mode.next <= |st'.scheds[s].pending|
      decreases |st'.scheds[s].pending| - st'.scheds[s].mode.next
    {
      st' := Signal(st', Turn(signals, st'.scheds[s].mode.next));
      StartOneKeeps(st', s);
      st' := DoStartOne(st', s);
    }
    InvKept(st', StartEnd(s));
    st' := SetSched(st', s, st'.scheds[s].(mode := Going));
    GoingIsRestored(st', s);
  }

  lemma GoingIsRestored(st: State, s: nat)
    requires Inv(st) && s < |st.scheds| && st.scheds[s].mode == Going
    ensures st.scheds[s].hwRqCount == Count(st.jobs, OnHardware(s)) <= st.scheds[s].limit
  {
    GoingCountsAll(st, s);
    assert SchedCounted(st, s, st.scheds[s]);
  }
}
