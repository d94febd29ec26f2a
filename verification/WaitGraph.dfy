/**
 The wait-for graph of submitted jobs: the ordering inside msm_ioctl_gem_submit
 (msm/msm_gem_submit.c) and the FIFO of a scheduler entity (scheduler/sched_entity.c).

 Any number of submit ioctls run concurrently, one per queue at a time; queues of one file may share
 an entity. Each submit collects fences from syncobjs, sync_file descriptors and the reservation
 objects of the buffers it has locked, arms its job, attaches the job's fence to its buffers, pushes
 it, publishes it through syncobjs, and unlocks.
 */
module WaitGraph {
  import opened JobDeps

  /** Made by `submit`. `deps` came from reservation objects and syncobjs, `fdDeps` from
      sync_file descriptors. The job's number is its place in the order of arming; `rank` is its
      place in the order of pushing, which is the order of the entity's FIFO. */
  datatype Job = Job(
    submit: nat, entity: nat, deps: set<nat>, fdDeps: set<nat>, rank: Option<nat>, finished: bool)

  datatype Phase = Parsing | Locked | Armed | Pushed | Closed

  datatype Submit = Submit(queue: nat, phase: Phase, deps: set<nat>, fdDeps: set<nat>, job: Option<nat>)

  /** Queue `q` feeds entity `queueEntity[q]`. `queueOwner[q]` and `boOwner[b]` name the submit
      holding that lock; `resv[b]` are the fences on buffer `b`; `exported` are the jobs whose fence
      has a file descriptor; `pushes` counts the jobs pushed. */
  datatype State = State(
    jobs: seq<Job>, submits: seq<Submit>, pushes: nat,
    queueEntity: seq<nat>, queueOwner: seq<Option<nat>>, boOwner: seq<Option<nat>>,
    resv: seq<set<nat>>, syncobjs: seq<Option<nat>>, exported: set<nat>)

  datatype Step =
    | Begin(q: nat)
    | TakeSyncobj(u: nat, k: nat)
    | TakeFenceFd(u: nat, j: nat)
    | LockBos(u: nat, bos: set<nat>)
    | CollectBo(u: nat, b: nat, fences: set<nat>)
    | Abort(u: nat)
    | Arm(u: nat)
    | Export(u: nat)
    | Attach(u: nat, b: nat, others: set<nat>)
    | Push(u: nat)
    | Publish(u: nat, k: nat)
    | Finish(u: nat)
    | ResetSyncobj(k: nat)
    | CompleteJob(j: nat)

  // ---------------------------------------------------------------- steps

  predicate In(st: State, u: nat, phase: Phase) {
    u < |st.submits| && st.submits[u].phase == phase
  }

  predicate Holds(st: State, u: nat, b: nat) {
    b < |st.boOwner| && b < |st.resv| && st.boOwner[b] == Some(u)
  }

  predicate OwnJob(st: State, u: nat) {
    u < |st.submits| && st.submits[u].job.Some? && st.submits[u].job.value < |st.jobs|
  }

  predicate IsPushed(st: State, j: nat) {
    j < |st.jobs| && st.jobs[j].rank.Some?
  }

  /** `d` is ahead of `j` in the FIFO of their entity. */
  predicate AheadInFifo(j: Job, d: Job) {
    d.entity == j.entity && d.rank.Some? && j.rank.Some? && d.rank.value < j.rank.value
  }

  /** `j` waits for `d`: for its fence, which the scheduler ignores within one entity, or in the
      entity's FIFO. */
  predicate WaitsFor(st: State, j: nat, d: nat) {
    && j < |st.jobs| && d < |st.jobs|
    && (|| (d in st.jobs[j].deps && st.jobs[d].entity != st.jobs[j].entity)
        || AheadInFifo(st.jobs[j], st.jobs[d]))
  }

  /** The same with the fences that came through file descriptors. */
  predicate WaitsForAny(st: State, j: nat, d: nat) {
    || WaitsFor(st, j, d)
    || (&& j < |st.jobs| && d < |st.jobs|
        && d in st.jobs[j].fdDeps && st.jobs[d].entity != st.jobs[j].entity)
  }

  ghost predicate CanRun(st: State, j: nat) {
    && j < |st.jobs| && IsPushed(st, j) && !st.jobs[j].finished
    && forall d: nat :: WaitsForAny(st, j, d) ==> st.jobs[d].finished
  }

  ghost predicate Enabled(st: State, step: Step) {
    match step
    case Begin(q) => q < |st.queueOwner| && q < |st.queueEntity| && st.queueOwner[q] == None
    case TakeSyncobj(u, k) => In(st, u, Parsing) && k < |st.syncobjs|
    case TakeFenceFd(u, j) => In(st, u, Parsing) && j in st.exported
    case LockBos(u, bos) =>
      In(st, u, Parsing) && forall b :: b in bos ==> b < |st.boOwner| && st.boOwner[b] == None
    case CollectBo(u, b, fences) => In(st, u, Locked) && Holds(st, u, b) && fences <= st.resv[b]
    case Abort(u) => In(st, u, Parsing) || In(st, u, Locked)
    case Arm(u) => In(st, u, Locked) && st.submits[u].queue < |st.queueEntity|
    case Export(u) => In(st, u, Armed) && OwnJob(st, u)
    case Attach(u, b, others) =>
      In(st, u, Armed) && OwnJob(st, u) && Holds(st, u, b) && others <= st.resv[b]
    case Push(u) => In(st, u, Armed) && OwnJob(st, u)
    case Publish(u, k) => In(st, u, Pushed) && OwnJob(st, u) && k < |st.syncobjs|
    case Finish(u) => In(st, u, Pushed)
    case ResetSyncobj(k) => k < |st.syncobjs|
    case CompleteJob(j) => CanRun(st, j)
  }

  function Unlocked(owners: seq<Option<nat>>, u: nat): (r: seq<Option<nat>>)
    ensures |r| == |owners|
    ensures forall i :: 0 <= i < |r| ==> r[i] == if owners[i] == Some(u) then None else owners[i]
  {
    seq(|owners|, i requires 0 <= i < |owners| => if owners[i] == Some(u) then None else owners[i])
  }

  function LockedBy(owners: seq<Option<nat>>, bos: set<nat>, u: nat): (r: seq<Option<nat>>)
    ensures |r| == |owners|
    ensures forall i :: 0 <= i < |r| ==> r[i] == if i in bos then Some(u) else owners[i]
  {
    seq(|owners|, i requires 0 <= i < |owners| => if i in bos then Some(u) else owners[i])
  }

  function Close(st: State, u: nat): State
    requires u < |st.submits|
  {
    st.(submits := st.submits[u := st.submits[u].(phase := Closed)],
        queueOwner := Unlocked(st.queueOwner, u), boOwner := Unlocked(st.boOwner, u))
  }

  ghost function Apply(st: State, step: Step): State
    requires Enabled(st, step)
  {
    match step
    case Begin(q) =>
      st.(submits := st.submits + [Submit(q, Parsing, {}, {}, None)],
          queueOwner := st.queueOwner[q := Some(|st.submits|)])
    case TakeSyncobj(u, k) =>
      var fences := if st.syncobjs[k].Some? then {st.syncobjs[k].value} else {};
      st.(submits := st.submits[u := st.submits[u].(deps := st.submits[u].deps + fences)])
    case TakeFenceFd(u, j) =>
      st.(submits := st.submits[u := st.submits[u].(fdDeps := st.submits[u].fdDeps + {j})])
    case LockBos(u, bos) =>
      st.(submits := st.submits[u := st.submits[u].(phase := Locked)],
          boOwner := LockedBy(st.boOwner, bos, u))
    case CollectBo(u, b, fences) =>
      st.(submits := st.submits[u := st.submits[u].(deps := st.submits[u].deps + fences)])
    case Abort(u) => Close(st, u)
    case Arm(u) =>
      var sub := st.submits[u];
      st.(jobs := st.jobs + [Job(u, st.queueEntity[sub.queue], sub.deps, sub.fdDeps, None, false)],
          submits := st.submits[u := sub.(phase := Armed, job := Some(|st.jobs|))])
    case Export(u) =>
      st.(exported := st.exported + {st.submits[u].job.value})
    case Attach(u, b, others) =>
      st.(resv := st.resv[b := others + {st.submits[u].job.value}])
    case Push(u) =>
      var j := st.submits[u].job.value;
      st.(jobs := st.jobs[j := st.jobs[j].(rank := Some(st.pushes))], pushes := st.pushes + 1,
          submits := st.submits[u := st.submits[u].(phase := Pushed)])
    case Publish(u, k) =>
      st.(syncobjs := st.syncobjs[k := st.submits[u].job])
    case Finish(u) => Close(st, u)
    case ResetSyncobj(k) => st.(syncobjs := st.syncobjs[k := None])
    case CompleteJob(j) => st.(jobs := st.jobs[j := st.jobs[j].(finished := true)])
  }

  // ---------------------------------------------------------------- invariant

  ghost predicate AllPushed(st: State, fences: set<nat>) {
    forall j :: j in fences ==> IsPushed(st, j)
  }

  ghost predicate AllArmed(st: State, fences: set<nat>) {
    forall j :: j in fences ==> j < |st.jobs|
  }

  /** What a submit has collected was armed, and pushed unless it came through a descriptor; it has
      its job from arming on. */
  ghost predicate SubmitAgrees(st: State, u: nat, sub: Submit) {
    && AllPushed(st, sub.deps) && AllArmed(st, sub.fdDeps)
    && (sub.phase == Armed || sub.phase == Pushed ==>
          && sub.job.Some? && sub.job.value < |st.jobs| && st.jobs[sub.job.value].submit == u
          && (sub.phase == Pushed <==> st.jobs[sub.job.value].rank.Some?))
  }

  ghost predicate SubmitsAgree(st: State) {
    forall u :: 0 <= u < |st.submits| ==> SubmitAgrees(st, u, st.submits[u])
  }

  /** Only its own submit stands between arming and pushing a job. */
  ghost predicate Midway(st: State, j: nat, job: Job) {
    job.rank.None? ==>
      job.submit < |st.submits| && st.submits[job.submit].phase == Armed && st.submits[job.submit].job == Some(j)
  }

  /** What the job waits for was pushed, and before it was; what it got from a descriptor was
      armed, and before it was. */
  ghost predicate WaitsBackwards(st: State, j: nat, job: Job)
    requires j <= |st.jobs|
  {
    && (job.rank.Some? ==> job.rank.value < st.pushes)
    && (forall d :: d in job.deps ==>
          && d < j && st.jobs[d].rank.Some? && st.jobs[d].rank.value < st.pushes
          && (job.rank.Some? ==> st.jobs[d].rank.value < job.rank.value))
    && (forall d :: d in job.fdDeps ==> d < j)
  }

  ghost predicate JobsMidway(st: State) {
    forall j :: 0 <= j < |st.jobs| ==> Midway(st, j, st.jobs[j])
  }

  ghost predicate JobsWaitBackwards(st: State) {
    forall j :: 0 <= j < |st.jobs| ==> WaitsBackwards(st, j, st.jobs[j])
  }

  /** A fence on a buffer belongs to a pushed job, or to the submit that has the buffer locked. */
  ghost predicate ResvOk(st: State, b: nat, fences: set<nat>) {
    forall j :: j in fences ==>
      j < |st.jobs| && (st.jobs[j].rank.Some? || (b < |st.boOwner| && st.boOwner[b] == Some(st.jobs[j].submit)))
  }

  ghost predicate ResvAgree(st: State) {
    forall b :: 0 <= b < |st.resv| ==> ResvOk(st, b, st.resv[b])
  }

  ghost predicate PublishedAgree(st: State) {
    && (forall k :: 0 <= k < |st.syncobjs| && st.syncobjs[k].Some? ==> IsPushed(st, st.syncobjs[k].value))
    && AllArmed(st, st.exported)
  }

  ghost predicate Inv(st: State) {
    && SubmitsAgree(st) && JobsMidway(st) && JobsWaitBackwards(st) && ResvAgree(st) && PublishedAgree(st)
  }

  // ---------------------------------------------------------------- every step keeps it

  lemma SubmitsKept(st: State, step: Step)
    requires Inv(st) && Enabled(st, step) && !step.Arm? && !step.Push? && !step.CompleteJob?
    ensures SubmitsAgree(Apply(st, step))
  {
  }

  lemma SubmitsKeptAsJobsChange(st: State, step: Step)
    requires Inv(st) && Enabled(st, step) && (step.Arm? || step.Push? || step.CompleteJob?)
    ensures SubmitsAgree(Apply(st, step))
  {
  }

  lemma MidwayKept(st: State, step: Step)
    requires SubmitsAgree(st) && JobsMidway(st) && Enabled(st, step)
    ensures JobsMidway(Apply(st, step))
  {
  }

  lemma WaitsBackwardsKept(st: State, step: Step)
    requires SubmitsAgree(st) && JobsWaitBackwards(st) && Enabled(st, step)
    ensures JobsWaitBackwards(Apply(st, step))
  {
  }

  lemma PublishedKept(st: State, step: Step)
    requires SubmitsAgree(st) && JobsMidway(st) && Enabled(st, step)
    ensures ResvAgree(st) ==> ResvAgree(Apply(st, step))
    ensures PublishedAgree(st) ==> PublishedAgree(Apply(st, step))
  {
  }

  lemma InvKept(st: State, step: Step)
    requires Inv(st) && Enabled(st, step)
    ensures Inv(Apply(st, step))
  {
    if step.Arm? || step.Push? || step.CompleteJob? {
      SubmitsKeptAsJobsChange(st, step);
    } else {
      SubmitsKept(st, step);
    }
    MidwayKept(st, step);
    WaitsBackwardsKept(st, step);
    PublishedKept(st, step);
  }

  // ---------------------------------------------------------------- runs

  ghost predicate Init(st: State) {
    && st.jobs == [] && st.submits == [] && st.pushes == 0 && st.exported == {}
    && |st.queueOwner| == |st.queueEntity|
    && (forall q :: 0 <= q < |st.queueOwner| ==> st.queueOwner[q] == None)
    && (forall b :: 0 <= b < |st.boOwner| ==> st.boOwner[b] == None)
    && (forall b :: 0 <= b < |st.resv| ==> st.resv[b] == {})
    && (forall k :: 0 <= k < |st.syncobjs| ==> st.syncobjs[k] == None)
  }

  ghost predicate StepsTo(st: State, step: Step, st': State) {
    Enabled(st, step) && st' == Apply(st, step)
  }

  function Front(steps: seq<Step>): seq<Step>
    requires steps != []
  {
    steps[..|steps| - 1]
  }

  function Last(steps: seq<Step>): Step
    requires steps != []
  {
    steps[|steps| - 1]
  }

  /** `st` is reached from `start` by `steps`. */
  ghost predicate Reaches(start: State, steps: seq<Step>, st: State)
    decreases |steps|
  {
    if steps == [] then st == start
    else exists mid ::
           StepsTo(mid, Last(steps), st) && Reaches(start, Front(steps), mid)
  }

  lemma {:induction false} InvAlways(start: State, steps: seq<Step>, st: State)
    requires Init(start) && Reaches(start, steps, st)
    ensures Inv(st)
    decreases |steps|
  {
    if steps != [] {
      var mid :| StepsTo(mid, Last(steps), st) && Reaches(start, Front(steps), mid);
      InvAlways(start, Front(steps), mid);
      InvKept(mid, Last(steps));
    }
  }

  // ---------------------------------------------------------------- no cycles without descriptors

  /** A walk along wait-for edges, with or without those made by file descriptors. */
  ghost predicate IsWalk(st: State, fds: bool, walk: seq<nat>) {
    forall i :: 0 <= i < |walk| - 1 ==>
      if fds then WaitsForAny(st, walk[i], walk[i + 1]) else WaitsFor(st, walk[i], walk[i + 1])
  }

  ghost predicate IsCycle(st: State, fds: bool, walk: seq<nat>) {
    |walk| >= 2 && walk[0] == walk[|walk| - 1] && IsWalk(st, fds, walk)
  }

  /** The place in the order of pushing; a job not pushed yet comes last. */
  function PushOrder(st: State, j: nat): nat
    requires j < |st.jobs|
  {
    if st.jobs[j].rank.Some? then st.jobs[j].rank.value else st.pushes
  }

  lemma {:induction false} WalkGoesBackInPushOrder(st: State, walk: seq<nat>)
    requires Inv(st) && |walk| >= 2 && IsWalk(st, false, walk)
    ensures walk[0] < |st.jobs| && walk[|walk| - 1] < |st.jobs|
    ensures PushOrder(st, walk[|walk| - 1]) < PushOrder(st, walk[0])
    decreases |walk|
  {
    var j, d := walk[0], walk[1];
    assert WaitsFor(st, j, d);
    assert WaitsBackwards(st, j, st.jobs[j]);
    if |walk| > 2 {
      WalkGoesBackInPushOrder(st, walk[1..]);
    }
  }

  /** The graph of implicit, syncobj and FIFO waits has no cycle in any reachable state. */
  lemma NoCycle(start: State, steps: seq<Step>, st: State, walk: seq<nat>)
    requires Init(start) && Reaches(start, steps, st)
    ensures !IsCycle(st, false, walk)
  {
    InvAlways(start, steps, st);
    if IsCycle(st, false, walk) {
      WalkGoesBackInPushOrder(st, walk);
    }
  }

  /** A fence found in a reservation object or a syncobj belongs to a job that was pushed before the
      job that now waits for it was armed. */
  lemma PushedBeforeDependentArmed(start: State, steps: seq<Step>, st: State, u: nat, d: nat)
    requires Init(start) && Reaches(start, steps, st) && Enabled(st, Arm(u)) && d in st.submits[u].deps
    ensures IsPushed(st, d) && |st.jobs| < |Apply(st, Arm(u)).jobs|
    ensures d in Apply(st, Arm(u)).jobs[|st.jobs|].deps
  {
    InvAlways(start, steps, st);
    assert SubmitAgrees(st, u, st.submits[u]);
  }

  /** Progress: as long as a pushed job is unfinished some pushed job has nothing to wait for. */
  lemma {:induction false} SomeJobCanRun(st: State, j: nat)
    requires Inv(st) && IsPushed(st, j) && !st.jobs[j].finished
    requires forall i :: 0 <= i < |st.jobs| ==> st.jobs[i].fdDeps == {}
    ensures exists r :: CanRun(st, r)
    decreases PushOrder(st, j)
  {
    if !CanRun(st, j) {
      var d: nat :| WaitsForAny(st, j, d) && !st.jobs[d].finished;
      assert WaitsBackwards(st, j, st.jobs[j]);
      SomeJobCanRun(st, d);
    }
  }

  // ---------------------------------------------------------------- file descriptors

  ghost predicate OneQueuePerEntity(st: State) {
    forall p, q :: 0 <= p < q < |st.queueEntity| ==> st.queueEntity[p] != st.queueEntity[q]
  }

  ghost predicate OneEntity(st: State) {
    forall p, q :: 0 <= p < q < |st.queueEntity| ==> st.queueEntity[p] == st.queueEntity[q]
  }

  ghost predicate OwnsItsQueue(st: State, u: nat, sub: Submit) {
    && sub.queue < |st.queueOwner| && sub.queue < |st.queueEntity|
    && (sub.phase != Closed ==> st.queueOwner[sub.queue] == Some(u))
  }

  ghost predicate QueuesOwned(st: State) {
    forall u :: 0 <= u < |st.submits| ==> OwnsItsQueue(st, u, st.submits[u])
  }

  ghost predicate OfItsQueue(st: State, job: Job) {
    && job.submit < |st.submits| && st.submits[job.submit].queue < |st.queueEntity|
    && job.entity == st.queueEntity[st.submits[job.submit].queue]
  }

  ghost predicate JobsOfQueues(st: State) {
    forall j :: 0 <= j < |st.jobs| ==> OfItsQueue(st, st.jobs[j])
  }

  /** Jobs of an entity are pushed in the order in which they were armed. */
  ghost predicate PushedAsArmed(st: State) {
    forall a, b :: 0 <= a < b < |st.jobs| && st.jobs[a].entity == st.jobs[b].entity ==>
      && st.jobs[a].rank.Some? && st.jobs[a].rank.value < st.pushes
      && (st.jobs[b].rank.Some? ==> st.jobs[a].rank.value < st.jobs[b].rank.value)
  }

  lemma QueuesKept(st: State, step: Step)
    requires QueuesOwned(st) && Enabled(st, step)
    ensures Apply(st, step).queueEntity == st.queueEntity && QueuesOwned(Apply(st, step))
  {
  }

  lemma JobsOfQueuesKept(st: State, step: Step)
    requires SubmitsAgree(st) && JobsOfQueues(st) && Enabled(st, step)
    ensures JobsOfQueues(Apply(st, step))
  {
  }

  lemma ArmedAfterPushed(st: State, u: nat, a: nat)
    requires Inv(st) && QueuesOwned(st) && JobsOfQueues(st) && OneQueuePerEntity(st)
    requires Enabled(st, Arm(u)) && a < |st.jobs| && st.jobs[a].entity == st.queueEntity[st.submits[u].queue]
    ensures st.jobs[a].rank.Some?
  {
    assert OfItsQueue(st, st.jobs[a]) && Midway(st, a, st.jobs[a]);
    assert OwnsItsQueue(st, u, st.submits[u]);
    assert OwnsItsQueue(st, st.jobs[a].submit, st.submits[st.jobs[a].submit]);
  }

  lemma PushedAsArmedKept(st: State, step: Step)
    requires Inv(st) && QueuesOwned(st) && JobsOfQueues(st) && OneQueuePerEntity(st)
    requires PushedAsArmed(st) && Enabled(st, step)
    ensures PushedAsArmed(Apply(st, step))
  {
    var st' := Apply(st, step);
    forall a, b | 0 <= a < b < |st'.jobs| && st'.jobs[a].entity == st'.jobs[b].entity
      ensures && st'.jobs[a].rank.Some? && st'.jobs[a].rank.value < st'.pushes
              && (st'.jobs[b].rank.Some? ==> st'.jobs[a].rank.value < st'.jobs[b].rank.value)
    {
      if step.Arm? && b == |st.jobs| {
        ArmedAfterPushed(st, step.u, a);
        assert WaitsBackwards(st, a, st.jobs[a]);
      }
      if step.Push? {
        assert SubmitAgrees(st, step.u, st.submits[step.u]);
      }
    }
  }

  lemma {:induction false} QueuesAlways(start: State, steps: seq<Step>, st: State)
    requires Init(start) && Reaches(start, steps, st)
    ensures QueuesOwned(st) && JobsOfQueues(st) && st.queueEntity == start.queueEntity
    ensures OneQueuePerEntity(start) ==> PushedAsArmed(st)
    decreases |steps|
  {
    if steps != [] {
      var mid :| StepsTo(mid, Last(steps), st) && Reaches(start, Front(steps), mid);
      QueuesAlways(start, Front(steps), mid);
      InvAlways(start, Front(steps), mid);
      QueuesKept(mid, Last(steps));
      JobsOfQueuesKept(mid, Last(steps));
      if OneQueuePerEntity(start) {
        PushedAsArmedKept(mid, Last(steps));
      }
    }
  }

  lemma {:induction false} WalkGoesBackInArmOrder(st: State, walk: seq<nat>)
    requires Inv(st) && PushedAsArmed(st) && |walk| >= 2 && IsWalk(st, true, walk)
    ensures walk[|walk| - 1] < walk[0]
    decreases |walk|
  {
    var j, d := walk[0], walk[1];
    assert WaitsForAny(st, j, d);
    assert WaitsBackwards(st, j, st.jobs[j]);
    if |walk| > 2 {
      WalkGoesBackInArmOrder(st, walk[1..]);
    }
  }

  lemma {:induction false} SameEntityWalk(st: State, walk: seq<nat>)
    requires JobsOfQueues(st) && OneEntity(st) && IsWalk(st, true, walk)
    ensures IsWalk(st, false, walk)
  {
    forall i | 0 <= i < |walk| - 1 ensures WaitsFor(st, walk[i], walk[i + 1]) {
      var j, d := walk[i], walk[i + 1];
      assert WaitsForAny(st, j, d);
      assert OfItsQueue(st, st.jobs[j]) && OfItsQueue(st, st.jobs[d]);
    }
  }

  /** With file descriptors the graph still has no cycle if no two queues share an entity, or all
      queues do. */
  lemma NoCycleWithDescriptors(start: State, steps: seq<Step>, st: State, walk: seq<nat>)
    requires Init(start) && Reaches(start, steps, st)
    requires OneQueuePerEntity(start) || OneEntity(start)
    ensures !IsCycle(st, true, walk)
  {
    InvAlways(start, steps, st);
    QueuesAlways(start, steps, st);
    if IsCycle(st, true, walk) {
      if OneQueuePerEntity(start) {
        WalkGoesBackInArmOrder(st, walk);
      } else {
        SameEntityWalk(st, walk);
        WalkGoesBackInPushOrder(st, walk);
      }
    }
  }

  /** Some job can run, or a submit that has armed one goes on to push it. */
  ghost predicate CanGoOn(st: State) {
    exists step :: Enabled(st, step) && (step.CompleteJob? || step.Push?)
  }

  /** Jobs are left, but none can run and none is yet to be pushed. */
  ghost predicate Stuck(st: State) {
    !CanGoOn(st) && exists j :: 0 <= j < |st.jobs| && !st.jobs[j].finished
  }

  lemma {:induction false} ProgressInArmOrder(st: State, j: nat)
    requires Inv(st) && PushedAsArmed(st) && j < |st.jobs| && !st.jobs[j].finished
    ensures CanGoOn(st)
    decreases j
  {
    if !IsPushed(st, j) {
      assert Midway(st, j, st.jobs[j]) && Enabled(st, Push(st.jobs[j].submit));
    } else if CanRun(st, j) {
      assert Enabled(st, CompleteJob(j));
    } else {
      var d: nat :| WaitsForAny(st, j, d) && !st.jobs[d].finished;
      assert WaitsBackwards(st, j, st.jobs[j]);
      ProgressInArmOrder(st, d);
    }
  }

  lemma {:induction false} ProgressInPushOrder(st: State, j: nat)
    requires Inv(st) && JobsOfQueues(st) && OneEntity(st) && j < |st.jobs| && !st.jobs[j].finished
    ensures CanGoOn(st)
    decreases PushOrder(st, j)
  {
    if !IsPushed(st, j) {
      assert Midway(st, j, st.jobs[j]) && Enabled(st, Push(st.jobs[j].submit));
    } else if CanRun(st, j) {
      assert Enabled(st, CompleteJob(j));
    } else {
      var d: nat :| WaitsForAny(st, j, d) && !st.jobs[d].finished;
      assert OfItsQueue(st, st.jobs[j]) && OfItsQueue(st, st.jobs[d]);
      ProgressInPushOrder(st, d);
    }
  }

  /** Progress with descriptors, in every run, in both cases. */
  lemma SomeJobCanRunOrBePushed(start: State, steps: seq<Step>, st: State, j: nat)
    requires Init(start) && Reaches(start, steps, st) && (OneQueuePerEntity(start) || OneEntity(start))
    requires j < |st.jobs| && !st.jobs[j].finished
    ensures CanGoOn(st)
  {
    InvAlways(start, steps, st);
    QueuesAlways(start, steps, st);
    if OneQueuePerEntity(start) {
      ProgressInArmOrder(st, j);
    } else {
      ProgressInPushOrder(st, j);
    }
  }

  // ---------------------------------------------------------------- and otherwise there are cycles

  lemma Extend(start: State, steps: seq<Step>, st: State, step: Step)
    requires Reaches(start, steps, st) && Enabled(st, step)
    ensures Reaches(start, steps + [step], Apply(st, step))
  {
    assert Front(steps + [step]) == steps && Last(steps + [step]) == step;
    assert StepsTo(st, step, Apply(st, step));
  }

  /** A submit on queue `q` that waits for the fences behind `fds`, up to arming and fd_install. */
  function Exported(st: State, q: nat, fds: set<nat>): State
    requires q < |st.queueEntity| && q < |st.queueOwner|
  {
    st.(jobs := st.jobs + [Job(|st.submits|, st.queueEntity[q], {}, fds, None, false)],
        submits := st.submits + [Submit(q, Armed, {}, fds, Some(|st.jobs|))],
        queueOwner := st.queueOwner[q := Some(|st.submits|)], exported := st.exported + {|st.jobs|})
  }

  lemma ReachesExported(start: State, steps: seq<Step>, st: State, q: nat, fds: set<nat>)
    returns (steps': seq<Step>)
    requires Reaches(start, steps, st) && Enabled(st, Begin(q))
    requires fds == {} || exists j :: fds == {j} && j in st.exported
    ensures Reaches(start, steps', Exported(st, q, fds))
  {
    var u := |st.submits|;
    Extend(start, steps, st, Begin(q));
    steps' := steps + [Begin(q)];
    var now := Apply(st, Begin(q));
    if fds != {} {
      var j :| fds == {j} && j in st.exported;
      assert {} + {j} == fds;
      Extend(start, steps', now, TakeFenceFd(u, j));
      steps' := steps' + [TakeFenceFd(u, j)];
      now := Apply(now, TakeFenceFd(u, j));
    }
    steps' := ReachesArmed(start, steps', st, now, q, fds);
  }

  lemma ReachesArmed(start: State, steps: seq<Step>, st: State, now: State, q: nat, fds: set<nat>)
    returns (steps': seq<Step>)
    requires Reaches(start, steps, now) && Enabled(st, Begin(q))
    requires now == Apply(st, Begin(q)).(submits := st.submits + [Submit(q, Parsing, {}, fds, None)])
    ensures Reaches(start, steps', Exported(st, q, fds))
  {
    var u := |st.submits|;
    var locked := now.(submits := st.submits + [Submit(q, Locked, {}, fds, None)]);
    LockNothing(now, u);
    Extend(start, steps, now, LockBos(u, {}));
    assert Apply(now, LockBos(u, {})).submits == locked.submits;
    Extend(start, steps + [LockBos(u, {})], locked, Arm(u));
    var armed := Apply(locked, Arm(u));
    assert armed.submits == st.submits + [Submit(q, Armed, {}, fds, Some(|st.jobs|))];
    steps' := steps + [LockBos(u, {})] + [Arm(u)];
    Extend(start, steps', armed, Export(u));
    steps' := steps' + [Export(u)];
  }

  lemma LockNothing(st: State, u: nat)
    requires In(st, u, Parsing)
    ensures Apply(st, LockBos(u, {})) == st.(submits := st.submits[u := st.submits[u].(phase := Locked)])
  {
    assert LockedBy(st.boOwner, {}, u) == st.boOwner;
  }

  /** Two queues that share an entity, and a third that feeds another one. */
  predicate Crossing(st: State, p: nat, q: nat, r: nat) {
    && p < |st.queueEntity| && q < |st.queueEntity| && r < |st.queueEntity| && p != q
    && st.queueEntity[p] == st.queueEntity[q] && st.queueEntity[r] != st.queueEntity[p]
  }

  /** Job 0 is armed on queue p and its descriptor installed; job 1 on queue r waits for it. */
  lemma DependentPushedFirst(start: State, p: nat, q: nat, r: nat) returns (steps: seq<Step>, st: State)
    requires Init(start) && Crossing(start, p, q, r)
    ensures Reaches(start, steps, st) && Enabled(st, Begin(q)) && st.queueEntity == start.queueEntity
    ensures st.jobs == [Job(0, start.queueEntity[p], {}, {}, None, false),
                        Job(1, start.queueEntity[r], {}, {0}, Some(0), false)]
    ensures |st.submits| == 2 && In(st, 0, Armed) && st.submits[0].job == Some(0)
    ensures st.exported == {0, 1} && st.pushes == 1
  {
    steps := ReachesExported(start, [], start, p, {});
    st := Exported(start, p, {});
    steps := ReachesExported(start, steps, st, r, {0});
    st := Exported(st, r, {0});
    Extend(start, steps, st, Push(1));
    steps, st := steps + [Push(1)], Apply(st, Push(1));
  }

  /** Before job 0 is pushed, job 2 on queue q, waiting for job 1, is pushed ahead of it. */
  lemma OvertakenInFifo(start: State, p: nat, q: nat, r: nat) returns (steps: seq<Step>, st: State)
    requires Init(start) && Crossing(start, p, q, r)
    ensures Reaches(start, steps, st)
    ensures st.jobs == [Job(0, start.queueEntity[p], {}, {}, None, false),
                        Job(1, start.queueEntity[r], {}, {0}, Some(0), false),
                        Job(2, start.queueEntity[q], {}, {1}, Some(1), false)]
    ensures In(st, 0, Armed) && st.submits[0].job == Some(0) && st.pushes == 2
  {
    steps, st := DependentPushedFirst(start, p, q, r);
    steps := ReachesExported(start, steps, st, q, {1});
    st := Exported(st, q, {1});
    assert Enabled(st, Push(2));
    Extend(start, steps, st, Push(2));
    steps, st := steps + [Push(2)], Apply(st, Push(2));
  }

  lemma CycleReached(start: State, p: nat, q: nat, r: nat) returns (steps: seq<Step>, st: State)
    requires Init(start) && Crossing(start, p, q, r)
    ensures Reaches(start, steps, st) && IsCycle(st, true, [0, 2, 1, 0]) && Stuck(st)
  {
    steps, st := OvertakenInFifo(start, p, q, r);
    assert Enabled(st, Push(0));
    Extend(start, steps, st, Push(0));
    steps, st := steps + [Push(0)], Apply(st, Push(0));
    assert WaitsForAny(st, 0, 2) && WaitsForAny(st, 2, 1) && WaitsForAny(st, 1, 0);
    InvAlways(start, steps, st);
    CircleIsStuck(st);
  }

  lemma CircleIsStuck(st: State)
    requires Inv(st) && |st.jobs| == 3 && forall j :: 0 <= j < 3 ==> IsPushed(st, j) && !st.jobs[j].finished
    requires WaitsForAny(st, 0, 2) && WaitsForAny(st, 2, 1) && WaitsForAny(st, 1, 0)
    ensures Stuck(st)
  {
    forall step: Step | step.CompleteJob? || step.Push? ensures !Enabled(st, step) {
      if step.Push? && step.u < |st.submits| {
        assert SubmitAgrees(st, step.u, st.submits[step.u]);
      }
    }
    assert !st.jobs[0].finished;
  }

  ghost predicate ReachesStuck(start: State, steps: seq<Step>, st: State) {
    Reaches(start, steps, st) && Stuck(st)
  }

  /** Everything can come to a halt exactly then, too. */
  lemma StuckIffQueuesCross(start: State)
    requires Init(start)
    ensures (exists steps, st :: ReachesStuck(start, steps, st)) <==> (exists p, q, r :: Crossing(start, p, q, r))
  {
    if p, q, r :| Crossing(start, p, q, r) {
      var steps, st := CycleReached(start, p, q, r);
      assert ReachesStuck(start, steps, st);
    } else {
      NoCrossing(start);
      forall steps, st ensures !ReachesStuck(start, steps, st) {
        if Reaches(start, steps, st) {
          NeverStuck(start, steps, st);
        }
      }
    }
  }

  lemma NeverStuck(start: State, steps: seq<Step>, st: State)
    requires Init(start) && Reaches(start, steps, st) && (OneQueuePerEntity(start) || OneEntity(start))
    ensures !Stuck(st)
  {
    if j :| 0 <= j < |st.jobs| && !st.jobs[j].finished {
      SomeJobCanRunOrBePushed(start, steps, st, j);
    }
  }

  ghost predicate ReachesCycle(start: State, steps: seq<Step>, st: State, walk: seq<nat>) {
    Reaches(start, steps, st) && IsCycle(st, true, walk)
  }

  /** Descriptors can close a cycle exactly when two queues share an entity and a third does not. */
  lemma CycleIffQueuesCross(start: State)
    requires Init(start)
    ensures (exists steps, st, walk :: ReachesCycle(start, steps, st, walk)) <==>
            (exists p, q, r :: Crossing(start, p, q, r))
  {
    if p, q, r :| Crossing(start, p, q, r) {
      var steps, st := CycleReached(start, p, q, r);
      assert ReachesCycle(start, steps, st, [0, 2, 1, 0]);
    } else {
      NoCrossing(start);
      forall steps, st, walk ensures !ReachesCycle(start, steps, st, walk) {
        if Reaches(start, steps, st) {
          NoCycleWithDescriptors(start, steps, st, walk);
        }
      }
    }
  }

  lemma NoCrossing(start: State)
    requires !exists p, q, r :: Crossing(start, p, q, r)
    ensures OneQueuePerEntity(start) || OneEntity(start)
  {
    if !OneQueuePerEntity(start) {
      var p, q :| 0 <= p < q < |start.queueEntity| && start.queueEntity[p] == start.queueEntity[q];
      forall r | 0 <= r < |start.queueEntity| ensures start.queueEntity[r] == start.queueEntity[p] {
        assert !Crossing(start, p, q, r);
      }
    }
  }
}
