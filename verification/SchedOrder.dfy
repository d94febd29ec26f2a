/**
 Why the dependency shortcuts of the GPU scheduler are sound: scheduler/sched_entity.c
 (drm_sched_entity_add_dependency_cb, drm_sched_entity_pop_job, drm_sched_entity_select_rq), the
 job part of drm_sched_main in scheduler/sched_main.c, and arming and pushing as
 msm_ioctl_gem_submit (msm/msm_gem_submit.c) does them.

 Any number of schedulers, each feeding one ring that executes in order, serve any number of
 entities. An entity may move to another scheduler. Submit queues feed the entities; several may
 feed the same one. A step is one critical section of a scheduler thread, of a submitter, of a fence
 callback, or one job completing on a ring.
 */
module SchedOrder {
  import opened JobDeps

  datatype Stage =
    | Armed                         // has its fences, is not in the entity's queue yet
    | Queued
    | Popped                        // taken by the scheduler thread, run_job not called yet
    | OnRing(ring: nat, pos: nat)   // run_job put it on this ring, at this position
    | Failed                        // run_job returned an error or no fence

  /** What the head of an entity's queue waits for: entity->dependency. */
  datatype Wait = NoWait | ForScheduled(fence: Fence) | ForSignal(fence: Fence)

  /** `sched` is the scheduler recorded at arming. `deps` are all fences added, `kept` what
      de-duplication left, of which `next` were examined. Jobs are numbered in the order of arming;
      the number also serves as sequence number of the job's fence, which keeps the order within each
      entity's context. `rank` is the place in the order of pushing. */
  datatype SchedJob = SchedJob(
    queue: nat, entity: nat, sched: nat, deps: seq<Fence>, kept: seq<Fence>, next: nat, wait: Wait,
    stage: Stage, rank: nat, scheduled: bool, finished: bool)
  {
    /** A scheduler thread has taken it from the queue. */
    predicate Taken() {
      stage != Armed && stage != Queued
    }
  }

  /** `choices` are the schedulers that the entity may move to, none if it has just one. `last` is
      entity->last_scheduled, the last job that was taken from the queue. */
  datatype Entity = Entity(sched: nat, choices: set<nat>, last: Option<nat>)

  /** A submit queue, and the job that a submit on it has armed but not pushed. Its lock lets one
      submit at a time through. */
  datatype Queue = Queue(entity: nat, armed: Option<nat>)

  /** The ring was given `issued` jobs, at positions 0 onwards, and has completed the first `done` of
      them; `current` is the job that the scheduler thread is handling. */
  datatype Ring = Ring(issued: nat, done: nat, current: Option<nat>)

  /** `pushes` counts the jobs pushed; `foreign` maps a foreign context to its last signaled sequence
      number. */
  datatype State = State(
    jobs: seq<SchedJob>, entities: seq<Entity>, rings: seq<Ring>, queues: seq<Queue>, pushes: nat,
    foreign: map<nat, nat>)

  datatype Step =
    | SelectRq(q: nat, best: nat)
    | Arm(q: nat, deps: seq<Fence>)
    | Push(q: nat)
    | Examine(j: nat)
    | Wake(j: nat)
    | Pop(j: nat)
    | RunJob(s: nat, ok: bool)
    | MarkScheduled(s: nat)
    | RingAdvance(s: nat)
    | Finish(j: nat)
    | ForeignSignal(context: nat, seqno: nat)

  // ---------------------------------------------------------------- state

  /** `f` is a foreign fence or the fence of a job that exists. */
  predicate KnownFence(st: State, f: Fence) {
    f.SchedFence? ==> f.seqno < |st.jobs| && st.jobs[f.seqno].entity == f.entity
  }

  /** The hardware has finished the job's work; a job whose run_job failed has none. */
  predicate WorkComplete(st: State, job: SchedJob) {
    match job.stage
    case OnRing(r, p) => r < |st.rings| && p < st.rings[r].done
    case Failed => true
    case _ => false
  }

  predicate ForeignSignaled(st: State, f: Fence)
    requires f.ForeignFence?
  {
    f.id in st.foreign && f.seqno <= st.foreign[f.id]
  }

  predicate FenceSignaled(st: State, f: Fence) {
    if f.SchedFence? then KnownFence(st, f) && st.jobs[f.seqno].finished else ForeignSignaled(st, f)
  }

  /** First in its entity's queue. */
  predicate IsHead(st: State, j: nat) {
    && j < |st.jobs| && st.jobs[j].stage == Queued
    && forall i :: 0 <= i < |st.jobs| && st.jobs[i].entity == st.jobs[j].entity && st.jobs[i].stage == Queued ==>
         st.jobs[j].rank <= st.jobs[i].rank
  }

  predicate EntityKnown(st: State, e: nat) {
    e < |st.entities| && st.entities[e].sched < |st.rings|
  }

  /** The job is at the head, awaits nothing, and the thread of its entity's scheduler is free. */
  predicate HeadReady(st: State, j: nat) {
    && IsHead(st, j) && st.jobs[j].wait == NoWait && EntityKnown(st, st.jobs[j].entity)
    && st.rings[st.entities[st.jobs[j].entity].sched].current == None
  }

  /** Nothing queued, and the last job taken has finished. A job that is armed only does not show. */
  predicate LooksIdle(st: State, e: nat)
    requires e < |st.entities|
  {
    && (forall j :: 0 <= j < |st.jobs| && st.jobs[j].entity == e ==> st.jobs[j].stage != Queued)
    && (st.entities[e].last.Some? ==>
          st.entities[e].last.value < |st.jobs| && st.jobs[st.entities[e].last.value].finished)
  }

  // ---------------------------------------------------------------- steps

  /** The outcome of drm_sched_entity_add_dependency_cb for entity `e` on scheduler `sched`. */
  function WaitFor(st: State, e: nat, sched: nat, f: Fence): Wait {
    if f.SchedFence? && f.entity == e then NoWait
    else if f.SchedFence? && KnownFence(st, f) && st.jobs[f.seqno].sched == sched then
      if st.jobs[f.seqno].scheduled then NoWait else ForScheduled(f)
    else if FenceSignaled(st, f) then NoWait else ForSignal(f)
  }

  predicate CurrentKnown(st: State, s: nat) {
    s < |st.rings| && st.rings[s].current.Some? && st.rings[s].current.value < |st.jobs|
  }

  /** No submit is between arming and pushing on the queue. */
  predicate QueueFree(st: State, q: nat) {
    q < |st.queues| && st.queues[q].armed == None && EntityKnown(st, st.queues[q].entity)
  }

  predicate QueueArmed(st: State, q: nat) {
    q < |st.queues| && st.queues[q].armed.Some? && st.queues[q].armed.value < |st.jobs|
  }

  predicate Enabled(st: State, step: Step) {
    match step
    case SelectRq(q, best) => QueueFree(st, q) && best in st.entities[st.queues[q].entity].choices
    case Arm(q, deps) => QueueFree(st, q) && forall i :: 0 <= i < |deps| ==> KnownFence(st, deps[i])
    case Push(q) => QueueArmed(st, q)
    case Examine(j) => HeadReady(st, j) && st.jobs[j].next < |st.jobs[j].kept|
    case Wake(j) =>
      && j < |st.jobs|
      && (match st.jobs[j].wait
          case NoWait => false
          case ForScheduled(f) => f.SchedFence? && KnownFence(st, f) && st.jobs[f.seqno].scheduled
          case ForSignal(f) => FenceSignaled(st, f))
    case Pop(j) => HeadReady(st, j) && st.jobs[j].next >= |st.jobs[j].kept|
    case RunJob(s, ok) => CurrentKnown(st, s) && st.jobs[st.rings[s].current.value].stage == Popped
    case MarkScheduled(s) =>
      && CurrentKnown(st, s)
      && (st.jobs[st.rings[s].current.value].stage.OnRing? || st.jobs[st.rings[s].current.value].stage == Failed)
    case RingAdvance(s) => s < |st.rings| && st.rings[s].done < st.rings[s].issued
    case Finish(j) => j < |st.jobs| && st.jobs[j].stage.OnRing? && WorkComplete(st, st.jobs[j])
    case ForeignSignal(context, seqno) => context in st.foreign ==> st.foreign[context] <= seqno
  }

  function SetJob(st: State, j: nat, job: SchedJob): State
    requires j < |st.jobs|
  {
    st.(jobs := st.jobs[j := job])
  }

  function NewJob(st: State, q: nat, deps: seq<Fence>): SchedJob
    requires QueueFree(st, q)
  {
    var e := st.queues[q].entity;
    SchedJob(q, e, st.entities[e].sched, deps, AddAll(deps), 0, NoWait, Armed, 0, false, false)
  }

  function DoArm(st: State, q: nat, deps: seq<Fence>): State
    requires QueueFree(st, q)
  {
    st.(jobs := st.jobs + [NewJob(st, q, deps)], queues := st.queues[q := st.queues[q].(armed := Some(|st.jobs|))])
  }

  function DoPush(st: State, q: nat): State
    requires QueueArmed(st, q)
  {
    var j := st.queues[q].armed.value;
    SetJob(st, j, st.jobs[j].(stage := Queued, rank := st.pushes))
      .(queues := st.queues[q := st.queues[q].(armed := None)], pushes := st.pushes + 1)
  }

  function DoExamine(st: State, j: nat): State
    requires HeadReady(st, j) && st.jobs[j].next < |st.jobs[j].kept|
  {
    var job := st.jobs[j];
    var wait := WaitFor(st, job.entity, st.entities[job.entity].sched, job.kept[job.next]);
    SetJob(st, j, job.(next := job.next + 1, wait := wait))
  }

  function DoPop(st: State, j: nat): State
    requires HeadReady(st, j)
  {
    var e := st.jobs[j].entity;
    var s := st.entities[e].sched;
    SetJob(st, j, st.jobs[j].(stage := Popped))
      .(entities := st.entities[e := st.entities[e].(last := Some(j))],
        rings := st.rings[s := st.rings[s].(current := Some(j))])
  }

  function DoRunJob(st: State, s: nat, ok: bool): State
    requires CurrentKnown(st, s)
  {
    var ring := st.rings[s];
    var job := st.jobs[ring.current.value];
    SetJob(st, ring.current.value, job.(stage := if ok then OnRing(s, ring.issued) else Failed))
      .(rings := st.rings[s := ring.(issued := if ok then ring.issued + 1 else ring.issued)])
  }

  function DoMarkScheduled(st: State, s: nat): State
    requires CurrentKnown(st, s)
  {
    var j := st.rings[s].current.value;
    var job := st.jobs[j];
    SetJob(st, j, job.(scheduled := true, finished := job.finished || job.stage == Failed))
      .(rings := st.rings[s := st.rings[s].(current := None)])
  }

  function DoSelectRq(st: State, q: nat, best: nat): State
    requires QueueFree(st, q)
  {
    var e := st.queues[q].entity;
    if LooksIdle(st, e) then st.(entities := st.entities[e := st.entities[e].(sched := best)]) else st
  }

  function Apply(st: State, step: Step): State
    requires Enabled(st, step)
  {
    match step
    case SelectRq(q, best) => DoSelectRq(st, q, best)
    case Arm(q, deps) => DoArm(st, q, deps)
    case Push(q) => DoPush(st, q)
    case Examine(j) => DoExamine(st, j)
    case Wake(j) => SetJob(st, j, st.jobs[j].(wait := NoWait))
    case Pop(j) => DoPop(st, j)
    case RunJob(s, ok) => DoRunJob(st, s, ok)
    case MarkScheduled(s) => DoMarkScheduled(st, s)
    case RingAdvance(s) => st.(rings := st.rings[s := st.rings[s].(done := st.rings[s].done + 1)])
    case Finish(j) => SetJob(st, j, st.jobs[j].(finished := true))
    case ForeignSignal(context, seqno) => st.(foreign := st.foreign[context := seqno])
  }

  // ---------------------------------------------------------------- invariant

  /** A job is where its flags say, and what an entity left behind on another scheduler is complete. */
  predicate JobOk(st: State, j: nat, job: SchedJob) {
    && job.entity < |st.entities| && job.sched < |st.rings|
    && (job.stage.OnRing? ==> job.stage.ring == job.sched && job.stage.pos < st.rings[job.sched].issued)
    && (job.stage == Popped ==> st.rings[job.sched].current == Some(j))
    && (job.scheduled ==> job.stage.OnRing? || job.stage == Failed)
    && (job.finished ==> WorkComplete(st, job))
    && (!job.Taken() ==> job.sched == st.entities[job.entity].sched)
    && (job.sched != st.entities[job.entity].sched ==> WorkComplete(st, job))
    && (job.Taken() ==> st.entities[job.entity].last.Some? && j <= st.entities[job.entity].last.value)
    && (job.stage != Armed ==> job.rank < st.pushes)
  }

  ghost predicate JobsOk(st: State) {
    forall j :: 0 <= j < |st.jobs| ==> JobOk(st, j, st.jobs[j])
  }

  predicate RingOk(st: State, s: nat, ring: Ring) {
    && ring.done <= ring.issued
    && (ring.current.Some? ==>
          && ring.current.value < |st.jobs| && st.jobs[ring.current.value].sched == s
          && st.jobs[ring.current.value].Taken())
  }

  ghost predicate RingsOk(st: State) {
    forall s :: 0 <= s < |st.rings| ==> RingOk(st, s, st.rings[s])
  }

  /** `only` is the one ring that all entities are bound to, if there is one. */
  predicate EntityOk(st: State, only: Option<nat>, e: nat, entity: Entity) {
    && entity.sched < |st.rings| && (forall b :: b in entity.choices ==> b < |st.rings|)
    && (only.Some? ==> entity.sched == only.value && forall b :: b in entity.choices ==> b == only.value)
    && (entity.last.Some? ==>
          && entity.last.value < |st.jobs| && st.jobs[entity.last.value].entity == e
          && st.jobs[entity.last.value].Taken())
  }

  ghost predicate EntitiesOk(st: State, only: Option<nat>) {
    forall e :: 0 <= e < |st.entities| ==> EntityOk(st, only, e, st.entities[e])
  }

  /** Of two jobs of an entity the first is pushed first, and it is ahead on their ring or complete. A
      failed job has only complete ones before it, unless there is just one ring to speak of. */
  predicate PairOk(st: State, only: Option<nat>, first: SchedJob, second: SchedJob) {
    first.entity == second.entity ==>
      && (second.stage != Armed ==> first.stage != Armed && first.rank < second.rank)
      && (second.Taken() ==> first.Taken())
      && (first.sched != second.sched ==> WorkComplete(st, first))
      && (second.stage == Failed && only.None? ==> WorkComplete(st, first))
      && (second.stage.OnRing? && first.sched == second.sched ==>
            first.stage == Failed || (first.stage.OnRing? && first.stage.pos < second.stage.pos))
  }

  ghost predicate PairsOk(st: State, only: Option<nat>) {
    forall a, b :: 0 <= a < b < |st.jobs| ==> PairOk(st, only, st.jobs[a], st.jobs[b])
  }

  /** A job depends on what was there when it was armed, and keeps what de-duplication leaves. */
  ghost predicate DepsKnown(st: State, j: nat, job: SchedJob) {
    && job.kept == AddAll(job.deps)
    && forall k :: 0 <= k < |job.deps| ==>
         KnownFence(st, job.deps[k]) && (job.deps[k].SchedFence? ==> job.deps[k].seqno < j)
  }

  ghost predicate AllDepsKnown(st: State) {
    forall j :: 0 <= j < |st.jobs| ==> DepsKnown(st, j, st.jobs[j])
  }

  /** Nothing more is to be waited for on account of `f` once a job of entity `e` runs on `sched`. */
  predicate Settled(st: State, f: Fence, e: nat, sched: nat) {
    if f.ForeignFence? then ForeignSignaled(st, f)
    else
      || f.entity == e
      || (&& KnownFence(st, f)
          && (WorkComplete(st, st.jobs[f.seqno])
              || (st.jobs[f.seqno].stage.OnRing? && st.jobs[f.seqno].sched == sched)))
  }

  predicate Awaits(st: State, job: SchedJob, f: Fence) {
    || job.wait == ForSignal(f)
    || (job.wait == ForScheduled(f) && f.SchedFence? && KnownFence(st, f) && st.jobs[f.seqno].sched == job.sched)
  }

  /** What was examined is settled, except that the last one may be awaited. */
  ghost predicate ExaminedOk(st: State, job: SchedJob) {
    && job.next <= |job.kept|
    && (job.Taken() ==> job.next == |job.kept| && job.wait == NoWait)
    && forall k :: 0 <= k < job.next ==>
         || Settled(st, job.kept[k], job.entity, job.sched)
         || (k == job.next - 1 && Awaits(st, job, job.kept[k]))
  }

  ghost predicate AllExaminedOk(st: State) {
    forall j :: 0 <= j < |st.jobs| ==> ExaminedOk(st, st.jobs[j])
  }

  /** The work behind `f` is complete, or ahead of position `pos` on ring `sched`. */
  predicate AheadOf(st: State, f: Fence, sched: nat, pos: nat) {
    if f.ForeignFence? then ForeignSignaled(st, f)
    else
      && KnownFence(st, f)
      && var job := st.jobs[f.seqno];
         WorkComplete(st, job) || (job.stage.OnRing? && job.sched == sched && job.stage.pos < pos)
  }

  ghost predicate DepsAhead(st: State, job: SchedJob) {
    job.stage.OnRing? ==>
      forall k :: 0 <= k < |job.deps| ==> AheadOf(st, job.deps[k], job.sched, job.stage.pos)
  }

  ghost predicate AllDepsAhead(st: State) {
    forall j :: 0 <= j < |st.jobs| ==> DepsAhead(st, st.jobs[j])
  }

  ghost predicate Places(st: State, only: Option<nat>) {
    JobsOk(st) && RingsOk(st) && EntitiesOk(st, only) && PairsOk(st, only)
  }

  ghost predicate Inv(st: State, only: Option<nat>) {
    Places(st, only) && AllDepsKnown(st) && AllExaminedOk(st) && AllDepsAhead(st)
  }

  /** A job whose run_job fails has no unfinished job of its entity before it. */
  ghost predicate FailsCleanly(st: State, step: Step) {
    step.RunJob? && !step.ok && CurrentKnown(st, step.s) ==>
      forall i :: 0 <= i < st.rings[step.s].current.value
                  && st.jobs[i].entity == st.jobs[st.rings[step.s].current.value].entity ==>
        WorkComplete(st, st.jobs[i])
  }

  /** A job is pushed before any later one of its entity, and while one is armed only, its entity
      stays where it is. */
  ghost predicate Orderly(st: State, step: Step) {
    match step
    case Push(q) =>
      QueueArmed(st, q) ==>
        var j := st.queues[q].armed.value;
        forall i :: 0 <= i < j && st.jobs[i].entity == st.jobs[j].entity ==> st.jobs[i].stage != Armed
    case SelectRq(q, best) =>
      q < |st.queues| ==>
        forall i :: 0 <= i < |st.jobs| && st.jobs[i].entity == st.queues[q].entity ==> st.jobs[i].stage != Armed
    case _ => true
  }

  ghost predicate Fair(st: State, only: Option<nat>, step: Step) {
    Orderly(st, step) && (only.None? ==> FailsCleanly(st, step))
  }

  // ---------------------------------------------------------------- queues

  predicate QueueOk(st: State, q: nat, queue: Queue) {
    && queue.entity < |st.entities|
    && (queue.armed.Some? ==>
          && queue.armed.value < |st.jobs| && st.jobs[queue.armed.value].stage == Armed
          && st.jobs[queue.armed.value].queue == q && st.jobs[queue.armed.value].entity == queue.entity)
  }

  /** A job that is armed only is in the hands of a submit on its queue. */
  predicate ArmedOk(st: State, j: nat, job: SchedJob) {
    job.stage == Armed ==>
      job.queue < |st.queues| && st.queues[job.queue].armed == Some(j) && st.queues[job.queue].entity == job.entity
  }

  ghost predicate QueuesOk(st: State) {
    && (forall q :: 0 <= q < |st.queues| ==> QueueOk(st, q, st.queues[q]))
    && (forall j :: 0 <= j < |st.jobs| ==> ArmedOk(st, j, st.jobs[j]))
  }

  lemma QueuesKept(st: State, step: Step)
    requires QueuesOk(st) && Enabled(st, step)
    ensures QueuesOk(Apply(st, step))
  {
    var st' := Apply(st, step);
    forall j | 0 <= j < |st'.jobs| ensures ArmedOk(st', j, st'.jobs[j]) {
      if j < |st.jobs| {
        assert ArmedOk(st, j, st.jobs[j]);
      }
    }
  }

  ghost predicate OneQueuePerEntity(st: State) {
    forall p, q :: 0 <= p < q < |st.queues| ==> st.queues[p].entity != st.queues[q].entity
  }

  /** If no two queues share an entity, every step is orderly. */
  lemma OneQueueIsOrderly(st: State, step: Step)
    requires QueuesOk(st) && OneQueuePerEntity(st) && Enabled(st, step)
    ensures Orderly(st, step)
  {
    if step.Push? || step.SelectRq? {
      assert QueueOk(st, step.q, st.queues[step.q]);
      forall i | 0 <= i < |st.jobs| && st.jobs[i].entity == st.queues[step.q].entity
        ensures st.jobs[i].stage == Armed ==> st.queues[step.q].armed == Some(i)
      {
        assert ArmedOk(st, i, st.jobs[i]);
      }
    }
  }

  // ---------------------------------------------------------------- places are kept

  /** An entity that looks idle has only completed work behind it: its last job finished, so every
      job before that one has finished too, on that ring or on one it left before. */
  lemma IdleMeansComplete(st: State, e: nat, j: nat)
    requires Places(st, None) && e < |st.entities| && LooksIdle(st, e)
    requires j < |st.jobs| && st.jobs[j].entity == e && st.jobs[j].stage != Armed
    ensures WorkComplete(st, st.jobs[j])
  {
    assert JobOk(st, j, st.jobs[j]) && EntityOk(st, None, e, st.entities[e]);
    var last := st.entities[e].last.value;
    assert JobOk(st, last, st.jobs[last]);
    if j < last {
      assert PairOk(st, None, st.jobs[j], st.jobs[last]);
    }
  }

  lemma SelectRqKeepsJobs(st: State, only: Option<nat>, step: Step)
    requires Places(st, only) && Enabled(st, step) && step.SelectRq? && Orderly(st, step)
    ensures JobsOk(Apply(st, step))
  {
    var st', e := Apply(st, step), st.queues[step.q].entity;
    assert EntityOk(st, only, e, st.entities[e]);
    forall j | 0 <= j < |st'.jobs| ensures JobOk(st', j, st'.jobs[j]) {
      assert JobOk(st, j, st.jobs[j]);
      if LooksIdle(st, e) && st.jobs[j].entity == e && only.None? {
        IdleMeansComplete(st, e, j);
      }
    }
  }

  /** Steps of submitters, and of the scheduler thread up to taking the job. */
  predicate BeforeRun(step: Step) {
    step.Arm? || step.Push? || step.Examine? || step.Wake? || step.Pop?
  }

  lemma JobsKeptBeforeRun(st: State, only: Option<nat>, step: Step)
    requires Places(st, only) && QueuesOk(st) && Enabled(st, step) && BeforeRun(step)
    ensures JobsOk(Apply(st, step))
  {
    var st' := Apply(st, step);
    forall j | 0 <= j < |st'.jobs| ensures JobOk(st', j, st'.jobs[j]) {
      if j < |st.jobs| {
        assert JobOk(st, j, st.jobs[j]);
      }
    }
  }

  lemma JobsKept(st: State, only: Option<nat>, step: Step)
    requires Places(st, only) && Enabled(st, step) && !step.SelectRq? && !BeforeRun(step)
    ensures JobsOk(Apply(st, step))
  {
    var st' := Apply(st, step);
    forall j | 0 <= j < |st'.jobs| ensures JobOk(st', j, st'.jobs[j]) {
      assert JobOk(st, j, st.jobs[j]);
    }
  }

  lemma RingsKept(st: State, only: Option<nat>, step: Step)
    requires Places(st, only) && QueuesOk(st) && Enabled(st, step)
    ensures RingsOk(Apply(st, step))
  {
    var st' := Apply(st, step);
    forall s | 0 <= s < |st'.rings| ensures RingOk(st', s, st'.rings[s]) {
      assert RingOk(st, s, st.rings[s]);
    }
  }

  lemma EntitiesKept(st: State, only: Option<nat>, step: Step)
    requires EntitiesOk(st, only) && QueuesOk(st) && Enabled(st, step)
    ensures EntitiesOk(Apply(st, step), only)
  {
    var st' := Apply(st, step);
    forall e | 0 <= e < |st'.entities| ensures EntityOk(st', only, e, st'.entities[e]) {
      assert EntityOk(st, only, e, st.entities[e]);
    }
  }

  lemma PairsKeptAsOneRuns(st: State, only: Option<nat>, step: Step)
    requires Places(st, only) && Enabled(st, step) && Fair(st, only, step) && step.RunJob?
    ensures PairsOk(Apply(st, step), only)
  {
    var st' := Apply(st, step);
    forall a, b | 0 <= a < b < |st'.jobs| ensures PairOk(st', only, st'.jobs[a], st'.jobs[b]) {
      assert JobOk(st, a, st.jobs[a]) && JobOk(st, b, st.jobs[b]) && PairOk(st, only, st.jobs[a], st.jobs[b]);
    }
  }

  lemma PairsKeptAsOneIsPushed(st: State, only: Option<nat>, step: Step)
    requires Places(st, only) && QueuesOk(st) && Enabled(st, step) && Orderly(st, step) && step.Push?
    ensures PairsOk(Apply(st, step), only)
  {
    var st', j := Apply(st, step), st.queues[step.q].armed.value;
    assert QueueOk(st, step.q, st.queues[step.q]);
    forall a, b | 0 <= a < b < |st'.jobs| ensures PairOk(st', only, st'.jobs[a], st'.jobs[b]) {
      assert JobOk(st, a, st.jobs[a]) && PairOk(st, only, st.jobs[a], st.jobs[b]);
    }
  }

  lemma PairsKeptBeforeRun(st: State, only: Option<nat>, step: Step)
    requires Places(st, only) && QueuesOk(st) && Enabled(st, step) && BeforeRun(step) && !step.Push?
    ensures PairsOk(Apply(st, step), only)
  {
    var st' := Apply(st, step);
    forall a, b | 0 <= a < b < |st'.jobs| ensures PairOk(st', only, st'.jobs[a], st'.jobs[b]) {
      assert JobOk(st, a, st.jobs[a]);
      if b < |st.jobs| {
        assert PairOk(st, only, st.jobs[a], st.jobs[b]);
      }
    }
  }

  lemma PairsKept(st: State, only: Option<nat>, step: Step)
    requires PairsOk(st, only) && Enabled(st, step) && !step.RunJob? && !BeforeRun(step)
    ensures PairsOk(Apply(st, step), only)
  {
    var st' := Apply(st, step);
    forall a, b | 0 <= a < b < |st'.jobs| ensures PairOk(st', only, st'.jobs[a], st'.jobs[b]) {
      assert PairOk(st, only, st.jobs[a], st.jobs[b]);
    }
  }

  /** Nothing that was achieved is lost: known jobs keep their identity and their ring position,
      completed work stays complete and signaled fences stay signaled. */
  ghost predicate Later(st: State, st': State) {
    && |st.jobs| <= |st'.jobs|
    && (forall j :: 0 <= j < |st.jobs| ==> JobLater(st, st', st.jobs[j], st'.jobs[j]))
    && (forall id :: id in st.foreign ==> id in st'.foreign && st.foreign[id] <= st'.foreign[id])
  }

  predicate JobLater(st: State, st': State, job: SchedJob, job': SchedJob) {
    && job'.entity == job.entity && job'.sched == job.sched && job'.kept == job.kept && job'.deps == job.deps
    && job'.queue == job.queue
    && (job.stage.OnRing? ==> job'.stage == job.stage)
    && (WorkComplete(st, job) ==> WorkComplete(st', job'))
  }

  lemma GoesForward(st: State, step: Step)
    requires QueuesOk(st) && Enabled(st, step)
    ensures Later(st, Apply(st, step))
  {
  }

  lemma DepsKnownKept(st: State, step: Step)
    requires QueuesOk(st) && AllDepsKnown(st) && Enabled(st, step)
    ensures AllDepsKnown(Apply(st, step))
  {
    GoesForward(st, step);
    var st' := Apply(st, step);
    forall j | 0 <= j < |st'.jobs| ensures DepsKnown(st', j, st'.jobs[j]) {
      if j < |st.jobs| {
        assert DepsKnown(st, j, st.jobs[j]) && JobLater(st, st', st.jobs[j], st'.jobs[j]);
      }
    }
  }

  // ---------------------------------------------------------------- examined dependencies

  lemma SettledStays(st: State, st': State, f: Fence, e: nat, sched: nat)
    requires Later(st, st') && Settled(st, f, e, sched)
    ensures Settled(st', f, e, sched)
  {
  }

  /** What wakes the entity is what settles the fence. */
  lemma WokenIsSettled(st: State, j: nat, f: Fence)
    requires JobsOk(st) && Enabled(st, Wake(j)) && Awaits(st, st.jobs[j], f)
    ensures Settled(st, f, st.jobs[j].entity, st.jobs[j].sched)
  {
    if f.SchedFence? {
      assert JobOk(st, f.seqno, st.jobs[f.seqno]);
    }
  }

  /** What add_dependency_cb does not wait for is settled, and what it waits for is awaited. */
  lemma ExaminedRight(st: State, job: SchedJob, f: Fence)
    requires JobsOk(st) && KnownFence(st, f)
    ensures var wait := WaitFor(st, job.entity, job.sched, f);
            if wait == NoWait then Settled(st, f, job.entity, job.sched) else Awaits(st, job.(wait := wait), f)
  {
    if f.SchedFence? {
      assert JobOk(st, f.seqno, st.jobs[f.seqno]);
    }
  }

  lemma ExamineKeeps(st: State, j: nat)
    requires JobsOk(st) && AllDepsKnown(st) && AllExaminedOk(st) && Enabled(st, Examine(j))
    requires Later(st, DoExamine(st, j))
    ensures ExaminedOk(DoExamine(st, j), DoExamine(st, j).jobs[j])
  {
    var job, st' := st.jobs[j], DoExamine(st, j);
    assert ExaminedOk(st, job) && DepsKnown(st, j, job) && JobOk(st, j, job);
    var f := job.kept[job.next];
    KeptIsKnown(st, j, f);
    ExaminedRight(st, job, f);
    var job' := st'.jobs[j];
    forall k | 0 <= k < job'.next
      ensures || Settled(st', job'.kept[k], job.entity, job.sched)
              || (k == job'.next - 1 && Awaits(st', job', job'.kept[k]))
    {
      if k < job.next {
        SettledStays(st, st', job.kept[k], job.entity, job.sched);
      } else if WaitFor(st, job.entity, job.sched, f) == NoWait {
        SettledStays(st, st', f, job.entity, job.sched);
      } else {
        AwaitsStays(st, st', job', f);
      }
    }
  }

  lemma KeptIsKnown(st: State, j: nat, f: Fence)
    requires AllDepsKnown(st) && j < |st.jobs| && f in st.jobs[j].kept
    ensures KnownFence(st, f)
  {
    var job := st.jobs[j];
    assert DepsKnown(st, j, job);
    AddAllFaithful(job.deps);
    var k :| 0 <= k < |job.kept| && job.kept[k] == f;
    assert job.kept[k] in job.deps;
    var i :| 0 <= i < |job.deps| && job.deps[i] == f;
  }

  lemma AwaitsStays(st: State, st': State, job: SchedJob, f: Fence)
    requires Later(st, st') && Awaits(st, job, f)
    ensures Awaits(st', job, f)
  {
  }

  /** A step other than examining the job keeps what is known about its dependencies. */
  lemma OtherStepKeepsExamined(st: State, step: Step, j: nat)
    requires JobsOk(st) && QueuesOk(st) && j < |st.jobs| && ExaminedOk(st, st.jobs[j])
    requires Enabled(st, step) && step != Examine(j)
    requires Later(st, Apply(st, step))
    ensures ExaminedOk(Apply(st, step), Apply(st, step).jobs[j])
  {
    var job, st' := st.jobs[j], Apply(st, step);
    var job' := st'.jobs[j];
    OtherStepKeepsFields(st, step, j);
    forall k | 0 <= k < job'.next
      ensures || Settled(st', job'.kept[k], job'.entity, job'.sched)
              || (k == job'.next - 1 && Awaits(st', job', job'.kept[k]))
    {
      if step == Wake(j) && Awaits(st, job, job.kept[k]) {
        WokenIsSettled(st, j, job.kept[k]);
      }
      if Settled(st, job.kept[k], job.entity, job.sched) {
        SettledStays(st, st', job.kept[k], job.entity, job.sched);
      } else {
        AwaitsStays(st, st', job, job.kept[k]);
      }
    }
  }

  lemma OtherStepKeepsFields(st: State, step: Step, j: nat)
    requires QueuesOk(st) && j < |st.jobs| && ExaminedOk(st, st.jobs[j]) && Enabled(st, step) && step != Examine(j)
    ensures var job, job' := st.jobs[j], Apply(st, step).jobs[j];
            && job'.next == job.next && job'.kept == job.kept && job'.entity == job.entity && job'.sched == job.sched
            && (step != Wake(j) ==> job'.wait == job.wait)
            && (job'.Taken() ==> job.next == |job.kept| && job'.wait == NoWait)
  {
  }

  lemma ExaminedKept(st: State, step: Step)
    requires JobsOk(st) && QueuesOk(st) && AllDepsKnown(st) && AllExaminedOk(st) && Enabled(st, step)
    ensures AllExaminedOk(Apply(st, step))
  {
    GoesForward(st, step);
    var st' := Apply(st, step);
    forall j | 0 <= j < |st'.jobs| ensures ExaminedOk(st', st'.jobs[j]) {
      if step == Examine(j) {
        ExamineKeeps(st, j);
      } else if j < |st.jobs| {
        OtherStepKeepsExamined(st, step, j);
      }
    }
  }

  // ---------------------------------------------------------------- the ring order

  /** If job `late` is settled for the popped job `j`, an earlier job of the same entity is complete
      or already on `j`'s ring. */
  lemma SettledCoversEarlier(st: State, only: Option<nat>, early: nat, late: nat, j: nat)
    requires Places(st, only) && j < |st.jobs| && st.jobs[j].stage == Popped
    requires early <= late < j && st.jobs[early].entity == st.jobs[late].entity
    requires Settled(st, SchedFence(st.jobs[late].entity, late), st.jobs[j].entity, st.jobs[j].sched)
    ensures WorkComplete(st, st.jobs[early])
            || (st.jobs[early].stage.OnRing? && st.jobs[early].sched == st.jobs[j].sched)
  {
    assert JobOk(st, j, st.jobs[j]) && JobOk(st, early, st.jobs[early]);
    if st.jobs[late].entity == st.jobs[j].entity {
      assert PairOk(st, only, st.jobs[early], st.jobs[j]);
    } else if early < late {
      assert PairOk(st, only, st.jobs[early], st.jobs[late]);
      if only.Some? {
        AllOnTheRing(st, only, early);
        AllOnTheRing(st, only, j);
      }
    }
  }

  lemma AllOnTheRing(st: State, only: Option<nat>, j: nat)
    requires Places(st, only) && only.Some? && j < |st.jobs|
    ensures st.jobs[j].sched == only.value || WorkComplete(st, st.jobs[j])
  {
    assert JobOk(st, j, st.jobs[j]) && EntityOk(st, only, st.jobs[j].entity, st.entities[st.jobs[j].entity]);
  }

  /** De-duplication left a fence that stands for `f`, and that one is settled by now. */
  lemma CoveredBySettled(st: State, j: nat, f: Fence) returns (late: Fence)
    requires j < |st.jobs| && DepsKnown(st, j, st.jobs[j]) && ExaminedOk(st, st.jobs[j])
    requires st.jobs[j].stage == Popped && f in st.jobs[j].deps
    ensures NotAfter(f, late) && Settled(st, late, st.jobs[j].entity, st.jobs[j].sched)
    ensures KnownFence(st, f) && KnownFence(st, late)
    ensures late.SchedFence? ==> late.seqno < j
  {
    var job := st.jobs[j];
    var i, k, m := KeptStandsFor(job.deps, f);
    late := job.kept[k];
    assert job.deps[i] == f && job.deps[m] == late;
  }

  /** Everything the job about to run ever depended on is complete or already ahead of it on the
      ring, including what de-duplication dropped and what add_dependency_cb chose to ignore. */
  lemma DepIsAhead(st: State, only: Option<nat>, s: nat, f: Fence)
    requires Inv(st, only) && Enabled(st, RunJob(s, true)) && f in st.jobs[st.rings[s].current.value].deps
    ensures AheadOf(st, f, s, st.rings[s].issued)
  {
    var j := st.rings[s].current.value;
    assert RingOk(st, s, st.rings[s]) && DepsKnown(st, j, st.jobs[j]) && ExaminedOk(st, st.jobs[j]);
    var late := CoveredBySettled(st, j, f);
    if f.SchedFence? {
      SettledCoversEarlier(st, only, f.seqno, late.seqno, j);
      assert JobOk(st, f.seqno, st.jobs[f.seqno]);
    }
  }

  lemma AheadStays(st: State, st': State, f: Fence, sched: nat, pos: nat)
    requires Later(st, st') && AheadOf(st, f, sched, pos)
    ensures AheadOf(st', f, sched, pos)
  {
  }

  lemma RunningJobDepsAhead(st: State, only: Option<nat>, s: nat)
    requires Inv(st, only) && Enabled(st, RunJob(s, true)) && Later(st, DoRunJob(st, s, true))
    ensures DepsAhead(DoRunJob(st, s, true), DoRunJob(st, s, true).jobs[st.rings[s].current.value])
  {
    var j, st' := st.rings[s].current.value, DoRunJob(st, s, true);
    var job := st'.jobs[j];
    assert RingOk(st, s, st.rings[s]);
    forall k | 0 <= k < |job.deps| ensures AheadOf(st', job.deps[k], job.sched, job.stage.pos) {
      DepIsAhead(st, only, s, job.deps[k]);
      AheadStays(st, st', job.deps[k], s, st.rings[s].issued);
    }
  }

  lemma OtherJobDepsAhead(st: State, st': State, j: nat)
    requires AllDepsAhead(st) && Later(st, st') && j < |st.jobs| && st.jobs[j].stage == st'.jobs[j].stage
    ensures DepsAhead(st', st'.jobs[j])
  {
    var job := st'.jobs[j];
    assert DepsAhead(st, st.jobs[j]) && JobLater(st, st', st.jobs[j], job);
    if job.stage.OnRing? {
      forall k | 0 <= k < |job.deps| ensures AheadOf(st', job.deps[k], job.sched, job.stage.pos) {
        AheadStays(st, st', job.deps[k], job.sched, job.stage.pos);
      }
    }
  }

  lemma DepsAheadKept(st: State, only: Option<nat>, step: Step)
    requires Inv(st, only) && QueuesOk(st) && Enabled(st, step)
    ensures AllDepsAhead(Apply(st, step))
  {
    GoesForward(st, step);
    var st' := Apply(st, step);
    forall j | 0 <= j < |st'.jobs| ensures DepsAhead(st', st'.jobs[j]) {
      if step.RunJob? && step.ok && st.rings[step.s].current == Some(j) {
        RunningJobDepsAhead(st, only, step.s);
      } else if j < |st.jobs| && st.jobs[j].stage.OnRing? {
        assert JobLater(st, st', st.jobs[j], st'.jobs[j]);
        OtherJobDepsAhead(st, st', j);
      }
    }
  }

  lemma InvKept(st: State, only: Option<nat>, step: Step)
    requires Inv(st, only) && QueuesOk(st) && Enabled(st, step) && Fair(st, only, step)
    ensures Inv(Apply(st, step), only) && QueuesOk(Apply(st, step))
  {
    QueuesKept(st, step);
    if step.SelectRq? {
      SelectRqKeepsJobs(st, only, step);
    } else if BeforeRun(step) {
      JobsKeptBeforeRun(st, only, step);
    } else {
      JobsKept(st, only, step);
    }
    RingsKept(st, only, step);
    EntitiesKept(st, only, step);
    if step.RunJob? {
      PairsKeptAsOneRuns(st, only, step);
    } else if step.Push? {
      PairsKeptAsOneIsPushed(st, only, step);
    } else if BeforeRun(step) {
      PairsKeptBeforeRun(st, only, step);
    } else {
      PairsKept(st, only, step);
    }
    DepsKnownKept(st, step);
    ExaminedKept(st, step);
    DepsAheadKept(st, only, step);
  }

  // ---------------------------------------------------------------- runs

  predicate Fed(st: State, e: nat) {
    exists q :: 0 <= q < |st.queues| && st.queues[q].entity == e
  }

  /** Every entity was made for a queue. */
  ghost predicate Init(st: State) {
    && st.jobs == [] && st.pushes == 0 && st.foreign == map[]
    && (forall q :: 0 <= q < |st.queues| ==> st.queues[q].entity < |st.entities| && st.queues[q].armed == None)
    && (forall e :: 0 <= e < |st.entities| ==> Fed(st, e))
    && (forall e :: 0 <= e < |st.entities| ==>
          && st.entities[e].sched < |st.rings| && st.entities[e].last == None
          && forall b :: b in st.entities[e].choices ==> b < |st.rings|)
    && (forall s :: 0 <= s < |st.rings| ==> st.rings[s] == Ring(0, 0, None))
  }

  ghost predicate StepsTo(st: State, step: Step, st': State) {
    Enabled(st, step) && st' == Apply(st, step)
  }

  ghost predicate IsRun(states: seq<State>, steps: seq<Step>) {
    && |states| == |steps| + 1 && Init(states[0])
    && forall i :: 0 <= i < |steps| ==> StepsTo(states[i], steps[i], states[i + 1])
  }

  /** All entities are bound to ring `r`. */
  ghost predicate OnlyRing(st: State, r: nat) {
    forall e :: 0 <= e < |st.entities| ==>
      st.entities[e].sched == r && forall b :: b in st.entities[e].choices ==> b == r
  }

  ghost predicate AllFair(states: seq<State>, only: Option<nat>, steps: seq<Step>)
    requires |states| == |steps| + 1
  {
    && (only.Some? ==> OnlyRing(states[0], only.value))
    && forall i :: 0 <= i < |steps| ==> Fair(states[i], only, steps[i])
  }

  lemma {:induction false} InvAlways(states: seq<State>, only: Option<nat>, steps: seq<Step>, n: nat)
    requires IsRun(states, steps) && AllFair(states, only, steps) && n < |states|
    ensures Inv(states[n], only) && QueuesOk(states[n])
  {
    if n > 0 {
      InvAlways(states, only, steps, n - 1);
      assert StepsTo(states[n - 1], steps[n - 1], states[n]) && Fair(states[n - 1], only, steps[n - 1]);
      InvKept(states[n - 1], only, steps[n - 1]);
    }
  }

  /** The job is on its ring and everything ahead of it there is done: it may be executing. */
  predicate MayHaveStarted(st: State, j: nat) {
    && j < |st.jobs| && st.jobs[j].stage.OnRing? && st.jobs[j].stage.ring < |st.rings|
    && st.jobs[j].stage.pos <= st.rings[st.jobs[j].stage.ring].done
  }

  predicate DependencyComplete(st: State, f: Fence) {
    if f.ForeignFence? then ForeignSignaled(st, f)
    else KnownFence(st, f) && WorkComplete(st, st.jobs[f.seqno])
  }

  lemma StartedAfterDeps(st: State, only: Option<nat>, j: nat, f: Fence)
    requires Inv(st, only) && MayHaveStarted(st, j) && f in st.jobs[j].deps
    ensures DependencyComplete(st, f)
  {
    var k :| 0 <= k < |st.jobs[j].deps| && st.jobs[j].deps[k] == f;
    assert JobOk(st, j, st.jobs[j]) && DepsAhead(st, st.jobs[j]);
    assert AheadOf(st, f, st.jobs[j].sched, st.jobs[j].stage.pos);
    if f.SchedFence? {
      assert JobOk(st, f.seqno, st.jobs[f.seqno]);
    }
  }

  /** Whatever the interleaving and wherever entities move, a job that may have started on the hardware
      has all the work it was ever told to wait for behind it, if steps are orderly and a job whose
      run_job fails has no unfinished job of its entity before it. */
  lemma DependenciesCompleteBeforeStart(states: seq<State>, steps: seq<Step>, n: nat, j: nat, f: Fence)
    requires IsRun(states, steps) && AllFair(states, None, steps) && n < |states|
    requires MayHaveStarted(states[n], j) && f in states[n].jobs[j].deps
    ensures DependencyComplete(states[n], f)
  {
    InvAlways(states, None, steps, n);
    StartedAfterDeps(states[n], None, j, f);
  }

  lemma StepKeepsDeps(st: State, step: Step, st': State)
    requires StepsTo(st, step, st')
    ensures |st'.jobs| >= |st.jobs|
    ensures forall j :: 0 <= j < |st.jobs| ==>
              st'.jobs[j].deps == st.jobs[j].deps && st'.jobs[j].entity == st.jobs[j].entity
    ensures step.Arm? ==>
              && |st'.jobs| == |st.jobs| + 1 && st'.jobs[|st.jobs|].deps == step.deps
              && step.q < |st.queues| && st'.jobs[|st.jobs|].entity == st.queues[step.q].entity
  {
  }

  /** What a submit arms a job with stays what the job depends on. */
  lemma {:induction false} ArmedDepsStay(states: seq<State>, steps: seq<Step>, i: nat, n: nat)
    requires IsRun(states, steps) && i < n < |states| && steps[i].Arm?
    ensures |states[i].jobs| < |states[n].jobs| && states[n].jobs[|states[i].jobs|].deps == steps[i].deps
    ensures steps[i].q < |states[i].queues|
    ensures states[n].jobs[|states[i].jobs|].entity == states[i].queues[steps[i].q].entity
    decreases n
  {
    StepKeepsDeps(states[n - 1], steps[n - 1], states[n]);
    if i < n - 1 {
      ArmedDepsStay(states, steps, i, n - 1);
    }
  }

  /** The step signals the foreign fence, or a later one of its context. */
  predicate SignalsForeign(step: Step, f: Fence) {
    f.ForeignFence? && step.ForeignSignal? && step.context == f.id && f.seqno <= step.seqno
  }

  ghost predicate WasSignaled(steps: seq<Step>, f: Fence, n: nat)
    requires n <= |steps|
  {
    exists i :: 0 <= i < n && SignalsForeign(steps[i], f)
  }

  lemma StepSignals(st: State, step: Step, st': State, f: Fence)
    requires StepsTo(st, step, st') && f.ForeignFence?
    ensures ForeignSignaled(st', f) <==> ForeignSignaled(st, f) || SignalsForeign(step, f)
  {
  }

  /** A foreign fence counts as signaled exactly if it, or a later one of its context, was. */
  lemma {:induction false} ForeignIffSignaled(states: seq<State>, steps: seq<Step>, n: nat, f: Fence)
    requires IsRun(states, steps) && n < |states| && f.ForeignFence?
    ensures ForeignSignaled(states[n], f) <==> WasSignaled(steps, f, n)
  {
    if n > 0 {
      ForeignIffSignaled(states, steps, n - 1, f);
      StepSignals(states[n - 1], steps[n - 1], states[n], f);
    }
  }

  /** So the guarantee is about every fence that a job was given at arming. */
  lemma ArmedFencesCompleteBeforeStart(states: seq<State>, steps: seq<Step>, i: nat, n: nat, f: Fence)
    requires IsRun(states, steps) && AllFair(states, None, steps) && i < n < |states|
    requires steps[i].Arm? && f in steps[i].deps && MayHaveStarted(states[n], |states[i].jobs|)
    ensures DependencyComplete(states[n], f)
  {
    ArmedDepsStay(states, steps, i, n);
    DependenciesCompleteBeforeStart(states, steps, n, |states[i].jobs|, f);
  }

  /** If all entities are bound to one ring, run_job may fail as it likes. */
  lemma OneRingToleratesFailures(states: seq<State>, r: nat, steps: seq<Step>, n: nat, j: nat, f: Fence)
    requires IsRun(states, steps) && OnlyRing(states[0], r) && n < |states|
    requires forall i :: 0 <= i < |steps| ==> Orderly(states[i], steps[i])
    requires MayHaveStarted(states[n], j) && f in states[n].jobs[j].deps
    ensures DependencyComplete(states[n], f)
  {
    InvAlways(states, Some(r), steps, n);
    StartedAfterDeps(states[n], Some(r), j, f);
  }

  /** An entity's jobs execute in the order they were armed, even across schedulers. */
  lemma EntityExecutesInOrder(states: seq<State>, steps: seq<Step>, n: nat, a: nat, b: nat)
    requires IsRun(states, steps) && AllFair(states, None, steps) && n < |states|
    requires MayHaveStarted(states[n], b) && a < b && states[n].jobs[a].entity == states[n].jobs[b].entity
    ensures WorkComplete(states[n], states[n].jobs[a])
  {
    InvAlways(states, None, steps, n);
    assert PairOk(states[n], None, states[n].jobs[a], states[n].jobs[b]);
    assert JobOk(states[n], a, states[n].jobs[a]) && JobOk(states[n], b, states[n].jobs[b]);
  }

  // ---------------------------------------------------------------- nothing gets in the way

  /** What the head of a queue awaits has happened. */
  predicate AwaitedIsThere(st: State, wait: Wait) {
    match wait
    case NoWait => false
    case ForScheduled(f) => f.SchedFence? && KnownFence(st, f) && st.jobs[f.seqno].scheduled
    case ForSignal(f) => FenceSignaled(st, f)
  }

  /** A head that awaited its last fence is woken and taken once that is there. */
  lemma AwaitedHeadGoesOn(st: State, j: nat) returns (woken: State, taken: State)
    requires IsHead(st, j) && EntityKnown(st, st.jobs[j].entity) && st.jobs[j].next >= |st.jobs[j].kept|
    requires st.rings[st.entities[st.jobs[j].entity].sched].current == None && AwaitedIsThere(st, st.jobs[j].wait)
    ensures StepsTo(st, Wake(j), woken) && StepsTo(woken, Pop(j), taken)
    ensures taken.jobs == st.jobs[j := st.jobs[j].(wait := NoWait, stage := Popped)]
    ensures taken.rings[st.entities[st.jobs[j].entity].sched].current == Some(j)
  {
    woken := Apply(st, Wake(j));
    assert HeadReady(woken, j);
    taken := Apply(woken, Pop(j));
  }

  /** And a foreign fence can signal at any time. */
  lemma ForeignFenceCanSignal(st: State, f: Fence) returns (st': State)
    requires f.ForeignFence? && !ForeignSignaled(st, f)
    ensures StepsTo(st, ForeignSignal(f.id, f.seqno), st') && ForeignSignaled(st', f) && st'.jobs == st.jobs
  {
    st' := Apply(st, ForeignSignal(f.id, f.seqno));
  }

  // ---------------------------------------------------------------- the popping loop

  /** spsc_queue_peek: the first queued job of the entity, if any. */
  method Peek(st: State, e: nat) returns (head: Option<nat>)
    ensures head.Some? ==> IsHead(st, head.value) && st.jobs[head.value].entity == e
    ensures head.None? ==> forall j :: 0 <= j < |st.jobs| && st.jobs[j].entity == e ==> st.jobs[j].stage != Queued
  {
    var j := 0;
    head := None;
    while j < |st.jobs|
      invariant 0 <= j <= |st.jobs|
      invariant head.Some? ==> head.value < j && st.jobs[head.value].entity == e && st.jobs[head.value].stage == Queued
      invariant forall i :: 0 <= i < j && st.jobs[i].entity == e && st.jobs[i].stage == Queued ==>
                  head.Some? && st.jobs[head.value].rank <= st.jobs[i].rank
    {
      if st.jobs[j].entity == e && st.jobs[j].stage == Queued
         && (head.None? || st.jobs[j].rank < st.jobs[head.value].rank) {
        head := Some(j);
      }
      j := j + 1;
    }
  }

  /** drm_sched_entity_pop_job, by the free thread of the entity's scheduler, for an entity that awaits
      nothing: examine the head's dependencies until one has to be awaited, and take the job if none
      has. */
  method PopJob(st: State, only: Option<nat>, e: nat) returns (st': State, job: Option<nat>)
    requires Inv(st, only) && QueuesOk(st) && e < |st.entities| && st.rings[st.entities[e].sched].current == None
    requires forall j :: 0 <= j < |st.jobs| && st.jobs[j].entity == e ==> st.jobs[j].wait == NoWait
    ensures Inv(st', only) && QueuesOk(st') && |st'.jobs| == |st.jobs| && |st'.rings| == |st.rings|
    ensures (forall j :: 0 <= j < |st.jobs| && st.jobs[j].entity == e ==> st.jobs[j].stage != Queued) ==>
              job == None && st' == st
    ensures job.Some? ==>
              && IsHead(st, job.value) && st.jobs[job.value].entity == e
              && st'.jobs[job.value].stage == Popped && st'.rings[st.entities[e].sched].current == job
              && (forall k :: 0 <= k < |st'.jobs[job.value].kept| ==>
                    Settled(st', st'.jobs[job.value].kept[k], e, st.entities[e].sched))
    ensures job.None? && st' != st ==>
              exists j: nat :: IsHead(st, j) && st.jobs[j].entity == e
                               && st'.jobs[j].stage == Queued && st'.jobs[j].wait != NoWait
  {
    st' := st;
    var head := Peek(st, e);
    if head.None? {
      return st', None;
    }
    var j := head.value;
    assert JobOk(st, j, st.jobs[j]) && ExaminedOk(st, st.jobs[j]);
    while st'.jobs[j].next < |st'.jobs[j].kept|
      invariant Inv(st', only) && QueuesOk(st') && |st'.jobs| == |st.jobs| && HeadReady(st', j)
      invariant st'.jobs[j].kept == st.jobs[j].kept && st'.jobs[j].sched == st.jobs[j].sched
      invariant st'.jobs[j].entity == e && st'.entities == st.entities && st'.rings == st.rings
      decreases |st'.jobs[j].kept| - st'.jobs[j].next
    {
      InvKept(st', only, Examine(j));
      st' := DoExamine(st', j);
      if st'.jobs[j].wait != NoWait {
        assert IsHead(st, j);
        return st', None;
      }
    }
    PopsSettled(st', only, j);
    return DoPop(st', j), Some(j);
  }

  lemma PopsSettled(st: State, only: Option<nat>, j: nat)
    requires Inv(st, only) && QueuesOk(st) && HeadReady(st, j) && st.jobs[j].next >= |st.jobs[j].kept|
    ensures Inv(DoPop(st, j), only) && QueuesOk(DoPop(st, j))
    ensures forall k :: 0 <= k < |st.jobs[j].kept| ==>
              Settled(DoPop(st, j), st.jobs[j].kept[k], st.jobs[j].entity, st.entities[st.jobs[j].entity].sched)
  {
    InvKept(st, only, Pop(j));
    var st' := DoPop(st, j);
    assert JobOk(st, j, st.jobs[j]) && ExaminedOk(st', st'.jobs[j]);
  }
}
