/**
 Exactly when the dependency guarantee of module `SchedOrder` can be broken: runs that break it, and
 the conditions on queues, entities and rings without which there is none.
 */
module SchedBreaks {
  import opened JobDeps
  import opened SchedOrder

  /** Job `j` may have started although `f`, which it was told to wait for, is not complete. */
  predicate BrokenAt(st: State, j: nat, f: Fence) {
    MayHaveStarted(st, j) && f in st.jobs[j].deps && !DependencyComplete(st, f)
  }

  datatype Trace = Trace(states: seq<State>, steps: seq<Step>) {
    ghost predicate Valid() {
      IsRun(states, steps)
    }

    function Last(): State
      requires states != []
    {
      states[|states| - 1]
    }

    ghost predicate From(start: State) {
      Valid() && states[0] == start
    }

    ghost function Then(step: Step): (t: Trace)
      requires Valid() && Enabled(Last(), step)
      ensures t.From(states[0]) && t.Last() == Apply(Last(), step) && t.steps == steps + [step]
    {
      Trace(states + [Apply(Last(), step)], steps + [step])
    }
  }

  predicate NoFailure(steps: seq<Step>) {
    forall i :: 0 <= i < |steps| ==> steps[i].RunJob? ==> steps[i].ok
  }

  // ---------------------------------------------------------------- pieces of runs

  /** The queue's entity has nothing queued, and its scheduler's thread is free. */
  predicate Quiet(st: State, q: nat) {
    && QueueFree(st, q) && st.rings[st.entities[st.queues[q].entity].sched].current == None
    && forall j :: 0 <= j < |st.jobs| && st.jobs[j].entity == st.queues[q].entity ==> st.jobs[j].stage != Queued
  }

  /** A new job on queue `q` would not have to wait. */
  predicate Waitless(st: State, q: nat, deps: seq<Fence>)
    requires QueueFree(st, q)
  {
    && (forall i :: 0 <= i < |deps| ==> KnownFence(st, deps[i]))
    && (|| AddAll(deps) == []
        || (&& |AddAll(deps)| == 1
            && KnownFence(st, AddAll(deps)[0])
            && WaitFor(st, st.queues[q].entity, st.entities[st.queues[q].entity].sched, AddAll(deps)[0]) == NoWait))
  }

  function PushedJob(st: State, q: nat, deps: seq<Fence>): SchedJob
    requires QueueFree(st, q)
  {
    NewJob(st, q, deps).(stage := Queued, rank := st.pushes)
  }

  /** After a job is armed and pushed. */
  function WithPushed(st: State, q: nat, deps: seq<Fence>): State
    requires QueueFree(st, q)
  {
    st.(jobs := st.jobs + [PushedJob(st, q, deps)], pushes := st.pushes + 1)
  }

  lemma ArmAndPush(t: Trace, q: nat, deps: seq<Fence>) returns (t': Trace)
    requires t.Valid() && QueueFree(t.Last(), q)
    requires forall i :: 0 <= i < |deps| ==> KnownFence(t.Last(), deps[i])
    ensures t'.From(t.states[0]) && t'.Last() == WithPushed(t.Last(), q, deps)
    ensures t'.steps == t.steps + [Arm(q, deps), Push(q)]
  {
    var st := t.Last();
    t' := t.Then(Arm(q, deps)).Then(Push(q));
    assert t'.Last().queues == st.queues;
    assert t'.Last().jobs == st.jobs + [PushedJob(st, q, deps)];
  }

  /** After the scheduler thread has taken it. */
  function WithPopped(st: State, q: nat, deps: seq<Fence>): State
    requires QueueFree(st, q)
  {
    var e := st.queues[q].entity;
    var s := st.entities[e].sched;
    st.(jobs := st.jobs + [PushedJob(st, q, deps).(next := |AddAll(deps)|, stage := Popped)],
        pushes := st.pushes + 1,
        entities := st.entities[e := st.entities[e].(last := Some(|st.jobs|))],
        rings := st.rings[s := st.rings[s].(current := Some(|st.jobs|))])
  }

  lemma PushAndPop(t: Trace, q: nat, deps: seq<Fence>) returns (t': Trace)
    requires t.Valid() && Quiet(t.Last(), q) && Waitless(t.Last(), q, deps)
    ensures t'.From(t.states[0]) && t'.Last() == WithPopped(t.Last(), q, deps)
    ensures t.steps <= t'.steps && (NoFailure(t.steps) ==> NoFailure(t'.steps))
  {
    var st, j := t.Last(), |t.Last().jobs|;
    t' := ArmAndPush(t, q, deps);
    if AddAll(deps) != [] {
      t' := t'.Then(Examine(j));
    }
    assert t'.Last().jobs == st.jobs + [PushedJob(st, q, deps).(next := |AddAll(deps)|)];
    t' := t'.Then(Pop(j));
    assert t'.Last().jobs == WithPopped(st, q, deps).jobs;
  }

  /** After run_job, successful or not. */
  function WithRun(st: State, q: nat, deps: seq<Fence>, ok: bool): State
    requires QueueFree(st, q)
  {
    var e := st.queues[q].entity;
    var s := st.entities[e].sched;
    var stage := if ok then OnRing(s, st.rings[s].issued) else Failed;
    var job := PushedJob(st, q, deps).(next := |AddAll(deps)|, stage := stage, scheduled := true, finished := !ok);
    st.(jobs := st.jobs + [job],
        pushes := st.pushes + 1,
        entities := st.entities[e := st.entities[e].(last := Some(|st.jobs|))],
        rings := st.rings[s := Ring(if ok then st.rings[s].issued + 1 else st.rings[s].issued, st.rings[s].done, None)])
  }

  lemma PushAndRun(t: Trace, q: nat, deps: seq<Fence>, ok: bool) returns (t': Trace)
    requires t.Valid() && Quiet(t.Last(), q) && Waitless(t.Last(), q, deps)
    ensures t'.From(t.states[0]) && t'.Last() == WithRun(t.Last(), q, deps, ok)
    ensures t.steps <= t'.steps && (ok && NoFailure(t.steps) ==> NoFailure(t'.steps))
  {
    var st := t.Last();
    var s := st.entities[st.queues[q].entity].sched;
    t' := PushAndPop(t, q, deps);
    t' := t'.Then(RunJob(s, ok)).Then(MarkScheduled(s));
    assert t'.Last().jobs == WithRun(st, q, deps, ok).jobs;
    assert t'.Last().rings == WithRun(st, q, deps, ok).rings;
  }

  /** After the entity of queue `q` has moved to scheduler `s`. */
  function Moved(st: State, q: nat, s: nat): State
    requires QueueFree(st, q)
  {
    var e := st.queues[q].entity;
    st.(entities := st.entities[e := st.entities[e].(sched := s)])
  }

  /** Ring `s` may serve entity `e`. */
  predicate Usable(st: State, e: nat, s: nat) {
    e < |st.entities| && (s == st.entities[e].sched || s in st.entities[e].choices)
  }

  lemma MoveTo(t: Trace, q: nat, s: nat) returns (t': Trace)
    requires t.Valid() && QueueFree(t.Last(), q) && LooksIdle(t.Last(), t.Last().queues[q].entity)
    requires Usable(t.Last(), t.Last().queues[q].entity, s)
    ensures t'.From(t.states[0]) && t'.Last() == Moved(t.Last(), q, s)
    ensures t.steps <= t'.steps && (NoFailure(t.steps) ==> NoFailure(t'.steps))
  {
    if s == t.Last().entities[t.Last().queues[q].entity].sched {
      t' := t;
      assert Moved(t.Last(), q, s).entities == t.Last().entities;
    } else {
      t' := t.Then(SelectRq(q, s));
    }
  }

  /** The hardware works off ring `s` up to position `d`. */
  lemma {:induction false} DrainTo(t: Trace, s: nat, d: nat) returns (t': Trace)
    requires t.Valid() && s < |t.Last().rings| && t.Last().rings[s].done <= d <= t.Last().rings[s].issued
    ensures t'.From(t.states[0]) && t.steps <= t'.steps
    ensures t'.Last() == t.Last().(rings := t.Last().rings[s := t.Last().rings[s].(done := d)])
    decreases d - t.Last().rings[s].done
  {
    var st := t.Last();
    if st.rings[s].done == d {
      t' := t;
      assert st.rings[s := st.rings[s].(done := d)] == st.rings;
    } else {
      t' := DrainTo(t.Then(RingAdvance(s)), s, d);
      assert t'.Last().rings == st.rings[s := st.rings[s].(done := d)];
    }
  }

  lemma KeepsTheLater(e: nat, i: nat, j: nat)
    requires i < j
    ensures AddAll([SchedFence(e, i), SchedFence(e, j)]) == [SchedFence(e, j)]
  {
    var early, late := SchedFence(e, i), SchedFence(e, j);
    var added := [early, late];
    assert added[..1] == [early] && [early][..0] == [];
    assert AddAll([early]) == Add(AddAll([]), early);
  }

  lemma KeepsOne(f: Fence)
    ensures AddAll([f]) == [f] && AddAll([]) == []
  {
    assert [f][..0] == [];
  }

  // ---------------------------------------------------------------- runs that break the guarantee

  /** Two queues feed one entity. Job 0 is armed on the one; job 1 on the other is told to wait for it,
      ignores it as of its own entity, and overtakes it. No run_job fails. */
  lemma SharedEntityBreaks(start: State, p: nat, q: nat) returns (t: Trace)
    requires Init(start) && p < |start.queues| && q < |start.queues| && p != q
    requires start.queues[p].entity == start.queues[q].entity
    ensures t.From(start) && NoFailure(t.steps)
    ensures BrokenAt(t.Last(), 1, SchedFence(start.queues[p].entity, 0)) && t.Last().jobs[0].stage == Armed
  {
    var f := SchedFence(start.queues[p].entity, 0);
    t := Trace([start], []).Then(Arm(p, []));
    var st := t.Last();
    KeepsOne(f);
    assert Quiet(st, q) && Waitless(st, q, [f]);
    t := PushAndRun(t, q, [f], true);
    assert t.Last().jobs[0] == st.jobs[0];
    assert t.Last().jobs[1].deps[0] == f;
  }

  /** The same without ignored fences: job 1 overtakes job 0 and completes; a job of another entity, told
      to wait for both, keeps only the fence of job 1 and starts. */
  lemma OvertakingBreaks(start: State, p: nat, q: nat, x: nat) returns (t: Trace)
    requires Init(start) && p < |start.queues| && q < |start.queues| && x < |start.queues| && p != q
    requires start.queues[p].entity == start.queues[q].entity != start.queues[x].entity
    ensures t.From(start)
    ensures BrokenAt(t.Last(), 2, SchedFence(start.queues[p].entity, 0)) && t.Last().jobs[0].stage == Armed
  {
    t := Trace([start], []).Then(Arm(p, []));
    KeepsOne(SchedFence(start.queues[p].entity, 0));
    assert Quiet(t.Last(), q) && Waitless(t.Last(), q, []);
    t := PushAndRun(t, q, [], true);
    t := CompleteFirst(t, start.entities[start.queues[p].entity].sched, 1);
    t := TwoFencesOneKept(t, 0, 1, x);
  }

  lemma CompleteFirst(t: Trace, s: nat, j: nat) returns (t': Trace)
    requires t.Valid() && s < |t.Last().rings| && t.Last().rings[s] == Ring(1, 0, None)
    requires j < |t.Last().jobs| && t.Last().jobs[j].stage == OnRing(s, 0)
    ensures t'.From(t.states[0])
    ensures t'.Last() == t.Last().(rings := t.Last().rings[s := Ring(1, 1, None)],
                                   jobs := t.Last().jobs[j := t.Last().jobs[j].(finished := true)])
  {
    t' := t.Then(RingAdvance(s)).Then(Finish(j));
  }

  predicate BothRings(start: State, e: nat, s: nat, f: nat, r: nat) {
    Usable(start, e, s) && Usable(start, f, r) && s != r
  }

  lemma StartsQuiet(start: State, e: nat) returns (q: nat)
    requires Init(start) && e < |start.entities|
    ensures q < |start.queues| && start.queues[q].entity == e && Quiet(start, q) && LooksIdle(start, e)
  {
    assert Fed(start, e);
    q :| 0 <= q < |start.queues| && start.queues[q].entity == e;
  }

  /** Entity `e` has job 0 running on ring `s`, and job 1 has failed. */
  lemma OneRunsOneFails(t: Trace, q: nat, e: nat, s: nat) returns (t': Trace)
    requires t.Valid() && t.Last().jobs == [] && Quiet(t.Last(), q) && t.Last().queues[q].entity == e
    requires t.Last().entities[e].sched == s && t.Last().rings[s] == Ring(0, 0, None)
    ensures t'.From(t.states[0]) && |t'.Last().jobs| == 2
    ensures t'.Last().jobs[0].entity == e && t'.Last().jobs[0].stage == OnRing(s, 0)
    ensures t'.Last().jobs[1].entity == e && t'.Last().jobs[1].stage == Failed && t'.Last().jobs[1].sched == s
    ensures t'.Last().jobs[1].finished && t'.Last().jobs[1].scheduled
    ensures t'.Last().entities == t.Last().entities[e := t.Last().entities[e].(last := Some(1))]
    ensures t'.Last().rings == t.Last().rings[s := Ring(1, 0, None)] && t'.Last().queues == t.Last().queues
  {
    KeepsOne(SchedFence(e, 0));
    t' := PushAndRun(t, q, [], true);
    t' := PushAndRun(t', q, [], false);
    assert t'.Last().rings == t.Last().rings[s := Ring(1, 0, None)];
    assert t'.Last().entities == t.Last().entities[e := t.Last().entities[e].(last := Some(1))];
  }

  /** Of the fences of a job and of a later one of its entity, only the later is kept. If that one has
      signaled and the first is unfinished, a job that does not share its ring does not wait for it. */
  lemma TwoFencesOneKept(t: Trace, i: nat, j: nat, q: nat) returns (t': Trace)
    requires t.Valid() && i < j < |t.Last().jobs| && Quiet(t.Last(), q)
    requires !WorkComplete(t.Last(), t.Last().jobs[i])
    requires t.Last().jobs[j].entity == t.Last().jobs[i].entity != t.Last().queues[q].entity
    requires t.Last().jobs[j].finished && t.Last().jobs[j].scheduled
    requires t.Last().jobs[i].stage.OnRing? ==>
               t.Last().entities[t.Last().queues[q].entity].sched != t.Last().jobs[i].stage.ring
    requires forall r :: 0 <= r < |t.Last().rings| ==> t.Last().rings[r].done <= t.Last().rings[r].issued
    ensures t'.From(t.states[0]) && t.steps <= t'.steps
    ensures BrokenAt(t'.Last(), |t.Last().jobs|, SchedFence(t.Last().jobs[i].entity, i))
    ensures t'.Last().jobs[i] == t.Last().jobs[i]
  {
    var st, e, r := t.Last(), t.Last().jobs[i].entity, t.Last().entities[t.Last().queues[q].entity].sched;
    KeepsTheLater(e, i, j);
    var deps := [SchedFence(e, i), SchedFence(e, j)];
    t' := PushAndRun(t, q, deps, true);
    t' := DrainTo(t', r, st.rings[r].issued);
    assert t'.Last().jobs[i] == st.jobs[i];
    assert t'.Last().jobs[|st.jobs|].deps[0] == SchedFence(e, i);
  }

  /** Two rings are in use and run_job may fail: a job on the other ring, told to wait for both, keeps
      only the fence of the failed one and starts. */
  lemma FailureBreaksAcrossEntities(start: State, e: nat, s: nat, f: nat, r: nat) returns (t: Trace)
    requires Init(start) && BothRings(start, e, s, f, r) && e != f
    ensures t.From(start) && BrokenAt(t.Last(), 2, SchedFence(e, 0))
  {
    var p := StartsQuiet(start, e);
    var q := StartsQuiet(start, f);
    t := Trace([start], []);
    t := MoveTo(t, p, s);
    t := MoveTo(t, q, r);
    t := OneRunsOneFails(t, p, e, s);
    t := TwoFencesOneKept(t, 0, 1, q);
  }

  /** The same with one entity: it looks idle after the failure and moves away from its running job. */
  lemma FailureBreaksAcrossAMove(start: State, e: nat, s: nat, r: nat) returns (t: Trace)
    requires Init(start) && BothRings(start, e, s, e, r) && r in start.entities[e].choices
    ensures t.From(start) && BrokenAt(t.Last(), 2, SchedFence(e, 0))
  {
    var q := StartsQuiet(start, e);
    t := Trace([start], []);
    t := MoveTo(t, q, s);
    t := OneRunsOneFails(t, q, e, s);
    t := MoveTo(t, q, r);
    var st := t.Last();
    KeepsOne(SchedFence(e, 0));
    assert Quiet(st, q) && Waitless(st, q, [SchedFence(e, 0)]);
    t := PushAndRun(t, q, [SchedFence(e, 0)], true);
    assert t.Last().jobs[0] == st.jobs[0] && t.Last().jobs[2].deps[0] == SchedFence(e, 0);
  }

  lemma FailJob(t: Trace, s: nat) returns (t': Trace)
    requires t.Valid() && Enabled(t.Last(), RunJob(s, false))
    ensures t'.From(t.states[0]) && t.steps + [RunJob(s, false)] <= t'.steps
    ensures var st, j := t.Last(), t.Last().rings[s].current.value;
            t'.Last() == st.(jobs := st.jobs[j := st.jobs[j].(stage := Failed, scheduled := true, finished := true)],
                             rings := st.rings[s := st.rings[s].(current := None)])
  {
    t' := t.Then(RunJob(s, false)).Then(MarkScheduled(s));
  }

  /** From any sound state: if run_job fails for job `j` while an earlier job `i` of its entity is
      unfinished, and another entity with nothing queued is on another ring, the guarantee breaks. */
  lemma EarlyFailureBreaksTheGuarantee(t: Trace, s: nat, i: nat, q: nat) returns (t': Trace)
    requires t.Valid() && Inv(t.Last(), None) && Enabled(t.Last(), RunJob(s, false)) && Quiet(t.Last(), q)
    requires i < t.Last().rings[s].current.value && !WorkComplete(t.Last(), t.Last().jobs[i])
    requires t.Last().jobs[i].entity == t.Last().jobs[t.Last().rings[s].current.value].entity
    requires t.Last().queues[q].entity != t.Last().jobs[i].entity
    requires t.Last().entities[t.Last().queues[q].entity].sched != s
    ensures t'.From(t.states[0]) && t.steps + [RunJob(s, false)] <= t'.steps
    ensures BrokenAt(t'.Last(), |t.Last().jobs|, SchedFence(t.Last().jobs[i].entity, i))
  {
    var st := t.Last();
    UnfinishedIsOnRing(st, s, i);
    t' := FailJob(t, s);
    var r := st.entities[st.queues[q].entity].sched;
    assert RingOk(st, r, st.rings[r]);
    t' := TwoFencesOneKept(t', i, st.rings[s].current.value, q);
  }

  lemma UnfinishedIsOnRing(st: State, s: nat, i: nat)
    requires Inv(st, None) && Enabled(st, RunJob(s, false))
    requires i < st.rings[s].current.value && !WorkComplete(st, st.jobs[i])
    requires st.jobs[i].entity == st.jobs[st.rings[s].current.value].entity
    ensures st.jobs[i].stage.OnRing? && st.jobs[i].stage.ring == s
  {
    var j := st.rings[s].current.value;
    assert RingOk(st, s, st.rings[s]) && JobOk(st, i, st.jobs[i]) && JobOk(st, j, st.jobs[j]);
    assert PairOk(st, None, st.jobs[i], st.jobs[j]);
  }

  // ---------------------------------------------------------------- exactly when it can be broken

  /** Some two queues share an entity. */
  ghost predicate SharedEntity(st: State) {
    !OneQueuePerEntity(st)
  }

  /** Not all entities are bound to one and the same ring. */
  ghost predicate TwoRings(st: State) {
    exists e, s, f, r :: BothRings(st, e, s, f, r)
  }

  lemma OneRing(st: State) returns (r: nat)
    requires !TwoRings(st)
    ensures OnlyRing(st, r)
  {
    r := if st.entities == [] then 0 else st.entities[0].sched;
    forall e | 0 <= e < |st.entities|
      ensures st.entities[e].sched == r && forall b :: b in st.entities[e].choices ==> b == r
    {
      assert !BothRings(st, e, st.entities[e].sched, 0, r);
      forall b | b in st.entities[e].choices ensures b == r {
        assert !BothRings(st, e, b, 0, r);
      }
    }
  }

  /** Queues keep their entities. */
  lemma {:induction false} SameQueues(states: seq<State>, steps: seq<Step>, n: nat)
    requires IsRun(states, steps) && n < |states|
    ensures QueuesOk(states[n]) && |states[n].queues| == |states[0].queues|
    ensures forall q :: 0 <= q < |states[0].queues| ==> states[n].queues[q].entity == states[0].queues[q].entity
  {
    if n > 0 {
      SameQueues(states, steps, n - 1);
      assert StepsTo(states[n - 1], steps[n - 1], states[n]);
      QueuesKept(states[n - 1], steps[n - 1]);
    }
  }

  lemma OneQueueRunsAreOrderly(states: seq<State>, steps: seq<Step>)
    requires IsRun(states, steps) && OneQueuePerEntity(states[0])
    ensures forall i :: 0 <= i < |steps| ==> Orderly(states[i], steps[i])
  {
    forall i | 0 <= i < |steps| ensures Orderly(states[i], steps[i]) {
      SameQueues(states, steps, i);
      assert StepsTo(states[i], steps[i], states[i + 1]);
      OneQueueIsOrderly(states[i], steps[i]);
    }
  }

  /** If no two queues share an entity, a run that breaks the guarantee has a failure with an unfinished
      job of the entity before it, and the entities are not bound to one ring. */
  lemma BreakNeedsUncleanFailure(states: seq<State>, steps: seq<Step>, n: nat, j: nat, f: Fence)
    requires IsRun(states, steps) && n < |states| && OneQueuePerEntity(states[0]) && BrokenAt(states[n], j, f)
    ensures TwoRings(states[0]) && exists i :: 0 <= i < |steps| && !FailsCleanly(states[i], steps[i])
  {
    OneQueueRunsAreOrderly(states, steps);
    if !TwoRings(states[0]) {
      var r := OneRing(states[0]);
      OneRingToleratesFailures(states, r, steps, n, j, f);
      assert false;
    }
    if forall i :: 0 <= i < |steps| ==> FailsCleanly(states[i], steps[i]) {
      DependenciesCompleteBeforeStart(states, steps, n, j, f);
      assert false;
    }
  }

  ghost predicate Breaks(start: State, failures: bool, t: Trace, j: nat, f: Fence) {
    t.From(start) && (failures || NoFailure(t.steps)) && BrokenAt(t.Last(), j, f)
  }

  ghost predicate Breakable(start: State, failures: bool) {
    exists t, j, f :: Breaks(start, failures, t, j, f)
  }

  /** The guarantee can be broken if and only if two queues share an entity, or run_job may fail and
      the entities are not all bound to one ring. */
  lemma BreakableIff(start: State, failures: bool)
    requires Init(start)
    ensures Breakable(start, failures) <==> SharedEntity(start) || (failures && TwoRings(start))
  {
    if SharedEntity(start) {
      var p, q :| 0 <= p < q < |start.queues| && start.queues[p].entity == start.queues[q].entity;
      var t := SharedEntityBreaks(start, p, q);
      assert Breaks(start, failures, t, 1, SchedFence(start.queues[p].entity, 0));
    } else if failures && TwoRings(start) {
      var e, s, f, r :| BothRings(start, e, s, f, r);
      FailureBreaks(start, e, s, f, r);
    } else {
      forall t, j, f ensures !Breaks(start, failures, t, j, f) {
        if t.From(start) && BrokenAt(t.Last(), j, f) && (failures || NoFailure(t.steps)) {
          BreakNeedsUncleanFailure(t.states, t.steps, |t.steps|, j, f);
          assert false;
        }
      }
    }
  }

  lemma FailureBreaks(start: State, e: nat, s: nat, f: nat, r: nat)
    requires Init(start) && BothRings(start, e, s, f, r)
    ensures Breakable(start, true)
  {
    var t;
    if e != f {
      t := FailureBreaksAcrossEntities(start, e, s, f, r);
    } else if r in start.entities[e].choices {
      t := FailureBreaksAcrossAMove(start, e, s, r);
    } else {
      t := FailureBreaksAcrossAMove(start, e, r, s);
    }
    assert Breaks(start, true, t, 2, SchedFence(e, 0));
  }
}
