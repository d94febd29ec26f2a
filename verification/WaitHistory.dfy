/**
 What a submit waits for, told by what happened before: the fences of the syncobjs, descriptors and
 buffers that it named, and what a syncobj holds (msm/msm_gem_submit.c).
 */
module WaitHistory {
  import opened JobDeps
  import opened WaitGraph

  ghost predicate IsRun(states: seq<State>, steps: seq<Step>) {
    && |states| == |steps| + 1 && Init(states[0])
    && forall i :: 0 <= i < |steps| ==> StepsTo(states[i], steps[i], states[i + 1])
  }

  /** Runs as sequences of states reach what `Reaches` says, so the theorems of `WaitGraph` hold. */
  lemma {:induction false} RunReaches(states: seq<State>, steps: seq<Step>, n: nat)
    requires IsRun(states, steps) && n < |states|
    ensures Reaches(states[0], steps[..n], states[n])
  {
    if n > 0 {
      RunReaches(states, steps, n - 1);
      assert Front(steps[..n]) == steps[..n - 1] && Last(steps[..n]) == steps[n - 1];
      assert StepsTo(states[n - 1], steps[n - 1], states[n]);
    }
  }

  // ---------------------------------------------------------------- collecting

  /** The step makes submit `u` collect the fence of job `d`, as a dependency or through a descriptor. */
  predicate Collects(st: State, step: Step, u: nat, d: nat, fd: bool) {
    match step
    case TakeSyncobj(v, k) => v == u && !fd && k < |st.syncobjs| && st.syncobjs[k] == Some(d)
    case TakeFenceFd(v, j) => v == u && fd && j == d
    case CollectBo(v, b, fences) => v == u && !fd && d in fences
    case _ => false
  }

  predicate HasCollected(st: State, u: nat, d: nat, fd: bool) {
    u < |st.submits| && if fd then d in st.submits[u].fdDeps else d in st.submits[u].deps
  }

  predicate DependsOn(st: State, j: nat, d: nat, fd: bool) {
    j < |st.jobs| && if fd then d in st.jobs[j].fdDeps else d in st.jobs[j].deps
  }

  lemma StepCollects(st: State, step: Step, st': State, u: nat, d: nat, fd: bool)
    requires StepsTo(st, step, st')
    ensures Collects(st, step, u, d, fd) || HasCollected(st, u, d, fd) ==> HasCollected(st', u, d, fd)
    ensures HasCollected(st', u, d, fd) ==> Collects(st, step, u, d, fd) || HasCollected(st, u, d, fd)
    ensures step == Arm(u) ==> (DependsOn(st', |st.jobs|, d, fd) <==> HasCollected(st, u, d, fd))
    ensures |st'.jobs| >= |st.jobs|
    ensures forall j :: 0 <= j < |st.jobs| ==> (DependsOn(st', j, d, fd) <==> DependsOn(st, j, d, fd))
  {
  }

  /** Somewhere in the first `n` steps. */
  ghost predicate Collected(states: seq<State>, steps: seq<Step>, u: nat, d: nat, fd: bool, n: nat)
    requires n <= |states| && n <= |steps|
  {
    exists i :: 0 <= i < n && Collects(states[i], steps[i], u, d, fd)
  }

  lemma {:induction false} CollectedExactly(states: seq<State>, steps: seq<Step>, u: nat, d: nat, fd: bool, n: nat)
    requires IsRun(states, steps) && n < |states|
    ensures HasCollected(states[n], u, d, fd) <==> Collected(states, steps, u, d, fd, n)
  {
    if n > 0 {
      CollectedExactly(states, steps, u, d, fd, n - 1);
      StepCollects(states[n - 1], steps[n - 1], states[n], u, d, fd);
      OneMore(states, steps, u, d, fd, n - 1);
    }
  }

  lemma OneMore(states: seq<State>, steps: seq<Step>, u: nat, d: nat, fd: bool, n: nat)
    requires n < |states| && n < |steps|
    ensures Collected(states, steps, u, d, fd, n + 1) <==>
            Collected(states, steps, u, d, fd, n) || Collects(states[n], steps[n], u, d, fd)
  {
  }

  lemma {:induction false} DependenciesStay(
      states: seq<State>, steps: seq<Step>, j: nat, d: nat, fd: bool, m: nat, n: nat)
    requires IsRun(states, steps) && m <= n < |states| && j < |states[m].jobs|
    ensures |states[m].jobs| <= |states[n].jobs|
    ensures DependsOn(states[n], j, d, fd) <==> DependsOn(states[m], j, d, fd)
    decreases n
  {
    if m < n {
      DependenciesStay(states, steps, j, d, fd, m, n - 1);
      StepCollects(states[n - 1], steps[n - 1], states[n], 0, d, fd);
    }
  }

  /** A job depends on exactly the fences that its submit collected before arming it: those of the
      syncobjs it took, of the descriptors it was given, and those found on the buffers it locked. */
  lemma DependsOnWhatItNamed(
      states: seq<State>, steps: seq<Step>, u: nat, d: nat, fd: bool, m: nat, n: nat)
    requires IsRun(states, steps) && m < n < |states| && steps[m] == Arm(u)
    ensures DependsOn(states[n], |states[m].jobs|, d, fd) <==> Collected(states, steps, u, d, fd, m)
  {
    CollectedExactly(states, steps, u, d, fd, m);
    StepCollects(states[m], steps[m], states[m + 1], u, d, fd);
    ArmAdds(states[m], u, states[m + 1]);
    DependenciesStay(states, steps, |states[m].jobs|, d, fd, m + 1, n);
  }

  lemma ArmAdds(st: State, u: nat, st': State)
    requires StepsTo(st, Arm(u), st')
    ensures |st'.jobs| == |st.jobs| + 1
  {
  }

  // ---------------------------------------------------------------- syncobjs

  /** What syncobj `k` was made to hold last. */
  function Held(states: seq<State>, steps: seq<Step>, k: nat, n: nat): Option<nat>
    requires n <= |states| && n <= |steps|
  {
    if n == 0 then None else HeldAfter(Held(states, steps, k, n - 1), states[n - 1], steps[n - 1], k)
  }

  /** Publishing puts the submit's job there, and resetting empties it. */
  function HeldAfter(held: Option<nat>, st: State, step: Step, k: nat): Option<nat> {
    match step
    case Publish(u, l) => if l == k && u < |st.submits| then st.submits[u].job else held
    case ResetSyncobj(l) => if l == k then None else held
    case _ => held
  }

  lemma StepHolds(st: State, step: Step, st': State, k: nat, held: Option<nat>)
    requires StepsTo(st, step, st') && k < |st.syncobjs| && st.syncobjs[k] == held
    ensures |st'.syncobjs| == |st.syncobjs| && st'.syncobjs[k] == HeldAfter(held, st, step, k)
  {
  }

  lemma {:induction false} SyncobjHoldsLast(states: seq<State>, steps: seq<Step>, k: nat, n: nat)
    requires IsRun(states, steps) && n < |states| && k < |states[0].syncobjs|
    ensures k < |states[n].syncobjs| && states[n].syncobjs[k] == Held(states, steps, k, n)
  {
    if n > 0 {
      SyncobjHoldsLast(states, steps, k, n - 1);
      StepHolds(states[n - 1], steps[n - 1], states[n], k, Held(states, steps, k, n - 1));
    }
  }

  /** If a submit publishes its job to a syncobj, and another takes that syncobj, with nothing written to
      it in between, then the job of the other depends on that job. */
  lemma OrderedThroughSyncobj(states: seq<State>, steps: seq<Step>, u: nat, v: nat, k: nat,
                              p: nat, i: nat, m: nat, n: nat)
    requires IsRun(states, steps) && p < i < m < n < |states| && k < |states[0].syncobjs|
    requires steps[p] == Publish(u, k) && steps[i] == TakeSyncobj(v, k) && steps[m] == Arm(v)
    requires forall q :: p < q < i ==> !WritesSyncobj(steps[q], k)
    ensures u < |states[p].submits| && states[p].submits[u].job.Some?
    ensures DependsOn(states[n], |states[m].jobs|, states[p].submits[u].job.value, false)
  {
    Publishes(states[p], u, k, states[p + 1]);
    HeldSince(states, steps, k, p + 1, i);
    SyncobjHoldsLast(states, steps, k, i);
    assert Collects(states[i], steps[i], v, states[p].submits[u].job.value, false);
    DependsOnWhatItNamed(states, steps, v, states[p].submits[u].job.value, false, m, n);
  }

  predicate WritesSyncobj(step: Step, k: nat) {
    (step.Publish? && step.k == k) || (step.ResetSyncobj? && step.k == k)
  }

  lemma Publishes(st: State, u: nat, k: nat, st': State)
    requires StepsTo(st, Publish(u, k), st')
    ensures u < |st.submits| && st.submits[u].job.Some?
  {
  }

  lemma {:induction false} HeldSince(states: seq<State>, steps: seq<Step>, k: nat, p: nat, i: nat)
    requires p <= i <= |states| && i <= |steps|
    requires forall q :: p <= q < i ==> !WritesSyncobj(steps[q], k)
    ensures Held(states, steps, k, i) == Held(states, steps, k, p)
    decreases i
  {
    if p < i {
      HeldSince(states, steps, k, p, i - 1);
    }
  }

  // ---------------------------------------------------------------- buffers

  predicate OnBuffer(st: State, b: nat, d: nat) {
    b < |st.resv| && d in st.resv[b]
  }

  predicate AttachesTo(step: Step, b: nat) {
    step.Attach? && step.b == b
  }

  lemma StepAttaches(st: State, step: Step, st': State, b: nat, d: nat)
    requires StepsTo(st, step, st')
    ensures AttachesTo(step, b) ==>
              && step.u < |st.submits| && st.submits[step.u].job.Some?
              && OnBuffer(st', b, st.submits[step.u].job.value)
    ensures !AttachesTo(step, b) ==> (OnBuffer(st', b, d) <==> OnBuffer(st, b, d))
  {
  }

  lemma {:induction false} StaysOnBuffer(states: seq<State>, steps: seq<Step>, b: nat, d: nat, p: nat, i: nat)
    requires IsRun(states, steps) && p <= i < |states| && OnBuffer(states[p], b, d)
    requires forall q :: p <= q < i ==> !AttachesTo(steps[q], b)
    ensures OnBuffer(states[i], b, d)
    decreases i
  {
    if p < i {
      StaysOnBuffer(states, steps, b, d, p, i - 1);
      StepAttaches(states[i - 1], steps[i - 1], states[i], b, d);
    }
  }

  /** If a submit attaches its fence to a buffer, and another, with nobody attaching in between, collects
      what is on the buffer, then the job of the other depends on that of the first. */
  lemma OrderedThroughBuffer(states: seq<State>, steps: seq<Step>, u: nat, v: nat, b: nat,
                             p: nat, i: nat, m: nat, n: nat)
    requires IsRun(states, steps) && p < i < m < n < |states| && b < |states[i].resv|
    requires steps[p].Attach? && steps[p].u == u && steps[p].b == b
    requires steps[i] == CollectBo(v, b, states[i].resv[b]) && steps[m] == Arm(v)
    requires forall q :: p < q < i ==> !AttachesTo(steps[q], b)
    ensures u < |states[p].submits| && states[p].submits[u].job.Some?
    ensures DependsOn(states[n], |states[m].jobs|, states[p].submits[u].job.value, false)
  {
    StepAttaches(states[p], steps[p], states[p + 1], b, 0);
    var d := states[p].submits[u].job.value;
    StaysOnBuffer(states, steps, b, d, p + 1, i);
    assert Collects(states[i], steps[i], v, d, false);
    DependsOnWhatItNamed(states, steps, v, d, false, m, n);
  }

  // ---------------------------------------------------------------- completion

  /** In one of the first `n` steps the job completed. */
  ghost predicate Ran(steps: seq<Step>, j: nat, n: nat)
    requires n <= |steps|
  {
    exists i :: 0 <= i < n && steps[i] == CompleteJob(j)
  }

  predicate IsFinished(st: State, j: nat) {
    j < |st.jobs| && st.jobs[j].finished
  }

  lemma StepFinishes(st: State, step: Step, st': State, j: nat)
    requires StepsTo(st, step, st')
    ensures IsFinished(st', j) <==> IsFinished(st, j) || step == CompleteJob(j)
  {
  }

  lemma {:induction false} FinishedIffRan(states: seq<State>, steps: seq<Step>, j: nat, n: nat)
    requires IsRun(states, steps) && n < |states|
    ensures IsFinished(states[n], j) <==> Ran(steps, j, n)
  {
    if n > 0 {
      FinishedIffRan(states, steps, j, n - 1);
      StepFinishes(states[n - 1], steps[n - 1], states[n], j);
    }
  }

  lemma CompletesAfterDeps(st: State, j: nat, d: nat, fd: bool, st': State)
    requires StepsTo(st, CompleteJob(j), st') && DependsOn(st, j, d, fd)
    requires d < |st.jobs| && st.jobs[d].entity != st.jobs[j].entity
    ensures IsFinished(st, d)
  {
    assert WaitsForAny(st, j, d);
  }

  /** A job completes only after every job of another entity that its submit named, through a syncobj, a
      descriptor or a buffer. */
  lemma CompletesAfterWhatItNamed(
      states: seq<State>, steps: seq<Step>, u: nat, d: nat, fd: bool, m: nat, n: nat)
    requires IsRun(states, steps) && m < n < |steps| && steps[m] == Arm(u)
    requires Collected(states, steps, u, d, fd, m) && steps[n] == CompleteJob(|states[m].jobs|)
    requires d < |states[n].jobs| && |states[m].jobs| < |states[n].jobs|
    requires states[n].jobs[d].entity != states[n].jobs[|states[m].jobs|].entity
    ensures Ran(steps, d, n)
  {
    DependsOnWhatItNamed(states, steps, u, d, fd, m, n);
    CompletesAfterDeps(states[n], |states[m].jobs|, d, fd, states[n + 1]);
    FinishedIffRan(states, steps, d, n);
  }

  // ---------------------------------------------------------------- locks

  predicate InProgress(st: State, u: nat) {
    u < |st.submits| && (st.submits[u].phase == Locked || st.submits[u].phase == Armed || st.submits[u].phase == Pushed)
  }

  ghost predicate LocksOk(st: State) {
    && (forall b :: 0 <= b < |st.boOwner| && st.boOwner[b].Some? ==> InProgress(st, st.boOwner[b].value))
    && (forall q :: 0 <= q < |st.queueOwner| && st.queueOwner[q].Some? ==>
          && st.queueOwner[q].value < |st.submits| && st.submits[st.queueOwner[q].value].phase != Closed
          && st.submits[st.queueOwner[q].value].queue == q)
  }

  lemma StepKeepsLocks(st: State, step: Step, st': State)
    requires StepsTo(st, step, st') && LocksOk(st)
    ensures LocksOk(st')
    ensures step.Abort? || step.Finish? ==> step.u < |st'.submits| && st'.submits[step.u].phase == Closed
  {
  }

  /** Only a submit that is under way has locks: after it failed or finished it has none. */
  lemma {:induction false} NoLocksLeft(states: seq<State>, steps: seq<Step>, n: nat)
    requires IsRun(states, steps) && n < |states|
    ensures LocksOk(states[n])
    ensures n > 0 && (steps[n - 1].Abort? || steps[n - 1].Finish?) ==>
              var u := steps[n - 1].u;
              && (forall b :: 0 <= b < |states[n].boOwner| ==> states[n].boOwner[b] != Some(u))
              && (forall q :: 0 <= q < |states[n].queueOwner| ==> states[n].queueOwner[q] != Some(u))
  {
    if n > 0 {
      NoLocksLeft(states, steps, n - 1);
      StepKeepsLocks(states[n - 1], steps[n - 1], states[n]);
    }
  }

  // ---------------------------------------------------------------- nothing gets in the way

  /** A stretch of a run, from any state. */
  datatype Trace = Trace(states: seq<State>, steps: seq<Step>) {
    ghost predicate Valid() {
      && |states| == |steps| + 1
      && forall i :: 0 <= i < |steps| ==> StepsTo(states[i], steps[i], states[i + 1])
    }

    function Last(): State
      requires states != []
    {
      states[|states| - 1]
    }

    ghost function Then(step: Step): (tr: Trace)
      requires Valid() && Enabled(Last(), step)
      ensures tr.Valid() && tr.states[0] == states[0] && tr.Last() == Apply(Last(), step)
    {
      Trace(states + [Apply(Last(), step)], steps + [step])
    }
  }

  ghost predicate Leads(tr: Trace, st: State, st': State) {
    tr.Valid() && tr.states[0] == st && tr.Last() == st'
  }

  /** The lock of queue `q` and that of buffer `b` are free. */
  predicate Free(st: State, q: nat, b: nat) {
    && q < |st.queueOwner| == |st.queueEntity| && st.queueOwner[q] == None
    && b < |st.boOwner| == |st.resv| && st.boOwner[b] == None
  }

  /** Submit `|submits|` has taken syncobj `k`, locked buffer `b` and collected what is on it. */
  function AfterCollecting(st: State, q: nat, k: nat, b: nat): State
    requires Free(st, q, b) && k < |st.syncobjs|
  {
    var u := |st.submits|;
    var taken := if st.syncobjs[k].Some? then {st.syncobjs[k].value} else {};
    st.(submits := st.submits + [Submit(q, Locked, {} + taken + st.resv[b], {}, None)],
        queueOwner := st.queueOwner[q := Some(u)], boOwner := st.boOwner[b := Some(u)])
  }

  lemma CollectGetsThrough(st: State, q: nat, k: nat, b: nat) returns (tr: Trace)
    requires Free(st, q, b) && k < |st.syncobjs|
    ensures Leads(tr, st, AfterCollecting(st, q, k, b))
  {
    var u := |st.submits|;
    tr := Trace([st], []).Then(Begin(q)).Then(TakeSyncobj(u, k)).Then(LockBos(u, {b}));
    assert tr.Last().boOwner == st.boOwner[b := Some(u)];
    tr := tr.Then(CollectBo(u, b, st.resv[b]));
    assert tr.Last().submits == AfterCollecting(st, q, k, b).submits;
  }

  /** It can give up again, and all is as it was. */
  lemma AbortGetsThrough(st: State, q: nat, k: nat, b: nat) returns (tr: Trace)
    requires Free(st, q, b) && k < |st.syncobjs| && NoneOwnedBy(st, |st.submits|)
    ensures tr.Valid() && tr.states[0] == st
    ensures tr.Last() == st.(submits := tr.Last().submits) && |tr.Last().submits| == |st.submits| + 1
    ensures tr.Last().submits[..|st.submits|] == st.submits && In(tr.Last(), |st.submits|, Closed)
  {
    var u := |st.submits|;
    tr := CollectGetsThrough(st, q, k, b);
    tr := tr.Then(Abort(u));
    assert tr.Last().boOwner == st.boOwner && tr.Last().queueOwner == st.queueOwner;
  }

  ghost predicate NoneOwnedBy(st: State, u: nat) {
    && (forall b :: 0 <= b < |st.boOwner| ==> st.boOwner[b] != Some(u))
    && (forall q :: 0 <= q < |st.queueOwner| ==> st.queueOwner[q] != Some(u))
  }

  /** Armed, exported and attached, the job is pushed. */
  lemma PushGetsThrough(tr: Trace, u: nat, b: nat) returns (tr': Trace)
    requires tr.Valid() && In(tr.Last(), u, Locked) && Holds(tr.Last(), u, b)
    requires tr.Last().submits[u].queue < |tr.Last().queueEntity|
    ensures tr'.Valid() && tr'.states[0] == tr.states[0]
    ensures var st, sub := tr.Last(), tr.Last().submits[u];
            var j := |st.jobs|;
            tr'.Last() == st.(
              jobs := st.jobs + [Job(u, st.queueEntity[sub.queue], sub.deps, sub.fdDeps, Some(st.pushes), false)],
              submits := st.submits[u := sub.(phase := Pushed, job := Some(j))], pushes := st.pushes + 1,
              exported := st.exported + {j}, resv := st.resv[b := {j}])
  {
    var st := tr.Last();
    var j := |st.jobs|;
    tr' := tr.Then(Arm(u)).Then(Export(u)).Then(Attach(u, b, {}));
    assert {} + {j} == {j};
    tr' := tr'.Then(Push(u));
    var sub := st.submits[u];
    assert tr'.Last().submits == st.submits[u := sub.(phase := Pushed, job := Some(j))];
  }

  /** A submit gets through from beginning to end, whatever it finds on its syncobj and its buffer: its
      job is pushed and on the buffer, the syncobj holds it, and all locks are free again. */
  lemma SubmitGetsThrough(st: State, q: nat, k: nat, b: nat) returns (tr: Trace)
    requires Free(st, q, b) && k < |st.syncobjs| && NoneOwnedBy(st, |st.submits|)
    ensures tr.Valid() && tr.states[0] == st && |tr.Last().submits| == |st.submits| + 1
    ensures var j := |st.jobs|;
            var deps := TakenBy(st, k) + st.resv[b];
            tr.Last() == st.(
              jobs := st.jobs + [Job(|st.submits|, st.queueEntity[q], deps, {}, Some(st.pushes), false)],
              submits := tr.Last().submits, pushes := st.pushes + 1, exported := st.exported + {j},
              resv := st.resv[b := {j}], syncobjs := st.syncobjs[k := Some(j)])
    ensures In(tr.Last(), |st.submits|, Closed)
  {
    var u := |st.submits|;
    tr := CollectGetsThrough(st, q, k, b);
    tr := PushGetsThrough(tr, u, b);
    tr := tr.Then(Publish(u, k)).Then(Finish(u));
    assert tr.Last().boOwner == st.boOwner && tr.Last().queueOwner == st.queueOwner;
    assert {} + TakenBy(st, k) + st.resv[b] == TakenBy(st, k) + st.resv[b];
  }

  function TakenBy(st: State, k: nat): set<nat>
    requires k < |st.syncobjs|
  {
    if st.syncobjs[k].Some? then {st.syncobjs[k].value} else {}
  }

  /** A syncobj can be emptied at any time. */
  lemma ResetGetsThrough(st: State, k: nat) returns (tr: Trace)
    requires k < |st.syncobjs|
    ensures Leads(tr, st, st.(syncobjs := st.syncobjs[k := None]))
  {
    tr := Trace([st], []).Then(ResetSyncobj(k));
  }

  /** A job that waits for nothing unfinished completes. */
  lemma JobGetsThrough(st: State, j: nat) returns (tr: Trace)
    requires CanRun(st, j)
    ensures Leads(tr, st, st.(jobs := st.jobs[j := st.jobs[j].(finished := true)]))
  {
    tr := Trace([st], []).Then(CompleteJob(j));
  }
}
