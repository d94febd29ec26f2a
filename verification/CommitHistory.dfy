/**
 What a commit has done by when: pushed, flushed, completed, in that order and under its locks
 (msm/msm_atomic.c).
 */
module CommitHistory {
  import opened JobDeps
  import opened AtomicCommit

  /** In one of the first `n` steps thread `t` went on from `place`, doing what is to be done there. */
  ghost predicate Passed(states: seq<State>, steps: seq<Step>, t: nat, place: Place, n: nat)
    requires n <= |states| && n <= |steps|
  {
    exists i :: 0 <= i < n && Passes(states[i], steps[i], t, place)
  }

  predicate Passes(st: State, step: Step, t: nat, place: Place) {
    step == Advance(t) && t < |st.threads| && st.threads[t].place == place
  }

  lemma OneMore(states: seq<State>, steps: seq<Step>, t: nat, place: Place, n: nat)
    requires n < |states| && n < |steps|
    ensures Passed(states, steps, t, place, n + 1) <==>
            Passed(states, steps, t, place, n) || Passes(states[n], steps[n], t, place)
  {
  }

  /** What a thread of a commit or a worker must have behind it at `place`: the last of it. */
  function Behind(place: Place): Option<Place> {
    match place
    case Locking => Some(Starting)
    case Pushed => Some(Locking)
    case QueueingTimer => Some(Pushed)
    case AsyncDone => Some(Pushed)
    case AsyncUnlocking => Some(AsyncDone)
    case MaskCleared => Some(Pushed)
    case Flushed => Some(MaskCleared)
    case Relocking => Some(Flushed)
    case Completed => Some(Relocking)
    case SyncUnlocked => Some(Completed)
    case WorkIdle => Some(WorkLocking)
    case WorkCleared => Some(WorkLocking)
    case WorkEnabled => Some(WorkCleared)
    case WorkFlushed => Some(WorkEnabled)
    case WorkUnlocked => Some(WorkFlushed)
    case _ => None
  }

  lemma StepPasses(st: State, step: Step, st': State, t: nat)
    requires StepsTo(st, step, st') && t < |st'.threads|
    ensures t >= |st.threads| ==> st'.threads[t].place == Starting || st'.threads[t].place == WorkLocking
    ensures t < |st.threads| ==>
              && st'.threads[t].async == st.threads[t].async && st'.threads[t].crtcs == st.threads[t].crtcs
              && (st'.threads[t].place == st.threads[t].place || Passes(st, step, t, st.threads[t].place))
  {
  }

  lemma StepGoesOn(st: State, step: Step, st': State, t: nat)
    requires StepsTo(st, step, st') && t < |st.threads| && step == Advance(t)
    ensures t < |st'.threads|
    ensures st'.threads[t].place == Next(st.threads[t], AnyPending(st, st.threads[t].crtcs))
  {
  }

  /** A place is reached from the one behind it; an async commit may start the timer in between. */
  lemma NextIsBehind(th: Thread, pending: bool)
    requires Behind(Next(th, pending)).Some?
    ensures Behind(Next(th, pending)).value == th.place ||
            (th.place == QueueingTimer && Behind(Next(th, pending)) == Behind(th.place))
  {
  }

  lemma {:induction false} DoneWhatIsBehind(states: seq<State>, steps: seq<Step>, n: nat, t: nat)
    requires IsRun(states, steps) && n < |states| && t < |states[n].threads|
    requires Behind(states[n].threads[t].place).Some?
    ensures Passed(states, steps, t, Behind(states[n].threads[t].place).value, n)
  {
    StepPasses(states[n - 1], steps[n - 1], states[n], t);
    var place := Behind(states[n].threads[t].place).value;
    OneMore(states, steps, t, place, n - 1);
    if steps[n - 1] != Advance(t) {
      DoneWhatIsBehind(states, steps, n - 1, t);
    } else {
      StepGoesOn(states[n - 1], steps[n - 1], states[n], t);
      NextIsBehind(states[n - 1].threads[t], AnyPending(states[n - 1], states[n - 1].threads[t].crtcs));
      if states[n - 1].threads[t].place == QueueingTimer {
        DoneWhatIsBehind(states, steps, n - 1, t);
      }
    }
  }

  /** Whatever a thread does was preceded by what has to come before it. */
  lemma DoneInOrder(states: seq<State>, steps: seq<Step>, n: nat, t: nat, place: Place) returns (i: nat)
    requires IsRun(states, steps) && n < |steps| && Passes(states[n], steps[n], t, place) && Behind(place).Some?
    ensures i < n && Passes(states[i], steps[i], t, Behind(place).value)
  {
    DoneWhatIsBehind(states, steps, n, t);
    i :| 0 <= i < n && Passes(states[i], steps[i], t, Behind(place).value);
  }

  // ---------------------------------------------------------------- a synchronous commit

  /** Which places are for asynchronous commits and workers, and which for synchronous commits. */
  predicate KindOk(th: Thread) {
    match th.place
    case QueueingTimer | AsyncDone | AsyncUnlocking => th.async
    case MaskCleared | Flushed | Relocking | Completed | SyncUnlocked => !th.async
    case Starting | Locking | Pushed | Finished => true
    case _ => th.async
  }

  lemma StepKeepsKind(st: State, step: Step, st': State, t: nat)
    requires StepsTo(st, step, st') && t < |st'.threads| && (t < |st.threads| ==> KindOk(st.threads[t]))
    ensures KindOk(st'.threads[t])
  {
  }

  lemma {:induction false} KindAlways(states: seq<State>, steps: seq<Step>, n: nat, t: nat)
    requires IsRun(states, steps) && n < |states| && t < |states[n].threads|
    ensures KindOk(states[n].threads[t])
  {
    if n > 0 {
      if t < |states[n - 1].threads| {
        KindAlways(states, steps, n - 1, t);
      }
      StepKeepsKind(states[n - 1], steps[n - 1], states[n], t);
    }
  }

  /** When a synchronous commit completes, it has flushed before, and it holds all its locks. */
  lemma CompletesAfterFlushUnderLocks(states: seq<State>, steps: seq<Step>, n: nat, t: nat) returns (i: nat)
    requires IsRun(states, steps) && n < |steps| && Passes(states[n], steps[n], t, Relocking)
    ensures i < n && Passes(states[i], steps[i], t, MaskCleared)
    ensures forall k :: k in states[n].threads[t].crtcs ==>
              k < |states[n].crtcs| && states[n].crtcs[k].lock == Some(t)
  {
    i := DoneInOrder(states, steps, n, t, Relocking);
    i := DoneInOrder(states, steps, i, t, Flushed);
    InvAlways(states, steps, n);
    assert StepsTo(states[n], steps[n], states[n + 1]);
    assert ThreadOk(states[n], t, states[n].threads[t]);
    forall k | k in states[n].threads[t].crtcs ensures states[n].threads[t].Holds(k) {
    }
  }

  lemma {:induction false} FinishedFromUnlocked(states: seq<State>, steps: seq<Step>, n: nat, t: nat) returns (i: nat)
    requires IsRun(states, steps) && n < |states| && t < |states[n].threads|
    requires states[n].threads[t].place == Finished && !states[n].threads[t].async
    ensures i < n && Passes(states[i], steps[i], t, SyncUnlocked)
  {
    StepPasses(states[n - 1], steps[n - 1], states[n], t);
    if states[n - 1].threads[t].place == Finished {
      i := FinishedFromUnlocked(states, steps, n - 1, t);
    } else {
      KindAlways(states, steps, n - 1, t);
      StepGoesOn(states[n - 1], steps[n - 1], states[n], t);
      i := n - 1;
    }
  }

  /** A synchronous commit that has finished has enabled, pushed, flushed, completed and disabled, once
      after the other. */
  lemma SyncCommitDoesItAll(states: seq<State>, steps: seq<Step>, n: nat, t: nat)
      returns (enable: nat, push: nat, flush: nat, complete: nat, disable: nat)
    requires IsRun(states, steps) && n < |states| && t < |states[n].threads|
    requires states[n].threads[t].place == Finished && !states[n].threads[t].async
    ensures enable < push < flush < complete < disable < n
    ensures Passes(states[enable], steps[enable], t, Starting) && Passes(states[push], steps[push], t, Locking)
    ensures Passes(states[flush], steps[flush], t, MaskCleared)
    ensures Passes(states[complete], steps[complete], t, Relocking)
    ensures Passes(states[disable], steps[disable], t, SyncUnlocked)
  {
    disable := FinishedFromUnlocked(states, steps, n, t);
    complete := DoneInOrder(states, steps, disable, t, SyncUnlocked);
    complete := DoneInOrder(states, steps, complete, t, Completed);
    flush := DoneInOrder(states, steps, complete, t, Relocking);
    flush := DoneInOrder(states, steps, flush, t, Flushed);
    push := DoneInOrder(states, steps, flush, t, MaskCleared);
    push := DoneInOrder(states, steps, push, t, Pushed);
    enable := DoneInOrder(states, steps, push, t, Locking);
  }

  // ---------------------------------------------------------------- timer and pending bit

  /** Whether the timer of CRTC `k` runs: it was started, and its work was not begun since. */
  function TimerRuns(states: seq<State>, steps: seq<Step>, k: nat, n: nat): bool
    requires n <= |states| && n <= |steps|
  {
    n > 0 && TimerAfter(TimerRuns(states, steps, k, n - 1), states[n - 1], steps[n - 1], k)
  }

  function TimerAfter(runs: bool, st: State, step: Step, k: nat): bool {
    match step
    case TimerWork(l) => if l == k then false else runs
    case Advance(t) => runs || (Passes(st, step, t, QueueingTimer) && k in st.threads[t].crtcs)
    case _ => runs
  }

  /** Whether the pending bit of CRTC `k` is set: by the last asynchronous commit that pushed to it,
      unless a synchronous one did so since, or the worker looked. */
  function PendingSet(states: seq<State>, steps: seq<Step>, k: nat, n: nat): bool
    requires n <= |states| && n <= |steps|
  {
    n > 0 && PendingAfter(PendingSet(states, steps, k, n - 1), states[n - 1], steps[n - 1], k)
  }

  function PendingAfter(set_: bool, st: State, step: Step, k: nat): bool {
    match step
    case Advance(t) =>
      if Passes(st, step, t, Pushed) && k in st.threads[t].crtcs then st.threads[t].async
      else if Passes(st, step, t, WorkLocking) && k in st.threads[t].crtcs then false
      else set_
    case _ => set_
  }

  lemma StepTimes(st: State, step: Step, st': State, k: nat)
    requires StepsTo(st, step, st') && k < |st.crtcs|
    ensures |st'.crtcs| == |st.crtcs|
    ensures st'.crtcs[k].timer == TimerAfter(st.crtcs[k].timer, st, step, k)
    ensures st'.crtcs[k].pending == PendingAfter(st.crtcs[k].pending, st, step, k)
  {
  }

  /** The timer runs from its start to its work and no longer: each start leads to one look of the worker.
      And the pending bit says what it should. */
  lemma {:induction false} TimerAndPendingAreExact(states: seq<State>, steps: seq<Step>, k: nat, n: nat)
    requires IsRun(states, steps) && n < |states| && k < |states[0].crtcs|
    ensures k < |states[n].crtcs|
    ensures states[n].crtcs[k].timer == TimerRuns(states, steps, k, n)
    ensures states[n].crtcs[k].pending == PendingSet(states, steps, k, n)
  {
    if n > 0 {
      TimerAndPendingAreExact(states, steps, k, n - 1);
      StepTimes(states[n - 1], steps[n - 1], states[n], k);
    }
  }

  // ---------------------------------------------------------------- nothing gets in the way

  /** A stretch of a run, from any state. */
  datatype Trace = Trace(states: seq<State>, steps: seq<Step>) {
    ghost predicate Valid() {
      && |states| == |steps| + 1
      && forall i :: 0 <= i < |steps| ==> StepsTo(states[i], steps[i], states[i + 1])
    }

    function Last(): State
      requires states != []
    {
      states[|states| - 1]
    }

    ghost function Then(step: Step): (tr: Trace)
      requires Valid() && Enabled(Last(), step)
      ensures tr.Valid() && tr.states[0] == states[0] && tr.Last() == Apply(Last(), step)
    {
      Trace(states + [Apply(Last(), step)], steps + [step])
    }
  }

  ghost predicate Leads(tr: Trace, st: State, st': State) {
    tr.Valid() && tr.states[0] == st && tr.Last() == st'
  }

  /** The state with thread `t` at `place`, CRTC `k` as `c`, and `delta` more enables. */
  function With(st: State, t: nat, th: Thread, k: nat, c: Crtc, delta: int): State
    requires t < |st.threads| && k < |st.crtcs|
  {
    State(st.crtcs[k := c], st.threads[t := th], st.enables + delta)
  }

  predicate AtPlace(st: State, t: nat, k: nat, place: Place, pos: nat) {
    && t < |st.threads| && st.threads[t].crtcs == {k} && st.threads[t].place == place && st.threads[t].pos == pos
    && k < |st.crtcs|
  }

  /** Going on from a place that needs its lock, or none. */
  lemma GoesOn(tr: Trace, t: nat, k: nat, place: Place, pos: nat) returns (tr': Trace)
    requires tr.Valid() && AtPlace(tr.Last(), t, k, place, pos) && place != Finished
    requires (TakesLocks(place) ==> pos > k) && (GivesLocks(place) ==> pos <= k)
    ensures var st := tr.Last();
            var th := st.threads[t];
            Leads(tr', tr.states[0],
                  With(st, t, th.(place := Next(th, st.crtcs[k].pending)), k, Effect(th, st.crtcs[k]),
                       EnableDelta(place)))
  {
    tr' := tr.Then(Advance(t));
    var st := tr.Last();
    assert AnyPending(st, {k}) == st.crtcs[k].pending;
    assert tr'.Last().crtcs == st.crtcs[k := Effect(st.threads[t], st.crtcs[k])];
  }

  lemma Locks(tr: Trace, t: nat, k: nat, place: Place) returns (tr': Trace)
    requires tr.Valid() && AtPlace(tr.Last(), t, k, place, 0) && TakesLocks(place) && tr.Last().crtcs[k].lock == None
    ensures var st := tr.Last();
            Leads(tr', tr.states[0],
                  With(st, t, st.threads[t].(pos := k + 1), k, st.crtcs[k].(lock := Some(t)), 0))
  {
    tr' := tr.Then(LockNext(t, k));
  }

  lemma Unlocks(tr: Trace, t: nat, k: nat, place: Place) returns (tr': Trace)
    requires tr.Valid() && AtPlace(tr.Last(), t, k, place, k + 1) && GivesLocks(place)
    ensures var st := tr.Last();
            Leads(tr', tr.states[0], With(st, t, st.threads[t].(pos := k), k, st.crtcs[k].(lock := None), 0))
  {
    assert tr.Last().threads[t].Holds(k);
    tr' := tr.Then(UnlockNext(t, k));
  }

  /** A commit of CRTC `k` gets as far as having pushed its update, under the lock. */
  lemma PushGetsThrough(st: State, k: nat, async: bool) returns (tr: Trace)
    requires k < |st.crtcs| && st.crtcs[k].lock == None
    ensures var c := st.crtcs[k];
            Leads(tr, st, State(st.crtcs[k := c.(lock := Some(|st.threads|), unflushed := c.unflushed + 1)],
                                st.threads + [Thread({k}, async, Pushed, k + 1)], st.enables + 1))
  {
    var t := |st.threads|;
    tr := Trace([st], []).Then(Commit({k}, async));
    tr := GoesOn(tr, t, k, Starting, 0);
    tr := Locks(tr, t, k, Locking);
    tr := GoesOn(tr, t, k, Locking, k + 1);
    assert tr.Last().threads == st.threads + [Thread({k}, async, Pushed, k + 1)];
  }

  /** An asynchronous commit gets through: its update is pushed, the pending bit is set and, unless it was
      before, the timer started; nothing is flushed, and the lock is free again. */
  lemma AsyncGetsThrough(st: State, k: nat) returns (tr: Trace)
    requires k < |st.crtcs| && st.crtcs[k].lock == None
    ensures var c := st.crtcs[k];
            Leads(tr, st, State(
              st.crtcs[k := c.(unflushed := c.unflushed + 1, pending := true, timer := c.timer || !c.pending)],
              st.threads + [Thread({k}, true, Finished, k)], st.enables))
  {
    var t := |st.threads|;
    tr := PushGetsThrough(st, k, true);
    tr := GoesOn(tr, t, k, Pushed, k + 1);
    if !st.crtcs[k].pending {
      tr := GoesOn(tr, t, k, QueueingTimer, k + 1);
    }
    tr := GoesOn(tr, t, k, AsyncDone, k + 1);
    tr := Unlocks(tr, t, k, AsyncUnlocking);
    tr := GoesOn(tr, t, k, AsyncUnlocking, k);
    assert tr.Last().threads == st.threads + [Thread({k}, true, Finished, k)];
  }

  /** A synchronous one flushes its update and all that were pending before it. */
  lemma SyncGetsThrough(st: State, k: nat) returns (tr: Trace)
    requires k < |st.crtcs| && st.crtcs[k].lock == None
    ensures Leads(tr, st, State(st.crtcs[k := st.crtcs[k].(unflushed := 0, pending := false)],
                                st.threads + [Thread({k}, false, Finished, k)], st.enables))
  {
    var t := |st.threads|;
    tr := PushGetsThrough(st, k, false);
    tr := GoesOn(tr, t, k, Pushed, k + 1);
    tr := GoesOn(tr, t, k, MaskCleared, k + 1);
    tr := Unlocks(tr, t, k, Flushed);
    tr := GoesOn(tr, t, k, Flushed, k);
    tr := CompletionGetsThrough(tr, t, k);
    assert tr.Last().threads == st.threads + [Thread({k}, false, Finished, k)];
  }

  lemma CompletionGetsThrough(tr: Trace, t: nat, k: nat) returns (tr': Trace)
    requires tr.Valid() && AtPlace(tr.Last(), t, k, Relocking, k) && tr.Last().crtcs[k].lock == None
    ensures var st := tr.Last();
            Leads(tr', tr.states[0], With(st, t, st.threads[t].(place := Finished), k, st.crtcs[k], -1))
  {
    var st := tr.Last();
    tr' := tr.Then(LockNext(t, k));
    tr' := GoesOn(tr', t, k, Relocking, k + 1);
    tr' := Unlocks(tr', t, k, Completed);
    tr' := GoesOn(tr', t, k, Completed, k);
    tr' := GoesOn(tr', t, k, SyncUnlocked, k);
    assert tr'.Last().threads == st.threads[t := st.threads[t].(place := Finished)];
    assert tr'.Last().crtcs == st.crtcs[k := st.crtcs[k]];
  }

  /** When the timer fires, the worker flushes what is pending; and if nothing is, it leaves. */
  lemma WorkGetsThrough(st: State, k: nat) returns (tr: Trace)
    requires k < |st.crtcs| && st.crtcs[k].lock == None && st.crtcs[k].timer && st.crtcs[k].worker == None
    ensures var c := st.crtcs[k];
            Leads(tr, st, State(
              st.crtcs[k := c.(timer := false, pending := false, unflushed := if c.pending then 0 else c.unflushed)],
              st.threads + [Thread({k}, true, Finished, k)], st.enables))
  {
    var t := |st.threads|;
    tr := Trace([st], []).Then(TimerWork(k));
    tr := Locks(tr, t, k, WorkLocking);
    tr := GoesOn(tr, t, k, WorkLocking, k + 1);
    if st.crtcs[k].pending {
      tr := GoesOn(tr, t, k, WorkCleared, k + 1);
      tr := GoesOn(tr, t, k, WorkEnabled, k + 1);
      tr := Unlocks(tr, t, k, WorkFlushed);
      tr := GoesOn(tr, t, k, WorkFlushed, k);
      tr := GoesOn(tr, t, k, WorkUnlocked, k);
    } else {
      tr := Unlocks(tr, t, k, WorkIdle);
      tr := GoesOn(tr, t, k, WorkIdle, k);
    }
    assert tr.Last().threads == st.threads + [Thread({k}, true, Finished, k)];
  }
}
