/**
 Asynchronous atomic commits: msm/msm_atomic.c.

 Any number of commits, and a worker per CRTC that is started by the CRTC's timer, run concurrently.
 Each CRTC has a commit lock; locks are taken one by one in ascending order and given back in
 descending order. A step is one access to shared state; an update of the pending mask is one step.
 */
module AtomicCommit {
  import opened JobDeps

  datatype Place =
    // msm_atomic_commit_tail
    | Starting        // enable_commit
    | Locking         // take the locks, then wait for the last flush and push the update
    | Pushed          // look at the pending mask
    | QueueingTimer   // async, and nothing was pending: start the timer
    | AsyncDone       // async: disable_commit, then unlock
    | AsyncUnlocking
    | MaskCleared     // sync: flush
    | Flushed         // unlock
    | Relocking       // after waiting for the flush: lock again and complete
    | Completed       // unlock
    | SyncUnlocked    // disable_commit
    // msm_atomic_async_commit
    | WorkLocking     // take the lock and look at the pending mask
    | WorkIdle        // nothing pending: unlock
    | WorkCleared     // enable_commit
    | WorkEnabled     // flush
    | WorkFlushed     // complete, then unlock
    | WorkUnlocked    // disable_commit
    | Finished

  /** A commit or a worker, and the CRTCs it is about. It has the locks of those below `pos`. */
  datatype Thread = Thread(crtcs: set<nat>, async: bool, place: Place, pos: nat) {
    predicate Holds(k: nat) {
      k in crtcs && k < pos
    }

    predicate HoldsAll() {
      forall k :: k in crtcs ==> k < pos
    }
  }

  /** Per CRTC: who has its lock, its bit in pending_crtc_mask, whether its timer runs or its work is
      queued, its worker's thread if one is running, and how many updates were pushed to the hardware
      but not flushed. */
  datatype Crtc = Crtc(lock: Option<nat>, pending: bool, timer: bool, worker: Option<nat>, unflushed: nat)

  datatype State = State(crtcs: seq<Crtc>, threads: seq<Thread>, enables: int)

  datatype Step =
    | Commit(crtcs: set<nat>, async: bool)
    | TimerWork(k: nat)
    | LockNext(t: nat, k: nat)
    | UnlockNext(t: nat, k: nat)
    | Advance(t: nat)

  // ---------------------------------------------------------------- steps

  predicate TakesLocks(place: Place) {
    place == Locking || place == Relocking || place == WorkLocking
  }

  predicate GivesLocks(place: Place) {
    place == AsyncUnlocking || place == Flushed || place == Completed || place == WorkIdle || place == WorkFlushed
  }

  /** The lock that the thread is about to take. */
  predicate Wants(th: Thread, k: nat) {
    TakesLocks(th.place) && k in th.crtcs && k >= th.pos && forall m :: m in th.crtcs && m >= th.pos ==> k <= m
  }

  /** The lock that it is about to give back. */
  ghost predicate GivesBack(th: Thread, k: nat) {
    GivesLocks(th.place) && th.Holds(k) && forall m: nat :: th.Holds(m) ==> m <= k
  }

  predicate HoldsNone(th: Thread) {
    forall k :: k in th.crtcs ==> k >= th.pos
  }

  /** What the thread still has to do before it goes on: all its locks, or none. */
  predicate Ready(th: Thread) {
    && th.place != Finished
    && (TakesLocks(th.place) ==> th.HoldsAll())
    && (GivesLocks(th.place) ==> HoldsNone(th))
  }

  /** Where the thread goes next; `pending` says whether one of its CRTCs has its bit set. */
  function Next(th: Thread, pending: bool): Place {
    match th.place
    case Starting => Locking
    case Locking => Pushed
    case Pushed => if !th.async then MaskCleared else if pending then AsyncDone else QueueingTimer
    case QueueingTimer => AsyncDone
    case AsyncDone => AsyncUnlocking
    case AsyncUnlocking => Finished
    case MaskCleared => Flushed
    case Flushed => Relocking
    case Relocking => Completed
    case Completed => SyncUnlocked
    case SyncUnlocked => Finished
    case WorkLocking => if pending then WorkCleared else WorkIdle
    case WorkIdle => Finished
    case WorkCleared => WorkEnabled
    case WorkEnabled => WorkFlushed
    case WorkFlushed => WorkUnlocked
    case WorkUnlocked => Finished
    case Finished => Finished
  }

  /** What leaving its place does to a CRTC of the thread. */
  function Effect(th: Thread, c: Crtc): Crtc {
    match th.place
    case Locking => c.(unflushed := c.unflushed + 1)
    case Pushed => c.(pending := th.async)
    case QueueingTimer => c.(timer := true)
    case MaskCleared => c.(unflushed := 0)
    case WorkLocking => c.(pending := false)
    case WorkEnabled => c.(unflushed := 0)
    case WorkIdle => c.(worker := None)
    case WorkUnlocked => c.(worker := None)
    case _ => c
  }

  function EnableDelta(place: Place): int {
    match place
    case Starting => 1
    case WorkCleared => 1
    case AsyncDone => -1
    case SyncUnlocked => -1
    case WorkUnlocked => -1
    case _ => 0
  }

  predicate AnyPending(st: State, crtcs: set<nat>) {
    exists k :: k in crtcs && k < |st.crtcs| && st.crtcs[k].pending
  }

  function EffectAll(st: State, th: Thread): (r: seq<Crtc>)
    ensures |r| == |st.crtcs|
    ensures forall k :: 0 <= k < |r| ==> r[k] == if k in th.crtcs then Effect(th, st.crtcs[k]) else st.crtcs[k]
  {
    seq(|st.crtcs|, k requires 0 <= k < |st.crtcs| =>
      if k in th.crtcs then Effect(th, st.crtcs[k]) else st.crtcs[k])
  }

  /** Asynchronous commits are limited to a single CRTC. */
  predicate OneCrtc(crtcs: set<nat>) {
    crtcs != {} && forall k, m :: k in crtcs && m in crtcs ==> k == m
  }

  ghost predicate Enabled(st: State, step: Step) {
    match step
    case Commit(crtcs, async) =>
      (forall k :: k in crtcs ==> k < |st.crtcs|) && (async ==> OneCrtc(crtcs))
    case TimerWork(k) => k < |st.crtcs| && st.crtcs[k].timer && st.crtcs[k].worker == None
    case LockNext(t, k) => t < |st.threads| && k < |st.crtcs| && Wants(st.threads[t], k) && st.crtcs[k].lock == None
    case UnlockNext(t, k) => t < |st.threads| && k < |st.crtcs| && GivesBack(st.threads[t], k)
    case Advance(t) => t < |st.threads| && Ready(st.threads[t])
  }

  ghost function Apply(st: State, step: Step): State
    requires Enabled(st, step)
  {
    match step
    case Commit(crtcs, async) => st.(threads := st.threads + [Thread(crtcs, async, Starting, 0)])
    case TimerWork(k) =>
      st.(threads := st.threads + [Thread({k}, true, WorkLocking, 0)],
          crtcs := st.crtcs[k := st.crtcs[k].(timer := false, worker := Some(|st.threads|))])
    case LockNext(t, k) =>
      st.(threads := st.threads[t := st.threads[t].(pos := k + 1)],
          crtcs := st.crtcs[k := st.crtcs[k].(lock := Some(t))])
    case UnlockNext(t, k) =>
      st.(threads := st.threads[t := st.threads[t].(pos := k)],
          crtcs := st.crtcs[k := st.crtcs[k].(lock := None)])
    case Advance(t) =>
      var th := st.threads[t];
      State(EffectAll(st, th), st.threads[t := th.(place := Next(th, AnyPending(st, th.crtcs)))],
            st.enables + EnableDelta(th.place))
  }

  // ---------------------------------------------------------------- invariant

  predicate WorkerPlace(place: Place) {
    || place == WorkLocking || place == WorkIdle || place == WorkCleared || place == WorkEnabled
    || place == WorkFlushed || place == WorkUnlocked
  }

  /** All locks are held from the last one taken until the first one given back. */
  predicate LockedPlace(place: Place) {
    || place == Pushed || place == QueueingTimer || place == AsyncDone || place == MaskCleared
    || place == WorkCleared || place == WorkEnabled
  }

  predicate UnlockedPlace(place: Place) {
    place == Starting || place == SyncUnlocked || place == WorkUnlocked || place == Finished
  }

  /** Between enable_commit and disable_commit. */
  predicate EnabledPlace(place: Place) {
    || place == Locking || place == Pushed || place == QueueingTimer || place == AsyncDone
    || place == MaskCleared || place == Flushed || place == Relocking || place == Completed || place == SyncUnlocked
    || place == WorkEnabled || place == WorkFlushed || place == WorkUnlocked
  }

  /** Between clearing the pending bits and flushing. */
  predicate AboutToFlush(place: Place) {
    place == MaskCleared || place == WorkCleared || place == WorkEnabled
  }

  ghost predicate ThreadOk(st: State, t: nat, th: Thread) {
    && (forall k :: k in th.crtcs ==> k < |st.crtcs|)
    && (forall k: nat :: th.Holds(k) ==> k < |st.crtcs| && st.crtcs[k].lock == Some(t))
    && (LockedPlace(th.place) ==> th.HoldsAll())
    && (UnlockedPlace(th.place) ==> HoldsNone(th))
    && (WorkerPlace(th.place) ==> forall k :: k in th.crtcs ==> k < |st.crtcs| && st.crtcs[k].worker == Some(t))
    && (th.place == QueueingTimer || th.place == AsyncDone ==> th.async)
    && (th.place == MaskCleared ==> !th.async)
    && (th.async ==> OneCrtc(th.crtcs))
    && (AboutToFlush(th.place) ==> forall k :: k in th.crtcs ==> k < |st.crtcs| && !st.crtcs[k].pending)
  }

  ghost predicate ThreadsOk(st: State) {
    forall t :: 0 <= t < |st.threads| ==> ThreadOk(st, t, st.threads[t])
  }

  predicate HeldAt(st: State, c: Crtc, place: Place) {
    c.lock.Some? && c.lock.value < |st.threads| && st.threads[c.lock.value].place == place
  }

  /** Somebody who will flush the CRTC, or set its pending bit, has its lock. */
  predicate InSection(st: State, c: Crtc) {
    HeldAt(st, c, Pushed) || HeldAt(st, c, MaskCleared) || HeldAt(st, c, WorkCleared) || HeldAt(st, c, WorkEnabled)
  }

  /** The worker is there and has not looked at the pending mask yet. */
  predicate WorkAhead(st: State, c: Crtc) {
    c.worker.Some? && c.worker.value < |st.threads| && st.threads[c.worker.value].place == WorkLocking
  }

  predicate LockOk(st: State, k: nat, c: Crtc) {
    && (c.lock.Some? ==> c.lock.value < |st.threads| && st.threads[c.lock.value].Holds(k))
    && (c.worker.Some? ==>
          && c.worker.value < |st.threads| && k in st.threads[c.worker.value].crtcs
          && WorkerPlace(st.threads[c.worker.value].place))
  }

  predicate CrtcOk(st: State, c: Crtc) {
    && (c.unflushed > 0 ==> c.pending || InSection(st, c))
    && (c.pending ==> c.timer || WorkAhead(st, c) || HeldAt(st, c, QueueingTimer))
  }

  ghost predicate LocksOk(st: State) {
    forall k :: 0 <= k < |st.crtcs| ==> LockOk(st, k, st.crtcs[k])
  }

  ghost predicate CrtcsOk(st: State) {
    forall k :: 0 <= k < |st.crtcs| ==> CrtcOk(st, st.crtcs[k])
  }

  function CountEnabled(threads: seq<Thread>): nat {
    if threads == [] then 0
    else CountEnabled(threads[..|threads| - 1]) + if EnabledPlace(threads[|threads| - 1].place) then 1 else 0
  }

  ghost predicate Inv(st: State) {
    ThreadsOk(st) && LocksOk(st) && CrtcsOk(st) && st.enables == CountEnabled(st.threads)
  }

  // ---------------------------------------------------------------- every step keeps it

  lemma OtherThreads(st: State, t: nat, u: nat)
    requires ThreadsOk(st) && Enabled(st, Advance(t)) && u < |st.threads| && u != t
    ensures ThreadOk(Apply(st, Advance(t)), u, st.threads[u])
  {
    assert ThreadOk(st, u, st.threads[u]) && ThreadOk(st, t, st.threads[t]);
  }

  lemma OwnThreadInCommit(st: State, t: nat)
    requires t < |st.threads| && ThreadOk(st, t, st.threads[t]) && Enabled(st, Advance(t))
    requires !WorkerPlace(st.threads[t].place) && st.threads[t].place != Pushed
    ensures ThreadOk(Apply(st, Advance(t)), t, Apply(st, Advance(t)).threads[t])
  {
    CommitLeavesLocks(st, t);
    ThreadGoesOn(st, Apply(st, Advance(t)), t);
  }

  lemma CommitLeavesLocks(st: State, t: nat)
    requires Enabled(st, Advance(t)) && !WorkerPlace(st.threads[t].place) && st.threads[t].place != Pushed
    ensures forall k :: 0 <= k < |st.crtcs| ==>
              && Apply(st, Advance(t)).crtcs[k].lock == st.crtcs[k].lock
              && Apply(st, Advance(t)).crtcs[k].pending == st.crtcs[k].pending
  {
  }

  /** A commit that goes on, holding or not holding its locks as its new place requires. */
  lemma ThreadGoesOn(st: State, st': State, t: nat)
    requires t < |st.threads| && ThreadOk(st, t, st.threads[t]) && Ready(st.threads[t])
    requires !WorkerPlace(st.threads[t].place) && st.threads[t].place != Pushed
    requires |st'.threads| == |st.threads| && |st'.crtcs| == |st.crtcs|
    requires exists pending :: st'.threads[t] == st.threads[t].(place := Next(st.threads[t], pending))
    requires forall k :: 0 <= k < |st.crtcs| ==>
               st'.crtcs[k].lock == st.crtcs[k].lock && st'.crtcs[k].pending == st.crtcs[k].pending
    ensures ThreadOk(st', t, st'.threads[t])
  {
  }

  lemma OwnThreadAfterPush(st: State, t: nat)
    requires t < |st.threads| && ThreadOk(st, t, st.threads[t]) && Enabled(st, Advance(t))
    requires st.threads[t].place == Pushed
    ensures ThreadOk(Apply(st, Advance(t)), t, Apply(st, Advance(t)).threads[t])
  {
  }

  lemma OwnThreadEndsWork(st: State, t: nat)
    requires ThreadsOk(st) && Enabled(st, Advance(t))
    requires st.threads[t].place == WorkIdle || st.threads[t].place == WorkUnlocked
    ensures ThreadOk(Apply(st, Advance(t)), t, Apply(st, Advance(t)).threads[t])
  {
    assert ThreadOk(st, t, st.threads[t]);
  }

  lemma OwnThreadInWork(st: State, t: nat)
    requires ThreadsOk(st) && Enabled(st, Advance(t)) && WorkerPlace(st.threads[t].place)
    requires st.threads[t].place != WorkIdle && st.threads[t].place != WorkUnlocked
    ensures ThreadOk(Apply(st, Advance(t)), t, Apply(st, Advance(t)).threads[t])
  {
    var th, st' := st.threads[t], Apply(st, Advance(t));
    assert ThreadOk(st, t, th);
    assert forall k :: k in th.crtcs ==> st'.crtcs[k].worker == Some(t);
  }

  lemma OwnLock(st: State, t: nat, k: nat)
    requires ThreadsOk(st) && LocksOk(st) && Enabled(st, Advance(t)) && k < |st.crtcs|
    ensures LockOk(Apply(st, Advance(t)), k, Apply(st, Advance(t)).crtcs[k])
  {
    assert ThreadOk(st, t, st.threads[t]) && LockOk(st, k, st.crtcs[k]);
  }

  lemma OtherCrtc(st: State, t: nat, k: nat)
    requires ThreadsOk(st) && LocksOk(st) && CrtcsOk(st) && Enabled(st, Advance(t)) && k < |st.crtcs|
    requires k !in st.threads[t].crtcs
    ensures CrtcOk(Apply(st, Advance(t)), st.crtcs[k])
  {
    assert LockOk(st, k, st.crtcs[k]) && CrtcOk(st, st.crtcs[k]);
  }

  lemma OwnCrtcInCommit(st: State, t: nat, k: nat)
    requires ThreadsOk(st) && LocksOk(st) && CrtcsOk(st) && Enabled(st, Advance(t)) && k < |st.crtcs|
    requires k in st.threads[t].crtcs && !WorkerPlace(st.threads[t].place) && st.threads[t].place != Pushed
    ensures CrtcOk(Apply(st, Advance(t)), Apply(st, Advance(t)).crtcs[k])
  {
    assert ThreadOk(st, t, st.threads[t]) && LockOk(st, k, st.crtcs[k]) && CrtcOk(st, st.crtcs[k]);
  }

  lemma OwnCrtcAfterPush(st: State, t: nat, k: nat)
    requires ThreadsOk(st) && LocksOk(st) && CrtcsOk(st) && Enabled(st, Advance(t)) && k < |st.crtcs|
    requires k in st.threads[t].crtcs && st.threads[t].place == Pushed
    ensures CrtcOk(Apply(st, Advance(t)), Apply(st, Advance(t)).crtcs[k])
  {
    assert ThreadOk(st, t, st.threads[t]) && LockOk(st, k, st.crtcs[k]) && CrtcOk(st, st.crtcs[k]);
  }

  lemma OwnCrtcAsWorkLooks(st: State, t: nat, k: nat)
    requires t < |st.threads| && k < |st.crtcs|
    requires ThreadOk(st, t, st.threads[t]) && LockOk(st, k, st.crtcs[k]) && CrtcOk(st, st.crtcs[k])
    requires Enabled(st, Advance(t)) && k in st.threads[t].crtcs && st.threads[t].place == WorkLocking
    ensures CrtcOk(Apply(st, Advance(t)), Apply(st, Advance(t)).crtcs[k])
  {
    assert st.crtcs[k].pending ==> AnyPending(st, st.threads[t].crtcs);
  }

  lemma OwnCrtcInWork(st: State, t: nat, k: nat)
    requires t < |st.threads| && k < |st.crtcs|
    requires ThreadOk(st, t, st.threads[t]) && LockOk(st, k, st.crtcs[k]) && CrtcOk(st, st.crtcs[k])
    requires Enabled(st, Advance(t)) && k in st.threads[t].crtcs
    requires WorkerPlace(st.threads[t].place) && st.threads[t].place != WorkLocking
    ensures CrtcOk(Apply(st, Advance(t)), Apply(st, Advance(t)).crtcs[k])
  {
  }

  lemma AdvanceKeeps(st: State, t: nat)
    requires ThreadsOk(st) && LocksOk(st) && CrtcsOk(st) && Enabled(st, Advance(t))
    ensures ThreadsOk(Apply(st, Advance(t))) && LocksOk(Apply(st, Advance(t))) && CrtcsOk(Apply(st, Advance(t)))
  {
    var st' := Apply(st, Advance(t));
    forall u | 0 <= u < |st'.threads| ensures ThreadOk(st', u, st'.threads[u]) {
      if u == t && (st.threads[t].place == WorkIdle || st.threads[t].place == WorkUnlocked) {
        OwnThreadEndsWork(st, t);
      } else if u == t && WorkerPlace(st.threads[t].place) {
        OwnThreadInWork(st, t);
      } else if u == t && st.threads[t].place == Pushed {
        OwnThreadAfterPush(st, t);
      } else if u == t {
        OwnThreadInCommit(st, t);
      } else {
        OtherThreads(st, t, u);
      }
    }
    forall k | 0 <= k < |st'.crtcs| ensures LockOk(st', k, st'.crtcs[k]) && CrtcOk(st', st'.crtcs[k]) {
      OwnLock(st, t, k);
      if k !in st.threads[t].crtcs {
        OtherCrtc(st, t, k);
      } else if WorkerPlace(st.threads[t].place) {
        assert ThreadOk(st, t, st.threads[t]) && LockOk(st, k, st.crtcs[k]) && CrtcOk(st, st.crtcs[k]);
        if st.threads[t].place == WorkLocking {
          OwnCrtcAsWorkLooks(st, t, k);
        } else {
          OwnCrtcInWork(st, t, k);
        }
      } else if st.threads[t].place == Pushed {
        OwnCrtcAfterPush(st, t, k);
      } else {
        OwnCrtcInCommit(st, t, k);
      }
    }
  }

  lemma CommitKeeps(st: State, step: Step)
    requires ThreadsOk(st) && LocksOk(st) && CrtcsOk(st) && Enabled(st, step) && step.Commit?
    ensures ThreadsOk(Apply(st, step)) && LocksOk(Apply(st, step)) && CrtcsOk(Apply(st, step))
  {
  }

  lemma TimerWorkKeepsThreads(st: State, step: Step)
    requires ThreadsOk(st) && Enabled(st, step) && step.TimerWork?
    ensures ThreadsOk(Apply(st, step))
  {
    var st' := Apply(st, step);
    forall t | 0 <= t < |st'.threads| ensures ThreadOk(st', t, st'.threads[t]) {
      if t < |st.threads| {
        assert ThreadOk(st, t, st.threads[t]);
      }
    }
  }

  lemma TimerWorkKeepsCrtcs(st: State, step: Step)
    requires ThreadsOk(st) && LocksOk(st) && CrtcsOk(st) && Enabled(st, step) && step.TimerWork?
    ensures LocksOk(Apply(st, step)) && CrtcsOk(Apply(st, step))
  {
  }

  lemma LockKeepsLocks(st: State, step: Step)
    requires ThreadsOk(st) && LocksOk(st) && Enabled(st, step) && step.LockNext?
    ensures ThreadsOk(Apply(st, step)) && LocksOk(Apply(st, step))
  {
  }

  lemma LockKeepsCrtcs(st: State, step: Step)
    requires ThreadsOk(st) && LocksOk(st) && CrtcsOk(st) && Enabled(st, step) && step.LockNext?
    ensures CrtcsOk(Apply(st, step))
  {
    var st' := Apply(st, step);
    forall k | 0 <= k < |st'.crtcs| ensures CrtcOk(st', st'.crtcs[k]) {
      assert LockOk(st, k, st.crtcs[k]) && CrtcOk(st, st.crtcs[k]);
    }
  }

  lemma UnlockKeepsLocks(st: State, step: Step)
    requires ThreadsOk(st) && LocksOk(st) && Enabled(st, step) && step.UnlockNext?
    ensures ThreadsOk(Apply(st, step)) && LocksOk(Apply(st, step))
  {
  }

  lemma UnlockKeepsCrtcs(st: State, step: Step)
    requires ThreadsOk(st) && LocksOk(st) && CrtcsOk(st) && Enabled(st, step) && step.UnlockNext?
    ensures CrtcsOk(Apply(st, step))
  {
    var st' := Apply(st, step);
    assert ThreadOk(st, step.t, st.threads[step.t]);
    forall k | 0 <= k < |st'.crtcs| ensures CrtcOk(st', st'.crtcs[k]) {
      assert LockOk(st, k, st.crtcs[k]) && CrtcOk(st, st.crtcs[k]);
    }
  }

  lemma {:induction false} CountEnabledSet(threads: seq<Thread>, t: nat, th: Thread)
    requires t < |threads|
    ensures CountEnabled(threads[t := th]) == CountEnabled(threads)
            - (if EnabledPlace(threads[t].place) then 1 else 0) + (if EnabledPlace(th.place) then 1 else 0)
  {
    var last := |threads| - 1;
    if t < last {
      CountEnabledSet(threads[..last], t, th);
      assert threads[t := th][..last] == threads[..last][t := th];
    } else {
      assert threads[t := th][..last] == threads[..last];
    }
  }

  lemma EnablesMatchPlaces(th: Thread, pending: bool)
    requires th.place != Finished
    ensures EnableDelta(th.place) ==
            (if EnabledPlace(Next(th, pending)) then 1 else 0) - (if EnabledPlace(th.place) then 1 else 0)
  {
  }

  lemma BalanceKept(st: State, step: Step)
    requires st.enables == CountEnabled(st.threads) && Enabled(st, step)
    ensures Apply(st, step).enables == CountEnabled(Apply(st, step).threads)
  {
    var threads := Apply(st, step).threads;
    if step.Commit? || step.TimerWork? {
      assert threads[..|st.threads|] == st.threads;
    } else {
      CountEnabledSet(st.threads, step.t, threads[step.t]);
      if step.Advance? {
        EnablesMatchPlaces(st.threads[step.t], AnyPending(st, st.threads[step.t].crtcs));
      }
    }
  }

  lemma InvKept(st: State, step: Step)
    requires Inv(st) && Enabled(st, step)
    ensures Inv(Apply(st, step))
  {
    BalanceKept(st, step);
    match step
    case Commit(_, _) => CommitKeeps(st, step);
    case TimerWork(_) =>
      TimerWorkKeepsThreads(st, step);
      TimerWorkKeepsCrtcs(st, step);
    case LockNext(_, _) =>
      LockKeepsLocks(st, step);
      LockKeepsCrtcs(st, step);
    case UnlockNext(_, _) =>
      UnlockKeepsLocks(st, step);
      UnlockKeepsCrtcs(st, step);
    case Advance(t) => AdvanceKeeps(st, t);
  }

  // ---------------------------------------------------------------- runs

  predicate Init(st: State) {
    && st.threads == [] && st.enables == 0
    && forall k :: 0 <= k < |st.crtcs| ==> st.crtcs[k] == Crtc(None, false, false, None, 0)
  }

  ghost predicate StepsTo(st: State, step: Step, st': State) {
    Enabled(st, step) && st' == Apply(st, step)
  }

  ghost predicate IsRun(states: seq<State>, steps: seq<Step>) {
    && |states| == |steps| + 1 && Init(states[0])
    && forall i :: 0 <= i < |steps| ==> StepsTo(states[i], steps[i], states[i + 1])
  }

  lemma {:induction false} InvAlways(states: seq<State>, steps: seq<Step>, n: nat)
    requires IsRun(states, steps) && n < |states|
    ensures Inv(states[n])
  {
    if n > 0 {
      InvAlways(states, steps, n - 1);
      assert StepsTo(states[n - 1], steps[n - 1], states[n]);
      InvKept(states[n - 1], steps[n - 1]);
    }
  }

  /** An update that was pushed but not flushed is not forgotten: its pending bit is set, or a thread
      inside the locked section will flush it or set the bit. A set bit has a timer running, work
      queued or a worker that has yet to look, or the committer is about to start the timer. */
  lemma NoUpdateIsForgotten(states: seq<State>, steps: seq<Step>, n: nat, k: nat)
    requires IsRun(states, steps) && n < |states| && k < |states[n].crtcs|
    ensures var st := states[n];
            var c := st.crtcs[k];
            && (c.unflushed > 0 ==> c.pending || InSection(st, c))
            && (c.pending ==> c.timer || WorkAhead(st, c) || HeldAt(st, c, QueueingTimer))
  {
    InvAlways(states, steps, n);
    assert CrtcOk(states[n], states[n].crtcs[k]);
  }

  predicate Flushes(place: Place) {
    place == MaskCleared || place == WorkEnabled
  }

  /** The step pushes an update of CRTC `k` to the hardware. */
  predicate PushesTo(st: State, step: Step, k: nat) {
    step.Advance? && step.t < |st.threads| && st.threads[step.t].place == Locking && k in st.threads[step.t].crtcs
  }

  predicate FlushesTo(st: State, step: Step, k: nat) {
    step.Advance? && step.t < |st.threads| && Flushes(st.threads[step.t].place) && k in st.threads[step.t].crtcs
  }

  /** How many of the first `n` steps push to CRTC `k`, counted from its last flush among them. */
  function PushesSinceFlush(states: seq<State>, steps: seq<Step>, k: nat, n: nat): nat
    requires n <= |states| && n <= |steps|
  {
    if n == 0 || FlushesTo(states[n - 1], steps[n - 1], k) then 0
    else PushesSinceFlush(states, steps, k, n - 1) + if PushesTo(states[n - 1], steps[n - 1], k) then 1 else 0
  }

  lemma UnflushedAfter(st: State, step: Step, k: nat)
    requires Enabled(st, step) && k < |st.crtcs|
    ensures k < |Apply(st, step).crtcs|
    ensures Apply(st, step).crtcs[k].unflushed ==
            if FlushesTo(st, step, k) then 0 else st.crtcs[k].unflushed + if PushesTo(st, step, k) then 1 else 0
  {
  }

  lemma {:induction false} UnflushedIsPushedSince(states: seq<State>, steps: seq<Step>, n: nat, k: nat)
    requires IsRun(states, steps) && n < |states| && k < |states[0].crtcs|
    ensures k < |states[n].crtcs| && states[n].crtcs[k].unflushed == PushesSinceFlush(states, steps, k, n)
  {
    if n > 0 {
      UnflushedIsPushedSince(states, steps, n - 1, k);
      assert StepsTo(states[n - 1], steps[n - 1], states[n]);
      UnflushedAfter(states[n - 1], steps[n - 1], k);
    }
  }

  lemma {:induction false} PushIsCounted(states: seq<State>, steps: seq<Step>, i: nat, n: nat, k: nat)
    requires i < n <= |steps| && n <= |states| && PushesTo(states[i], steps[i], k)
    requires forall j :: i < j < n ==> !FlushesTo(states[j], steps[j], k)
    ensures PushesSinceFlush(states, steps, k, n) > 0
  {
    if i < n - 1 {
      PushIsCounted(states, steps, i, n - 1, k);
    }
  }

  lemma {:induction false} SameCrtcs(states: seq<State>, steps: seq<Step>, n: nat)
    requires IsRun(states, steps) && n < |states|
    ensures |states[n].crtcs| == |states[0].crtcs|
  {
    if n > 0 {
      SameCrtcs(states, steps, n - 1);
      assert StepsTo(states[n - 1], steps[n - 1], states[n]);
    }
  }

  /** Whatever was pushed to a CRTC is flushed later, or its pending bit is set, or a thread inside the
      locked section will flush it or set the bit. */
  lemma PushedIsFlushedOrPending(states: seq<State>, steps: seq<Step>, i: nat, n: nat, k: nat)
    requires IsRun(states, steps) && i < n < |states| && k < |states[0].crtcs| && PushesTo(states[i], steps[i], k)
    ensures |states[n].crtcs| == |states[0].crtcs|
    ensures || (exists j :: i < j < n && FlushesTo(states[j], steps[j], k))
            || states[n].crtcs[k].pending || InSection(states[n], states[n].crtcs[k])
  {
    SameCrtcs(states, steps, n);
    if forall j :: i < j < n ==> !FlushesTo(states[j], steps[j], k) {
      PushIsCounted(states, steps, i, n, k);
      UnflushedIsPushedSince(states, steps, n, k);
      NoUpdateIsForgotten(states, steps, n, k);
    }
  }

  /** A flush covers exactly the updates of its CRTCs that were pushed since the flush before it, and
      their pending bits. The flushing thread has their locks, so nobody else is about to push one. */
  lemma FlushCoversAll(states: seq<State>, steps: seq<Step>, n: nat, k: nat)
    requires IsRun(states, steps) && n < |steps| && FlushesTo(states[n], steps[n], k)
    ensures k < |states[n].crtcs| == |states[n + 1].crtcs|
    ensures states[n].crtcs[k].unflushed == PushesSinceFlush(states, steps, k, n)
    ensures states[n + 1].crtcs[k].unflushed == 0 && !states[n + 1].crtcs[k].pending
    ensures states[n].crtcs[k].lock == Some(steps[n].t)
    ensures forall u :: 0 <= u < |states[n].threads| && PushesTo(states[n], Advance(u), k) ==>
              !Ready(states[n].threads[u])
  {
    InvAlways(states, steps, n);
    SameCrtcs(states, steps, n);
    assert StepsTo(states[n], steps[n], states[n + 1]);
    FlushEmpties(states[n], steps[n].t, k);
    UnflushedIsPushedSince(states, steps, n, k);
    forall u | 0 <= u < |states[n].threads| && PushesTo(states[n], Advance(u), k)
      ensures !Ready(states[n].threads[u])
    {
      assert ThreadOk(states[n], u, states[n].threads[u]);
      assert Ready(states[n].threads[u]) ==> states[n].threads[u].Holds(k);
    }
  }

  lemma FlushEmpties(st: State, t: nat, k: nat)
    requires ThreadsOk(st) && Enabled(st, Advance(t)) && Flushes(st.threads[t].place) && k in st.threads[t].crtcs
    ensures k < |st.crtcs| && st.crtcs[k].lock == Some(t)
    ensures Apply(st, Advance(t)).crtcs[k].unflushed == 0 && !Apply(st, Advance(t)).crtcs[k].pending
  {
    assert ThreadOk(st, t, st.threads[t]) && st.threads[t].Holds(k);
  }

  /** enable_commit and disable_commit balance: the nesting is the number of threads between them. */
  lemma EnablesBalance(states: seq<State>, steps: seq<Step>, n: nat)
    requires IsRun(states, steps) && n < |states|
    ensures states[n].enables == CountEnabled(states[n].threads)
    ensures (forall t :: 0 <= t < |states[n].threads| ==> states[n].threads[t].place == Finished) ==>
              states[n].enables == 0
  {
    InvAlways(states, steps, n);
    if forall t :: 0 <= t < |states[n].threads| ==> states[n].threads[t].place == Finished {
      NoneEnabled(states[n].threads);
    }
  }

  lemma {:induction false} NoneEnabled(threads: seq<Thread>)
    requires forall t :: 0 <= t < |threads| ==> threads[t].place == Finished
    ensures CountEnabled(threads) == 0
  {
    if threads != [] {
      NoneEnabled(threads[..|threads| - 1]);
    }
  }

  // ---------------------------------------------------------------- no deadlock

  /** The thread waits for a lock that somebody has. */
  predicate Blocked(st: State, t: nat, k: nat) {
    t < |st.threads| && k < |st.crtcs| && Wants(st.threads[t], k) && st.crtcs[k].lock.Some?
  }

  /** A chain of waiting threads goes up: whoever has the lock waits, if at all, for a higher one. */
  lemma WaitsUpwards(st: State, t: nat, k: nat, m: nat)
    requires Inv(st) && Blocked(st, t, k) && Blocked(st, st.crtcs[k].lock.value, m)
    ensures k < m
  {
    assert LockOk(st, k, st.crtcs[k]);
  }

  /** If a thread is blocked then some thread that has a lock is not. */
  lemma {:induction false} SomeHolderRuns(st: State, t: nat, k: nat) returns (u: nat)
    requires Inv(st) && Blocked(st, t, k)
    ensures u < |st.threads| && st.threads[u].place != Finished && forall m: nat :: !Blocked(st, u, m)
    decreases |st.crtcs| - k
  {
    assert LockOk(st, k, st.crtcs[k]);
    u := st.crtcs[k].lock.value;
    assert ThreadOk(st, u, st.threads[u]);
    if m: nat :| Blocked(st, u, m) {
      WaitsUpwards(st, t, k, m);
      u := SomeHolderRuns(st, u, m);
    }
  }

  lemma {:induction false} LeastFrom(s: set<nat>, pos: nat, some: nat) returns (k: nat)
    requires some in s && some >= pos
    ensures k in s && k >= pos && forall m :: m in s && m >= pos ==> k <= m
    decreases some - pos
  {
    if m :| m in s && pos <= m < some {
      k := LeastFrom(s, pos, m);
    } else {
      k := some;
    }
  }

  lemma {:induction false} GreatestBelow(s: set<nat>, pos: nat, some: nat) returns (k: nat)
    requires some in s && some < pos
    ensures k in s && k < pos && forall m :: m in s && m < pos ==> m <= k
    decreases pos - some
  {
    if m :| m in s && some < m < pos {
      k := GreatestBelow(s, pos, m);
    } else {
      k := some;
    }
  }

  /** A thread that is neither finished nor blocked has a step. */
  lemma UnblockedCanMove(st: State, u: nat) returns (step: Step)
    requires Inv(st) && u < |st.threads| && st.threads[u].place != Finished
    requires forall m: nat :: !Blocked(st, u, m)
    ensures Enabled(st, step) && (step.LockNext? || step.UnlockNext? || step.Advance?) && step.t == u
  {
    var th := st.threads[u];
    assert ThreadOk(st, u, th);
    if TakesLocks(th.place) && !th.HoldsAll() {
      var some :| some in th.crtcs && some >= th.pos;
      var k := LeastFrom(th.crtcs, th.pos, some);
      assert Wants(th, k) && !Blocked(st, u, k);
      step := LockNext(u, k);
    } else if GivesLocks(th.place) && !HoldsNone(th) {
      var some :| some in th.crtcs && some < th.pos;
      var k := GreatestBelow(th.crtcs, th.pos, some);
      assert GivesBack(th, k);
      step := UnlockNext(u, k);
    } else {
      step := Advance(u);
    }
  }

  /** Ascending lock order rules out deadlock: whenever a thread is blocked, some thread has a step. */
  lemma NoDeadlock(states: seq<State>, steps: seq<Step>, n: nat, t: nat, k: nat) returns (step: Step)
    requires IsRun(states, steps) && n < |states| && Blocked(states[n], t, k)
    ensures Enabled(states[n], step) && (step.LockNext? || step.UnlockNext? || step.Advance?)
  {
    InvAlways(states, steps, n);
    var u := SomeHolderRuns(states[n], t, k);
    step := UnblockedCanMove(states[n], u);
  }

  // ---------------------------------------------------------------- deciding to be asynchronous

  /** A CRTC in the state that a commit installs. */
  datatype CrtcState = CrtcState(crtc: nat, needsModeset: bool)

  /** can_do_async. The answer is yes also for a commit without any CRTC, and then no CRTC is named. */
  method CanDoAsync(wanted: bool, connectors: nat, crtcs: seq<CrtcState>) returns (ok: bool, crtc: Option<nat>)
    ensures ok <==> wanted && connectors == 0 && |crtcs| <= 1 && forall i :: 0 <= i < |crtcs| ==> !crtcs[i].needsModeset
    ensures ok && crtcs != [] ==> crtc == Some(crtcs[0].crtc)
    ensures ok && crtcs == [] ==> crtc == None
  {
    crtc := None;
    if !wanted || connectors > 0 {
      return false, crtc;
    }
    var i := 0;
    while i < |crtcs|
      invariant 0 <= i <= |crtcs| && i <= 1
      invariant forall k :: 0 <= k < i ==> !crtcs[k].needsModeset
      invariant crtc == if i == 0 then None else Some(crtcs[0].crtc)
    {
      if crtcs[i].needsModeset {
        return false, crtc;
      }
      if i + 1 > 1 {
        return false, crtc;
      }
      crtc := Some(crtcs[i].crtc);
      i := i + 1;
    }
    return true, crtc;
  }
}
