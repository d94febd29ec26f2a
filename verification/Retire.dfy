/**
 Retiring submits and recovering from a hang: msm/msm_gpu.c.

 Fence numbers are unbounded; module `Fence` relates them to the 32-bit ones.
 */
module Retire {
  import Fence

  /** A ring's list of submits, by fence number, and its fence state. `pending` says that its
      scheduler thread has allocated the last fence but not yet called msm_gpu_submit. `queue` is
      what the hardware still has to execute. The other three fields are history: what was retired,
      what the hardware finished, and what a recovery gave up. */
  datatype Ring = Ring(
    submits: seq<nat>, last: nat, pending: bool, completed: nat, memptr: nat, queue: seq<nat>,
    retired: seq<nat>, finished: set<nat>, givenUp: set<nat>)
  {
    /** The last fence that was given to the hardware. */
    function Submitted(): int {
      if pending then last - 1 else last
    }

    /** Every fence up to here looks signaled. */
    function Done(): nat {
      if completed > memptr then completed else memptr
    }
  }

  // ---------------------------------------------------------------- ranges

  /** from, from + 1, ..., to. */
  function Range(from: nat, to: int): seq<nat>
    decreases if from > to then 0 else to + 1 - from
  {
    if from > to then [] else [from] + Range(from + 1, to)
  }

  lemma {:induction false} RangeAt(from: nat, to: int, i: nat)
    requires i < |Range(from, to)|
    ensures Range(from, to)[i] == from + i
    decreases i
  {
    if i > 0 {
      RangeAt(from + 1, to, i - 1);
    }
  }

  lemma {:induction false} RangeLength(from: nat, to: int)
    ensures |Range(from, to)| == (if from > to then 0 else to - from + 1)
    decreases if from > to then 0 else to + 1 - from
  {
    if from <= to {
      RangeLength(from + 1, to);
    }
  }

  lemma {:induction false} RangeJoin(from: nat, mid: int, to: int)
    requires from - 1 <= mid <= to
    ensures Range(from, mid) + Range(mid + 1, to) == Range(from, to)
    decreases if from > mid then 0 else mid + 1 - from
  {
    if from <= mid {
      RangeJoin(from + 1, mid, to);
      var rest, tail := Range(from + 1, mid), Range(mid + 1, to);
      assert ([from] + rest) + tail == [from] + (rest + tail);
    }
  }

  // ---------------------------------------------------------------- retiring

  function SignaledPrefix(submits: seq<nat>, done: nat): seq<nat> {
    if submits == [] || submits[0] > done then [] else [submits[0]] + SignaledPrefix(submits[1..], done)
  }

  function Unsignaled(submits: seq<nat>, done: nat): seq<nat> {
    if submits == [] || submits[0] > done then submits else Unsignaled(submits[1..], done)
  }

  /** What retire_submits makes of a ring. */
  function RetireDone(ring: Ring): Ring {
    ring.(submits := Unsignaled(ring.submits, ring.Done()),
          retired := ring.retired + SignaledPrefix(ring.submits, ring.Done()))
  }

  lemma {:induction false} SplitAtDone(from: nat, to: int, done: nat)
    requires from - 1 <= done
    ensures SignaledPrefix(Range(from, to), done) == Range(from, if done <= to then done else to)
    ensures Unsignaled(Range(from, to), done) == Range(done + 1, to)
    decreases if from > to then 0 else to + 1 - from
  {
    if from <= to && from <= done {
      assert Range(from, to)[1..] == Range(from + 1, to);
      SplitAtDone(from + 1, to, done);
    }
  }

  // ---------------------------------------------------------------- steps

  datatype Step =
    | AllocFence(r: nat)
    | Submit(r: nat)
    | HwFinish(r: nat)
    | Irq
    | RetireWorker
    | Recover(cur: nat)

  function Update(ring: Ring): Ring {
    ring.(completed := if ring.memptr > ring.completed then ring.memptr else ring.completed)
  }

  /** The hardware finishes what it has first and writes its fence. */
  function Finish(ring: Ring): Ring
    requires ring.queue != []
  {
    ring.(memptr := ring.queue[0], queue := ring.queue[1..], finished := ring.finished + {ring.queue[0]})
  }

  /** The fence part of recover_worker: on the current ring the fence goes one further. */
  function Advance(ring: Ring, current: bool): Ring {
    if !current then Update(ring)
    else
      var fence := ring.memptr + 1;
      Update(ring.(memptr := fence, givenUp := if fence in ring.submits then ring.givenUp + {fence} else ring.givenUp))
  }

  /** gpu->funcs->recover with its hw_init, then the remaining submits once more. */
  function ResetAndReplay(ring: Ring): Ring {
    ring.(memptr := if ring.last < ring.memptr then ring.last else ring.memptr, queue := ring.submits)
  }

  predicate Active(rings: seq<Ring>) {
    exists i :: 0 <= i < |rings| && rings[i].last > rings[i].memptr
  }

  function UpdateAll(rings: seq<Ring>): (r: seq<Ring>)
    ensures |r| == |rings| && forall i :: 0 <= i < |r| ==> r[i] == Update(rings[i])
  {
    seq(|rings|, i requires 0 <= i < |rings| => Update(rings[i]))
  }

  function RetireAll(rings: seq<Ring>): (r: seq<Ring>)
    ensures |r| == |rings| && forall i :: 0 <= i < |r| ==> r[i] == RetireDone(rings[i])
  {
    seq(|rings|, i requires 0 <= i < |rings| => RetireDone(rings[i]))
  }

  function AdvanceAll(rings: seq<Ring>, cur: nat): (r: seq<Ring>)
    ensures |r| == |rings| && forall i :: 0 <= i < |r| ==> r[i] == Advance(rings[i], i == cur)
  {
    seq(|rings|, i requires 0 <= i < |rings| => Advance(rings[i], i == cur))
  }

  function ReplayAll(rings: seq<Ring>): (r: seq<Ring>)
    ensures |r| == |rings| && forall i :: 0 <= i < |r| ==> r[i] == ResetAndReplay(rings[i])
  {
    seq(|rings|, i requires 0 <= i < |rings| => ResetAndReplay(rings[i]))
  }

  /** recover_worker, up to the retire work that it queues. */
  function Recovered(rings: seq<Ring>, cur: nat): seq<Ring> {
    var advanced := AdvanceAll(rings, cur);
    UpdateAll(if Active(advanced) then ReplayAll(RetireAll(advanced)) else advanced)
  }

  predicate Enabled(rings: seq<Ring>, step: Step) {
    match step
    case AllocFence(r) => r < |rings| && !rings[r].pending
    case Submit(r) => r < |rings| && rings[r].pending
    case HwFinish(r) => r < |rings| && rings[r].queue != []
    case Irq => true
    case RetireWorker => true
    case Recover(cur) => cur < |rings|
  }

  function Apply(rings: seq<Ring>, step: Step): seq<Ring>
    requires Enabled(rings, step)
  {
    match step
    case AllocFence(r) => rings[r := rings[r].(last := rings[r].last + 1, pending := true)]
    case Submit(r) =>
      var ring := rings[r];
      rings[r := ring.(pending := false, submits := ring.submits + [ring.last], queue := ring.queue + [ring.last])]
    case HwFinish(r) => rings[r := Finish(rings[r])]
    case Irq => UpdateAll(rings)
    case RetireWorker => RetireAll(rings)
    case Recover(cur) => Recovered(rings, cur)
  }

  // ---------------------------------------------------------------- invariant

  /** The hardware's queue starts behind `q`. A hang that was given up without a reset, or a replay,
      can leave memptr elsewhere, but then the CPU has been told. */
  predicate QueueFrom(ring: Ring, q: nat) {
    && q <= ring.Done() && ring.queue == Range(q + 1, ring.Submitted())
    && (q == ring.memptr || ring.memptr <= ring.completed)
  }

  /** Retired and listed submits together are all that were given to the hardware, each once and in
      order; none is retired before it looks signaled; and what looks signaled was finished by the
      hardware or given up by a recovery. */
  ghost predicate RingOk(ring: Ring) {
    && (ring.pending ==> ring.last > 0)
    && ring.Done() <= ring.Submitted()
    && |ring.retired| <= ring.Done()
    && ring.retired == Range(1, |ring.retired|)
    && ring.submits == Range(|ring.retired| + 1, ring.Submitted())
    && (exists q: nat :: QueueFrom(ring, q))
    && forall s: nat :: 1 <= s <= ring.Done() ==> s in ring.finished || s in ring.givenUp
  }

  ghost predicate Inv(rings: seq<Ring>) {
    forall r :: 0 <= r < |rings| ==> RingOk(rings[r])
  }

  /** The current ring was given something that it has not been seen to finish. */
  predicate SomethingHangs(rings: seq<Ring>, cur: nat) {
    cur < |rings| && rings[cur].memptr < rings[cur].Submitted()
  }

  lemma AllocKeeps(ring: Ring)
    requires RingOk(ring) && !ring.pending
    ensures RingOk(ring.(last := ring.last + 1, pending := true))
  {
    var q: nat :| QueueFrom(ring, q);
    assert QueueFrom(ring.(last := ring.last + 1, pending := true), q);
  }

  lemma SubmitKeeps(ring: Ring)
    requires RingOk(ring) && ring.pending
    ensures RingOk(ring.(pending := false, submits := ring.submits + [ring.last], queue := ring.queue + [ring.last]))
  {
    var n := ring.last;
    var ring' := ring.(pending := false, submits := ring.submits + [n], queue := ring.queue + [n]);
    var q: nat :| QueueFrom(ring, q);
    RangeJoin(q + 1, n - 1, n);
    RangeJoin(|ring.retired| + 1, n - 1, n);
    assert Range(n, n) == [n];
    assert QueueFrom(ring', q);
  }

  lemma FinishKeeps(ring: Ring)
    requires RingOk(ring) && ring.queue != []
    ensures RingOk(Finish(ring))
  {
    var q: nat :| QueueFrom(ring, q);
    var ring' := Finish(ring);
    assert ring.queue[0] == q + 1 && ring'.queue == Range(q + 2, ring.Submitted());
    assert QueueFrom(ring', q + 1);
  }

  lemma UpdateKeeps(ring: Ring)
    requires RingOk(ring)
    ensures RingOk(Update(ring)) && Update(ring).Done() == ring.Done() == Update(ring).completed
  {
    var q: nat :| QueueFrom(ring, q);
    assert QueueFrom(Update(ring), q);
  }

  lemma {:induction false} InRange(from: nat, to: int, n: nat)
    requires from <= n <= to
    ensures n in Range(from, to)
    decreases n - from
  {
    if from < n {
      InRange(from + 1, to, n);
    }
  }

  lemma AdvanceKeeps(ring: Ring)
    requires RingOk(ring) && ring.memptr < ring.Submitted()
    ensures RingOk(Advance(ring, true))
    ensures Advance(ring, true).completed == Advance(ring, true).Done()
    ensures Advance(ring, true).Done() == (if ring.completed > ring.memptr then ring.completed else ring.memptr + 1)
  {
    var ring' := Advance(ring, true);
    var fence := ring.memptr + 1;
    if fence > |ring.retired| {
      InRange(|ring.retired| + 1, ring.Submitted(), fence);
    }
    var q: nat :| QueueFrom(ring, q);
    assert QueueFrom(ring', q);
  }

  lemma RetireSplits(submits: seq<nat>, retired: seq<nat>, done: nat, submitted: int)
    requires |retired| <= done <= submitted && retired == Range(1, |retired|)
    requires submits == Range(|retired| + 1, submitted)
    ensures retired + SignaledPrefix(submits, done) == Range(1, done) && |Range(1, done)| == done
    ensures Unsignaled(submits, done) == Range(done + 1, submitted)
  {
    SplitAtDone(|retired| + 1, submitted, done);
    RangeJoin(1, |retired|, done);
    RangeLength(1, done);
  }

  lemma RetireKeeps(ring: Ring)
    requires RingOk(ring)
    ensures RingOk(RetireDone(ring)) && RetireDone(ring).retired == Range(1, ring.Done())
    ensures RetireDone(ring).submits == Range(ring.Done() + 1, ring.Submitted())
  {
    RetireSplits(ring.submits, ring.retired, ring.Done(), ring.Submitted());
    var q: nat :| QueueFrom(ring, q);
    assert QueueFrom(RetireDone(ring), q);
  }

  lemma ReplayKeeps(ring: Ring)
    requires RingOk(ring) && ring.completed == ring.Done()
    ensures RingOk(ResetAndReplay(RetireDone(ring)))
  {
    RetireKeeps(ring);
    assert QueueFrom(ResetAndReplay(RetireDone(ring)), ring.Done());
  }

  lemma RecoverKeepsRing(ring: Ring, current: bool)
    requires RingOk(ring) && (current ==> ring.memptr < ring.Submitted())
    ensures RingOk(Advance(ring, current)) && RingOk(Update(Advance(ring, current)))
    ensures RingOk(Update(ResetAndReplay(RetireDone(Advance(ring, current)))))
  {
    if current {
      AdvanceKeeps(ring);
    } else {
      UpdateKeeps(ring);
    }
    var advanced := Advance(ring, current);
    UpdateKeeps(advanced);
    ReplayKeeps(advanced);
    UpdateKeeps(ResetAndReplay(RetireDone(advanced)));
  }

  lemma RecoverKeeps(rings: seq<Ring>, cur: nat)
    requires Inv(rings) && SomethingHangs(rings, cur)
    ensures Inv(Recovered(rings, cur))
  {
    forall r | 0 <= r < |rings| ensures RingOk(Recovered(rings, cur)[r]) {
      RecoverKeepsRing(rings[r], r == cur);
    }
  }

  lemma InvKept(rings: seq<Ring>, step: Step)
    requires Inv(rings) && Enabled(rings, step) && (step.Recover? ==> SomethingHangs(rings, step.cur))
    ensures Inv(Apply(rings, step))
  {
    match step
    case AllocFence(r) => AllocKeeps(rings[r]);
    case Submit(r) => SubmitKeeps(rings[r]);
    case HwFinish(r) => FinishKeeps(rings[r]);
    case Irq =>
      forall r | 0 <= r < |rings| ensures RingOk(Update(rings[r])) {
        UpdateKeeps(rings[r]);
      }
    case RetireWorker =>
      forall r | 0 <= r < |rings| ensures RingOk(RetireDone(rings[r])) {
        RetireKeeps(rings[r]);
      }
    case Recover(cur) => RecoverKeeps(rings, cur);
  }

  // ---------------------------------------------------------------- runs

  function IdleRing(): Ring {
    Ring([], 0, false, 0, 0, [], [], {}, {})
  }

  lemma IdleIsOk()
    ensures RingOk(IdleRing())
  {
    assert QueueFrom(IdleRing(), 0);
  }

  ghost predicate IsRun(states: seq<seq<Ring>>, steps: seq<Step>) {
    && |states| == |steps| + 1
    && (forall r :: 0 <= r < |states[0]| ==> states[0][r] == IdleRing())
    && forall i :: 0 <= i < |steps| ==> StepsTo(states[i], steps[i], states[i + 1])
  }

  predicate StepsTo(rings: seq<Ring>, step: Step, rings': seq<Ring>) {
    Enabled(rings, step) && rings' == Apply(rings, step)
  }

  predicate RecoversFromHang(rings: seq<Ring>, step: Step) {
    step.Recover? ==> SomethingHangs(rings, step.cur)
  }

  /** A run in which every recovery has something to recover from. */
  ghost predicate HonestRun(states: seq<seq<Ring>>, steps: seq<Step>) {
    IsRun(states, steps) && forall i :: 0 <= i < |steps| ==> RecoversFromHang(states[i], steps[i])
  }

  lemma {:induction false} InvAlways(states: seq<seq<Ring>>, steps: seq<Step>, n: nat)
    requires HonestRun(states, steps) && n < |states|
    ensures Inv(states[n])
  {
    if n == 0 {
      IdleIsOk();
    } else {
      InvAlways(states, steps, n - 1);
      InvStep(states[n - 1], steps[n - 1], states[n]);
    }
  }

  lemma InvStep(rings: seq<Ring>, step: Step, rings': seq<Ring>)
    requires Inv(rings) && StepsTo(rings, step, rings') && RecoversFromHang(rings, step)
    ensures Inv(rings')
  {
    InvKept(rings, step);
  }

  /** Submits of a ring retire exactly once and in order of their fences, and only those that the
      hardware finished or that hung; the others are still listed, in order. */
  lemma RetiredInOrderOnceFinished(states: seq<seq<Ring>>, steps: seq<Step>, n: nat, r: nat)
    requires HonestRun(states, steps) && n < |states| && r < |states[n]|
    ensures var ring := states[n][r];
            && ring.retired + ring.submits == Range(1, ring.Submitted())
            && (forall i :: 0 <= i < |ring.retired| ==>
                  ring.retired[i] == i + 1 && (i + 1 in ring.finished || i + 1 in ring.givenUp))
  {
    InvAlways(states, steps, n);
    var ring := states[n][r];
    RangeJoin(1, |ring.retired|, ring.Submitted());
    forall i | 0 <= i < |ring.retired| ensures ring.retired[i] == i + 1 {
      RangeAt(1, |ring.retired|, i);
    }
  }

  // ---------------------------------------------------------------- recovery

  /** The last fence that looks signaled after a recovery. */
  function DoneAfterRecovery(ring: Ring, current: bool): nat {
    if current && ring.completed <= ring.memptr then ring.memptr + 1 else ring.Done()
  }

  /** What recover_worker makes of one ring. */
  function RecoveredRing(ring: Ring, current: bool, reset: bool): Ring {
    Update(if reset then ResetAndReplay(RetireDone(Advance(ring, current))) else Advance(ring, current))
  }

  lemma RecoveredAt(rings: seq<Ring>, cur: nat, r: nat)
    requires r < |rings|
    ensures Recovered(rings, cur)[r] == RecoveredRing(rings[r], r == cur, Active(AdvanceAll(rings, cur)))
  {
  }

  lemma FencesAfterRecovery(ring: Ring, current: bool, reset: bool)
    requires RingOk(ring) && (current ==> ring.memptr < ring.Submitted())
    ensures var after := RecoveredRing(ring, current, reset);
            && RingOk(after) && after.Submitted() == ring.Submitted()
            && after.Done() == DoneAfterRecovery(ring, current) && after.givenUp == Advance(ring, current).givenUp
  {
    RecoverKeepsRing(ring, current);
    if current {
      AdvanceKeeps(ring);
    } else {
      UpdateKeeps(ring);
    }
  }

  /** A recovery, with the retire work that it queues, retires what looked signaled. It retires one
      submit more, the one that hung, exactly on the current ring if completed_fence is not ahead of
      memptrs->fence there. */
  lemma RecoveryRetiresOneMore(rings: seq<Ring>, cur: nat, r: nat)
    requires Inv(rings) && SomethingHangs(rings, cur) && r < |rings|
    ensures var after, more := RetireAll(Recovered(rings, cur))[r], r == cur && rings[r].completed <= rings[r].memptr;
            && after.retired == RetireDone(rings[r]).retired + (if more then [rings[r].memptr + 1] else [])
            && after.retired + after.submits == rings[r].retired + rings[r].submits
            && (more ==> rings[r].memptr + 1 in after.givenUp)
  {
    assert RingOk(rings[r]);
    RecoveredAt(rings, cur, r);
    RetiresOneMore(rings[r], r == cur, Active(AdvanceAll(rings, cur)));
  }

  lemma RetiresOneMore(ring: Ring, current: bool, reset: bool)
    requires RingOk(ring) && (current ==> ring.memptr < ring.Submitted())
    ensures var after := RetireDone(RecoveredRing(ring, current, reset));
            var more := current && ring.completed <= ring.memptr;
            && after.retired == RetireDone(ring).retired + (if more then [ring.memptr + 1] else [])
            && after.retired + after.submits == ring.retired + ring.submits
            && (more ==> ring.memptr + 1 in after.givenUp)
  {
    FencesAfterRecovery(ring, current, reset);
    RetiresUpTo(ring, RecoveredRing(ring, current, reset));
    if current && ring.completed <= ring.memptr {
      HungIsGivenUp(ring);
    }
  }

  lemma RetiresUpTo(ring: Ring, after: Ring)
    requires RingOk(ring) && RingOk(after) && after.Submitted() == ring.Submitted()
    requires ring.Done() <= after.Done() <= ring.Done() + 1
    ensures RetireDone(after).retired
         == RetireDone(ring).retired + (if after.Done() == ring.Done() then [] else [ring.Done() + 1])
    ensures RetireDone(after).retired + RetireDone(after).submits == ring.retired + ring.submits
  {
    RetiredByNow(ring);
    RetiredByNow(after);
    RangeSnoc(ring.Done());
  }

  /** A submit is all there is on the only ring, and hangs. */
  lemma LoneHang(ring: Ring) returns (a: Ring, b: Ring, c: Ring)
    requires !ring.pending && ring.completed <= ring.memptr == ring.last
    ensures StepsTo([ring], AllocFence(0), [a]) && StepsTo([a], Submit(0), [b]) && StepsTo([b], Recover(0), [c])
    ensures SomethingHangs([b], 0)
    ensures var n := ring.last + 1;
            c == ring.(last := n, memptr := n, completed := n, submits := ring.submits + [n], queue := ring.queue + [n],
                       givenUp := ring.givenUp + {n})
  {
    var n := ring.last + 1;
    a := ring.(last := n, pending := true);
    b := ring.(last := n, submits := ring.submits + [n], queue := ring.queue + [n]);
    c := b.(memptr := n, completed := n, givenUp := ring.givenUp + {n});
    assert !Active(AdvanceAll([b], 0)) && Recovered([b], 0) == [c];
  }

  lemma HonestThen(states: seq<seq<Ring>>, steps: seq<Step>, step: Step, rings: seq<Ring>)
    requires HonestRun(states, steps) && StepsTo(states[|steps|], step, rings)
    requires RecoversFromHang(states[|steps|], step)
    ensures HonestRun(states + [rings], steps + [step]) && (states + [rings])[|steps| + 1] == rings
  {
    var states', steps' := states + [rings], steps + [step];
    forall i | 0 <= i < |steps'|
      ensures StepsTo(states'[i], steps'[i], states'[i + 1]) && RecoversFromHang(states'[i], steps'[i])
    {
      if i < |steps| {
        assert StepsTo(states[i], steps[i], states[i + 1]) && RecoversFromHang(states[i], steps[i]);
      }
    }
  }

  lemma ThenLoneHang(states: seq<seq<Ring>>, steps: seq<Step>, ring: Ring)
      returns (states': seq<seq<Ring>>, steps': seq<Step>, c: Ring)
    requires HonestRun(states, steps) && states[|steps|] == [ring]
    requires !ring.pending && ring.completed <= ring.memptr == ring.last
    ensures HonestRun(states', steps') && states'[|steps'|] == [c]
    ensures steps' == steps + [AllocFence(0), Submit(0), Recover(0)]
    ensures var n := ring.last + 1;
            c == ring.(last := n, memptr := n, completed := n, submits := ring.submits + [n], queue := ring.queue + [n],
                       givenUp := ring.givenUp + {n})
  {
    var a, b;
    a, b, c := LoneHang(ring);
    HonestThen(states, steps, AllocFence(0), [a]);
    HonestThen(states + [[a]], steps + [AllocFence(0)], Submit(0), [b]);
    HonestThen(states + [[a]] + [[b]], steps + [AllocFence(0)] + [Submit(0)], Recover(0), [c]);
    states', steps' := states + [[a]] + [[b]] + [[c]], steps + [AllocFence(0)] + [Submit(0)] + [Recover(0)];
  }

  /** A lone hang is given up without a reset, then a second one; the first finishes late and takes
      memptrs->fence back. Submit 2 has not finished, but the recovery from it gives up nothing. */
  lemma LateFinishHidesAHang() returns (states: seq<seq<Ring>>, steps: seq<Step>, ring: Ring)
    ensures HonestRun(states, steps) && states[|steps|] == [ring] && SomethingHangs([ring], 0)
    ensures ring.completed == 2 && ring.memptr == 1 && ring.queue == [2]
    ensures RetireAll(Recovered([ring], 0))[0].retired == RetireDone(ring).retired == [1, 2]
  {
    states, steps, ring := ThenLoneHang([[IdleRing()]], [], IdleRing());
    states, steps, ring := ThenLoneHang(states, steps, ring);
    HonestThen(states, steps, HwFinish(0), [Finish(ring)]);
    states, steps, ring := states + [[Finish(ring)]], steps + [HwFinish(0)], Finish(ring);
    NothingMoreToRetire(ring);
  }

  lemma NothingMoreToRetire(ring: Ring)
    requires ring.retired == [] && ring.submits == [1, 2] && ring.Submitted() == 2 && ring.completed == 2
    requires ring.memptr == 1 && ring.queue == [2] && ring.finished == {1} && ring.givenUp == {1, 2}
    ensures RetireAll(Recovered([ring], 0))[0].retired == RetireDone(ring).retired == [1, 2]
  {
    assert Range(1, 2) == [1] + ([2] + Range(3, 2)) && Range(2, 2) == [2] + Range(3, 2);
    assert QueueFrom(ring, 1);
    RetiresOneMore(ring, true, Active(AdvanceAll([ring], 0)));
    RetiredByNow(ring);
  }

  /** What is retired and what is listed, once the signaled ones are retired. */
  lemma RetiredByNow(ring: Ring)
    requires RingOk(ring)
    ensures RetireDone(ring).retired == Range(1, ring.Done())
    ensures ring.retired + ring.submits == Range(1, ring.Submitted())
    ensures RetireDone(ring).retired + RetireDone(ring).submits == Range(1, ring.Submitted())
  {
    RetireKeeps(ring);
    RangeJoin(1, ring.Done(), ring.Submitted());
    RangeJoin(1, |ring.retired|, ring.Submitted());
  }

  lemma RangeSnoc(n: nat)
    ensures Range(1, n + 1) == Range(1, n) + [n + 1]
  {
    RangeJoin(1, n, n + 1);
    assert Range(n + 1, n + 1) == [n + 1];
  }

  lemma HungIsGivenUp(ring: Ring)
    requires RingOk(ring) && ring.completed <= ring.memptr < ring.Submitted()
    ensures Advance(ring, true).Done() == ring.memptr + 1 && ring.memptr + 1 in Advance(ring, true).givenUp
  {
    InRange(|ring.retired| + 1, ring.Submitted(), ring.memptr + 1);
  }

  /** Some ring was allocated a fence that memptrs->fence has not reached, on the current ring not even
      by going one further. */
  predicate LeftBehind(rings: seq<Ring>, cur: nat) {
    exists i :: 0 <= i < |rings| && rings[i].last > rings[i].memptr + if i == cur then 1 else 0
  }

  lemma ResetIffLeftBehind(rings: seq<Ring>, cur: nat)
    ensures Active(AdvanceAll(rings, cur)) <==> LeftBehind(rings, cur)
  {
    var advanced := AdvanceAll(rings, cur);
    if i :| 0 <= i < |rings| && rings[i].last > rings[i].memptr + if i == cur then 1 else 0 {
      assert advanced[i].last > advanced[i].memptr;
    }
    if Active(advanced) {
      var i :| 0 <= i < |advanced| && advanced[i].last > advanced[i].memptr;
      assert rings[i].last > rings[i].memptr + if i == cur then 1 else 0;
    }
  }

  /** If a ring is left behind, however many others are idle, the GPU is reset, and the hardware of
      every ring gets the submits after the last fence that looks signaled, in order, and no others.
      Otherwise it is left as it is. */
  lemma ReplayIsTheRest(rings: seq<Ring>, cur: nat, r: nat)
    requires Inv(rings) && SomethingHangs(rings, cur) && r < |rings|
    ensures var after, done := Recovered(rings, cur)[r], DoneAfterRecovery(rings[r], r == cur);
            && after.Done() == done
            && if LeftBehind(rings, cur)
               then after.queue == after.submits == Range(done + 1, rings[r].Submitted())
               else after.queue == rings[r].queue && after.submits == rings[r].submits
  {
    assert RingOk(rings[r]);
    ResetIffLeftBehind(rings, cur);
    RecoveredAt(rings, cur, r);
    Replays(rings[r], r == cur, Active(AdvanceAll(rings, cur)));
  }

  lemma Replays(ring: Ring, current: bool, reset: bool)
    requires RingOk(ring) && (current ==> ring.memptr < ring.Submitted())
    ensures var after, done := RecoveredRing(ring, current, reset), DoneAfterRecovery(ring, current);
            && after.Done() == done
            && if reset then after.queue == after.submits == Range(done + 1, ring.Submitted())
               else after.queue == ring.queue && after.submits == ring.submits
  {
    FencesAfterRecovery(ring, current, reset);
    RecoverKeepsRing(ring, current);
    RetireKeeps(Advance(ring, current));
    if current {
      AdvanceKeeps(ring);
    }
  }

  /** A reset leaves no ring's fence beyond the last one allocated, and otherwise where it was. */
  lemma ResetBoundsFence(rings: seq<Ring>, cur: nat, r: nat)
    requires r < |rings| && LeftBehind(rings, cur)
    ensures var fence, after := rings[r].memptr + (if r == cur then 1 else 0), Recovered(rings, cur)[r];
            && after.memptr <= after.last == rings[r].last
            && (fence <= rings[r].last ==> after.memptr == fence)
  {
    ResetIffLeftBehind(rings, cur);
    RecoveredAt(rings, cur, r);
  }

  /** The interrupt makes everything count as completed that the hardware finished, and the worker then
      retires all of that. */
  lemma IrqThenRetire(rings: seq<Ring>, r: nat)
    requires Inv(rings) && r < |rings|
    ensures var noted := Apply(rings, Irq);
            && noted[r].completed == rings[r].Done()
            && Apply(noted, RetireWorker)[r].retired == Range(1, rings[r].Done())
            && Apply(noted, RetireWorker)[r].submits == Range(rings[r].Done() + 1, rings[r].Submitted())
  {
    assert RingOk(rings[r]);
    UpdateKeeps(rings[r]);
    RetireKeeps(Update(rings[r]));
  }

  /** A submit on a ring with nothing left to do gets through: it is given to the hardware, finished, and
      with the next interrupt and retire work it is retired after all before it. */
  lemma SubmitGetsThrough(rings: seq<Ring>, r: nat) returns (a: seq<Ring>, b: seq<Ring>, c: seq<Ring>)
    requires Inv(rings) && r < |rings| && !rings[r].pending && rings[r].queue == []
    ensures StepsTo(rings, AllocFence(r), a) && StepsTo(a, Submit(r), b) && StepsTo(b, HwFinish(r), c)
    ensures var n, ring := rings[r].last + 1, Apply(Apply(c, Irq), RetireWorker)[r];
            && b[r].queue == [n] && n in b[r].submits
            && ring.retired == Range(1, n) && ring.submits == [] && n in ring.finished
  {
    a := Apply(rings, AllocFence(r));
    b := Apply(a, Submit(r));
    c := Apply(b, HwFinish(r));
    InvKept(rings, AllocFence(r));
    InvKept(a, Submit(r));
    InvKept(b, HwFinish(r));
    IrqThenRetire(c, r);
    assert RingOk(c[r]) && b[r].submits == rings[r].submits + [rings[r].last + 1];
  }

  /** When the hung submit is all there is, the GPU is not reset and still has it. */
  lemma LoneHangIsNotReset(rings: seq<Ring>, cur: nat)
    requires Inv(rings) && cur < |rings| && rings[cur].last == rings[cur].memptr + 1 && rings[cur].queue != []
    requires forall i :: 0 <= i < |rings| && i != cur ==> rings[i].last <= rings[i].memptr
    ensures Recovered(rings, cur)[cur].queue == rings[cur].queue
  {
    assert !Active(AdvanceAll(rings, cur));
  }

  /** A recovery keeps the fences honest if and only if the current ring really has something to
      recover from. Otherwise the fence that it completes is that of the next submit. */
  lemma RecoveryIsSoundIffSomethingHangs(rings: seq<Ring>, cur: nat)
    requires Inv(rings) && cur < |rings|
    ensures Inv(Recovered(rings, cur)) <==> SomethingHangs(rings, cur)
    ensures !SomethingHangs(rings, cur) ==>
              Recovered(rings, cur)[cur].completed == rings[cur].Submitted() + 1
  {
    if SomethingHangs(rings, cur) {
      RecoverKeeps(rings, cur);
    } else {
      var after := Recovered(rings, cur)[cur];
      assert RingOk(rings[cur]);
      assert after.completed == rings[cur].memptr + 1 && after.Submitted() == rings[cur].Submitted();
      assert after.Done() > after.Submitted();
    }
  }

  /** A recovery on an idle GPU, then one submit: it retires although the hardware still has it. */
  lemma RetiredBeforeItRan() returns (states: seq<seq<Ring>>, steps: seq<Step>)
    ensures IsRun(states, steps) && |states| == 5 && |states[4]| == 1
    ensures var ring := states[4][0];
            ring.retired == [1] && ring.queue == [1] && ring.finished == {} && ring.givenUp == {}
  {
    var s0 := [IdleRing()];
    steps := [Recover(0), AllocFence(0), Submit(0), RetireWorker];
    var s1 := Apply(s0, steps[0]);
    assert s1[0] == IdleRing().(memptr := 1, completed := 1);
    var s2 := Apply(s1, steps[1]);
    var s3 := Apply(s2, steps[2]);
    var s4 := Apply(s3, steps[3]);
    assert s3[0] == Ring([1], 1, false, 1, 1, [1], [], {}, {});
    assert SignaledPrefix([1], 1) == [1] by {
      assert [1][1..] == [];
    }
    states := [s0, s1, s2, s3, s4];
  }

  // ---------------------------------------------------------------- what looks signaled stays so

  /** The hardware's queue and the list end with the last submit, and the hardware's next fence is
      above memptrs->fence unless completed_fence has caught up. */
  predicate SteadyFrom(ring: Ring, x: nat, y: nat) {
    && 0 < x <= ring.Submitted() + 1 && ring.submits == Range(x, ring.Submitted())
    && 0 < y <= ring.Submitted() + 1 && ring.queue == Range(y, ring.Submitted())
    && (ring.memptr <= ring.completed || y == ring.memptr + 1)
  }

  ghost predicate Steady(ring: Ring) {
    (ring.pending ==> ring.last > 0) && exists x: nat, y: nat :: SteadyFrom(ring, x, y)
  }

  lemma UpdateSteady(ring: Ring)
    requires Steady(ring)
    ensures Steady(Update(ring)) && Update(ring).completed == Update(ring).Done() == ring.Done()
  {
    var x: nat, y: nat :| SteadyFrom(ring, x, y);
    assert SteadyFrom(Update(ring), x, y);
  }

  lemma FinishSteady(ring: Ring)
    requires Steady(ring) && ring.queue != []
    ensures Steady(Finish(ring)) && Finish(ring).Done() >= ring.Done()
  {
    var x: nat, y: nat :| SteadyFrom(ring, x, y);
    assert ring.queue[0] == y && Finish(ring).queue == Range(y + 1, ring.Submitted());
    assert SteadyFrom(Finish(ring), x, y + 1);
  }

  lemma SubmitSteady(ring: Ring)
    requires Steady(ring) && ring.pending
    ensures Steady(ring.(pending := false, submits := ring.submits + [ring.last], queue := ring.queue + [ring.last]))
  {
    var n := ring.last;
    var x: nat, y: nat :| SteadyFrom(ring, x, y);
    RangeJoin(x, n - 1, n);
    RangeJoin(y, n - 1, n);
    assert Range(n, n) == [n];
    assert SteadyFrom(ring.(pending := false, submits := ring.submits + [n], queue := ring.queue + [n]), x, y);
  }

  /** What is left of a list after retiring is its end. */
  lemma RestOfRange(from: nat, to: int, done: nat) returns (x: nat)
    requires 0 < from <= to + 1
    ensures 0 < x <= to + 1 && Unsignaled(Range(from, to), done) == Range(x, to)
  {
    if done < from {
      x := from;
    } else {
      SplitAtDone(from, to, done);
      x := if done <= to then done + 1 else to + 1;
    }
  }

  lemma RetireSteady(ring: Ring)
    requires Steady(ring)
    ensures Steady(RetireDone(ring))
  {
    var x: nat, y: nat :| SteadyFrom(ring, x, y);
    var x' := RestOfRange(x, ring.Submitted(), ring.Done());
    assert SteadyFrom(RetireDone(ring), x', y);
  }

  /** Whether or not the recovery has something to recover from. */
  lemma RecoverSteady(ring: Ring, current: bool)
    requires Steady(ring)
    ensures var advanced := Advance(ring, current);
            && Steady(Update(advanced)) && Update(advanced).Done() >= ring.Done()
            && Steady(Update(ResetAndReplay(RetireDone(advanced))))
            && Update(ResetAndReplay(RetireDone(advanced))).Done() >= ring.Done()
  {
    var x: nat, y: nat :| SteadyFrom(ring, x, y);
    var advanced := Advance(ring, current);
    assert advanced.memptr <= advanced.completed && SteadyFrom(advanced, x, y);
    UpdateSteady(advanced);
    RetireSteady(advanced);
    var x': nat, y': nat :| SteadyFrom(RetireDone(advanced), x', y');
    assert SteadyFrom(ResetAndReplay(RetireDone(advanced)), x', x');
    UpdateSteady(ResetAndReplay(RetireDone(advanced)));
  }

  ghost predicate AllSteady(rings: seq<Ring>) {
    forall r :: 0 <= r < |rings| ==> Steady(rings[r])
  }

  lemma SteadyKept(rings: seq<Ring>, step: Step)
    requires AllSteady(rings) && Enabled(rings, step)
    ensures AllSteady(Apply(rings, step)) && |Apply(rings, step)| == |rings|
    ensures forall r :: 0 <= r < |rings| ==> Apply(rings, step)[r].Done() >= rings[r].Done()
  {
    forall r | 0 <= r < |rings|
      ensures Steady(Apply(rings, step)[r]) && Apply(rings, step)[r].Done() >= rings[r].Done()
    {
      var ring := rings[r];
      match step
      case AllocFence(a) =>
        var x: nat, y: nat :| SteadyFrom(ring, x, y);
        assert a == r ==> SteadyFrom(ring.(last := ring.last + 1, pending := true), x, y);
      case Submit(a) =>
        if a == r { SubmitSteady(ring); }
      case HwFinish(a) =>
        if a == r { FinishSteady(ring); }
      case Irq => UpdateSteady(ring);
      case RetireWorker => RetireSteady(ring);
      case Recover(cur) => RecoverSteady(ring, r == cur);
    }
  }

  lemma SteadyStep(rings: seq<Ring>, step: Step, rings': seq<Ring>)
    requires AllSteady(rings) && StepsTo(rings, step, rings')
    ensures AllSteady(rings') && |rings'| == |rings|
    ensures forall r :: 0 <= r < |rings| ==> rings'[r].Done() >= rings[r].Done()
  {
    SteadyKept(rings, step);
  }

  lemma {:induction false} SteadyAlways(states: seq<seq<Ring>>, steps: seq<Step>, n: nat)
    requires IsRun(states, steps) && n < |states|
    ensures AllSteady(states[n]) && |states[n]| == |states[0]|
  {
    if n == 0 {
      assert SteadyFrom(IdleRing(), 1, 1);
    } else {
      SteadyAlways(states, steps, n - 1);
      SteadyStep(states[n - 1], steps[n - 1], states[n]);
    }
  }

  /** A fence that looks signaled looks signaled ever after, although memptrs->fence can go back: in
      every run, even with recoveries that have nothing to recover from. */
  lemma {:induction false} DoneIsForever(states: seq<seq<Ring>>, steps: seq<Step>, m: nat, n: nat, r: nat)
    requires IsRun(states, steps) && m <= n < |states| && r < |states[m]|
    ensures r < |states[n]| && states[m][r].Done() <= states[n][r].Done()
    decreases n
  {
    SteadyAlways(states, steps, m);
    if m < n {
      DoneIsForever(states, steps, m, n - 1, r);
      SteadyAlways(states, steps, n - 1);
      SteadyStep(states[n - 1], steps[n - 1], states[n]);
    }
  }

  /** A ring as the fences of a mapping see it. */
  function TimelineOf(ring: Ring): Fence.Timeline {
    Fence.Timeline(ring.last, ring.completed, ring.memptr)
  }

  function TimelinesOf(rings: seq<Ring>): (t: seq<Fence.Timeline>)
    ensures |t| == |rings| && forall r :: 0 <= r < |t| ==> t[r] == TimelineOf(rings[r])
  {
    seq(|rings|, r requires 0 <= r < |rings| => TimelineOf(rings[r]))
  }

  /** What happens to a ring between two states of a run is progress in the sense of module `Fence`, so
      that a mapping may forget fences that are done. */
  lemma RunsMakeProgress(states: seq<seq<Ring>>, steps: seq<Step>, m: nat, n: nat, r: nat, g: Fence.Guards)
    requires IsRun(states, steps) && m <= n < |states| && r < |states[m]|
    ensures r < |states[n]|
    ensures Fence.Allowed(Fence.Advance(r, TimelineOf(states[n][r])), g, TimelinesOf(states[m]))
  {
    DoneIsForever(states, steps, m, n, r);
  }

  // ---------------------------------------------------------------- the driver's own loops

  function TotalListed(rings: seq<Ring>): nat {
    if rings == [] then 0 else TotalListed(rings[..|rings| - 1]) + |rings[|rings| - 1].submits|
  }

  lemma {:induction false} TotalListedSet(rings: seq<Ring>, r: nat, ring: Ring)
    requires r < |rings|
    ensures TotalListed(rings[r := ring]) == TotalListed(rings) - |rings[r].submits| + |ring.submits|
    ensures TotalListed(rings) >= |rings[r].submits|
  {
    var last := |rings| - 1;
    if r < last {
      TotalListedSet(rings[..last], r, ring);
      assert rings[r := ring][..last] == rings[..last][r := ring];
    } else {
      assert rings[r := ring][..last] == rings[..last];
    }
  }

  class Gpu {
    var rings: seq<Ring>
    var activeSubmits: int
    var globalFaults: nat
    var submitFaults: nat

    /** active_submits is the total length of the ring lists. */
    ghost predicate Valid()
      reads this
    {
      activeSubmits == TotalListed(rings)
    }

    constructor (n: nat)
      ensures Valid() && |rings| == n && forall r :: 0 <= r < n ==> rings[r] == IdleRing()
    {
      rings := seq(n, _ => IdleRing());
      activeSubmits, globalFaults, submitFaults := 0, 0, 0;
      new;
      NothingListed(rings);
    }

    /** msm_gpu_submit. */
    method SubmitPending(r: nat)
      requires Valid() && Enabled(rings, Submit(r))
      modifies this
      ensures Valid() && rings == Apply(old(rings), Submit(r))
    {
      var ring := rings[r];
      var ring' := ring.(pending := false, submits := ring.submits + [ring.last], queue := ring.queue + [ring.last]);
      TotalListedSet(rings, r, ring');
      rings := rings[r := ring'];
      activeSubmits := activeSubmits + 1;
    }

    /** The inner loop of retire_submits: the head of the list goes as long as it is signaled. */
    method RetireRing(r: nat)
      requires Valid() && r < |rings|
      modifies `rings, `activeSubmits
      ensures Valid() && rings == old(rings)[r := RetireDone(old(rings)[r])]
    {
      ghost var before := rings[r];
      while rings[r].submits != [] && rings[r].submits[0] <= rings[r].Done()
        invariant Valid() && |rings| == |old(rings)| && rings == old(rings)[r := rings[r]]
        invariant RetireDone(rings[r]) == RetireDone(before)
        decreases |rings[r].submits|
      {
        RetireSubmit(r);
      }
      assert rings[r].retired + [] == rings[r].retired;
    }

    /** retire_submit: active_submits does not become negative. */
    method RetireSubmit(r: nat)
      requires Valid() && r < |rings| && rings[r].submits != [] && rings[r].submits[0] <= rings[r].Done()
      modifies `rings, `activeSubmits
      ensures Valid() && activeSubmits >= 0
      ensures var ring := old(rings)[r];
              rings == old(rings)[r := ring.(submits := ring.submits[1..], retired := ring.retired + [ring.submits[0]])]
      ensures RetireDone(rings[r]) == RetireDone(old(rings)[r])
    {
      var ring := rings[r];
      var ring' := ring.(submits := ring.submits[1..], retired := ring.retired + [ring.submits[0]]);
      TotalListedSet(rings, r, ring');
      assert ring'.retired + SignaledPrefix(ring'.submits, ring.Done())
          == ring.retired + ([ring.submits[0]] + SignaledPrefix(ring'.submits, ring.Done()));
      rings := rings[r := ring'];
      activeSubmits := activeSubmits - 1;
    }

    method RetireSubmits()
      requires Valid()
      modifies `rings, `activeSubmits
      ensures Valid() && rings == RetireAll(old(rings))
    {
      var i := 0;
      while i < |rings|
        invariant Valid() && 0 <= i <= |rings| == |old(rings)|
        invariant forall k :: 0 <= k < i ==> rings[k] == RetireDone(old(rings)[k])
        invariant forall k :: i <= k < |rings| ==> rings[k] == old(rings)[k]
      {
        RetireRing(i);
        i := i + 1;
      }
      assert rings == RetireAll(old(rings));
    }

    /** find_submit. */
    method FindSubmit(r: nat, fence: nat) returns (found: bool)
      requires r < |rings|
      ensures found <==> fence in rings[r].submits
    {
      var i := 0;
      while i < |rings[r].submits|
        invariant 0 <= i <= |rings[r].submits| && fence !in rings[r].submits[..i]
      {
        if rings[r].submits[i] == fence {
          return true;
        }
        i := i + 1;
      }
      return false;
    }

    /** The loop over the rings that advances their fences. */
    method AdvanceFences(cur: nat)
      requires Valid()
      modifies `rings
      ensures Valid() && rings == AdvanceAll(old(rings), cur)
    {
      var i := 0;
      while i < |rings|
        invariant Valid() && 0 <= i <= |rings| == |old(rings)|
        invariant forall k :: 0 <= k < i ==> rings[k] == Advance(old(rings)[k], k == cur)
        invariant forall k :: i <= k < |rings| ==> rings[k] == old(rings)[k]
      {
        TotalListedSet(rings, i, Advance(rings[i], i == cur));
        rings := rings[i := Advance(rings[i], i == cur)];
        i := i + 1;
      }
      assert rings == AdvanceAll(old(rings), cur);
    }

    /** The loop that replays what is left, after the reset. */
    method Replay()
      requires Valid()
      modifies `rings
      ensures Valid() && rings == ReplayAll(old(rings))
    {
      var i := 0;
      while i < |rings|
        invariant Valid() && 0 <= i <= |rings| == |old(rings)|
        invariant forall k :: 0 <= k < i ==> rings[k] == ResetAndReplay(old(rings)[k])
        invariant forall k :: i <= k < |rings| ==> rings[k] == old(rings)[k]
      {
        TotalListedSet(rings, i, ResetAndReplay(rings[i]));
        rings := rings[i := ResetAndReplay(rings[i])];
        i := i + 1;
      }
      assert rings == ReplayAll(old(rings));
    }

    /** msm_gpu_retire, up to the work that it queues. */
    method UpdateFences()
      requires Valid()
      modifies `rings
      ensures Valid() && rings == UpdateAll(old(rings))
    {
      var i := 0;
      while i < |rings|
        invariant Valid() && 0 <= i <= |rings| == |old(rings)|
        invariant forall k :: 0 <= k < i ==> rings[k] == Update(old(rings)[k])
        invariant forall k :: i <= k < |rings| ==> rings[k] == old(rings)[k]
      {
        TotalListedSet(rings, i, Update(rings[i]));
        rings := rings[i := Update(rings[i])];
        i := i + 1;
      }
      assert rings == UpdateAll(old(rings));
    }

    /** msm_gpu_active. */
    method IsActive() returns (active: bool)
      ensures active <==> Active(rings)
    {
      for i := 0 to |rings|
        invariant forall k :: 0 <= k < i ==> rings[k].last <= rings[k].memptr
      {
        if rings[i].last > rings[i].memptr {
          return true;
        }
      }
      return false;
    }

    /** The middle part of recover_worker. */
    method ResetIfActive()
      requires Valid()
      modifies `rings, `activeSubmits
      ensures Valid()
      ensures rings == if Active(old(rings)) then ReplayAll(RetireAll(old(rings))) else old(rings)
    {
      var active := IsActive();
      if active {
        RetireSubmits();
        Replay();
      }
    }

    /** recover_worker. Who is reset and what is replayed is the subject of `ReplayIsTheRest`. */
    method RecoverWorker(cur: nat)
      requires Valid() && cur < |rings|
      modifies this
      ensures Valid() && rings == Recovered(old(rings), cur)
      ensures if old(rings)[cur].memptr + 1 in old(rings)[cur].submits
              then submitFaults == old(submitFaults) + 1 && globalFaults == old(globalFaults)
              else submitFaults == old(submitFaults) && globalFaults == old(globalFaults) + 1
    {
      var found := FindSubmit(cur, rings[cur].memptr + 1);
      if found {
        submitFaults := submitFaults + 1;
      } else {
        globalFaults := globalFaults + 1;
      }
      AdvanceFences(cur);
      ResetIfActive();
      UpdateFences();
    }
  }

  lemma {:induction false} NothingListed(rings: seq<Ring>)
    requires forall r :: 0 <= r < |rings| ==> rings[r].submits == []
    ensures TotalListed(rings) == 0
  {
    if rings != [] {
      NothingListed(rings[..|rings| - 1]);
    }
  }
}
