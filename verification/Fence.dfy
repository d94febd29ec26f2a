/**
 Wrapping 32-bit fence numbers: msm/msm_fence.h, msm/msm_fence.c, msm_gpu_active of msm/msm_gpu.h and
 the fences of a mapping in msm/msm_gem_vma.c.

 Each 32-bit number stands for an unbounded one. The other modules use the unbounded ones.
 */
module Fence {
  import opened JobDeps

  const M: int := 0x1_0000_0000
  const Half: int := 0x8000_0000

  type u32 = x: int | 0 <= x < 0x1_0000_0000

  function Wrap(n: int): u32 {
    n % M
  }

  /** The 32-bit difference, read as a signed number. */
  function SignedDifference(a: u32, b: u32): int {
    var d := Wrap(a - b);
    if d < Half then d else d - M
  }

  predicate FenceBefore(a: u32, b: u32) {
    SignedDifference(a, b) < 0
  }

  predicate FenceAfter(a: u32, b: u32) {
    SignedDifference(a, b) > 0
  }

  predicate NotBefore(a: u32, b: u32) {
    SignedDifference(a, b) >= 0
  }

  // ---------------------------------------------------------------- order

  /** The window in which 32-bit comparison can be trusted. */
  predicate Near(a: int, b: int) {
    -Half <= a - b < Half
  }

  lemma DifferenceOfWrapped(a: int, b: int)
    ensures Wrap(Wrap(a) - Wrap(b)) == Wrap(a - b)
  {
    var x := (a - b) - (Wrap(a) - Wrap(b));
    assert a == M * (a / M) + Wrap(a) && b == M * (b / M) + Wrap(b);
    assert x == M * (a / M - b / M);
    WrapShift(Wrap(a) - Wrap(b), a / M - b / M);
  }

  lemma WrapShift(n: int, k: int)
    ensures Wrap(n + M * k) == Wrap(n)
  {
    var q, r := n / M, n % M;
    assert n + M * k == M * (q + k) + r;
    assert (M * (q + k) + r) % M == r % M;
  }

  /** What the wrapped comparison computes for any two numbers whatsoever. */
  lemma DifferenceModulo(a: int, b: int)
    ensures SignedDifference(Wrap(a), Wrap(b)) == if Wrap(a - b) < Half then Wrap(a - b) else Wrap(a - b) - M
  {
    DifferenceOfWrapped(a, b);
  }

  /** Within the window the wrapped difference is the difference. */
  lemma DifferenceInWindow(a: int, b: int)
    requires Near(a, b)
    ensures SignedDifference(Wrap(a), Wrap(b)) == a - b
  {
    DifferenceModulo(a, b);
    if a - b < 0 {
      WrapShift(a - b, 1);
    }
  }

  lemma OrderInWindow(a: int, b: int)
    requires Near(a, b)
    ensures FenceAfter(Wrap(a), Wrap(b)) <==> a > b
    ensures FenceBefore(Wrap(a), Wrap(b)) <==> a < b
    ensures NotBefore(Wrap(a), Wrap(b)) <==> a >= b
  {
    DifferenceInWindow(a, b);
  }

  /** The window cannot be any larger: the two numbers next to it are already misjudged. */
  lemma WindowIsTight(b: int)
    ensures !FenceAfter(Wrap(b + Half), Wrap(b)) && !FenceBefore(Wrap(b - Half - 1), Wrap(b))
  {
    DifferenceModulo(b + Half, b);
    DifferenceModulo(b - Half - 1, b);
    WrapShift(-Half - 1, 1);
  }

  // ---------------------------------------------------------------- timelines

  /** What a fence context stands for: `last` fence allocated, `completed` as far as the CPU was told,
      `hw` as far as the hardware has written. */
  datatype Timeline = Timeline(last: nat, completed: nat, hw: nat) {
    predicate Done(n: nat) {
      n <= completed || n <= hw
    }
  }

  /** The fields last_fence and completed_fence, and the word that fenceptr points to. */
  datatype Registers = Registers(lastFence: u32, completedFence: u32, fencePtr: u32)

  predicate StandsFor(r: Registers, t: Timeline) {
    r.lastFence == Wrap(t.last) && r.completedFence == Wrap(t.completed) && r.fencePtr == Wrap(t.hw)
  }

  /** Fence `n` lies within one window with what is known to be done. */
  predicate InWindow(t: Timeline, n: nat) {
    Near(t.completed, n) && Near(t.hw, n)
  }

  /** msm_fence_completed. */
  predicate FenceCompleted(r: Registers, fence: u32) {
    NotBefore(r.completedFence, fence) || NotBefore(r.fencePtr, fence)
  }

  /** msm_fence_completed refines the unbounded test. */
  lemma CompletedInWindow(r: Registers, t: Timeline, n: nat)
    requires StandsFor(r, t) && InWindow(t, n)
    ensures FenceCompleted(r, Wrap(n)) <==> t.Done(n)
  {
    OrderInWindow(t.completed, n);
    OrderInWindow(t.hw, n);
  }

  class FenceContext {
    var lastFence: u32
    var completedFence: u32
    var fencePtr: u32
    ghost var time: Timeline

    ghost predicate Valid()
      reads this
    {
      StandsFor(Registers(lastFence, completedFence, fencePtr), time)
    }

    constructor ()
      ensures Valid() && time == Timeline(0, 0, 0)
    {
      lastFence, completedFence, fencePtr := 0, 0, 0;
      time := Timeline(0, 0, 0);
    }

    /** msm_fence_alloc, as far as the number is concerned; without memory no number is used up. */
    method Alloc(memory: bool) returns (seqno: u32)
      requires Valid()
      modifies this
      ensures Valid() && (!memory ==> time == old(time))
      ensures memory ==> time == old(time).(last := old(time).last + 1) && seqno == Wrap(time.last)
    {
      if !memory {
        return 0;
      }
      AfterLast(time.last);
      lastFence := Wrap(lastFence + 1);
      time := time.(last := time.last + 1);
      seqno := lastFence;
    }

    method Completed(fence: u32, ghost n: nat) returns (done: bool)
      requires Valid() && fence == Wrap(n) && InWindow(time, n)
      ensures done <==> time.Done(n)
    {
      var r := Registers(lastFence, completedFence, fencePtr);
      CompletedInWindow(r, time, n);
      done := FenceCompleted(r, fence);
    }

    /** msm_update_fence: completed_fence never goes back. */
    method Update(fence: u32, ghost n: nat)
      requires Valid() && fence == Wrap(n) && Near(n, time.completed)
      modifies this
      ensures Valid() && time == old(time).(completed := if n > old(time).completed then n else old(time).completed)
    {
      OrderInWindow(n, time.completed);
      if FenceAfter(fence, completedFence) {
        completedFence := fence;
        time := time.(completed := n);
      }
    }
  }

  lemma AfterLast(n: nat)
    ensures Wrap(Wrap(n) + 1) == Wrap(n + 1)
  {
    WrapShift(Wrap(n) + 1, n / M);
    assert n == M * (n / M) + Wrap(n);
  }

  // ---------------------------------------------------------------- msm_gpu_active

  /** The GPU is active iff some ring was given a fence that the hardware has not reached. */
  method GpuActive(rings: seq<Registers>, ghost times: seq<Timeline>) returns (active: bool)
    requires |rings| == |times|
    requires forall i :: 0 <= i < |rings| ==> StandsFor(rings[i], times[i]) && Near(times[i].last, times[i].hw)
    ensures active <==> exists i :: 0 <= i < |times| && times[i].last > times[i].hw
  {
    var i := 0;
    while i < |rings|
      invariant 0 <= i <= |rings|
      invariant forall k :: 0 <= k < i ==> times[k].last <= times[k].hw
    {
      OrderInWindow(times[i].last, times[i].hw);
      if FenceAfter(rings[i].lastFence, rings[i].fencePtr) {
        return true;
      }
      i := i + 1;
    }
    return false;
  }

  // ---------------------------------------------------------------- fences of a mapping

  /** `mask` holds the rings whose fence the mapping remembers. */
  datatype Guards = Guards(inuse: nat, mask: set<nat>, fence: map<nat, nat>)

  ghost predicate Sound(g: Guards, times: seq<Timeline>) {
    forall r :: r in g.mask ==> r < |times| && r in g.fence
  }

  predicate Pending(g: Guards, times: seq<Timeline>, r: nat) {
    r in g.mask && r < |times| && r in g.fence && !times[r].Done(g.fence[r])
  }

  /** The mapping is in use: the plain test, which forgets nothing. */
  ghost predicate InUse(g: Guards, times: seq<Timeline>) {
    g.inuse > 0 || exists r :: Pending(g, times, r)
  }

  /** What msm_gem_vma_inuse leaves of the mask: bits are cleared in ascending order up to the first
      pending one, and none if the mapping is pinned. */
  ghost function Queried(g: Guards, times: seq<Timeline>): Guards {
    if g.inuse > 0 then g
    else g.(mask := set r | r in g.mask && exists p :: p <= r && Pending(g, times, p))
  }

  /** Mapping operations, and time going on. The fence that the hardware wrote last may go back, as in a
      recovery, but what was done stays done (`Retire.RunsMakeProgress`). */
  datatype Op = Pin | Unpin | UnpinFenced(r: nat, n: nat) | Query | Advance(r: nat, to: Timeline)

  ghost predicate Allowed(op: Op, g: Guards, times: seq<Timeline>) {
    match op
    case Pin => true
    case Unpin => g.inuse > 0
    case UnpinFenced(r, n) => g.inuse > 0 && r < |times|
    case Query => true
    case Advance(r, to) => r < |times| && forall n :: times[r].Done(n) ==> to.Done(n)
  }

  ghost function NextGuards(op: Op, g: Guards, times: seq<Timeline>, lazy: bool): Guards
    requires Allowed(op, g, times)
  {
    match op
    case Pin => g.(inuse := g.inuse + 1)
    case Unpin => g.(inuse := g.inuse - 1)
    case UnpinFenced(r, n) => Guards(g.inuse - 1, g.mask + {r}, g.fence[r := n])
    case Query => if lazy then Queried(g, times) else g
    case Advance(r, to) => g
  }

  ghost function NextTimes(op: Op, times: seq<Timeline>): seq<Timeline> {
    if op.Advance? && op.r < |times| then times[op.r := op.to] else times
  }

  /** `g` is `plain` with some bits missing, all of fences that are done. */
  ghost predicate OnlyForgotDone(g: Guards, plain: Guards, times: seq<Timeline>) {
    && g.inuse == plain.inuse && g.fence == plain.fence && g.mask <= plain.mask
    && forall r :: r in plain.mask && r !in g.mask ==> r < |times| && r in g.fence && times[r].Done(g.fence[r])
  }

  /** The answers to the queries in a sequence of operations. */
  ghost function Answers(ops: seq<Op>, g: Guards, times: seq<Timeline>, lazy: bool): seq<bool>
    decreases |ops|
  {
    if ops == [] || !Allowed(ops[0], g, times) then []
    else
      var rest := Answers(ops[1..], NextGuards(ops[0], g, times, lazy), NextTimes(ops[0], times), lazy);
      if ops[0] == Query then [InUse(g, times)] + rest else rest
  }

  lemma SameAnswer(g: Guards, plain: Guards, times: seq<Timeline>)
    requires OnlyForgotDone(g, plain, times)
    ensures InUse(g, times) <==> InUse(plain, times)
  {
    if r :| Pending(plain, times, r) {
      assert Pending(g, times, r);
    }
    if r :| Pending(g, times, r) {
      assert Pending(plain, times, r);
    }
  }

  lemma StillOnlyForgotDone(op: Op, g: Guards, plain: Guards, times: seq<Timeline>)
    requires OnlyForgotDone(g, plain, times) && Sound(plain, times)
    requires Allowed(op, g, times) && Allowed(op, plain, times)
    ensures OnlyForgotDone(NextGuards(op, g, times, true), NextGuards(op, plain, times, false), NextTimes(op, times))
    ensures Sound(NextGuards(op, plain, times, false), NextTimes(op, times))
  {
    if op.Query? && g.inuse == 0 {
      forall r | r in g.mask && r !in Queried(g, times).mask ensures times[r].Done(g.fence[r]) {
        assert !Pending(g, times, r);
      }
    }
  }

  /** Clearing bits lazily is invisible: whatever is pinned, unpinned, fenced and queried, in whatever
      order, and however time goes on, every answer is what it would be if no bit were ever cleared. */
  lemma {:induction false} LazyClearingIsInvisible(ops: seq<Op>, g: Guards, plain: Guards, times: seq<Timeline>)
    requires OnlyForgotDone(g, plain, times) && Sound(plain, times)
    ensures Answers(ops, g, times, true) == Answers(ops, plain, times, false)
    decreases |ops|
  {
    if ops != [] && Allowed(ops[0], g, times) {
      SameAnswer(g, plain, times);
      StillOnlyForgotDone(ops[0], g, plain, times);
      LazyClearingIsInvisible(ops[1..], NextGuards(ops[0], g, times, true), NextGuards(ops[0], plain, times, false),
                              NextTimes(ops[0], times));
    }
  }

  // ---------------------------------------------------------------- what in use means

  /** The guards of a mapping and the timelines, after operations on a new mapping. An operation that is
      not allowed is left out. */
  datatype Moment = Moment(g: Guards, times: seq<Timeline>)

  ghost function After(ops: seq<Op>, times: seq<Timeline>, lazy: bool): Moment
    decreases |ops|
  {
    if ops == [] then Moment(Guards(0, {}, map[]), times)
    else
      var m, op := After(ops[..|ops| - 1], times, lazy), ops[|ops| - 1];
      if Allowed(op, m.g, m.times) then Moment(NextGuards(op, m.g, m.times, lazy), NextTimes(op, m.times)) else m
  }

  /** How many pins were taken and neither dropped nor exchanged for a fence; of `n` rings. */
  function PinsHeld(ops: seq<Op>, n: nat): nat
    decreases |ops|
  {
    if ops == [] then 0
    else
      var before := PinsHeld(ops[..|ops| - 1], n);
      match ops[|ops| - 1]
      case Pin => before + 1
      case Unpin => if before > 0 then before - 1 else 0
      case UnpinFenced(r, _) => if before > 0 && r < n then before - 1 else before
      case _ => before
  }

  /** The fence of ring `r` for which a pin was exchanged last. */
  function LastExchanged(ops: seq<Op>, n: nat, r: nat): Option<nat>
    decreases |ops|
  {
    if ops == [] then None
    else
      var front := ops[..|ops| - 1];
      match ops[|ops| - 1]
      case UnpinFenced(s, fence) =>
        if s == r && r < n && PinsHeld(front, n) > 0 then Some(fence) else LastExchanged(front, n, r)
      case _ => LastExchanged(front, n, r)
  }

  ghost predicate AsExchanged(g: Guards, ops: seq<Op>, n: nat) {
    && g.inuse == PinsHeld(ops, n)
    && forall r: nat ::
         && (r in g.mask <==> LastExchanged(ops, n, r).Some?)
         && (r in g.mask ==> r < n && r in g.fence && g.fence[r] == LastExchanged(ops, n, r).value)
  }

  lemma {:induction false} PlainIsHistory(ops: seq<Op>, times: seq<Timeline>)
    ensures |After(ops, times, false).times| == |times|
    ensures AsExchanged(After(ops, times, false).g, ops, |times|)
    decreases |ops|
  {
    if ops != [] {
      var front := ops[..|ops| - 1];
      PlainIsHistory(front, times);
      var m := After(front, times, false);
      forall r: nat
        ensures LastExchanged(ops, |times|, r) ==
                if ops[|ops| - 1].UnpinFenced? && ops[|ops| - 1].r == r && r < |times| && m.g.inuse > 0
                then Some(ops[|ops| - 1].n) else LastExchanged(front, |times|, r)
      {
      }
    }
  }

  lemma {:induction false} LazyIsLike(ops: seq<Op>, times: seq<Timeline>)
    ensures After(ops, times, true).times == After(ops, times, false).times
    ensures OnlyForgotDone(After(ops, times, true).g, After(ops, times, false).g, After(ops, times, false).times)
    ensures Sound(After(ops, times, false).g, After(ops, times, false).times)
    decreases |ops|
  {
    if ops != [] {
      var front, op := ops[..|ops| - 1], ops[|ops| - 1];
      LazyIsLike(front, times);
      var lazy, plain := After(front, times, true), After(front, times, false);
      if Allowed(op, plain.g, plain.times) {
        StillOnlyForgotDone(op, lazy.g, plain.g, plain.times);
      }
    }
  }

  /** After any operations the mapping answers that it is in use if and only if a pin is held, or a fence
      for which one was exchanged is not done; bits cleared in between make no difference. */
  lemma InUseIffClaimed(ops: seq<Op>, times: seq<Timeline>)
    ensures |After(ops, times, true).times| == |times|
    ensures InUse(After(ops, times, true).g, After(ops, times, true).times) <==>
            PinsHeld(ops, |times|) > 0 || exists r :: Claimed(ops, After(ops, times, true).times, r)
  {
    LazyIsLike(ops, times);
    PlainIsHistory(ops, times);
    var lazy, plain := After(ops, times, true), After(ops, times, false);
    SameAnswer(lazy.g, plain.g, plain.times);
    if r :| Pending(plain.g, plain.times, r) {
      assert Claimed(ops, plain.times, r);
    }
    if r :| Claimed(ops, plain.times, r) {
      assert Pending(plain.g, plain.times, r);
    }
  }

  predicate Claimed(ops: seq<Op>, times: seq<Timeline>, r: nat) {
    && r < |times| && LastExchanged(ops, |times|, r).Some?
    && !times[r].Done(LastExchanged(ops, |times|, r).value)
  }

  // ---------------------------------------------------------------- the mapping itself

  class Mapping {
    var inuse: nat
    var fenceMask: set<nat>
    var fence: map<nat, u32>
    ghost var seqnos: map<nat, nat>

    ghost predicate Valid()
      reads this
    {
      && fence.Keys == seqnos.Keys && fenceMask <= fence.Keys
      && forall r :: r in fence ==> fence[r] == Wrap(seqnos[r])
    }

    ghost function Value(): Guards
      reads this
    {
      Guards(inuse, fenceMask, seqnos)
    }

    constructor ()
      ensures Valid() && Value() == Guards(0, {}, map[])
    {
      inuse, fenceMask, fence, seqnos := 0, {}, map[], map[];
    }

    /** msm_gem_unpin_vma_fenced. */
    method SwapPinForFence(r: nat, last: u32, ghost n: nat)
      requires Valid() && inuse > 0 && last == Wrap(n)
      modifies this
      ensures Valid() && Value() == Guards(old(inuse) - 1, old(fenceMask) + {r}, old(seqnos)[r := n])
    {
      fence := fence[r := last];
      seqnos := seqnos[r := n];
      fenceMask := fenceMask + {r};
      inuse := inuse - 1;
    }

    /** msm_gem_vma_inuse: answers right and clears exactly the bits below the first pending fence. */
    method IsInUse(rings: seq<Registers>, ghost times: seq<Timeline>) returns (busy: bool)
      requires Valid() && |rings| == |times| && Sound(Value(), times)
      requires forall r :: 0 <= r < |rings| ==> StandsFor(rings[r], times[r])
      requires forall r :: r in fenceMask ==> InWindow(times[r], seqnos[r])
      modifies `fenceMask
      ensures Valid() && Value() == Queried(old(Value()), times)
      ensures busy <==> InUse(old(Value()), times)
    {
      if inuse > 0 {
        return true;
      }
      ghost var g := Value();
      while fenceMask != {}
        invariant Valid() && inuse == 0 && seqnos == g.fence && fenceMask <= g.mask
        invariant forall r :: r in g.mask && r !in fenceMask ==> !Pending(g, times, r)
        invariant forall r, p :: r in g.mask && r !in fenceMask && p in fenceMask ==> r < p
        decreases |fenceMask|
      {
        var idx := FindFirstSet(fenceMask);
        CompletedInWindow(rings[idx], times[idx], seqnos[idx]);
        if !FenceCompleted(rings[idx], fence[idx]) {
          assert Pending(g, times, idx);
          assert fenceMask == Queried(g, times).mask;
          return true;
        }
        fenceMask := fenceMask - {idx};
      }
      assert Queried(g, times).mask == {};
      return false;
    }
  }

  /** ffs(mask) - 1: the least bit set. */
  method FindFirstSet(mask: set<nat>) returns (idx: nat)
    requires mask != {}
    ensures idx in mask && forall r :: r in mask ==> idx <= r
  {
    ghost var some :| some in mask;
    idx := 0;
    while idx !in mask
      invariant idx <= some && forall r :: r in mask ==> idx <= r
      decreases some - idx
    {
      idx := idx + 1;
    }
  }
}
