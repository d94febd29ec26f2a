/**
 Implicit synchronisation on kernels before 5.4: submit_fence_sync,
 msm_sched_job_add_implicit_dependencies and submit_attach_object_fences (msm/msm_gem_submit.c).

 A submit holds the locks of its buffers from collecting fences until its own fence is attached, so
 submits with a buffer in common go one after the other; a history lists submits in lock order.
 */
module ImplicitSync {
  import opened JobDeps

  /** How a submit uses a buffer. `optOut` is MSM_SUBMIT_NO_IMPLICIT for the submit or
      MSM_SUBMIT_BO_NO_IMPLICIT for the buffer. */
  datatype Access = Access(bo: nat, write: bool, optOut: bool) {
    predicate Skips() {
      optOut && !write
    }
  }

  /** A reservation object: an exclusive fence and shared ones, by submit. */
  datatype Resv = Resv(excl: Option<nat>, shared: set<nat>)

  // ---------------------------------------------------------------- one submit

  /** The fences that a reader or a writer waits for. */
  function FencesFor(r: Resv, write: bool): set<nat> {
    (if r.excl.Some? then {r.excl.value} else {}) + if write then r.shared else {}
  }

  /** reservation_object_add_excl_fence, which readers call as well as writers. */
  function Attach(r: Resv, submit: nat): Resv {
    Resv(Some(submit), {})
  }

  predicate Known(accesses: seq<Access>, bos: nat) {
    forall i :: 0 <= i < |accesses| ==> accesses[i].bo < bos
  }

  function Collect(resvs: seq<Resv>, accesses: seq<Access>): set<nat>
    requires Known(accesses, |resvs|)
  {
    if accesses == [] then {}
    else
      var n := |accesses| - 1;
      var a := accesses[n];
      Collect(resvs, accesses[..n]) + if a.Skips() then {} else FencesFor(resvs[a.bo], a.write)
  }

  function AttachAll(resvs: seq<Resv>, accesses: seq<Access>, submit: nat): (r: seq<Resv>)
    requires Known(accesses, |resvs|)
    ensures |r| == |resvs|
  {
    if accesses == [] then resvs
    else
      var n := |accesses| - 1;
      var rest := AttachAll(resvs, accesses[..n], submit);
      rest[accesses[n].bo := Attach(rest[accesses[n].bo], submit)]
  }

  /** The loop of submit_fence_sync. */
  method FenceSync(resvs: seq<Resv>, accesses: seq<Access>) returns (deps: set<nat>)
    requires Known(accesses, |resvs|)
    ensures deps == Collect(resvs, accesses)
  {
    deps := {};
    var i := 0;
    assert accesses[..0] == [];
    while i < |accesses|
      invariant 0 <= i <= |accesses| && deps == Collect(resvs, accesses[..i])
    {
      var a := accesses[i];
      assert accesses[..i + 1][..i] == accesses[..i];
      if !a.Skips() {
        deps := deps + FencesFor(resvs[a.bo], a.write);
      }
      i := i + 1;
    }
    assert accesses[..i] == accesses;
  }

  /** The loop of submit_attach_object_fences. */
  method AttachFences(resvs: seq<Resv>, accesses: seq<Access>, submit: nat) returns (r: seq<Resv>)
    requires Known(accesses, |resvs|)
    ensures r == AttachAll(resvs, accesses, submit)
  {
    r := resvs;
    var i := 0;
    assert accesses[..0] == [];
    while i < |accesses|
      invariant 0 <= i <= |accesses| && r == AttachAll(resvs, accesses[..i], submit)
    {
      assert accesses[..i + 1][..i] == accesses[..i];
      r := r[accesses[i].bo := Attach(r[accesses[i].bo], submit)];
      i := i + 1;
    }
    assert accesses[..i] == accesses;
  }

  // ---------------------------------------------------------------- histories

  predicate Touches(accesses: seq<Access>, b: nat) {
    exists i :: 0 <= i < |accesses| && accesses[i].bo == b
  }

  /** The submit waits for what it finds on buffer `b`: it writes the buffer, whatever it opts out of, or
      reads it without opting out. */
  predicate Heeds(accesses: seq<Access>, b: nat) {
    exists i :: 0 <= i < |accesses| && accesses[i].bo == b && (accesses[i].write || !accesses[i].optOut)
  }

  predicate KnownAll(h: seq<seq<Access>>, bos: nat) {
    forall k :: 0 <= k < |h| ==> Known(h[k], bos)
  }

  /** The reservation objects after the submits of the history. */
  function ResvsAfter(h: seq<seq<Access>>, bos: nat): (r: seq<Resv>)
    requires KnownAll(h, bos)
    ensures |r| == bos
  {
    if h == [] then seq(bos, _ => Resv(None, {}))
    else AttachAll(ResvsAfter(h[..|h| - 1], bos), h[|h| - 1], |h| - 1)
  }

  /** The submits that submit `j` waits for. */
  function DepsOf(h: seq<seq<Access>>, bos: nat, j: nat): set<nat>
    requires KnownAll(h, bos) && j < |h|
  {
    Collect(ResvsAfter(h[..j], bos), h[j])
  }

  /** The last of the first `n` submits that touches `b`. */
  function LastTouching(h: seq<seq<Access>>, b: nat, n: nat): (r: Option<nat>)
    requires n <= |h|
    ensures r.Some? ==> r.value < n && Touches(h[r.value], b) && forall k :: r.value < k < n ==> !Touches(h[k], b)
    ensures r.None? ==> forall k :: 0 <= k < n ==> !Touches(h[k], b)
  {
    if n == 0 then None else if Touches(h[n - 1], b) then Some(n - 1) else LastTouching(h, b, n - 1)
  }

  lemma {:induction false} AttachedTo(resvs: seq<Resv>, accesses: seq<Access>, submit: nat, b: nat)
    requires Known(accesses, |resvs|) && b < |resvs|
    ensures AttachAll(resvs, accesses, submit)[b] == if Touches(accesses, b) then Resv(Some(submit), {}) else resvs[b]
  {
    if accesses != [] {
      var n := |accesses| - 1;
      AttachedTo(resvs, accesses[..n], submit, b);
      if Touches(accesses[..n], b) {
        var i :| 0 <= i < n && accesses[..n][i].bo == b;
        assert accesses[i].bo == b;
      }
      if Touches(accesses, b) && accesses[n].bo != b {
        var i :| 0 <= i < |accesses| && accesses[i].bo == b;
        assert accesses[..n][i].bo == b;
      }
    }
  }

  /** The exclusive fence of a buffer is that of the last submit that touched it, reader or writer,
      and there is no shared one. */
  lemma {:induction false} ExclIsLast(h: seq<seq<Access>>, bos: nat, b: nat, n: nat)
    requires KnownAll(h, bos) && b < bos && n <= |h|
    ensures ResvsAfter(h[..n], bos)[b] == Resv(LastTouching(h, b, n), {})
  {
    if n > 0 {
      ExclIsLast(h, bos, b, n - 1);
      assert h[..n][..n - 1] == h[..n - 1];
      AttachedTo(ResvsAfter(h[..n - 1], bos), h[n - 1], n - 1, b);
    } else {
      assert h[..0] == [];
    }
  }

  /** Fence `k` is one that this use of a buffer waits for: the exclusive fence, and for a writer the
      shared ones. */
  predicate WaitedFor(resvs: seq<Resv>, a: Access, k: nat)
    requires a.bo < |resvs|
  {
    (a.write || !a.optOut) && (resvs[a.bo].excl == Some(k) || (a.write && k in resvs[a.bo].shared))
  }

  /** What is collected, whatever is on the reservation objects. */
  lemma {:induction false} CollectsWhatItMust(resvs: seq<Resv>, accesses: seq<Access>, k: nat)
    requires Known(accesses, |resvs|)
    ensures k in Collect(resvs, accesses) <==>
            exists i :: 0 <= i < |accesses| && WaitedFor(resvs, accesses[i], k)
  {
    if accesses != [] {
      var n := |accesses| - 1;
      CollectsWhatItMust(resvs, accesses[..n], k);
      assert forall i :: 0 <= i < n ==> accesses[..n][i] == accesses[i];
      if i :| 0 <= i < |accesses| && WaitedFor(resvs, accesses[i], k) {
        if i < n {
          assert WaitedFor(resvs, accesses[..n][i], k);
        }
      }
      if WaitedFor(resvs, accesses[n], k) {
        assert k in FencesFor(resvs[accesses[n].bo], accesses[n].write);
      }
    }
  }

  lemma {:induction false} CollectedFrom(resvs: seq<Resv>, accesses: seq<Access>, k: nat)
    requires Known(accesses, |resvs|) && forall b :: 0 <= b < |resvs| ==> resvs[b].shared == {}
    ensures k in Collect(resvs, accesses) <==>
            exists b :: 0 <= b < |resvs| && Heeds(accesses, b) && resvs[b].excl == Some(k)
  {
    if accesses != [] {
      var n := |accesses| - 1;
      var a := accesses[n];
      CollectedFrom(resvs, accesses[..n], k);
      if b :| 0 <= b < |resvs| && Heeds(accesses[..n], b) && resvs[b].excl == Some(k) {
        var i :| 0 <= i < n && accesses[..n][i].bo == b && (accesses[..n][i].write || !accesses[..n][i].optOut);
        assert accesses[i].bo == b && (accesses[i].write || !accesses[i].optOut);
        assert Heeds(accesses, b);
      }
      if !a.Skips() {
        assert Heeds(accesses, a.bo);
      }
      if b :| 0 <= b < |resvs| && Heeds(accesses, b) && resvs[b].excl == Some(k) {
        var i :| 0 <= i < |accesses| && accesses[i].bo == b && (accesses[i].write || !accesses[i].optOut);
        if i < n {
          assert accesses[..n][i].bo == b;
          assert Heeds(accesses[..n], b);
        }
      }
    }
  }

  /** A submit waits for exactly the last submits that touched the buffers it heeds. */
  lemma DepsAreLast(h: seq<seq<Access>>, bos: nat, j: nat, k: nat)
    requires KnownAll(h, bos) && j < |h|
    ensures k in DepsOf(h, bos, j) <==> exists b :: 0 <= b < bos && Heeds(h[j], b) && LastTouching(h, b, j) == Some(k)
  {
    var resvs := ResvsAfter(h[..j], bos);
    forall b | 0 <= b < bos ensures resvs[b] == Resv(LastTouching(h, b, j), {}) {
      ExclIsLast(h, bos, b, j);
    }
    CollectedFrom(resvs, h[j], k);
    if b :| 0 <= b < bos && Heeds(h[j], b) && LastTouching(h, b, j) == Some(k) {
      assert resvs[b].excl == Some(k);
    }
    if b :| 0 <= b < |resvs| && Heeds(h[j], b) && resvs[b].excl == Some(k) {
      assert LastTouching(h, b, j) == Some(k);
    }
  }

  /** A writer waits for the last submit that touched the buffer, whatever it opts out of. */
  lemma WriterWaitsForLast(h: seq<seq<Access>>, bos: nat, b: nat, j: nat, i: nat)
    requires KnownAll(h, bos) && b < bos && j < |h| && LastTouching(h, b, j).Some?
    requires i < |h[j]| && h[j][i].bo == b && h[j][i].write
    ensures LastTouching(h, b, j).value in DepsOf(h, bos, j)
  {
    assert Heeds(h[j], b);
    DepsAreLast(h, bos, j, LastTouching(h, b, j).value);
  }

  // ---------------------------------------------------------------- order

  /** `j` waits for `i`, directly or through other submits. */
  ghost predicate WaitsFor(h: seq<seq<Access>>, bos: nat, j: nat, i: nat)
    requires KnownAll(h, bos) && j < |h|
    decreases j
  {
    exists k :: k in DepsOf(h, bos, j) && k < j && (k == i || WaitsFor(h, bos, k, i))
  }

  /** The same through buffer `b` alone. */
  ghost predicate WaitsVia(h: seq<seq<Access>>, b: nat, j: nat, i: nat)
    requires j < |h|
    decreases j
  {
    var last := LastTouching(h, b, j);
    Heeds(h[j], b) && last.Some? && (last.value == i || WaitsVia(h, b, last.value, i))
  }

  lemma {:induction false} ViaIsWaiting(h: seq<seq<Access>>, bos: nat, b: nat, j: nat, i: nat)
    requires KnownAll(h, bos) && b < bos && j < |h| && WaitsVia(h, b, j, i)
    ensures WaitsFor(h, bos, j, i)
    decreases j
  {
    var k := LastTouching(h, b, j).value;
    DepsAreLast(h, bos, j, k);
    if k != i {
      ViaIsWaiting(h, bos, b, k, i);
    }
  }

  /** No submit after `i`, up to and including `j`, touches the buffer without heeding it. */
  ghost predicate AllHeed(h: seq<seq<Access>>, b: nat, i: nat, j: nat)
    requires j < |h|
  {
    forall k :: i < k <= j && Touches(h[k], b) ==> Heeds(h[k], b)
  }

  /** Of two submits that touch a buffer the later waits for the earlier through that buffer if and
      only if nobody from then on, the later one included, opted out as a reader. */
  lemma {:induction false} OrderedIffAllHeed(h: seq<seq<Access>>, b: nat, j: nat, i: nat)
    requires i < j < |h| && Touches(h[i], b) && Touches(h[j], b)
    ensures WaitsVia(h, b, j, i) <==> AllHeed(h, b, i, j)
    decreases j
  {
    var last := LastTouching(h, b, j);
    assert last.Some? && i <= last.value;
    if last.value != i {
      OrderedIffAllHeed(h, b, last.value, i);
    } else if WaitsVia(h, b, j, i) {
      assert AllHeed(h, b, i, j);
    }
  }

  /** If no reader of a buffer opts out, all submits that touch it form a chain: every pair of them,
      hence every pair with a writer in it, is ordered. */
  lemma NoOptOutMakesAChain(h: seq<seq<Access>>, bos: nat, b: nat, i: nat, j: nat)
    requires KnownAll(h, bos) && b < bos && i < j < |h| && Touches(h[i], b) && Touches(h[j], b)
    requires forall k :: 0 <= k < |h| && Touches(h[k], b) ==> Heeds(h[k], b)
    ensures WaitsFor(h, bos, j, i)
  {
    OrderedIffAllHeed(h, b, j, i);
    ViaIsWaiting(h, bos, b, j, i);
  }

  /** A reader that opts out also comes between two writers that do not: the second then does not
      wait for the first, because the reader's fence has replaced that of the first writer. */
  lemma OptOutSplitsWriters()
    ensures var writer, reader := [Access(0, true, false)], [Access(0, false, true)];
            KnownAll([writer, reader, writer], 1) && !WaitsFor([writer, reader, writer], 1, 2, 0)
  {
    var writer, reader := [Access(0, true, false)], [Access(0, false, true)];
    var h := [writer, reader, writer];
    assert reader[0].bo == 0 && writer[0].bo == 0;
    assert Touches(h[1], 0) && !Heeds(h[1], 0);
    assert LastTouching(h, 0, 2) == Some(1);
    forall k | k in DepsOf(h, 1, 2) ensures k == 1 {
      DepsAreLast(h, 1, 2, k);
    }
    forall k ensures k !in DepsOf(h, 1, 1) {
      DepsAreLast(h, 1, 1, k);
    }
  }
}
