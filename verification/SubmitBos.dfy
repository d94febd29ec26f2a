/**
 The buffers of one submit, from lookup to retiring: the loops of msm/msm_gem_submit.c and
 msm/msm_ringbuffer.c over submit->bos, without anybody else interfering. Module `Residency` has the
 same operations one buffer at a time, with interference.
 */
module SubmitBos {

  /** The flags of an entry of submit->bos; `ref` stands for the reference taken at lookup. */
  datatype Flags = Flags(ref: bool, locked: bool, active: bool, objPinned: bool, vmaPinned: bool, valid: bool)

  /** What the driver counts per object, `inuse` being that of its mapping for this submit. `locks`
      counts the times that this submit holds the reservation lock. */
  datatype Counts = Counts(refs: int, locks: int, actives: int, pins: int, inuse: int)

  /** What taking a ww mutex comes to, unless this submit already has it. */
  datatype Outcome = Ok | Deadlock | Interrupted

  datatype Ret = Success | Einval | Eintr

  // ---------------------------------------------------------------- claims

  function None(): Flags {
    Flags(false, false, false, false, false, false)
  }

  function One(flag: bool): int {
    if flag then 1 else 0
  }

  function Plus(a: Counts, b: Counts): Counts {
    Counts(a.refs + b.refs, a.locks + b.locks, a.actives + b.actives, a.pins + b.pins, a.inuse + b.inuse)
  }

  function Minus(a: Counts, b: Counts): Counts {
    Counts(a.refs - b.refs, a.locks - b.locks, a.actives - b.actives, a.pins - b.pins, a.inuse - b.inuse)
  }

  function Zero(): Counts {
    Counts(0, 0, 0, 0, 0)
  }

  function ClaimOf(f: Flags): Counts {
    Counts(One(f.ref), One(f.locked), One(f.active), One(f.objPinned), One(f.vmaPinned))
  }

  /** What the entries claim of object `o`. */
  function Claims(objs: seq<nat>, flags: seq<Flags>, o: nat): Counts
    requires |objs| == |flags|
  {
    if objs == [] then Zero()
    else
      var n := |objs| - 1;
      var rest := Claims(objs[..n], flags[..n], o);
      if objs[n] == o then Plus(rest, ClaimOf(flags[n])) else rest
  }

  lemma {:induction false} ClaimsSet(objs: seq<nat>, flags: seq<Flags>, i: nat, f: Flags, o: nat)
    requires |objs| == |flags| && i < |objs|
    ensures Claims(objs, flags[i := f], o) ==
            if objs[i] == o then Plus(Claims(objs, flags, o), Minus(ClaimOf(f), ClaimOf(flags[i])))
            else Claims(objs, flags, o)
  {
    var n := |objs| - 1;
    if i < n {
      ClaimsSet(objs[..n], flags[..n], i, f, o);
      assert flags[i := f][..n] == flags[..n][i := f];
    } else {
      assert flags[i := f][..n] == flags[..n];
    }
  }

  lemma {:induction false} NoClaims(objs: seq<nat>, flags: seq<Flags>, o: nat)
    requires |objs| == |flags| && forall i :: 0 <= i < |flags| ==> ClaimOf(flags[i]) == Zero()
    ensures Claims(objs, flags, o) == Zero()
  {
    if objs != [] {
      NoClaims(objs[..|objs| - 1], flags[..|objs| - 1], o);
    }
  }

  /** Entries that claim the lock of `o` count as often as they are. */
  lemma {:induction false} LocksCount(objs: seq<nat>, flags: seq<Flags>, o: nat)
    requires |objs| == |flags|
    ensures Claims(objs, flags, o).locks >= 0
    ensures Claims(objs, flags, o).locks == 0 <==> forall i :: 0 <= i < |objs| && objs[i] == o ==> !flags[i].locked
    ensures Claims(objs, flags, o).locks <= 1 ==>
              forall i, j :: 0 <= i < j < |objs| && objs[i] == o && objs[j] == o ==>
                !(flags[i].locked && flags[j].locked)
  {
    if objs != [] {
      var n := |objs| - 1;
      LocksCount(objs[..n], flags[..n], o);
      assert forall i :: 0 <= i < n ==> objs[..n][i] == objs[i] && flags[..n][i] == flags[i];
    }
  }

  class Submit {
    var objs: seq<nat>
    var flags: seq<Flags>
    var iova: seq<nat>
    var world: seq<Counts>
    ghost var base: seq<Counts>

    /** The counts of the world are those of everybody else, plus what the entries claim. */
    ghost predicate Valid()
      reads this
    {
      && |flags| == |objs| == |iova| && |world| == |base|
      && (forall i :: 0 <= i < |objs| ==> objs[i] < |base|)
      && (forall o :: 0 <= o < |base| ==> base[o].locks == 0)
      && (forall o :: 0 <= o < |base| ==> world[o] == Plus(base[o], Claims(objs, flags, o)))
    }

    ghost predicate Clear()
      reads this
    {
      forall i :: 0 <= i < |flags| ==> ClaimOf(flags[i]) == Zero()
    }

    lemma NothingLeft()
      requires Valid() && Clear()
      ensures world == base
    {
      forall o | 0 <= o < |base| ensures world[o] == base[o] {
        NoClaims(objs, flags, o);
      }
    }

    constructor (world: seq<Counts>)
      requires forall o :: 0 <= o < |world| ==> world[o].locks == 0
      ensures Valid() && Clear() && objs == [] && this.world == base == world
    {
      objs, flags, iova := [], [], [];
      this.world, base := world, world;
    }

    /** What the entries claim once entry `i` has the flags `f`. */
    lemma ClaimsWith(i: nat, f: Flags)
      requires Valid() && i < |objs|
      ensures forall o :: 0 <= o < |base| ==>
                Claims(objs, flags[i := f], o) ==
                if objs[i] == o then Plus(Claims(objs, flags, o), Minus(ClaimOf(f), ClaimOf(flags[i])))
                else Claims(objs, flags, o)
    {
      forall o | 0 <= o < |base|
        ensures Claims(objs, flags[i := f], o) ==
                if objs[i] == o then Plus(Claims(objs, flags, o), Minus(ClaimOf(f), ClaimOf(flags[i])))
                else Claims(objs, flags, o)
      {
        ClaimsSet(objs, flags, i, f, o);
      }
    }

    /** submit_lookup_objects for the handles that can be found. */
    method Lookup(found: seq<nat>, presumed: seq<nat>)
      requires Valid() && objs == [] && |presumed| == |found|
      requires forall i :: 0 <= i < |found| ==> found[i] < |base|
      modifies this
      ensures Valid() && objs == found && iova == presumed && base == old(base)
      ensures forall i :: 0 <= i < |flags| ==> flags[i] == None().(ref := true)
    {
      var n := 0;
      assert found[..0] == [] && presumed[..0] == [];
      while n < |found|
        invariant Valid() && n <= |found| && objs == found[..n] && iova == presumed[..n] && base == old(base)
        invariant forall i :: 0 <= i < n ==> flags[i] == None().(ref := true)
      {
        AddEntry(found[n], presumed[n]);
        assert found[..n + 1] == found[..n] + [found[n]] && presumed[..n + 1] == presumed[..n] + [presumed[n]];
        n := n + 1;
      }
      assert found[..n] == found && presumed[..n] == presumed;
    }

    method AddEntry(o: nat, presumed: nat)
      requires Valid() && o < |base|
      modifies `objs, `flags, `iova, `world
      ensures Valid() && objs == old(objs) + [o] && iova == old(iova) + [presumed]
      ensures flags == old(flags) + [None().(ref := true)]
    {
      ghost var f := None().(ref := true);
      forall p | 0 <= p < |base|
        ensures Claims(objs + [o], flags + [f], p) ==
                if p == o then Plus(Claims(objs, flags, p), ClaimOf(f)) else Claims(objs, flags, p)
      {
        assert (objs + [o])[..|objs|] == objs && (flags + [f])[..|flags|] == flags;
      }
      world := world[o := world[o].(refs := world[o].refs + 1)];
      objs, flags, iova := objs + [o], flags + [None().(ref := true)], iova + [presumed];
    }

    /** submit_cleanup_bo: drops those claims of the entry that are in `drop`. */
    method CleanupBo(i: nat, drop: Flags)
      requires Valid() && i < |objs| && !drop.ref && !drop.valid
      modifies `flags, `world
      ensures Valid() && flags == old(flags)[i := Without(old(flags)[i], drop)]
    {
      var o, f := objs[i], flags[i];
      ClaimsWith(i, Without(f, drop));
      flags := flags[i := Without(f, drop)];
      var counts := world[o];
      if f.vmaPinned && drop.vmaPinned {
        counts := counts.(inuse := counts.inuse - 1);
      }
      if f.objPinned && drop.objPinned {
        counts := counts.(pins := counts.pins - 1);
      }
      if f.active && drop.active {
        counts := counts.(actives := counts.actives - 1);
      }
      if f.locked && drop.locked {
        counts := counts.(locks := counts.locks - 1);
      }
      world := world[o := counts];
    }

    /** submit_unlock_unpin_bo: the presumed address of an entry not found valid is forgotten. */
    method UnlockUnpinBo(i: nat)
      requires Valid() && i < |objs|
      modifies `flags, `world, `iova
      ensures Valid() && flags == old(flags)[i := Without(old(flags)[i], All())]
      ensures iova == if old(flags)[i].valid then old(iova) else old(iova)[i := 0]
    {
      CleanupBo(i, All());
      if !flags[i].valid {
        iova := iova[i := 0];
      }
    }

    /** drm_gem_object_put on the entry's object. */
    method PutBo(i: nat)
      requires Valid() && i < |objs| && flags[i].ref
      modifies `flags, `world
      ensures Valid() && flags == old(flags)[i := old(flags)[i].(ref := false)]
    {
      ClaimsWith(i, flags[i].(ref := false));
      var o := objs[i];
      world := world[o := world[o].(refs := world[o].refs - 1)];
      flags := flags[i := flags[i].(ref := false)];
    }

    // -------------------------------------------------------------- locking

    /** The first `n` entries and entry `slow` are locked; nothing else but the references is
        claimed. */
    ghost predicate LockState(n: int, slow: int)
      reads this
    {
      forall i :: 0 <= i < |flags| ==> flags[i] == None().(ref := true, locked := i < n || i == slow)
    }

    method TakeLock(i: nat)
      requires Valid() && i < |objs| && !flags[i].locked
      modifies `flags, `world
      ensures Valid() && flags == old(flags)[i := old(flags)[i].(locked := true)]
    {
      ClaimsWith(i, flags[i].(locked := true));
      var o := objs[i];
      world := world[o := world[o].(locks := world[o].locks + 1)];
      flags := flags[i := flags[i].(locked := true)];
    }

    /** One pass of submit_lock_objects. It stops at the entry that cannot be locked. */
    method TryLockAll(outcomes: seq<Outcome>, slow0: int) returns (i: nat, slow: int, ret: Attempt, rest: seq<Outcome>)
      requires Valid() && -1 <= slow0 < |objs| && LockState(0, slow0)
      modifies `flags, `world
      ensures Valid() && |rest| <= |outcomes| && (ret == MustWait ==> |rest| < |outcomes|)
      ensures ret == Locked <==> i == |objs|
      ensures slow == -1 || i < slow == slow0
      ensures LockState(i, slow)
      ensures ret == Locked ==> Distinct(objs)
      ensures ret == Already ==> !Distinct(objs)
      ensures i <= |objs|
      ensures PassUses(outcomes, rest, if ret == MustWait then i + 1 else i, if ret == MustWait then 1 else 0)
      ensures ret == Signal ==> i < |objs| && (rest == [] || rest[0] == Interrupted)
    {
      i, slow, rest := 0, slow0, outcomes;
      while i < |objs|
        invariant Valid() && i <= |objs| && PassUses(outcomes, rest, i, 0)
        invariant slow == -1 || i <= slow == slow0
        invariant LockState(i, slow)
        invariant forall a, b :: 0 <= a < b < |objs| && flags[a].locked && flags[b].locked ==> objs[a] != objs[b]
      {
        if slow == i {
          slow := -1;
        }
        if !flags[i].locked {
          LocksCount(objs, flags, objs[i]);
          if world[objs[i]].locks > 0 {
            return i, slow, Already, rest;
          }
          if rest == [] || rest[0] == Interrupted {
            return i, slow, Signal, rest;
          }
          var outcome := rest[0];
          rest := rest[1..];
          if outcome == Deadlock {
            return i, slow, MustWait, rest;
          }
          TakeLock(i);
        }
        i := i + 1;
      }
      return i, slow, Locked, rest;
    }

    /** The unwinding at the label fail. */
    method UnlockAll(i: nat, slow: int)
      requires Valid() && i < |objs| && (slow == -1 || i < slow < |objs|)
      requires LockState(i, slow)
      modifies `flags, `world, `iova
      ensures Valid() && LockState(0, -1)
      ensures forall k :: 0 <= k < |objs| ==> iova[k] == old(iova)[k] || iova[k] == 0
    {
      var k: int := i;
      while k >= 0
        invariant Valid() && -1 <= k <= i
        invariant LockState(if k < i then k + 1 else i, slow)
        invariant forall p :: 0 <= p < |objs| ==> iova[p] == old(iova)[p] || iova[p] == 0
      {
        UnlockUnpinBo(k);
        k := k - 1;
      }
      if slow > 0 {
        UnlockUnpinBo(slow);
      }
    }

    /** submit_lock_objects: all or nothing. Success holds the lock of every buffer exactly once, any
        error holds none, and none is held when the contended one is waited for. It succeeds unless a
        buffer is listed twice or a signal comes; losing the race for a lock is no reason to fail. */
    method LockObjects(outcomes: seq<Outcome>) returns (ret: Ret)
      requires Valid() && LockState(0, -1)
      modifies `flags, `world, `iova
      ensures Valid()
      ensures ret != Success ==> LockState(0, -1) && forall o :: 0 <= o < |base| ==> world[o].locks == 0
      ensures ret == Success ==>
                && LockState(|objs|, -1) && Distinct(objs)
                && (forall o :: 0 <= o < |base| ==> world[o].locks == One(o in objs))
      ensures forall k :: 0 <= k < |objs| ==> iova[k] == old(iova)[k] || iova[k] == 0
      ensures ret == Einval ==> !Distinct(objs)
      ensures ret == Eintr ==> !Calm(outcomes, |objs|)
    {
      var slow, rest := -1, outcomes;
      while true
        invariant Valid() && -1 <= slow < |objs| && LockState(0, slow)
        invariant Calm(outcomes, |objs|) ==> Calm(rest, |objs|)
        invariant forall k :: 0 <= k < |objs| ==> iova[k] == old(iova)[k] || iova[k] == 0
        decreases |rest|
      {
        var contended, attempt;
        ghost var before := rest;
        contended, slow, attempt, rest := TryLockAll(rest, slow);
        if attempt == Locked {
          EachHeldOnce();
          return Success;
        }
        UnlockAll(contended, slow);
        NoneHeld();
        if attempt == Already {
          return Einval;
        }
        if Calm(before, |objs|) {
          StaysCalm(before, rest, |objs|, if attempt == MustWait then 1 else 0);
        }
        if attempt == Signal || rest == [] || rest[0] == Interrupted {
          return Eintr;
        }
        assert forall o :: 0 <= o < |base| ==> world[o].locks == 0;
        rest := rest[1..];
        TakeLock(contended);
        slow := contended;
      }
    }

    lemma NoneHeld()
      requires Valid() && LockState(0, -1)
      ensures forall o :: 0 <= o < |base| ==> world[o].locks == 0
    {
      forall o | 0 <= o < |base| ensures world[o].locks == 0 {
        LocksCount(objs, flags, o);
      }
    }

    lemma EachHeldOnce()
      requires Valid() && LockState(|objs|, -1)
      requires Distinct(objs)
      ensures forall o :: 0 <= o < |base| ==> world[o].locks == One(o in objs)
    {
      forall o | 0 <= o < |base| ensures world[o].locks == One(o in objs) {
        LocksOfDistinct(objs, flags, o);
      }
    }

    // -------------------------------------------------------------- pinning

    method MakeActive(i: nat)
      requires Valid() && i < |objs| && !flags[i].active
      modifies `flags, `world
      ensures Valid() && flags == old(flags)[i := old(flags)[i].(active := true)]
    {
      ClaimsWith(i, flags[i].(active := true));
      var o := objs[i];
      world := world[o := world[o].(actives := world[o].actives + 1)];
      flags := flags[i := flags[i].(active := true)];
    }

    method PinBo(i: nat, valid: bool)
      requires Valid() && i < |objs| && !flags[i].objPinned && !flags[i].vmaPinned
      modifies `flags, `world
      ensures Valid()
      ensures flags == old(flags)[i := old(flags)[i].(objPinned := true, vmaPinned := true, valid := valid)]
    {
      var f := flags[i].(objPinned := true, vmaPinned := true, valid := valid);
      ClaimsWith(i, f);
      var o := objs[i];
      world := world[o := world[o].(pins := world[o].pins + 1, inuse := world[o].inuse + 1)];
      flags := flags[i := f];
    }

    /** submit_pin_objects. `addrs` are the addresses of the mappings; pinning the buffer `failAt`
        fails, if there is one. `allValid` is submit->valid. */
    method PinObjects(addrs: seq<nat>, failAt: nat) returns (ok: bool, allValid: bool)
      requires Valid() && |addrs| == |objs| && LockState(|objs|, -1)
      modifies `flags, `world, `iova
      ensures Valid() && forall i :: 0 <= i < |flags| ==> flags[i].ref
      ensures ok <==> failAt >= |objs|
      ensures ok ==> iova == addrs && (allValid <==> old(iova) == addrs)
      ensures ok ==> forall i :: 0 <= i < |flags| ==>
                flags[i] == Flags(true, true, true, true, true, old(iova)[i] == addrs[i])
    {
      var i := 0;
      while i < |objs|
        invariant Valid() && i <= |objs| && iova == old(iova)
        invariant forall k :: 0 <= k < |flags| ==> flags[k] == Flags(true, true, k < i, false, false, false)
      {
        MakeActive(i);
        i := i + 1;
      }
      allValid, i := true, 0;
      while i < |objs|
        invariant Valid() && i <= |objs| && i <= failAt
        invariant forall k :: 0 <= k < i ==>
                    iova[k] == addrs[k] && flags[k] == Flags(true, true, true, true, true, old(iova)[k] == addrs[k])
        invariant forall k :: i <= k < |flags| ==>
                    iova[k] == old(iova)[k] && flags[k] == Flags(true, true, true, false, false, false)
        invariant allValid <==> forall k :: 0 <= k < i ==> old(iova)[k] == addrs[k]
      {
        if i == failAt {
          return false, allValid;
        }
        PinBo(i, addrs[i] == iova[i]);
        if addrs[i] != iova[i] {
          iova := iova[i := addrs[i]];
          allValid := false;
        }
        i := i + 1;
      }
      return true, allValid;
    }

    // -------------------------------------------------------------- the end

    /** submit_cleanup: after an error nothing is left, otherwise only the locks go. */
    method Cleanup(error: bool)
      requires Valid() && forall i :: 0 <= i < |flags| ==> flags[i].ref
      modifies `flags, `world
      ensures Valid() && |flags| == |old(flags)|
      ensures error ==> world == base
      ensures !error ==> forall i :: 0 <= i < |flags| ==> flags[i] == old(flags)[i].(locked := false)
    {
      var drop := if error then All() else None().(locked := true);
      var i := 0;
      while i < |objs|
        invariant Valid() && i <= |objs|
        invariant forall k :: 0 <= k < i ==>
                    if error then ClaimOf(flags[k]) == Zero() else flags[k] == old(flags)[k].(locked := false)
        invariant forall k :: i <= k < |flags| ==> flags[k] == old(flags)[k]
      {
        CleanupBo(i, drop);
        if error {
          PutBo(i);
        }
        i := i + 1;
      }
      if error {
        NothingLeft();
      }
    }

    /** The submit is on its way: every buffer is referenced, active and pinned, none is locked. */
    ghost predicate InFlight(vmaPinned: bool)
      reads this
    {
      forall i :: 0 <= i < |flags| ==> flags[i] == Flags(true, false, true, true, vmaPinned, flags[i].valid)
    }

    /** The loop of msm_job_run: the VMA pins are dropped, and only those. */
    method RunJob()
      requires Valid() && InFlight(true)
      modifies `flags, `world
      ensures Valid() && InFlight(false) && |flags| == |old(flags)|
    {
      var i := 0;
      while i < |objs|
        invariant Valid() && i <= |objs|
        invariant forall k :: 0 <= k < |flags| ==> flags[k] == Flags(true, false, true, true, k >= i, flags[k].valid)
      {
        CleanupBo(i, None().(vmaPinned := true));
        i := i + 1;
      }
    }

    /** msm_submit_retire. */
    method RetireBos()
      requires Valid() && InFlight(false)
      modifies `flags, `world
      ensures Valid() && world == base
    {
      var i := 0;
      while i < |objs|
        invariant Valid() && i <= |objs|
        invariant forall k :: 0 <= k < i ==> ClaimOf(flags[k]) == Zero()
        invariant forall k :: i <= k < |flags| ==> flags[k] == Flags(true, false, true, true, false, flags[k].valid)
      {
        CleanupBo(i, None().(objPinned := true, active := true));
        PutBo(i);
        i := i + 1;
      }
      NothingLeft();
    }

    /** msm_ioctl_gem_submit as far as its buffers go. The arguments say what goes wrong where: a
        handle is not found, a lock is not had, dependencies cannot be collected, a buffer cannot be
        pinned, a command is invalid. A failure before arming leaves every count as it was. Nothing
        else but a buffer that is listed twice and a signal makes it fail. */
    method Ioctl(found: seq<nat>, presumed: seq<nat>, lookupOk: bool, outcomes: seq<Outcome>, depsOk: bool,
                 addrs: seq<nat>, failAt: nat, cmdsOk: bool)
      returns (ok: bool)
      requires Valid() && objs == [] && |presumed| == |found| == |addrs|
      requires forall i :: 0 <= i < |found| ==> found[i] < |base|
      modifies this
      ensures Valid() && base == old(base)
      ensures !ok ==> world == base
      ensures ok ==> InFlight(true) && objs == found && iova == addrs
      ensures ok ==> lookupOk && Distinct(found) && depsOk && failAt >= |found| && cmdsOk
      ensures lookupOk && Distinct(found) && depsOk && failAt >= |found| && cmdsOk && Calm(outcomes, |found|) ==> ok
    {
      Lookup(found, presumed);
      if !lookupOk {
        Cleanup(true);
        return false;
      }
      var ret := LockObjects(outcomes);
      if ret != Success || !depsOk {
        Cleanup(true);
        return false;
      }
      var pinned, allValid := PinObjects(addrs, failAt);
      if !pinned || !cmdsOk {
        Cleanup(true);
        return false;
      }
      Cleanup(false);
      return true;
    }

    /** A submit that went through, ran and retired leaves every count as it was before the ioctl. */
    method RunAndRetire()
      requires Valid() && InFlight(true)
      modifies `flags, `world
      ensures Valid() && world == base
    {
      RunJob();
      RetireBos();
    }
  }

  ghost predicate Distinct(objs: seq<nat>) {
    forall a, b :: 0 <= a < b < |objs| ==> objs[a] != objs[b]
  }

  /** How often a lock is lost to somebody else. */
  function Deadlocks(outcomes: seq<Outcome>): nat {
    if outcomes == [] then 0 else Deadlocks(outcomes[1..]) + if outcomes[0] == Deadlock then 1 else 0
  }

  /** No signal comes, and there are outcomes for as many passes over `n` buffers as are needed. */
  ghost predicate Calm(outcomes: seq<Outcome>, n: nat) {
    Interrupted !in outcomes && |outcomes| >= (n + 1) * (Deadlocks(outcomes) + 1)
  }

  /** From `outcomes` down to `rest` at most `n` were used, `dead` of them for a lost lock. */
  ghost predicate PassUses(outcomes: seq<Outcome>, rest: seq<Outcome>, n: nat, dead: nat) {
    && |outcomes| - n <= |rest| <= |outcomes| && Deadlocks(outcomes) == Deadlocks(rest) + dead
    && (Interrupted !in outcomes ==> Interrupted !in rest)
  }

  /** A pass leaves enough for the next one, and for taking the contended lock before it. */
  lemma StaysCalm(outcomes: seq<Outcome>, rest: seq<Outcome>, n: nat, dead: nat)
    requires PassUses(outcomes, rest, n, dead) && dead <= 1 && Calm(outcomes, n)
    ensures rest != [] && rest[0] != Interrupted
    ensures dead == 1 ==> Calm(rest[1..], n)
  {
    var d := Deadlocks(rest);
    assert (n + 1) * (d + dead + 1) == (n + 1) * (d + 1) + (n + 1) * dead;
    assert rest[0] in rest;
    if dead == 1 {
      assert d >= Deadlocks(rest[1..]);
      Grows(n + 1, Deadlocks(rest[1..]) + 1, d + 1);
    }
  }

  lemma Grows(n: nat, a: nat, b: nat)
    requires a <= b
    ensures n * a <= n * b
  {
  }

  datatype Attempt = Locked | Already | Signal | MustWait

  function All(): Flags {
    Flags(false, true, true, true, true, false)
  }

  function Without(f: Flags, drop: Flags): Flags {
    Flags(f.ref && !drop.ref, f.locked && !drop.locked, f.active && !drop.active, f.objPinned && !drop.objPinned,
          f.vmaPinned && !drop.vmaPinned, f.valid && !drop.valid)
  }

  lemma {:induction false} LocksOfDistinct(objs: seq<nat>, flags: seq<Flags>, o: nat)
    requires |objs| == |flags| && forall i :: 0 <= i < |flags| ==> flags[i].locked
    requires Distinct(objs)
    ensures Claims(objs, flags, o).locks == One(o in objs)
  {
    if objs != [] {
      var n := |objs| - 1;
      LocksOfDistinct(objs[..n], flags[..n], o);
      assert objs == objs[..n] + [objs[n]];
    }
  }
}
