/**
 Residency: what one step undoes of another, and the life of a submit from beginning to end, from any
 sound state. These are statements about the steps on objects, mappings, uses, submits and rings; the
 bookkeeping under mm_lock has its own.
 */
module ResidencyLife {
  import opened JobDeps
  import opened GemObject
  import opened Residency
  import opened ResidencyCore

  // ---------------------------------------------------------------- clients

  /** The object as it was, except that it has pages. */
  predicate SameButPages(obj: Obj, obj': Obj) {
    obj' == obj.(pages := obj'.pages, sgt := obj'.sgt) && obj'.pages
  }

  lemma RefUndone(c: Core, o: nat)
    requires Referenced(c, o)
    ensures var taken := ClientApply(c, TakeRef(o));
            && ClientEnabled(taken, DropRef(|c.uses|)) && taken.objs[o].refs == c.objs[o].refs + 1
            && ClientApply(taken, DropRef(|c.uses|)).objs == c.objs
            && ClientApply(taken, DropRef(|c.uses|)).vmas == c.vmas
  {
    var taken := ClientApply(c, TakeRef(o));
    assert ClientApply(taken, DropRef(|c.uses|)).objs == c.objs;
  }

  lemma PagesUndone(c: Core, o: nat)
    requires Available(c, o) && c.objs[o].madv == WillNeed && c.objs[o].pinCount >= 0
    ensures var pinned := ClientApply(c, PinPages(o, Backed));
            && ClientEnabled(pinned, UnpinPages(|c.uses|)) && pinned.objs[o].pinCount == c.objs[o].pinCount + 1
            && var after := ClientApply(pinned, UnpinPages(|c.uses|));
               && SameButPages(c.objs[o], after.objs[o]) && after.objs == c.objs[o := after.objs[o]]
               && after.vmas == c.vmas
  {
    var pinned := ClientApply(c, PinPages(o, Backed));
    var after := ClientApply(pinned, UnpinPages(|c.uses|));
    assert after.objs == c.objs[o := after.objs[o]];
  }

  lemma IovaUndone(c: Core, o: nat, v: nat)
    requires Available(c, o) && c.objs[o].madv == WillNeed && c.objs[o].pinCount >= 0
    requires v < |c.vmas| && c.vmas[v].live && c.vmas[v].obj == o && c.vmas[v].inuse >= 0
    ensures var pinned := ClientApply(c, PinIova(o, v, Backed, true));
            && ClientEnabled(pinned, UnpinIova(|c.uses|))
            && pinned.objs[o].pinCount == c.objs[o].pinCount + 1
            && pinned.vmas[v] == c.vmas[v].(mapped := true, inuse := c.vmas[v].inuse + 1)
            && var after := ClientApply(pinned, UnpinIova(|c.uses|));
               && SameButPages(c.objs[o], after.objs[o]) && after.objs == c.objs[o := after.objs[o]]
               && after.vmas == c.vmas[v := c.vmas[v].(mapped := true)] && after.warned == c.warned
  {
    var pinned := ClientApply(c, PinIova(o, v, Backed, true));
    assert pinned.uses[|c.uses|] == NewUse(Client, o).(vma := v, objPinned := true, vmaPinned := true);
    var after := ClientApply(pinned, UnpinIova(|c.uses|));
    assert after.objs == c.objs[o := after.objs[o]];
    assert after.vmas == c.vmas[v := c.vmas[v].(mapped := true)];
  }

  /** An object that is brought in, mapped into the kernel by two callers and given back by both can be
      unmapped again; by one only it cannot. */
  lemma VaddrUndone(c: Core, o: nat)
    requires Available(c, o) && c.objs[o].madv == WillNeed && !c.objs[o].imported
    requires !c.objs[o].vaddr && c.objs[o].vmapCount == 0
    ensures var once := ClientApply(c, GetVaddr(o, Backed, true));
            && ClientEnabled(once, GetVaddr(o, Backed, true)) && once.objs[o].vaddr && once.objs[o].vmapCount == 1
            && var twice := ClientApply(once, GetVaddr(o, Backed, true));
               && ClientEnabled(twice, PutVaddr(o)) && twice.objs[o].vmapCount == 2
               && var held := ClientApply(twice, PutVaddr(o));
                  && !ShrinkEnabled(held, Vunmap(o)) && ClientEnabled(held, PutVaddr(o))
                  && var free := ClientApply(held, PutVaddr(o));
                     && ShrinkEnabled(free, Vunmap(o))
                     && SameButPages(c.objs[o], ShrinkApply(free, Vunmap(o)).objs[o])
  {
  }

  /** A mapping is made for an object and an address space once, and can be made again after it was
      cleared. */
  lemma AddressUndone(c: Core, o: nat, a: nat)
    requires Available(c, o) && ClientEnabled(c, GetVma(o, a))
    ensures var made, v := ClientApply(c, GetVma(o, a)), |c.vmas|;
            && |made.vmas| == v + 1 && IsVma(made.vmas[v], o, a) && !made.vmas[v].mapped
            && !ClientEnabled(made, GetVma(o, a)) && ClientEnabled(made, ClearIova(v))
            && var cleared := ClientApply(made, ClearIova(v));
               && cleared.objs == c.objs && cleared.vmas[..v] == c.vmas && |cleared.vmas| == v + 1
               && !cleared.vmas[v].mapped && ClientEnabled(cleared, GetVma(o, a))
  {
  }

  // ---------------------------------------------------------------- shrinking and coming back

  /** An evicted object comes back with the next pin, at the same address. */
  lemma EvictedComesBack(c: Core, o: nat, v: nat)
    requires CoreInv(c) && ShrinkEnabled(c, Evict(o)) && c.objs[o].madv == WillNeed
    requires v < |c.vmas| && c.vmas[v].live && c.vmas[v].obj == o
    ensures var gone := ShrinkApply(c, Evict(o));
            && !gone.objs[o].pages && !gone.vmas[v].mapped && gone.vmas[v].live
            && ClientEnabled(gone, PinIova(o, v, Backed, true))
            && var back := ClientApply(gone, PinIova(o, v, Backed, true));
               back.objs[o].pages && back.objs[o].sgt && back.vmas[v] == c.vmas[v].(mapped := true, inuse := 1)
  {
    NothingCounted(c, o);
    UnpinnedIsNotBusy(c, o);
    assert !VmaBusy(c, c.vmas[v]) && VmaCounted(c.uses, v, c.vmas[v]);
  }

  /** A purged object cannot be pinned again; its mappings are closed. */
  lemma PurgedStaysGone(c: Core, o: nat, how: Backing)
    requires ShrinkEnabled(c, Purge(o))
    ensures var gone := ShrinkApply(c, Purge(o));
            && (forall v :: 0 <= v < |gone.vmas| && gone.vmas[v].obj == o ==> !gone.vmas[v].live)
            && ClientEnabled(gone, Fault(o, how)) && ClientApply(gone, Fault(o, how)).objs == gone.objs
            && UseNotWillNeed in ClientApply(gone, Fault(o, how)).warned
  {
  }

  // ---------------------------------------------------------------- a submit

  /** With one more submit, and one use of it at the end. */
  function With(c: Core, obj: Obj, o: nat, vma: Vma, v: nat, use: Use, sub: Sub): Core
    requires o < |c.objs| && v < |c.vmas|
  {
    c.(objs := c.objs[o := obj], vmas := c.vmas[v := vma], uses := c.uses + [use], subs := c.subs + [sub])
  }

  predicate CanSubmit(c: Core, r: nat, o: nat, v: nat) {
    && r < |c.rings| && Available(c, o) && c.objs[o].madv == WillNeed
    && v < |c.vmas| && c.vmas[v].live && c.vmas[v].obj == o && c.vmas[v].inuse >= 0 && r < |c.vmas[v].fence|
    && c.objs[o].pinCount >= 0 && c.objs[o].activeCount >= 0
  }

  /** Looked up, locked, made active and pinned. */
  function SubmitPinned(c: Core, r: nat, o: nat, v: nat): Core
    requires CanSubmit(c, r, o, v)
  {
    var u, i := |c.subs|, |c.uses|;
    var obj := WithPages(c.objs[o], Backed);
    With(c,
         obj.(refs := obj.refs + 1, activeCount := obj.activeCount + 1, pinCount := obj.pinCount + 1, lock := Some(i)),
         o, c.vmas[v].(mapped := true, inuse := c.vmas[v].inuse + 1), v,
         Use(Submit(u), o, v, true, true, true, true, true), Sub(r, c.vmas[v].aspace, Building))
  }

  lemma LookupAndLock(c: Core, r: nat, o: nat, v: nat) returns (a: Core, b: Core, d: Core)
    requires CanSubmit(c, r, o, v)
    ensures var s := NewSubmit(r, c.vmas[v].aspace);
            SubmitEnabled(c, s) && a == SubmitApply(c, s)
    ensures SubmitEnabled(a, Lookup(|c.subs|, o)) && b == SubmitApply(a, Lookup(|c.subs|, o))
    ensures SubmitEnabled(b, Lock(|c.uses|)) && d == SubmitApply(b, Lock(|c.uses|))
    ensures d == With(c, c.objs[o].(refs := c.objs[o].refs + 1, lock := Some(|c.uses|)), o, c.vmas[v], v,
                      NewUse(Submit(|c.subs|), o).(locked := true), Sub(r, c.vmas[v].aspace, Building))
  {
    a := SubmitApply(c, NewSubmit(r, c.vmas[v].aspace));
    b := SubmitApply(a, Lookup(|c.subs|, o));
    d := SubmitApply(b, Lock(|c.uses|));
    assert d.uses == c.uses + [NewUse(Submit(|c.subs|), o).(locked := true)];
  }

  /** The ioctl gets as far as having the buffer pinned. */
  lemma PinGetsThrough(c: Core, r: nat, o: nat, v: nat) returns (d: Core, e: Core, f: Core)
    requires CanSubmit(c, r, o, v)
    ensures SubmitEnabled(d, Activate(|c.uses|)) && e == SubmitApply(d, Activate(|c.uses|))
    ensures SubmitEnabled(e, Pin(|c.uses|, v, Backed, true)) && f == SubmitApply(e, Pin(|c.uses|, v, Backed, true))
    ensures f == SubmitPinned(c, r, o, v)
  {
    var a, b;
    a, b, d := LookupAndLock(c, r, o, v);
    e := SubmitApply(d, Activate(|c.uses|));
    f := SubmitApply(e, Pin(|c.uses|, v, Backed, true));
    assert f.uses == SubmitPinned(c, r, o, v).uses;
    assert f.objs == SubmitPinned(c, r, o, v).objs;
    assert f.vmas == SubmitPinned(c, r, o, v).vmas;
  }

  /** Backing off keeps the reference and nothing else, failing keeps nothing. */
  lemma FailUndoes(c: Core, r: nat, o: nat, v: nat)
    requires CanSubmit(c, r, o, v)
    ensures var f, i := SubmitPinned(c, r, o, v), |c.uses|;
            && SubmitEnabled(f, Fail(i)) && SubmitEnabled(f, BackOff(i))
            && SameButPages(c.objs[o], SubmitApply(f, Fail(i)).objs[o])
            && SubmitApply(f, Fail(i)).vmas == c.vmas[v := c.vmas[v].(mapped := true)]
            && SameButPages(c.objs[o].(refs := c.objs[o].refs + 1), SubmitApply(f, BackOff(i)).objs[o])
  {
    var f, i := SubmitPinned(c, r, o, v), |c.uses|;
    assert SubmitApply(f, Fail(i)).vmas == c.vmas[v := c.vmas[v].(mapped := true)];
  }

  /** Pushed and unlocked. */
  function SubmitQueued(c: Core, r: nat, o: nat, v: nat): Core
    requires CanSubmit(c, r, o, v)
  {
    var f := SubmitPinned(c, r, o, v);
    With(c, f.objs[o].(lock := None), o, f.vmas[v], v,
         Use(Submit(|c.subs|), o, v, true, false, true, true, true), Sub(r, c.vmas[v].aspace, Queued))
  }

  lemma PushGetsThrough(c: Core, r: nat, o: nat, v: nat) returns (g: Core, h: Core)
    requires CanSubmit(c, r, o, v) && forall i :: 0 <= i < |c.uses| ==> !OfSub(c.uses[i], |c.subs|)
    ensures var f := SubmitPinned(c, r, o, v);
            SubmitEnabled(f, Push(|c.subs|)) && g == SubmitApply(f, Push(|c.subs|))
    ensures SubmitEnabled(g, Unlock(|c.uses|)) && h == SubmitApply(g, Unlock(|c.uses|))
    ensures h == SubmitQueued(c, r, o, v)
  {
    var f := SubmitPinned(c, r, o, v);
    g := SubmitApply(f, Push(|c.subs|));
    h := SubmitApply(g, Unlock(|c.uses|));
    assert h.uses == SubmitQueued(c, r, o, v).uses;
    assert h.objs == SubmitQueued(c, r, o, v).objs;
    assert h.subs == SubmitQueued(c, r, o, v).subs;
  }

  /** Run: the ring has one fence more, and the mapping's pin has become that fence. */
  function SubmitRun(c: Core, r: nat, o: nat, v: nat): Core
    requires CanSubmit(c, r, o, v)
  {
    var h, n := SubmitQueued(c, r, o, v), c.rings[r].last + 1;
    With(c, h.objs[o], o, c.vmas[v].(mapped := true, fence := c.vmas[v].fence[r := n]), v,
         Use(Submit(|c.subs|), o, v, true, false, true, true, false), Sub(r, c.vmas[v].aspace, OnRing(n)))
      .(rings := c.rings[r := c.rings[r].(last := n)])
  }

  lemma RunGetsThrough(c: Core, r: nat, o: nat, v: nat) returns (j: Core, k: Core, l: Core)
    requires CanSubmit(c, r, o, v) && forall i :: 0 <= i < |c.uses| ==> !OfSub(c.uses[i], |c.subs|)
    requires c.rings[r].runner == None
    ensures var h := SubmitQueued(c, r, o, v);
            JobEnabled(h, StartJob(|c.subs|)) && j == JobApply(h, StartJob(|c.subs|))
    ensures JobEnabled(j, HandOff(|c.uses|)) && k == JobApply(j, HandOff(|c.uses|))
    ensures JobEnabled(k, Submitted(|c.subs|)) && l == JobApply(k, Submitted(|c.subs|))
    ensures l == SubmitRun(c, r, o, v)
  {
    var h := SubmitQueued(c, r, o, v);
    j := JobApply(h, StartJob(|c.subs|));
    k := JobApply(j, HandOff(|c.uses|));
    l := JobApply(k, Submitted(|c.subs|));
    assert l.uses == SubmitRun(c, r, o, v).uses;
    assert l.subs == SubmitRun(c, r, o, v).subs;
    assert l.rings == SubmitRun(c, r, o, v).rings;
    assert l.vmas == SubmitRun(c, r, o, v).vmas;
  }

  /** When the hardware has come to its fence the submit retires, and the object is as it was before, with
      its pages and its mapping; until then it cannot. */
  lemma RetireGetsThrough(c: Core, r: nat, o: nat, v: nat) returns (m: Core, n: Core)
    requires CanSubmit(c, r, o, v) && c.rings[r].runner == None && c.rings[r].completed == c.rings[r].last
    ensures var l := SubmitRun(c, r, o, v);
            && !JobEnabled(l, Retire(|c.uses|)) && VmaBusy(l, l.vmas[v])
            && JobEnabled(l, Complete(r)) && m == JobApply(l, Complete(r))
    ensures JobEnabled(m, Retire(|c.uses|)) && n == JobApply(m, Retire(|c.uses|))
    ensures SameButPages(c.objs[o], n.objs[o]) && n.vmas[v].mapped && n.vmas[v].inuse == c.vmas[v].inuse
    ensures !n.uses[|c.uses|].ref && n.rings[r].completed == c.rings[r].last + 1
  {
    var l := SubmitRun(c, r, o, v);
    assert Unfinished(l, r, l.vmas[v].fence[r]);
    m := JobApply(l, Complete(r));
    n := JobApply(m, Retire(|c.uses|));
  }
}
