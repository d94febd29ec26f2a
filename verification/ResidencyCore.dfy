/**
 Residency, first half: what every step keeps of objects, mappings, uses and fences, and why no
 mapping or page goes away while it is needed.
 */
module ResidencyCore {
  import opened JobDeps
  import opened GemObject
  import opened LruLists
  import opened Inactive
  import opened Residency

  // ---------------------------------------------------------------- counting

  /** The claims that a count of the driver stands for. */
  datatype Claim = PinsObj(o: nat) | Activates(o: nat) | Refers(o: nat) | PinsVma(v: nat)

  function Match(claim: Claim, use: Use): nat {
    match claim
    case PinsObj(o) => if use.obj == o && use.objPinned then 1 else 0
    case Activates(o) => if use.obj == o && use.active then 1 else 0
    case Refers(o) => if use.obj == o && use.ref then 1 else 0
    case PinsVma(v) => if use.vma == v && use.vmaPinned then 1 else 0
  }

  function Count(uses: seq<Use>, claim: Claim): nat {
    if uses == [] then 0 else Count(uses[..|uses| - 1], claim) + Match(claim, uses[|uses| - 1])
  }

  lemma {:induction false} CountSet(uses: seq<Use>, i: nat, use: Use, claim: Claim)
    requires i < |uses|
    ensures Count(uses[i := use], claim) == Count(uses, claim) - Match(claim, uses[i]) + Match(claim, use)
  {
    var last := |uses| - 1;
    if i < last {
      CountSet(uses[..last], i, use, claim);
      assert uses[i := use][..last] == uses[..last][i := use];
    } else {
      assert uses[i := use][..last] == uses[..last];
    }
  }

  lemma CountAdd(uses: seq<Use>, use: Use, claim: Claim)
    ensures Count(uses + [use], claim) == Count(uses, claim) + Match(claim, use)
  {
    assert (uses + [use])[..|uses|] == uses;
  }

  /** A claim is counted iff some use makes it. */
  lemma {:induction false} CountAtLeast(uses: seq<Use>, i: nat, claim: Claim)
    requires i < |uses|
    ensures Count(uses, claim) >= Match(claim, uses[i])
  {
    if i < |uses| - 1 {
      CountAtLeast(uses[..|uses| - 1], i, claim);
    }
  }

  lemma {:induction false} CountNone(uses: seq<Use>, claim: Claim)
    requires forall i :: 0 <= i < |uses| ==> Match(claim, uses[i]) == 0
    ensures Count(uses, claim) == 0
  {
    if uses != [] {
      CountNone(uses[..|uses| - 1], claim);
    }
  }

  // ---------------------------------------------------------------- invariant: uses, pins and fences

  /** The mapping that the use relies on is in place. */
  predicate Mapped(c: Core, use: Use) {
    && use.vma < |c.vmas| && c.vmas[use.vma].live && c.vmas[use.vma].obj == use.obj
    && c.vmas[use.vma].mapped
  }

  /** A submit's use whose VMA pin was swapped for the fence `seqno`: as long as the fence is
      unfinished the mapping is there and remembers a fence that is no earlier. */
  predicate Fenced(c: Core, sub: Sub, use: Use, seqno: nat) {
    Unfinished(c, sub.ring, seqno) ==>
      && Mapped(c, use) && c.vmas[use.vma].aspace == sub.aspace
      && sub.ring < |c.vmas[use.vma].fence| && c.vmas[use.vma].fence[sub.ring] >= seqno
  }

  predicate SubUseOk(c: Core, sub: Sub, use: Use) {
    && (use.objPinned ==> use.active)
    && (use.vmaPinned ==> use.vma < |c.vmas| && c.vmas[use.vma].aspace == sub.aspace)
    && match sub.phase
       case Building => (!use.locked ==> !use.active) && (use.objPinned ==> use.vmaPinned)
       case Queued => use.ref && use.objPinned && use.vmaPinned
       case Running(seqno) => use.ref && use.objPinned && (use.vmaPinned || Fenced(c, sub, use, seqno))
       case OnRing(seqno) =>
         && !use.vmaPinned && use.active == use.objPinned == use.ref
         && (use.objPinned ==> Fenced(c, sub, use, seqno))
         && (!use.objPinned ==> !Unfinished(c, sub.ring, seqno))
  }

  predicate UseOk(c: Core, use: Use) {
    && use.obj < |c.objs|
    && (use.locked || use.active || use.objPinned ==> use.ref)
    && (use.ref ==> c.objs[use.obj].live)
    && (use.vmaPinned ==> use.objPinned && Mapped(c, use))
    && match use.holder
       case Client => !use.locked && !use.active
       case Submit(u) => u < |c.subs| && SubUseOk(c, c.subs[u], use)
  }

  ghost predicate UsesOk(c: Core) {
    forall i :: 0 <= i < |c.uses| ==> UseOk(c, c.uses[i])
  }

  ghost predicate LocksOk(c: Core) {
    && (forall i :: 0 <= i < |c.uses| && c.uses[i].locked ==>
          c.uses[i].obj < |c.objs| && c.objs[c.uses[i].obj].lock == Some(i))
    && (forall o :: 0 <= o < |c.objs| && c.objs[o].lock.Some? ==>
          && c.objs[o].lock.value < |c.uses| && c.uses[c.objs[o].lock.value].locked
          && c.uses[c.objs[o].lock.value].obj == o)
  }

  predicate ObjCounted(uses: seq<Use>, o: nat, obj: Obj) {
    && obj.pinCount == Count(uses, PinsObj(o)) && obj.activeCount == Count(uses, Activates(o))
    && obj.refs == Count(uses, Refers(o))
  }

  predicate VmaCounted(uses: seq<Use>, v: nat, vma: Vma) {
    vma.inuse == Count(uses, PinsVma(v))
  }

  ghost predicate CountsOk(c: Core) {
    && (forall o :: 0 <= o < |c.objs| ==> ObjCounted(c.uses, o, c.objs[o]))
    && (forall v :: 0 <= v < |c.vmas| ==> VmaCounted(c.uses, v, c.vmas[v]))
  }

  predicate VmaOk(c: Core, vma: Vma) {
    && vma.obj < |c.objs| && |vma.fence| == |c.rings|
    && (vma.live ==> c.objs[vma.obj].live)
    && (vma.mapped ==> vma.live && c.objs[vma.obj].pages)
  }

  ghost predicate VmasOk(c: Core) {
    forall v :: 0 <= v < |c.vmas| ==> VmaOk(c, c.vmas[v])
  }

  /** Use `i` of object `o` is pinned until the fence `seqno` of ring `r` is finished. */
  predicate PinnedUntil(c: Core, i: nat, o: nat, r: nat, seqno: nat) {
    && UseOfSubmit(c, i) && c.uses[i].obj == o && c.uses[i].objPinned
    && SubOf(c, i).ring == r && (SubOf(c, i).phase == Running(seqno) || SubOf(c, i).phase == OnRing(seqno))
  }

  /** A fence that a VMA remembers keeps its object pinned. */
  ghost predicate FenceOk(c: Core, vma: Vma, r: nat)
    requires r < |vma.fence|
  {
    Unfinished(c, r, vma.fence[r]) ==> exists i :: PinnedUntil(c, i, vma.obj, r, vma.fence[r])
  }

  ghost predicate FencesOk(c: Core) {
    forall v, r :: 0 <= v < |c.vmas| && 0 <= r < |c.vmas[v].fence| ==> FenceOk(c, c.vmas[v], r)
  }

  predicate RingOk(c: Core, r: nat, ring: Ring) {
    && ring.completed <= ring.last
    && (ring.runner.Some? ==>
          && ring.completed < ring.last && ring.runner.value < |c.subs|
          && c.subs[ring.runner.value].ring == r && c.subs[ring.runner.value].phase == Running(ring.last))
  }

  predicate SubOk(c: Core, u: nat, sub: Sub) {
    && sub.ring < |c.rings|
    && (sub.phase.OnRing? ==> sub.phase.seqno <= c.rings[sub.ring].last)
    && (sub.phase.Running? ==> c.rings[sub.ring].runner == Some(u) && sub.phase.seqno == c.rings[sub.ring].last)
  }

  ghost predicate RingsOk(c: Core) {
    && (forall r :: 0 <= r < |c.rings| ==> RingOk(c, r, c.rings[r]))
    && (forall u :: 0 <= u < |c.subs| ==> SubOk(c, u, c.subs[u]))
  }

  ghost predicate CoreInv(c: Core) {
    UsesOk(c) && LocksOk(c) && CountsOk(c) && VmasOk(c) && FencesOk(c) && RingsOk(c)
  }

  /** Nothing that a use relies on was taken from the object. */
  predicate ObjGrows(a: Obj, b: Obj) {
    && a.live == b.live && a.pinCount == b.pinCount && a.activeCount == b.activeCount && a.refs == b.refs
    && a.lock == b.lock && (a.pages ==> b.pages)
  }

  ghost predicate Grows(c: Core, c': Core) {
    && c'.vmas == c.vmas && c'.uses == c.uses && c'.subs == c.subs && c'.rings == c.rings
    && |c'.objs| == |c.objs|
    && forall o :: 0 <= o < |c.objs| ==> ObjGrows(c.objs[o], c'.objs[o])
  }

  lemma GrowsKeeps(c: Core, c': Core)
    requires Grows(c, c') && CoreInv(c)
    ensures CoreInv(c')
  {
    FencesSteady(c, c');
  }

  /** A fence that is still unfinished is guarded by the same use as before. */
  lemma FencesFrame(c: Core, c': Core)
    requires FencesOk(c) && |c'.rings| == |c.rings| && |c'.vmas| == |c.vmas|
    requires forall r :: 0 <= r < |c.rings| ==> c.rings[r].completed <= c'.rings[r].completed
    requires forall i, o, r, seqno ::
               PinnedUntil(c, i, o, r, seqno) && Unfinished(c', r, seqno) ==> PinnedUntil(c', i, o, r, seqno)
    requires forall v :: 0 <= v < |c.vmas| ==> c'.vmas[v].fence == c.vmas[v].fence && c'.vmas[v].obj == c.vmas[v].obj
    ensures FencesOk(c')
  {
    forall v, r | 0 <= v < |c'.vmas| && 0 <= r < |c'.vmas[v].fence| ensures FenceOk(c', c'.vmas[v], r) {
      assert FenceOk(c, c.vmas[v], r);
      if Unfinished(c', r, c.vmas[v].fence[r]) {
        var i :| PinnedUntil(c, i, c.vmas[v].obj, r, c.vmas[v].fence[r]);
        assert PinnedUntil(c', i, c'.vmas[v].obj, r, c'.vmas[v].fence[r]);
      }
    }
  }

  /** No use lets go of a pin, and submits, rings and remembered fences are the same. */
  lemma FencesSteady(c: Core, c': Core)
    requires FencesOk(c) && c'.rings == c.rings && c'.subs == c.subs
    requires |c'.vmas| == |c.vmas| && |c'.uses| >= |c.uses|
    requires forall k :: 0 <= k < |c.uses| ==>
               && c'.uses[k].holder == c.uses[k].holder && c'.uses[k].obj == c.uses[k].obj
               && (c.uses[k].objPinned ==> c'.uses[k].objPinned)
    requires forall v :: 0 <= v < |c.vmas| ==> c'.vmas[v].fence == c.vmas[v].fence && c'.vmas[v].obj == c.vmas[v].obj
    ensures FencesOk(c')
  {
    FencesFrame(c, c');
  }

  // ---------------------------------------------------------------- counts follow the uses

  /** The counts of object `o` follow from those in `obj` when a use `was` becomes `now`. */
  predicate Recounted(o: nat, obj: Obj, obj': Obj, was: Use, now: Use) {
    && obj'.pinCount == obj.pinCount - Match(PinsObj(o), was) + Match(PinsObj(o), now)
    && obj'.activeCount == obj.activeCount - Match(Activates(o), was) + Match(Activates(o), now)
    && obj'.refs == obj.refs - Match(Refers(o), was) + Match(Refers(o), now)
  }

  predicate VmaRecounted(v: nat, vma: Vma, vma': Vma, was: Use, now: Use) {
    vma'.inuse == vma.inuse - Match(PinsVma(v), was) + Match(PinsVma(v), now)
  }

  lemma CountsSet(c: Core, c': Core, i: nat, now: Use)
    requires CountsOk(c) && i < |c.uses| && c'.uses == c.uses[i := now]
    requires |c'.objs| == |c.objs| && |c'.vmas| == |c.vmas|
    requires forall o :: 0 <= o < |c.objs| ==> Recounted(o, c.objs[o], c'.objs[o], c.uses[i], now)
    requires forall v :: 0 <= v < |c.vmas| ==> VmaRecounted(v, c.vmas[v], c'.vmas[v], c.uses[i], now)
    ensures CountsOk(c')
  {
    forall o | 0 <= o < |c'.objs| ensures ObjCounted(c'.uses, o, c'.objs[o]) {
      assert ObjCounted(c.uses, o, c.objs[o]);
      CountSet(c.uses, i, now, PinsObj(o));
      CountSet(c.uses, i, now, Activates(o));
      CountSet(c.uses, i, now, Refers(o));
    }
    forall v | 0 <= v < |c'.vmas| ensures VmaCounted(c'.uses, v, c'.vmas[v]) {
      assert VmaCounted(c.uses, v, c.vmas[v]);
      CountSet(c.uses, i, now, PinsVma(v));
    }
  }

  lemma CountsAdd(c: Core, c': Core, now: Use)
    requires CountsOk(c) && c'.uses == c.uses + [now]
    requires |c'.objs| == |c.objs| && |c'.vmas| == |c.vmas|
    requires var none := now.(ref := false, active := false, objPinned := false, vmaPinned := false);
             && (forall o :: 0 <= o < |c.objs| ==> Recounted(o, c.objs[o], c'.objs[o], none, now))
             && (forall v :: 0 <= v < |c.vmas| ==> VmaRecounted(v, c.vmas[v], c'.vmas[v], none, now))
    ensures CountsOk(c')
  {
    forall o | 0 <= o < |c'.objs| ensures ObjCounted(c'.uses, o, c'.objs[o]) {
      assert ObjCounted(c.uses, o, c.objs[o]);
      CountAdd(c.uses, now, PinsObj(o));
      CountAdd(c.uses, now, Activates(o));
      CountAdd(c.uses, now, Refers(o));
    }
    forall v | 0 <= v < |c'.vmas| ensures VmaCounted(c'.uses, v, c'.vmas[v]) {
      assert VmaCounted(c.uses, v, c.vmas[v]);
      CountAdd(c.uses, now, PinsVma(v));
    }
  }

  /** What a use claims is counted. */
  lemma UseIsCounted(c: Core, i: nat)
    requires CountsOk(c) && i < |c.uses| && UseOk(c, c.uses[i])
    ensures var obj := c.objs[c.uses[i].obj];
            && obj.pinCount >= 0 && obj.activeCount >= 0
            && (c.uses[i].objPinned ==> obj.pinCount > 0) && (c.uses[i].active ==> obj.activeCount > 0)
            && (c.uses[i].ref ==> obj.refs > 0)
    ensures c.uses[i].vmaPinned ==> c.vmas[c.uses[i].vma].inuse > 0
  {
    var use := c.uses[i];
    assert ObjCounted(c.uses, use.obj, c.objs[use.obj]);
    CountAtLeast(c.uses, i, PinsObj(use.obj));
    CountAtLeast(c.uses, i, Activates(use.obj));
    CountAtLeast(c.uses, i, Refers(use.obj));
    if use.vmaPinned {
      assert VmaCounted(c.uses, use.vma, c.vmas[use.vma]);
      CountAtLeast(c.uses, i, PinsVma(use.vma));
    }
  }

  // ---------------------------------------------------------------- releasing

  /** Who may release: a client, a submit that fails or backs off, a submit whose fence is done. */
  predicate MayRelease(c: Core, i: nat, keepRef: bool) {
    && i < |c.uses|
    && match c.uses[i].holder
       case Client => !keepRef
       case Submit(u) =>
         && u < |c.subs| && c.subs[u].ring < |c.rings|
         && match c.subs[u].phase
            case Building => true
            case OnRing(seqno) => !keepRef && !c.uses[i].locked && seqno <= c.rings[c.subs[u].ring].completed
            case _ => false
  }

  lemma ReleaseKeepsUses(c: Core, i: nat, keepRef: bool)
    requires UsesOk(c) && MayRelease(c, i, keepRef) && VmaKnown(c, c.uses[i])
    ensures UsesOk(Release(c, i, keepRef))
  {
    var c' := Release(c, i, keepRef);
    assert UseOk(c, c.uses[i]);
    forall k | 0 <= k < |c'.uses| ensures UseOk(c', c'.uses[k]) {
      assert UseOk(c, c.uses[k]);
    }
  }

  lemma ReleaseKeepsLocks(c: Core, i: nat, keepRef: bool)
    requires UsesOk(c) && LocksOk(c) && MayRelease(c, i, keepRef) && VmaKnown(c, c.uses[i])
    ensures LocksOk(Release(c, i, keepRef))
  {
    assert UseOk(c, c.uses[i]);
  }

  lemma ReleaseKeepsCounts(c: Core, i: nat, keepRef: bool)
    requires UsesOk(c) && CountsOk(c) && i < |c.uses| && VmaKnown(c, c.uses[i])
    ensures CountsOk(Release(c, i, keepRef)) && Release(c, i, keepRef).warned == c.warned
  {
    assert UseOk(c, c.uses[i]);
    UseIsCounted(c, i);
    CountsSet(c, Release(c, i, keepRef), i, Release(c, i, keepRef).uses[i]);
  }

  lemma ReleaseKeepsFences(c: Core, i: nat, keepRef: bool)
    requires FencesOk(c) && MayRelease(c, i, keepRef) && VmaKnown(c, c.uses[i]) && c.uses[i].obj < |c.objs|
    ensures FencesOk(Release(c, i, keepRef))
  {
    FencesFrame(c, Release(c, i, keepRef));
  }

  lemma ReleaseKeepsRest(c: Core, i: nat, keepRef: bool)
    requires CoreInv(c) && MayRelease(c, i, keepRef) && VmaKnown(c, c.uses[i])
    ensures VmasOk(Release(c, i, keepRef)) && FencesOk(Release(c, i, keepRef)) && RingsOk(Release(c, i, keepRef))
  {
    assert UseOk(c, c.uses[i]);
    ReleaseKeepsFences(c, i, keepRef);
  }

  lemma ReleaseKeeps(c: Core, i: nat, keepRef: bool)
    requires CoreInv(c) && MayRelease(c, i, keepRef) && VmaKnown(c, c.uses[i])
    ensures CoreInv(Release(c, i, keepRef)) && Release(c, i, keepRef).warned == c.warned
  {
    ReleaseKeepsUses(c, i, keepRef);
    ReleaseKeepsLocks(c, i, keepRef);
    ReleaseKeepsCounts(c, i, keepRef);
    ReleaseKeepsRest(c, i, keepRef);
  }

  // ---------------------------------------------------------------- pinning

  lemma PinVmaKeeps(c: Core, o: nat, v: nat, how: Backing, mapOk: bool)
    requires CoreInv(c) && o < |c.objs| && v < |c.vmas| && c.vmas[v].live && c.vmas[v].obj == o
    ensures var c' := PinVma(c, o, v, how, mapOk);
            UsesOk(c') && LocksOk(c') && VmasOk(c') && FencesOk(c') && RingsOk(c')
    ensures !PinSucceeds(c, o, v, how, mapOk) ==> CountsOk(PinVma(c, o, v, how, mapOk))
  {
    if PinSucceeds(c, o, v, how, mapOk) {
      PinVmaKeepsUses(c, o, v, how, mapOk);
      PinVmaKeepsFences(c, o, v, how, mapOk);
    } else {
      GrowsKeeps(c, PinVma(c, o, v, how, mapOk));
    }
  }

  lemma PinVmaKeepsFences(c: Core, o: nat, v: nat, how: Backing, mapOk: bool)
    requires FencesOk(c) && o < |c.objs| && v < |c.vmas|
    ensures FencesOk(PinVma(c, o, v, how, mapOk))
  {
    FencesSteady(c, PinVma(c, o, v, how, mapOk));
  }

  lemma PinVmaKeepsUses(c: Core, o: nat, v: nat, how: Backing, mapOk: bool)
    requires UsesOk(c) && o < |c.objs| && v < |c.vmas| && c.vmas[v].live
    ensures UsesOk(PinVma(c, o, v, how, mapOk))
  {
    var c' := PinVma(c, o, v, how, mapOk);
    forall k | 0 <= k < |c'.uses| ensures UseOk(c', c'.uses[k]) {
      assert UseOk(c, c.uses[k]);
    }
  }

  /** Use `i` becomes `now`; nothing else changes. */
  lemma SetUseKeeps(c: Core, i: nat, now: Use)
    requires UsesOk(c) && LocksOk(c) && VmasOk(c) && FencesOk(c) && RingsOk(c) && i < |c.uses|
    requires now.holder == c.uses[i].holder && now.obj == c.uses[i].obj && now.locked == c.uses[i].locked
    requires UseOk(c, now) && (c.uses[i].objPinned ==> now.objPinned)
    ensures var c' := SetUse(c, i, now);
            UsesOk(c') && LocksOk(c') && VmasOk(c') && FencesOk(c') && RingsOk(c')
  {
    SetUseKeepsUses(c, i, now);
    FencesSteady(c, SetUse(c, i, now));
  }

  lemma SetUseKeepsUses(c: Core, i: nat, now: Use)
    requires UsesOk(c) && i < |c.uses| && UseOk(c, now)
    ensures UsesOk(SetUse(c, i, now))
  {
    var c' := SetUse(c, i, now);
    forall k | 0 <= k < |c'.uses| ensures UseOk(c', c'.uses[k]) {
      assert UseOk(c, c.uses[k]);
    }
  }

  lemma PinKeeps(c: Core, i: nat, v: nat, how: Backing, mapOk: bool)
    requires CoreInv(c) && i < |c.uses| && SubmitEnabled(c, Pin(i, v, how, mapOk))
    ensures CoreInv(DoPin(c, i, v, how, mapOk))
  {
    assert UseOk(c, c.uses[i]);
    var o := c.uses[i].obj;
    PinVmaKeeps(c, o, v, how, mapOk);
    if PinSucceeds(c, o, v, how, mapOk) {
      var now := c.uses[i].(vma := v, objPinned := true, vmaPinned := true);
      assert UseOk(PinVma(c, o, v, how, mapOk), now);
      SetUseKeeps(PinVma(c, o, v, how, mapOk), i, now);
      CountsSet(c, DoPin(c, i, v, how, mapOk), i, now);
    }
  }

  /** A client's or a submit's new entry. */
  lemma AddUseKeeps(c: Core, now: Use)
    requires UsesOk(c) && LocksOk(c) && VmasOk(c) && FencesOk(c) && RingsOk(c)
    requires UseOk(c, now) && !now.locked && now.ref
    ensures var c' := AddUse(c, now);
            UsesOk(c') && LocksOk(c') && VmasOk(c') && FencesOk(c') && RingsOk(c')
  {
    var c' := AddUse(c, now);
    forall k | 0 <= k < |c'.uses| ensures UseOk(c', c'.uses[k]) {
      if k < |c.uses| {
        assert UseOk(c, c.uses[k]);
      }
    }
    FencesSteady(c, c');
  }

  lemma PinIovaKeeps(c: Core, o: nat, v: nat, how: Backing, mapOk: bool)
    requires CoreInv(c) && Live(c, o) && v < |c.vmas| && c.vmas[v].live && c.vmas[v].obj == o
    ensures CoreInv(DoPinIova(c, o, v, how, mapOk))
  {
    PinVmaKeeps(c, o, v, how, mapOk);
    if PinSucceeds(c, o, v, how, mapOk) {
      var now := NewUse(Client, o).(vma := v, objPinned := true, vmaPinned := true);
      AddUseKeeps(PinVma(c, o, v, how, mapOk), now);
      CountsAdd(c, DoPinIova(c, o, v, how, mapOk), now);
    }
  }

  lemma PinCountKeeps(c: Core, o: nat)
    requires UsesOk(c) && LocksOk(c) && VmasOk(c) && FencesOk(c) && RingsOk(c) && o < |c.objs|
    ensures var c' := SetObj(c, o, c.objs[o].(pinCount := c.objs[o].pinCount + 1));
            UsesOk(c') && LocksOk(c') && VmasOk(c') && FencesOk(c') && RingsOk(c')
  {
    var c' := SetObj(c, o, c.objs[o].(pinCount := c.objs[o].pinCount + 1));
    FencesSteady(c, c');
  }

  lemma PinPagesKeeps(c: Core, o: nat, how: Backing)
    requires CoreInv(c) && Live(c, o)
    ensures CoreInv(DoPinPages(c, o, how))
  {
    GrowsKeeps(c, GetPages(c, o, how));
    if GetsPages(c.objs[o], how) {
      PinnedPagesKeep(GetPages(c, o, how), o);
      PinsPages(c, o, how);
    }
  }

  lemma PinsPages(c: Core, o: nat, how: Backing)
    requires o < |c.objs| && GetsPages(c.objs[o], how)
    ensures DoPinPages(c, o, how) == PinnedPages(GetPages(c, o, how), o)
  {
  }

  /** msm_gem_get_pages once the pages are there. */
  function PinnedPages(c: Core, o: nat): Core
    requires o < |c.objs|
  {
    AddUse(SetObj(c, o, c.objs[o].(pinCount := c.objs[o].pinCount + 1)), NewUse(Client, o).(objPinned := true))
  }

  lemma PinnedPagesKeep(c: Core, o: nat)
    requires CoreInv(c) && Live(c, o)
    ensures CoreInv(PinnedPages(c, o))
  {
    PinCountKeeps(c, o);
    var pinned := SetObj(c, o, c.objs[o].(pinCount := c.objs[o].pinCount + 1));
    var now := NewUse(Client, o).(objPinned := true);
    assert UseOk(pinned, now);
    AddUseKeeps(pinned, now);
    PinnedPagesCounted(c, o);
  }

  lemma PinnedPagesCounted(c: Core, o: nat)
    requires CountsOk(c) && o < |c.objs|
    ensures CountsOk(PinnedPages(c, o))
  {
    CountsAdd(c, PinnedPages(c, o), NewUse(Client, o).(objPinned := true));
  }

  // ---------------------------------------------------------------- unmapping

  ghost predicate NoPins(c: Core, o: nat) {
    forall i :: 0 <= i < |c.uses| && c.uses[i].obj == o ==> !c.uses[i].objPinned
  }

  /** pin_count and refcount tell the truth. */
  lemma NothingCounted(c: Core, o: nat)
    requires CoreInv(c) && o < |c.objs|
    ensures c.objs[o].pinCount == 0 ==> NoPins(c, o)
    ensures c.objs[o].refs == 0 ==> NoPins(c, o) && c.objs[o].activeCount == 0
    ensures c.objs[o].refs == 0 ==> forall i :: 0 <= i < |c.uses| && c.uses[i].obj == o ==> !c.uses[i].ref
  {
    assert ObjCounted(c.uses, o, c.objs[o]);
    forall i | 0 <= i < |c.uses| && c.uses[i].obj == o
      ensures c.objs[o].pinCount == 0 ==> !c.uses[i].objPinned
      ensures c.objs[o].refs == 0 ==> !c.uses[i].ref && !c.uses[i].objPinned && !c.uses[i].active
    {
      assert UseOk(c, c.uses[i]);
      CountAtLeast(c.uses, i, PinsObj(o));
      CountAtLeast(c.uses, i, Refers(o));
    }
    if c.objs[o].refs == 0 {
      CountNone(c.uses, Activates(o));
    }
  }

  /** The heart of the matter: an object that nobody has pinned has no mapping in use, neither by a
      pin nor by an unfinished fence. */
  lemma UnpinnedIsNotBusy(c: Core, o: nat)
    requires CoreInv(c) && NoPins(c, o)
    ensures !AnyVmaBusy(c, o)
  {
    forall v | 0 <= v < |c.vmas| && c.vmas[v].live && c.vmas[v].obj == o ensures !VmaBusy(c, c.vmas[v]) {
      assert VmaCounted(c.uses, v, c.vmas[v]);
      forall i | 0 <= i < |c.uses| ensures Match(PinsVma(v), c.uses[i]) == 0 {
        assert UseOk(c, c.uses[i]);
      }
      CountNone(c.uses, PinsVma(v));
      forall r | 0 <= r < |c.vmas[v].fence| ensures !Unfinished(c, r, c.vmas[v].fence[r]) {
        assert FenceOk(c, c.vmas[v], r);
      }
    }
  }

  /** All mappings of an unpinned object go, and its pages may. */
  lemma UnmapKeeps(c: Core, o: nat, close: bool, obj: Obj, c': Core)
    requires CoreInv(c) && NoPins(c, o) && o < |c.objs|
    requires obj.pinCount == c.objs[o].pinCount && obj.activeCount == c.objs[o].activeCount
    requires obj.refs == c.objs[o].refs && obj.lock == c.objs[o].lock
    requires obj.live || (close && obj.refs == 0)
    requires c' == c.(vmas := UnmapAll(c.vmas, o, close), objs := c.objs[o := obj], warned := c'.warned)
    requires c.objs[o].live
    ensures CoreInv(c')
  {
    NothingCounted(c, o);
    UnmapKeepsUses(c, o, close, obj, c');
    FencesSteady(c, c');
  }

  lemma UnmapKeepsUses(c: Core, o: nat, close: bool, obj: Obj, c': Core)
    requires UsesOk(c) && NoPins(c, o) && o < |c.objs|
    requires obj.live || forall i :: 0 <= i < |c.uses| && c.uses[i].obj == o ==> !c.uses[i].ref
    requires c' == c.(vmas := UnmapAll(c.vmas, o, close), objs := c.objs[o := obj], warned := c'.warned)
    ensures UsesOk(c')
  {
    forall k | 0 <= k < |c'.uses| ensures UseOk(c', c'.uses[k]) {
      assert UseOk(c, c.uses[k]);
    }
  }

  lemma ClearIovaKeeps(c: Core, v: nat)
    requires CoreInv(c) && ClientEnabled(c, ClearIova(v))
    ensures CoreInv(ClientApply(c, ClearIova(v)))
  {
    var c' := ClientApply(c, ClearIova(v));
    forall k | 0 <= k < |c'.uses| ensures UseOk(c', c'.uses[k]) {
      assert UseOk(c, c.uses[k]);
      UseIsCounted(c, k);
    }
    FencesSteady(c, c');
  }

  // ---------------------------------------------------------------- swapping the pin for a fence

  lemma HandOffKeepsUses(c: Core, i: nat)
    requires CoreInv(c) && JobEnabled(c, HandOff(i))
    ensures UsesOk(JobApply(c, HandOff(i)))
  {
    var c' := JobApply(c, HandOff(i));
    UseIsCounted(c, i);
    assert SubOk(c, c.uses[i].holder.sub, SubOf(c, i));
    forall k | 0 <= k < |c'.uses| ensures UseOk(c', c'.uses[k]) {
      assert UseOk(c, c.uses[k]);
      if UseOfSubmit(c, k) {
        assert SubOk(c, c.uses[k].holder.sub, SubOf(c, k));
      }
    }
  }

  lemma HandOffKeepsFences(c: Core, i: nat)
    requires CoreInv(c) && JobEnabled(c, HandOff(i))
    ensures FencesOk(JobApply(c, HandOff(i)))
  {
    var c' := JobApply(c, HandOff(i));
    assert UseOk(c, c.uses[i]) && SubOk(c, c.uses[i].holder.sub, SubOf(c, i));
    forall v, r | 0 <= v < |c'.vmas| && 0 <= r < |c'.vmas[v].fence| ensures FenceOk(c', c'.vmas[v], r) {
      assert FenceOk(c, c.vmas[v], r);
      if v == c.uses[i].vma && r == SubOf(c, i).ring {
        assert PinnedUntil(c', i, c'.vmas[v].obj, r, c'.vmas[v].fence[r]);
      } else if Unfinished(c, r, c.vmas[v].fence[r]) {
        var k :| PinnedUntil(c, k, c.vmas[v].obj, r, c.vmas[v].fence[r]);
        assert PinnedUntil(c', k, c'.vmas[v].obj, r, c'.vmas[v].fence[r]);
      }
    }
  }

  lemma HandOffKeeps(c: Core, i: nat)
    requires CoreInv(c) && JobEnabled(c, HandOff(i))
    ensures CoreInv(JobApply(c, HandOff(i))) && JobApply(c, HandOff(i)).warned == c.warned
  {
    HandOffKeepsUses(c, i);
    HandOffKeepsFences(c, i);
    UseIsCounted(c, i);
    CountsSet(c, JobApply(c, HandOff(i)), i, c.uses[i].(vmaPinned := false));
  }

  // ---------------------------------------------------------------- every step keeps it

  lemma NewKeeps(c: Core, size: nat, imported: bool)
    requires CoreInv(c)
    ensures CoreInv(ClientApply(c, New(size, imported)))
  {
    var c' := ClientApply(c, New(size, imported));
    var o, now := |c.objs|, NewUse(Client, |c.objs|);
    forall k | 0 <= k < |c'.uses| ensures UseOk(c', c'.uses[k]) {
      if k < |c.uses| {
        assert UseOk(c, c.uses[k]);
      }
    }
    NewCounts(c, c', now);
    FencesSteady(c, c');
  }

  lemma NewCounts(c: Core, c': Core, now: Use)
    requires UsesOk(c) && CountsOk(c) && now == NewUse(Client, |c.objs|) && c'.uses == c.uses + [now]
    requires c'.vmas == c.vmas && |c'.objs| == |c.objs| + 1 && c'.objs[..|c.objs|] == c.objs
    requires c'.objs[|c.objs|].pinCount == 0 && c'.objs[|c.objs|].activeCount == 0 && c'.objs[|c.objs|].refs == 1
    ensures CountsOk(c')
  {
    var o := |c.objs|;
    CountsAdd(c, c'.(objs := c.objs), now);
    forall i | 0 <= i < |c.uses| ensures c.uses[i].obj != o {
      assert UseOk(c, c.uses[i]);
    }
    CountNone(c.uses, PinsObj(o));
    CountNone(c.uses, Activates(o));
    CountNone(c.uses, Refers(o));
    CountAdd(c.uses, now, PinsObj(o));
    CountAdd(c.uses, now, Activates(o));
    CountAdd(c.uses, now, Refers(o));
    forall p | 0 <= p < |c'.objs| ensures ObjCounted(c'.uses, p, c'.objs[p]) {
      if p < o {
        assert c'.objs[..o][p] == c.objs[p];
        assert ObjCounted(c'.uses, p, c.objs[p]);
      }
    }
  }

  lemma GetVmaKeeps(c: Core, o: nat, a: nat)
    requires CoreInv(c) && ClientEnabled(c, GetVma(o, a))
    ensures CoreInv(ClientApply(c, GetVma(o, a)))
  {
    var c' := ClientApply(c, GetVma(o, a));
    var v := |c.vmas|;
    forall k | 0 <= k < |c'.uses| ensures UseOk(c', c'.uses[k]) {
      assert UseOk(c, c.uses[k]);
    }
    GetVmaCounts(c, c');
    GetVmaFences(c, c');
  }

  lemma GetVmaCounts(c: Core, c': Core)
    requires UsesOk(c) && CountsOk(c) && c'.uses == c.uses && c'.objs == c.objs
    requires |c'.vmas| == |c.vmas| + 1 && c'.vmas[..|c.vmas|] == c.vmas && c'.vmas[|c.vmas|].inuse == 0
    ensures CountsOk(c')
  {
    forall i | 0 <= i < |c.uses| ensures Match(PinsVma(|c.vmas|), c.uses[i]) == 0 {
      assert UseOk(c, c.uses[i]);
    }
    CountNone(c.uses, PinsVma(|c.vmas|));
    forall v | 0 <= v < |c'.vmas| ensures VmaCounted(c'.uses, v, c'.vmas[v]) {
      if v < |c.vmas| {
        assert c'.vmas[..|c.vmas|][v] == c.vmas[v];
        assert VmaCounted(c.uses, v, c.vmas[v]);
      }
    }
  }

  lemma GetVmaFences(c: Core, c': Core)
    requires FencesOk(c) && c'.uses == c.uses && c'.subs == c.subs && c'.rings == c.rings
    requires |c'.vmas| == |c.vmas| + 1 && c'.vmas[..|c.vmas|] == c.vmas
    requires forall r :: 0 <= r < |c'.vmas[|c.vmas|].fence| ==> c'.vmas[|c.vmas|].fence[r] == 0
    ensures FencesOk(c')
  {
    FencesSteady(c, c'.(vmas := c.vmas));
    forall v, r | 0 <= v < |c'.vmas| && 0 <= r < |c'.vmas[v].fence| ensures FenceOk(c', c'.vmas[v], r) {
      if v < |c.vmas| {
        assert c'.vmas[..|c.vmas|][v] == c.vmas[v];
        assert FenceOk(c, c.vmas[v], r);
        if Unfinished(c, r, c.vmas[v].fence[r]) {
          var i :| PinnedUntil(c, i, c.vmas[v].obj, r, c.vmas[v].fence[r]);
          assert PinnedUntil(c', i, c.vmas[v].obj, r, c.vmas[v].fence[r]);
        }
      }
    }
  }

  lemma AddRefKeeps(c: Core, now: Use)
    requires CoreInv(c) && UseOk(c, now) && now.ref && !now.locked && !now.active && !now.objPinned
    ensures CoreInv(AddUse(c, now))
  {
    AddUseKeeps(c, now);
    CountsAdd(c, AddUse(c, now), now);
  }

  lemma FreeKeeps(c: Core, o: nat)
    requires CoreInv(c) && Live(c, o) && c.objs[o].refs == 0
    ensures CoreInv(DoFree(c, o)) && DoFree(c, o).warned == c.warned
  {
    NothingCounted(c, o);
    UnpinnedIsNotBusy(c, o);
    UnmapKeeps(c, o, true, c.objs[o].(live := false), DoFree(c, o));
  }

  lemma ClientKeeps(c: Core, step: ClientStep)
    requires CoreInv(c) && ClientEnabled(c, step)
    ensures CoreInv(ClientApply(c, step))
  {
    match step
    case New(size, imported) => NewKeeps(c, size, imported);
    case TakeRef(o) => AddRefKeeps(c, NewUse(Client, o));
    case DropRef(i) => ReleaseKeeps(c, i, false);
    case GetVma(o, a) => GetVmaKeeps(c, o, a);
    case ClearIova(v) => ClearIovaKeeps(c, v);
    case PinIova(o, v, how, mapOk) => PinIovaKeeps(c, o, v, how, mapOk);
    case UnpinIova(i) => ReleaseKeeps(c, i, false);
    case PinPages(o, how) => PinPagesKeeps(c, o, how);
    case UnpinPages(i) => ReleaseKeeps(c, i, false);
    case Free(o) => FreeKeeps(c, o);
    case _ =>
      ClientGrows(c, step);
      GrowsKeeps(c, ClientApply(c, step));
  }

  lemma ClientGrows(c: Core, step: ClientStep)
    requires ClientEnabled(c, step) && (step.Fault? || step.GetVaddr? || step.PutVaddr? || step.Madvise?)
    ensures Grows(c, ClientApply(c, step))
  {
  }

  function Relocked(c: Core, i: nat, lock: bool): Core
    requires i < |c.uses| && c.uses[i].obj < |c.objs|
  {
    var o := c.uses[i].obj;
    SetUse(SetObj(c, o, c.objs[o].(lock := if lock then Some(i) else None)), i, c.uses[i].(locked := lock))
  }

  predicate MayRelock(c: Core, i: nat, lock: bool) {
    && UseOfSubmit(c, i) && c.uses[i].obj < |c.objs|
    && if lock then c.uses[i].ref && c.objs[c.uses[i].obj].lock == None
       else c.uses[i].locked && SubOf(c, i).phase != Building
  }

  lemma LockKeepsUses(c: Core, i: nat, lock: bool)
    requires UsesOk(c) && MayRelock(c, i, lock)
    ensures UsesOk(Relocked(c, i, lock))
  {
    var c' := Relocked(c, i, lock);
    forall k | 0 <= k < |c'.uses| ensures UseOk(c', c'.uses[k]) {
      assert UseOk(c, c.uses[k]);
    }
  }

  lemma LockKeepsLocks(c: Core, i: nat, lock: bool)
    requires LocksOk(c) && MayRelock(c, i, lock)
    ensures LocksOk(Relocked(c, i, lock))
  {
  }

  lemma LockKeeps(c: Core, i: nat, lock: bool)
    requires CoreInv(c) && MayRelock(c, i, lock)
    ensures CoreInv(Relocked(c, i, lock))
  {
    var c' := Relocked(c, i, lock);
    LockKeepsUses(c, i, lock);
    LockKeepsLocks(c, i, lock);
    CountsSet(c, c', i, c'.uses[i]);
    FencesSteady(c, c');
  }

  lemma ActivateKeepsUses(c: Core, i: nat)
    requires UsesOk(c) && SubmitEnabled(c, Activate(i))
    ensures UsesOk(SubmitApply(c, Activate(i)))
  {
    var c' := SubmitApply(c, Activate(i));
    forall k | 0 <= k < |c'.uses| ensures UseOk(c', c'.uses[k]) {
      assert UseOk(c, c.uses[k]);
    }
  }

  lemma ActivateKeepsCounts(c: Core, i: nat)
    requires CountsOk(c) && FencesOk(c) && SubmitEnabled(c, Activate(i))
    ensures CountsOk(SubmitApply(c, Activate(i))) && FencesOk(SubmitApply(c, Activate(i)))
  {
    var c' := SubmitApply(c, Activate(i));
    CountsSet(c, c', i, c'.uses[i]);
    FencesSteady(c, c');
  }

  lemma ActivateKeeps(c: Core, i: nat)
    requires CoreInv(c) && SubmitEnabled(c, Activate(i))
    ensures CoreInv(SubmitApply(c, Activate(i)))
  {
    ActivateKeepsUses(c, i);
    ActivateKeepsCounts(c, i);
  }

  /** Only the phases of submits, and the rings, change. */
  lemma PhaseKeeps(c: Core, c': Core)
    requires CoreInv(c) && c'.objs == c.objs && c'.vmas == c.vmas && c'.uses == c.uses
    requires UsesOk(c') && RingsOk(c') && |c'.rings| == |c.rings|
    requires forall r :: 0 <= r < |c.rings| ==> c.rings[r].completed <= c'.rings[r].completed
    requires |c'.subs| >= |c.subs|
    requires forall u :: 0 <= u < |c.subs| ==> c'.subs[u].ring == c.subs[u].ring
    requires forall u, seqno ::
               0 <= u < |c.subs| && (c.subs[u].phase == Running(seqno) || c.subs[u].phase == OnRing(seqno)) ==>
               c'.subs[u].phase == Running(seqno) || c'.subs[u].phase == OnRing(seqno)
    ensures CoreInv(c')
  {
    FencesFrame(c, c');
  }

  lemma PushKeeps(c: Core, u: nat)
    requires CoreInv(c) && SubmitEnabled(c, Push(u))
    ensures CoreInv(SubmitApply(c, Push(u)))
  {
    var c' := SubmitApply(c, Push(u));
    forall k | 0 <= k < |c'.uses| ensures UseOk(c', c'.uses[k]) {
      assert UseOk(c, c.uses[k]);
      assert c.uses[k].holder == Submit(u) ==> OfSub(c.uses[k], u) && UseIsFull(c.uses[k]);
    }
    PhaseKeeps(c, c');
  }

  lemma SubmitKeeps(c: Core, step: SubmitStep)
    requires CoreInv(c) && SubmitEnabled(c, step)
    ensures CoreInv(SubmitApply(c, step))
  {
    match step
    case NewSubmit(r, a) =>
      var c' := SubmitApply(c, step);
      forall k | 0 <= k < |c'.uses| ensures UseOk(c', c'.uses[k]) {
        assert UseOk(c, c.uses[k]);
      }
      PhaseKeeps(c, c');
    case Lookup(u, o) => AddRefKeeps(c, NewUse(Submit(u), o));
    case Lock(i) => LockKeeps(c, i, true);
    case Activate(i) => ActivateKeeps(c, i);
    case Pin(i, v, how, mapOk) => PinKeeps(c, i, v, how, mapOk);
    case BackOff(i) => ReleaseInIoctl(c, i, true);
    case Fail(i) => ReleaseInIoctl(c, i, false);
    case Push(u) => PushKeeps(c, u);
    case Unlock(i) => LockKeeps(c, i, false);
  }

  lemma ReleaseInIoctl(c: Core, i: nat, keepRef: bool)
    requires CoreInv(c) && InIoctl(c, i) && VmaKnown(c, c.uses[i])
    ensures CoreInv(Release(c, i, keepRef)) && Release(c, i, keepRef).warned == c.warned
  {
    assert SubOk(c, c.uses[i].holder.sub, SubOf(c, i));
    ReleaseKeeps(c, i, keepRef);
  }

  /** Every warning that a step adds is one of the tolerated ones. */
  ghost predicate WarnsLittle(c: Core, c': Core) {
    forall w :: w in c'.warned && w !in c.warned ==> !Forbidden(w)
  }

  lemma ClientWarnsLittle(c: Core, step: ClientStep)
    requires CoreInv(c) && ClientEnabled(c, step)
    ensures WarnsLittle(c, ClientApply(c, step))
  {
    match step
    case DropRef(i) => ReleaseKeeps(c, i, false);
    case UnpinIova(i) => ReleaseKeeps(c, i, false);
    case UnpinPages(i) => ReleaseKeeps(c, i, false);
    case Free(o) => FreeKeeps(c, o);
    case _ =>
  }

  lemma SubmitWarnsLittle(c: Core, step: SubmitStep)
    requires CoreInv(c) && SubmitEnabled(c, step)
    ensures WarnsLittle(c, SubmitApply(c, step))
  {
    match step
    case BackOff(i) => ReleaseInIoctl(c, i, true);
    case Fail(i) => ReleaseInIoctl(c, i, false);
    case _ =>
  }

  lemma StartJobKeeps(c: Core, u: nat)
    requires CoreInv(c) && JobEnabled(c, StartJob(u))
    ensures CoreInv(JobApply(c, StartJob(u)))
  {
    var c' := JobApply(c, StartJob(u));
    forall k | 0 <= k < |c'.uses| ensures UseOk(c', c'.uses[k]) {
      assert UseOk(c, c.uses[k]);
    }
    assert SubOk(c, u, c.subs[u]);
    PhaseKeeps(c, c');
  }

  lemma SubmittedKeeps(c: Core, u: nat)
    requires CoreInv(c) && JobEnabled(c, Submitted(u))
    ensures CoreInv(JobApply(c, Submitted(u)))
  {
    var c' := JobApply(c, Submitted(u));
    forall k | 0 <= k < |c'.uses| ensures UseOk(c', c'.uses[k]) {
      assert UseOk(c, c.uses[k]);
      assert c.uses[k].holder == Submit(u) ==> OfSub(c.uses[k], u);
    }
    assert SubOk(c, u, c.subs[u]);
    PhaseKeeps(c, c');
  }

  lemma JobKeeps(c: Core, step: JobStep)
    requires CoreInv(c) && JobEnabled(c, step)
    ensures CoreInv(JobApply(c, step)) && JobApply(c, step).warned == c.warned
  {
    match step
    case StartJob(u) => StartJobKeeps(c, u);
    case HandOff(i) => HandOffKeeps(c, i);
    case Submitted(u) => SubmittedKeeps(c, u);
    case Complete(r) =>
      var c' := JobApply(c, step);
      forall k | 0 <= k < |c'.uses| ensures UseOk(c', c'.uses[k]) {
        assert UseOk(c, c.uses[k]);
      }
      PhaseKeeps(c, c');
    case Retire(i) => RetireKeeps(c, i);
  }

  lemma RetireKeeps(c: Core, i: nat)
    requires CoreInv(c) && JobEnabled(c, Retire(i))
    ensures CoreInv(Release(c, i, false)) && Release(c, i, false).warned == c.warned
  {
    assert !c.uses[i].locked;
    ReleaseKeeps(c, i, false);
  }

  /** An object with a free lock that is active is pinned, too. */
  lemma ActiveIsPinned(c: Core, o: nat)
    requires CoreInv(c) && o < |c.objs| && c.objs[o].lock == None && c.objs[o].pinCount == 0
    ensures c.objs[o].activeCount == 0
  {
    NothingCounted(c, o);
    assert ObjCounted(c.uses, o, c.objs[o]);
    forall i | 0 <= i < |c.uses| ensures Match(Activates(o), c.uses[i]) == 0 {
      assert UseOk(c, c.uses[i]);
    }
    CountNone(c.uses, Activates(o));
  }

  lemma ShrinkKeeps(c: Core, step: ShrinkStep)
    requires CoreInv(c) && ShrinkEnabled(c, step)
    ensures CoreInv(ShrinkApply(c, step))
    ensures WarnsLittle(c, ShrinkApply(c, step))
  {
    match step
    case Purge(o) =>
      NothingCounted(c, o);
      UnpinnedIsNotBusy(c, o);
      UnmapKeeps(c, o, true, PurgedObj(c.objs[o]), DoPurge(c, o));
    case Evict(o) =>
      NothingCounted(c, o);
      ActiveIsPinned(c, o);
      UnpinnedIsNotBusy(c, o);
      UnmapKeeps(c, o, false, EvictedObj(c.objs[o]), DoEvict(c, o));
    case _ => GrowsKeeps(c, ShrinkApply(c, step));
  }
}
