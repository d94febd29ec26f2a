/**
 Buffer residency: the life of buffer objects, their mappings and the submits that use them, while
 the shrinker purges and evicts (msm/msm_gem.c, msm/msm_gem_vma.c, msm/msm_gem_shrinker.c,
 msm/msm_gem_submit.c, msm/msm_ringbuffer.c).

 A step is one critical section under an object's lock, or a part of one that has the same effect
 whatever else happens in between. Sequence numbers are unbounded; module `Fence` relates them to
 the 32-bit ones, and the lazily cleared fence mask to the plain comparison used here.
 */
module Residency {
  import opened JobDeps
  import opened GemObject
  import opened LruLists
  import opened Inactive

  /** The mapping of `obj` in an address space. `fence[r]` is the last fence of ring `r` that stands
      for a dropped pin, 0 for none. */
  datatype Vma = Vma(obj: nat, aspace: nat, live: bool, mapped: bool, inuse: int, fence: seq<nat>)

  datatype Phase =
    | Building             // inside the ioctl, not yet armed
    | Queued
    | Running(seqno: nat)  // in msm_job_run, fence allocated
    | OnRing(seqno: nat)   // given to the hardware

  datatype Sub = Sub(ring: nat, aspace: nat, phase: Phase)

  /** `Client` stands for everybody who is not a submit: handles, display, exported buffers. */
  datatype Holder = Client | Submit(sub: nat)

  /** A claim on an object: an entry of submit->bos with its flags, or what a client holds. */
  datatype Use = Use(
    holder: Holder, obj: nat, vma: nat,
    ref: bool, locked: bool, active: bool, objPinned: bool, vmaPinned: bool)

  /** `runner` is the submit that the ring's scheduler thread is inside msm_job_run with. */
  datatype Ring = Ring(last: nat, completed: nat, runner: Option<nat>)

  datatype Core = Core(
    objs: seq<Obj>, vmas: seq<Vma>, uses: seq<Use>, subs: seq<Sub>, rings: seq<Ring>, warned: set<Warning>)

  datatype State = State(core: Core, mm: Mm)

  /** What allocating backing pages comes to. */
  datatype Backing = Backed | NoPages | NoSgt

  datatype ClientStep =
    | New(size: nat, imported: bool)
    | TakeRef(o: nat)
    | DropRef(i: nat)
    | GetVma(o: nat, a: nat)
    | ClearIova(v: nat)
    | PinIova(o: nat, v: nat, how: Backing, mapOk: bool)
    | UnpinIova(i: nat)
    | PinPages(o: nat, how: Backing)
    | UnpinPages(i: nat)
    | Fault(o: nat, how: Backing)
    | GetVaddr(o: nat, how: Backing, vmapOk: bool)
    | PutVaddr(o: nat)
    | Madvise(o: nat, madv: Madv)
    | Free(o: nat)

  /** Inside the submit ioctl. */
  datatype SubmitStep =
    | NewSubmit(r: nat, a: nat)
    | Lookup(u: nat, o: nat)
    | Lock(i: nat)
    | Activate(i: nat)
    | Pin(i: nat, v: nat, how: Backing, mapOk: bool)
    | BackOff(i: nat)
    | Fail(i: nat)
    | Push(u: nat)
    | Unlock(i: nat)

  /** msm_job_run, the hardware, and retiring. */
  datatype JobStep =
    | StartJob(u: nat)
    | HandOff(i: nat)
    | Submitted(u: nat)
    | Complete(r: nat)
    | Retire(i: nat)

  datatype ShrinkStep =
    | Vunmap(o: nat)
    | Purge(o: nat)
    | Evict(o: nat)
    | BeginScan(kind: Kind)
    | ScanNext(t: nat)
    | EndScan(t: nat)

  datatype Step =
    | ByClient(client: ClientStep)
    | BySubmit(submit: SubmitStep)
    | ByJob(job: JobStep)
    | ByShrinker(shrink: ShrinkStep)

  // ---------------------------------------------------------------- objects

  predicate Live(c: Core, o: nat) {
    o < |c.objs| && c.objs[o].live
  }

  predicate Referenced(c: Core, o: nat) {
    Live(c, o) && c.objs[o].refs > 0
  }

  /** The object is there, somebody holds a reference, and its lock is free. */
  predicate Available(c: Core, o: nat) {
    Referenced(c, o) && c.objs[o].lock == None
  }

  function SetObj(c: Core, o: nat, obj: Obj): Core
    requires o < |c.objs|
  {
    c.(objs := c.objs[o := obj])
  }

  function WarnIf(c: Core, when: bool, w: Warning): Core {
    c.(warned := Warn(c.warned, when, w))
  }

  predicate HasPages(obj: Obj, how: Backing) {
    obj.pages || how == Backed
  }

  /** get_pages. When only the sg table cannot be had the pages stay. */
  function WithPages(obj: Obj, how: Backing): Obj {
    if obj.pages || how == NoPages then obj
    else obj.(pages := true, sgt := obj.sgt || how == Backed)
  }

  /** get_pages for a caller that insists on WILLNEED. */
  function GetPages(c: Core, o: nat, how: Backing): Core
    requires o < |c.objs|
  {
    if c.objs[o].madv != WillNeed then WarnIf(c, true, UseNotWillNeed)
    else SetObj(c, o, WithPages(c.objs[o], how))
  }

  predicate GetsPages(obj: Obj, how: Backing) {
    obj.madv == WillNeed && HasPages(obj, how)
  }

  // ---------------------------------------------------------------- mappings

  predicate Unfinished(c: Core, r: nat, seqno: nat) {
    r < |c.rings| && seqno > c.rings[r].completed
  }

  /** msm_gem_vma_inuse. */
  predicate VmaBusy(c: Core, vma: Vma) {
    vma.inuse > 0 || exists r :: 0 <= r < |vma.fence| && Unfinished(c, r, vma.fence[r])
  }

  predicate IsVma(vma: Vma, o: nat, a: nat) {
    vma.live && vma.obj == o && vma.aspace == a
  }

  /** What put_iova_spaces, followed by put_iova_vmas if `close`, leaves of the mappings. */
  function UnmapAll(vmas: seq<Vma>, o: nat, close: bool): (r: seq<Vma>)
    ensures |r| == |vmas|
    ensures forall v :: 0 <= v < |vmas| ==>
              r[v] == if vmas[v].live && vmas[v].obj == o
                      then vmas[v].(mapped := false, live := !close) else vmas[v]
  {
    seq(|vmas|, v requires 0 <= v < |vmas| =>
      if vmas[v].live && vmas[v].obj == o then vmas[v].(mapped := false, live := !close) else vmas[v])
  }

  predicate AnyVmaBusy(c: Core, o: nat) {
    exists v :: 0 <= v < |c.vmas| && c.vmas[v].live && c.vmas[v].obj == o && VmaBusy(c, c.vmas[v])
  }

  function DropMappings(c: Core, o: nat, close: bool): Core {
    var busy := AnyVmaBusy(c, o);
    WarnIf(WarnIf(c, busy, PurgeVmaInUse), close && busy, CloseVmaInUse)
      .(vmas := UnmapAll(c.vmas, o, close))
  }

  /** msm_gem_unpin_vma. */
  function UnpinVma(c: Core, v: nat): Core
    requires v < |c.vmas|
  {
    if c.vmas[v].inuse == 0 || !c.vmas[v].live then WarnIf(c, true, UnpinUnusedVma)
    else c.(vmas := c.vmas[v := c.vmas[v].(inuse := c.vmas[v].inuse - 1)])
  }

  predicate PinSucceeds(c: Core, o: nat, v: nat, how: Backing, mapOk: bool)
    requires o < |c.objs| && v < |c.vmas|
  {
    GetsPages(c.objs[o], how) && (c.vmas[v].mapped || mapOk)
  }

  /** msm_gem_pin_vma_locked: on success the mapping is there and both pin counts went up. */
  function PinVma(c: Core, o: nat, v: nat, how: Backing, mapOk: bool): Core
    requires o < |c.objs| && v < |c.vmas|
  {
    if !PinSucceeds(c, o, v, how, mapOk) then GetPages(c, o, how)
    else
      var obj := WithPages(c.objs[o], how);
      c.(objs := c.objs[o := obj.(pinCount := obj.pinCount + 1)],
         vmas := c.vmas[v := c.vmas[v].(mapped := true, inuse := c.vmas[v].inuse + 1)])
  }

  // ---------------------------------------------------------------- uses

  predicate UseOfSubmit(c: Core, i: nat) {
    i < |c.uses| && c.uses[i].holder.Submit? && c.uses[i].holder.sub < |c.subs|
  }

  function SubOf(c: Core, i: nat): Sub
    requires UseOfSubmit(c, i)
  {
    c.subs[c.uses[i].holder.sub]
  }

  predicate ClientUse(c: Core, i: nat) {
    i < |c.uses| && c.uses[i].holder == Client && c.uses[i].ref
  }

  /** Entry `i` of a submit still inside its ioctl. */
  predicate InIoctl(c: Core, i: nat) {
    UseOfSubmit(c, i) && SubOf(c, i).phase == Building && c.uses[i].ref && Live(c, c.uses[i].obj)
  }

  predicate VmaKnown(c: Core, use: Use) {
    use.vmaPinned ==> use.vma < |c.vmas|
  }

  predicate UseIsFull(use: Use) {
    use.ref && use.locked && use.active && use.objPinned && use.vmaPinned
  }

  predicate OfSub(use: Use, u: nat) {
    use.holder == Submit(u)
  }

  function SetUse(c: Core, i: nat, use: Use): Core
    requires i < |c.uses|
  {
    c.(uses := c.uses[i := use])
  }

  function AddUse(c: Core, use: Use): Core
    requires use.obj < |c.objs|
  {
    var obj := c.objs[use.obj];
    c.(uses := c.uses + [use], objs := c.objs[use.obj := obj.(refs := obj.refs + 1)])
  }

  function NewUse(holder: Holder, o: nat): Use {
    Use(holder, o, 0, true, false, false, false, false)
  }

  function WithoutPins(obj: Obj, use: Use): Obj {
    obj.(pinCount := if use.objPinned then obj.pinCount - 1 else obj.pinCount,
         activeCount := if use.active then obj.activeCount - 1 else obj.activeCount)
  }

  /** submit_cleanup_bo, msm_gem_unpin_iova or msm_gem_put_pages: releases everything the use holds,
      except perhaps its reference. */
  function Release(c: Core, i: nat, keepRef: bool): Core
    requires i < |c.uses| && c.uses[i].obj < |c.objs| && VmaKnown(c, c.uses[i])
  {
    var use := c.uses[i];
    var obj := WithoutPins(c.objs[use.obj], use);
    var unpinned := if use.vmaPinned then UnpinVma(c, use.vma) else c;
    var left := obj.(lock := if use.locked then None else obj.lock,
                     refs := if use.ref && !keepRef then obj.refs - 1 else obj.refs);
    SetUse(SetObj(WarnIf(unpinned, obj.pinCount < 0, NegativePinCount), use.obj, left), i,
           Use(use.holder, use.obj, use.vma, use.ref && keepRef, false, false, false, false))
  }

  // ---------------------------------------------------------------- steps on objects, mappings and submits

  predicate ClientEnabled(c: Core, step: ClientStep) {
    match step
    case New(size, imported) => true
    case TakeRef(o) => Referenced(c, o)
    case DropRef(i) =>
      ClientUse(c, i) && !c.uses[i].objPinned && !c.uses[i].vmaPinned && Live(c, c.uses[i].obj)
    case GetVma(o, a) =>
      Referenced(c, o) && forall v :: 0 <= v < |c.vmas| ==> !IsVma(c.vmas[v], o, a)
    case ClearIova(v) =>
      v < |c.vmas| && c.vmas[v].live && Available(c, c.vmas[v].obj) && !VmaBusy(c, c.vmas[v])
    case PinIova(o, v, how, mapOk) =>
      Available(c, o) && v < |c.vmas| && c.vmas[v].live && c.vmas[v].obj == o
    case UnpinIova(i) =>
      && ClientUse(c, i) && c.uses[i].vmaPinned && c.uses[i].vma < |c.vmas|
      && Available(c, c.uses[i].obj)
    case PinPages(o, how) => Available(c, o)
    case UnpinPages(i) =>
      ClientUse(c, i) && c.uses[i].objPinned && !c.uses[i].vmaPinned && Available(c, c.uses[i].obj)
    case Fault(o, how) => Available(c, o)
    case GetVaddr(o, how, vmapOk) => Referenced(c, o) && !c.objs[o].imported
    case PutVaddr(o) => Referenced(c, o) && c.objs[o].vmapCount > 0
    case Madvise(o, madv) => Available(c, o) && madv != Purged
    case Free(o) => Live(c, o) && c.objs[o].refs == 0
  }

  predicate SubmitEnabled(c: Core, step: SubmitStep) {
    match step
    case NewSubmit(r, a) => r < |c.rings|
    case Lookup(u, o) => u < |c.subs| && c.subs[u].phase == Building && Referenced(c, o)
    case Lock(i) => InIoctl(c, i) && c.objs[c.uses[i].obj].lock == None
    case Activate(i) => InIoctl(c, i) && c.uses[i].locked && !c.uses[i].active
    case Pin(i, v, how, mapOk) =>
      && InIoctl(c, i) && c.uses[i].locked && c.uses[i].active && !c.uses[i].objPinned
      && v < |c.vmas| && IsVma(c.vmas[v], c.uses[i].obj, SubOf(c, i).aspace)
    case BackOff(i) => InIoctl(c, i) && VmaKnown(c, c.uses[i])
    case Fail(i) => InIoctl(c, i) && VmaKnown(c, c.uses[i])
    case Push(u) =>
      && u < |c.subs| && c.subs[u].phase == Building
      && forall i :: 0 <= i < |c.uses| && OfSub(c.uses[i], u) ==> UseIsFull(c.uses[i])
    case Unlock(i) =>
      UseOfSubmit(c, i) && SubOf(c, i).phase != Building && c.uses[i].locked && c.uses[i].obj < |c.objs|
  }

  predicate JobEnabled(c: Core, step: JobStep) {
    match step
    case StartJob(u) =>
      && u < |c.subs| && c.subs[u].phase == Queued
      && c.subs[u].ring < |c.rings| && c.rings[c.subs[u].ring].runner == None
    case HandOff(i) =>
      && UseOfSubmit(c, i) && SubOf(c, i).phase.Running? && c.uses[i].vmaPinned
      && c.uses[i].vma < |c.vmas| && SubOf(c, i).ring < |c.rings|
      && SubOf(c, i).ring < |c.vmas[c.uses[i].vma].fence| && Available(c, c.uses[i].obj)
    case Submitted(u) =>
      && u < |c.subs| && c.subs[u].phase.Running? && c.subs[u].ring < |c.rings|
      && forall i :: 0 <= i < |c.uses| && OfSub(c.uses[i], u) ==> !c.uses[i].vmaPinned
    case Complete(r) =>
      && r < |c.rings|
      && c.rings[r].completed + 1 <= c.rings[r].last
      && (c.rings[r].runner.Some? ==> c.rings[r].completed + 1 < c.rings[r].last)
    case Retire(i) =>
      && UseOfSubmit(c, i) && SubOf(c, i).phase.OnRing? && c.uses[i].ref && !c.uses[i].vmaPinned
      && SubOf(c, i).ring < |c.rings| && SubOf(c, i).phase.seqno <= c.rings[SubOf(c, i).ring].completed
      && Available(c, c.uses[i].obj)
  }

  predicate ShrinkEnabled(c: Core, step: ShrinkStep) {
    match step
    case Vunmap(o) => Available(c, o) && Vunmapable(c.objs[o])
    case Purge(o) => Available(c, o) && Purgeable(c.objs[o])
    case Evict(o) => Available(c, o) && !Unevictable(c.objs[o])
    case BeginScan(kind) => true
    case ScanNext(t) => true
    case EndScan(t) => true
  }

  function NewObj(size: nat, imported: bool): Obj {
    Obj(true, size, imported, WillNeed, imported, imported, false, 0, 0, 0, 1, None)
  }

  function PurgedObj(obj: Obj): Obj {
    obj.(vaddr := obj.vaddr && !Vunmapable(obj), pages := false, sgt := false, madv := Purged)
  }

  function DoPurge(c: Core, o: nat): Core
    requires o < |c.objs|
  {
    var obj := c.objs[o];
    var warned := WarnIf(WarnIf(c, !Purgeable(obj), PurgeUnpurgeable), PurgedObj(obj).vaddr, VunmapBusy);
    SetObj(DropMappings(warned, o, true), o, PurgedObj(obj))
  }

  function EvictedObj(obj: Obj): Obj {
    obj.(pages := false, sgt := false)
  }

  function DoEvict(c: Core, o: nat): Core
    requires o < |c.objs|
  {
    var obj := c.objs[o];
    var warned := WarnIf(WarnIf(c, Unevictable(obj), EvictUnevictable), obj.activeCount != 0, EvictActive);
    SetObj(DropMappings(warned, o, false), o, EvictedObj(obj))
  }

  function DoFree(c: Core, o: nat): Core
    requires o < |c.objs|
  {
    var warned := WarnIf(c, c.objs[o].activeCount != 0, FreeActive);
    SetObj(DropMappings(warned, o, true), o, c.objs[o].(live := false))
  }

  function AdvisedObj(obj: Obj, madv: Madv): Obj {
    if obj.madv != Purged then obj.(madv := madv) else obj
  }

  predicate GetsVaddr(obj: Obj, how: Backing, vmapOk: bool) {
    obj.madv == WillNeed && (obj.vaddr || (HasPages(obj, how) && vmapOk))
  }

  /** get_vaddr: maps the pages into the kernel unless they are already. */
  function DoGetVaddr(c: Core, o: nat, how: Backing, vmapOk: bool): Core
    requires o < |c.objs|
  {
    var obj := c.objs[o];
    if !GetsVaddr(obj, how, vmapOk) then GetPages(c, o, how)
    else if obj.vaddr then SetObj(c, o, obj.(vmapCount := obj.vmapCount + 1))
    else SetObj(c, o, WithPages(obj, how).(vaddr := true, vmapCount := obj.vmapCount + 1))
  }

  function DoPinPages(c: Core, o: nat, how: Backing): Core
    requires o < |c.objs|
  {
    var obj := WithPages(c.objs[o], how);
    if !GetsPages(c.objs[o], how) then GetPages(c, o, how)
    else
      AddUse(SetObj(c, o, obj.(pinCount := obj.pinCount + 1)), NewUse(Client, o).(objPinned := true))
  }

  function DoPinIova(c: Core, o: nat, v: nat, how: Backing, mapOk: bool): Core
    requires o < |c.objs| && v < |c.vmas|
  {
    var c' := PinVma(c, o, v, how, mapOk);
    if !PinSucceeds(c, o, v, how, mapOk) then c'
    else AddUse(c', NewUse(Client, o).(vma := v, objPinned := true, vmaPinned := true))
  }

  /** The pinning loop of submit_pin_objects, for one buffer. */
  function DoPin(c: Core, i: nat, v: nat, how: Backing, mapOk: bool): Core
    requires i < |c.uses| && c.uses[i].obj < |c.objs| && v < |c.vmas|
  {
    var o := c.uses[i].obj;
    var c' := PinVma(c, o, v, how, mapOk);
    if !PinSucceeds(c, o, v, how, mapOk) then c'
    else SetUse(c', i, c.uses[i].(vma := v, objPinned := true, vmaPinned := true))
  }

  /** The loop of msm_job_run, for one buffer: the VMA pin is swapped for the ring's last fence. */
  function DoHandOff(c: Core, i: nat, r: nat): Core
    requires i < |c.uses| && c.uses[i].vma < |c.vmas| && r < |c.rings| && r < |c.vmas[c.uses[i].vma].fence|
  {
    var v := c.uses[i].vma;
    var vma := c.vmas[v];
    var c' := c.(vmas := c.vmas[v := vma.(fence := vma.fence[r := c.rings[r].last])]);
    SetUse(UnpinVma(c', v), i, c.uses[i].(vmaPinned := false))
  }

  function ClientApply(c: Core, step: ClientStep): Core
    requires ClientEnabled(c, step)
  {
    match step
    case New(size, imported) =>
      c.(objs := c.objs + [NewObj(size, imported)], uses := c.uses + [NewUse(Client, |c.objs|)])
    case TakeRef(o) => AddUse(c, NewUse(Client, o))
    case DropRef(i) => Release(c, i, false)
    case GetVma(o, a) => c.(vmas := c.vmas + [Vma(o, a, true, false, 0, seq(|c.rings|, _ => 0))])
    case ClearIova(v) => c.(vmas := c.vmas[v := c.vmas[v].(mapped := false, live := false)])
    case PinIova(o, v, how, mapOk) => DoPinIova(c, o, v, how, mapOk)
    case UnpinIova(i) => Release(c, i, false)
    case PinPages(o, how) => DoPinPages(c, o, how)
    case UnpinPages(i) => Release(c, i, false)
    case Fault(o, how) => GetPages(c, o, how)
    case GetVaddr(o, how, vmapOk) => DoGetVaddr(c, o, how, vmapOk)
    case PutVaddr(o) => SetObj(c, o, c.objs[o].(vmapCount := c.objs[o].vmapCount - 1))
    case Madvise(o, madv) => SetObj(c, o, AdvisedObj(c.objs[o], madv))
    case Free(o) => DoFree(c, o)
  }

  function SubmitApply(c: Core, step: SubmitStep): Core
    requires SubmitEnabled(c, step)
  {
    match step
    case NewSubmit(r, a) => c.(subs := c.subs + [Sub(r, a, Building)])
    case Lookup(u, o) => AddUse(c, NewUse(Submit(u), o))
    case Lock(i) =>
      var o := c.uses[i].obj;
      SetUse(SetObj(c, o, c.objs[o].(lock := Some(i))), i, c.uses[i].(locked := true))
    case Activate(i) =>
      var o := c.uses[i].obj;
      SetUse(SetObj(c, o, c.objs[o].(activeCount := c.objs[o].activeCount + 1)), i, c.uses[i].(active := true))
    case Pin(i, v, how, mapOk) => DoPin(c, i, v, how, mapOk)
    case BackOff(i) => Release(c, i, true)
    case Fail(i) => Release(c, i, false)
    case Push(u) => c.(subs := c.subs[u := c.subs[u].(phase := Queued)])
    case Unlock(i) =>
      var o := c.uses[i].obj;
      SetUse(SetObj(c, o, c.objs[o].(lock := None)), i, c.uses[i].(locked := false))
  }

  function JobApply(c: Core, step: JobStep): Core
    requires JobEnabled(c, step)
  {
    match step
    case StartJob(u) =>
      var ring := c.rings[c.subs[u].ring];
      c.(subs := c.subs[u := c.subs[u].(phase := Running(ring.last + 1))],
         rings := c.rings[c.subs[u].ring := ring.(last := ring.last + 1, runner := Some(u))])
    case HandOff(i) => DoHandOff(c, i, SubOf(c, i).ring)
    case Submitted(u) =>
      c.(subs := c.subs[u := c.subs[u].(phase := OnRing(c.subs[u].phase.seqno))],
         rings := c.rings[c.subs[u].ring := c.rings[c.subs[u].ring].(runner := None)])
    case Complete(r) =>
      c.(rings := c.rings[r := c.rings[r].(completed := c.rings[r].completed + 1)])
    case Retire(i) => Release(c, i, false)
  }

  function ShrinkApply(c: Core, step: ShrinkStep): Core
    requires ShrinkEnabled(c, step)
  {
    match step
    case Vunmap(o) => SetObj(c, o, c.objs[o].(vaddr := false))
    case Purge(o) => DoPurge(c, o)
    case Evict(o) => DoEvict(c, o)
    case _ => c
  }

  // ---------------------------------------------------------------- the same steps on lists and page counts

  function MmGetPages(objs: seq<Obj>, mm: Mm, o: nat, how: Backing): Mm
    requires Placed(objs, mm, o)
  {
    if objs[o].madv == WillNeed && !objs[o].pages && how == Backed
    then UpdateInactive(objs[o := WithPages(objs[o], how)], mm, o) else mm
  }

  function MmRelease(objs: seq<Obj>, mm: Mm, use: Use): Mm
    requires Placed(objs, mm, use.obj)
  {
    if use.objPinned || use.active
    then UpdateInactive(objs[use.obj := WithoutPins(objs[use.obj], use)], mm, use.obj) else mm
  }

  function MmPinPages(objs: seq<Obj>, mm: Mm, o: nat, how: Backing): Mm
    requires Placed(objs, mm, o)
  {
    var mm' := MmGetPages(objs, mm, o, how);
    var obj := WithPages(objs[o], how);
    if GetsPages(objs[o], how) then UpdateInactive(objs[o := obj.(pinCount := obj.pinCount + 1)], mm', o) else mm'
  }

  function MmGetVaddr(objs: seq<Obj>, mm: Mm, o: nat, how: Backing, vmapOk: bool): Mm
    requires Placed(objs, mm, o)
  {
    if objs[o].vaddr then mm
    else
      var mm' := MmGetPages(objs, mm, o, how);
      if GetsVaddr(objs[o], how, vmapOk)
      then UpdateInactive(objs[o := WithPages(objs[o], how).(vaddr := true)], mm', o) else mm'
  }

  predicate WellPlaced(objs: seq<Obj>, mm: Mm) {
    && |mm.lists.lists| >= 4
    && forall o :: 0 <= o < |objs| && objs[o].live ==> Placed(objs, mm, o)
  }

  function ClientMm(c: Core, mm: Mm, step: ClientStep): Mm
    requires WellPlaced(c.objs, mm) && ClientEnabled(c, step)
  {
    match step
    case New(size, imported) => ListNew(mm)
    case DropRef(i) => MmRelease(c.objs, mm, c.uses[i])
    case PinIova(o, v, how, mapOk) => MmGetPages(c.objs, mm, o, how)
    case UnpinIova(i) => MmRelease(c.objs, mm, c.uses[i])
    case PinPages(o, how) => MmPinPages(c.objs, mm, o, how)
    case UnpinPages(i) => MmRelease(c.objs, mm, c.uses[i])
    case Fault(o, how) => MmGetPages(c.objs, mm, o, how)
    case GetVaddr(o, how, vmapOk) => MmGetVaddr(c.objs, mm, o, how, vmapOk)
    case Madvise(o, madv) =>
      if c.objs[o].activeCount == 0
      then UpdateInactive(c.objs[o := AdvisedObj(c.objs[o], madv)], mm, o) else mm
    case Free(o) => Forget(c.objs, mm, o)
    case _ => mm
  }

  function SubmitMm(c: Core, mm: Mm, step: SubmitStep): Mm
    requires WellPlaced(c.objs, mm) && SubmitEnabled(c, step)
  {
    match step
    case Activate(i) => MakeActive(SubmitApply(c, step).objs, mm, c.uses[i].obj)
    case Pin(i, v, how, mapOk) => MmGetPages(c.objs, mm, c.uses[i].obj, how)
    case BackOff(i) => MmRelease(c.objs, mm, c.uses[i])
    case Fail(i) => MmRelease(c.objs, mm, c.uses[i])
    case _ => mm
  }

  function JobMm(c: Core, mm: Mm, step: JobStep): Mm
    requires WellPlaced(c.objs, mm) && JobEnabled(c, step)
  {
    match step
    case Retire(i) => MmRelease(c.objs, mm, c.uses[i])
    case _ => mm
  }

  /** A scan is under way and has an object to look at next. */
  predicate CanScan(c: Core, mm: Mm, step: ShrinkStep) {
    match step
    case ScanNext(t) =>
      && 4 <= t < |mm.lists.lists|
      && var list := mm.lists.lists[Base(mm.lists.lists[t].kind)].members;
         list != [] && Live(c, list[0])
    case EndScan(t) => 4 <= t < |mm.lists.lists|
    case _ => true
  }

  function ShrinkMm(c: Core, mm: Mm, step: ShrinkStep): Mm
    requires WellPlaced(c.objs, mm) && ShrinkEnabled(c, step) && CanScan(c, mm, step)
  {
    match step
    case Vunmap(o) => NoteUnmapped(mm, o)
    case Purge(o) => UpdateInactive(c.objs[o := PurgedObj(c.objs[o])], mm, o)
    case Evict(o) =>
      UpdateInactive(c.objs[o := EvictedObj(c.objs[o])],
                     mm.(warned := Warn(mm.warned, !mm.flags[o].evictable, EvictUnmarked)), o)
    case BeginScan(kind) => mm.(lists := OpenScan(mm.lists, kind))
    case ScanNext(t) =>
      mm.(lists := Move(mm.lists, mm.lists.lists[Base(mm.lists.lists[t].kind)].members[0], t))
    case EndScan(t) => mm.(lists := CloseScan(mm.lists, t))
  }

  // ---------------------------------------------------------------- steps

  predicate Enabled(st: State, step: Step) {
    match step
    case ByClient(s) => ClientEnabled(st.core, s)
    case BySubmit(s) => SubmitEnabled(st.core, s)
    case ByJob(s) => JobEnabled(st.core, s)
    case ByShrinker(s) => ShrinkEnabled(st.core, s) && CanScan(st.core, st.mm, s)
  }

  function Apply(st: State, step: Step): State
    requires WellPlaced(st.core.objs, st.mm) && Enabled(st, step)
  {
    match step
    case ByClient(s) => State(ClientApply(st.core, s), ClientMm(st.core, st.mm, s))
    case BySubmit(s) => State(SubmitApply(st.core, s), SubmitMm(st.core, st.mm, s))
    case ByJob(s) => State(JobApply(st.core, s), JobMm(st.core, st.mm, s))
    case ByShrinker(s) => State(ShrinkApply(st.core, s), ShrinkMm(st.core, st.mm, s))
  }
}
