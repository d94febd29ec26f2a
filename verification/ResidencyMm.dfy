/**
 Residency, second half: what every step keeps of lists, flags and page counts.
 */
module ResidencyMm {
  import opened JobDeps
  import opened GemObject
  import opened LruLists
  import opened Inactive
  import opened Residency
  import opened ResidencyCore

  // ---------------------------------------------------------------- lists and page counts

  lemma PlacedWell(objs: seq<Obj>, mm: Mm)
    requires MmInv(objs, mm)
    ensures WellPlaced(objs, mm)
  {
    forall o | 0 <= o < |objs| && objs[o].live ensures Placed(objs, mm, o) {
      assert OnItsList(mm.lists, o, mm.lists.on[o]);
    }
  }

  lemma MmGetPagesKeeps(objs: seq<Obj>, mm: Mm, o: nat, how: Backing)
    requires MmInv(objs, mm) && Placed(objs, mm, o)
    ensures objs[o].madv != WillNeed ==> MmGetPages(objs, mm, o, how) == mm
    ensures objs[o].madv == WillNeed ==> MmInv(objs[o := WithPages(objs[o], how)], MmGetPages(objs, mm, o, how))
  {
    if objs[o].madv == WillNeed {
      var objs' := objs[o := WithPages(objs[o], how)];
      if !objs[o].pages && how == Backed {
        UpdateKeeps(objs, objs', mm, o);
      } else {
        QuietChange(objs, objs', mm, o);
      }
    }
  }

  /** What releasing a use does to its object: pins first, then the lock and the reference. */
  lemma MmReleaseKeeps(objs: seq<Obj>, mm: Mm, use: Use, obj: Obj)
    requires MmInv(objs, mm) && Placed(objs, mm, use.obj)
    requires use.objPinned ==> objs[use.obj].pinCount > 0
    requires use.active ==> objs[use.obj].activeCount > 0
    requires obj == WithoutPins(objs[use.obj], use).(lock := obj.lock, refs := obj.refs)
    ensures MmInv(objs[use.obj := obj], MmRelease(objs, mm, use))
  {
    var dropped := objs[use.obj := WithoutPins(objs[use.obj], use)];
    var mm' := MmRelease(objs, mm, use);
    if use.objPinned || use.active {
      assert FlagsSound(objs[use.obj], mm.flags[use.obj]);
      UpdateKeeps(objs, dropped, mm, use.obj);
    } else {
      assert dropped == objs;
    }
    QuietChange(dropped, objs[use.obj := obj], mm', use.obj);
  }

  lemma MmPinPagesKeeps(objs: seq<Obj>, mm: Mm, o: nat, how: Backing, obj: Obj)
    requires MmInv(objs, mm) && Placed(objs, mm, o) && GetsPages(objs[o], how) && objs[o].pinCount >= 0
    requires obj == WithPages(objs[o], how).(pinCount := objs[o].pinCount + 1, refs := objs[o].refs + 1)
    ensures MmInv(objs[o := obj], MmPinPages(objs, mm, o, how))
  {
    MmGetPagesKeeps(objs, mm, o, how);
    var paged := objs[o := WithPages(objs[o], how)];
    var pinned := objs[o := WithPages(objs[o], how).(pinCount := objs[o].pinCount + 1)];
    assert pinned == paged[o := pinned[o]] && objs[o := obj] == paged[o := obj];
    PinnedKeeps(paged, MmGetPages(objs, mm, o, how), o, pinned[o], obj);
  }

  lemma PinnedKeeps(objs: seq<Obj>, mm: Mm, o: nat, pinned: Obj, obj: Obj)
    requires MmInv(objs, mm) && Placed(objs, mm, o) && objs[o].pinCount >= 0 && objs[o].madv == WillNeed
    requires pinned == objs[o].(pinCount := objs[o].pinCount + 1) && obj == pinned.(refs := obj.refs)
    ensures MmInv(objs[o := obj], UpdateInactive(objs[o := pinned], mm, o))
  {
    var objs' := objs[o := pinned];
    assert FlagsSound(objs[o], mm.flags[o]);
    UpdateKeeps(objs, objs', mm, o);
    assert objs[o := obj] == objs'[o := obj];
    QuietChange(objs', objs'[o := obj], UpdateInactive(objs', mm, o), o);
  }

  lemma MmGetVaddrKeeps(objs: seq<Obj>, mm: Mm, o: nat, how: Backing, vmapOk: bool, obj: Obj)
    requires MmInv(objs, mm) && Placed(objs, mm, o) && GetsVaddr(objs[o], how, vmapOk) && !objs[o].vaddr
    requires obj == WithPages(objs[o], how).(vaddr := true, vmapCount := objs[o].vmapCount + 1)
    ensures MmInv(objs[o := obj], MmGetVaddr(objs, mm, o, how, vmapOk))
  {
    MmGetPagesKeeps(objs, mm, o, how);
    var paged := objs[o := WithPages(objs[o], how)];
    var mapped := objs[o := WithPages(objs[o], how).(vaddr := true)];
    var mm' := MmGetPages(objs, mm, o, how);
    assert FlagsSound(paged[o], mm'.flags[o]);
    UpdateKeeps(paged, mapped, mm', o);
    QuietChange(mapped, objs[o := obj], MmGetVaddr(objs, mm, o, how, vmapOk), o);
  }

  /** Pages, then a pin without another update_inactive. */
  lemma MmPinVmaKeeps(objs: seq<Obj>, mm: Mm, o: nat, how: Backing, obj: Obj)
    requires MmInv(objs, mm) && Placed(objs, mm, o) && GetsPages(objs[o], how) && objs[o].pinCount >= 0
    requires obj == WithPages(objs[o], how).(pinCount := objs[o].pinCount + 1, refs := obj.refs)
    ensures MmInv(objs[o := obj], MmGetPages(objs, mm, o, how))
  {
    MmGetPagesKeeps(objs, mm, o, how);
    var paged := objs[o := WithPages(objs[o], how)];
    var mm' := MmGetPages(objs, mm, o, how);
    assert FlagsSound(paged[o], mm'.flags[o]);
    QuietChange(paged, objs[o := obj], mm', o);
  }

  lemma MmMadviseKeeps(objs: seq<Obj>, mm: Mm, o: nat, madv: Madv)
    requires MmInv(objs, mm) && Placed(objs, mm, o)
    requires objs[o].activeCount >= 0 && (objs[o].activeCount > 0 ==> objs[o].pinCount != 0)
    ensures var objs' := objs[o := AdvisedObj(objs[o], madv)];
            MmInv(objs', if objs[o].activeCount == 0 then UpdateInactive(objs', mm, o) else mm)
  {
    var objs' := objs[o := AdvisedObj(objs[o], madv)];
    assert FlagsSound(objs[o], mm.flags[o]);
    if objs[o].activeCount == 0 {
      UpdateKeeps(objs, objs', mm, o);
    } else {
      QuietChange(objs, objs', mm, o);
    }
  }

  lemma ReleaseMmKeeps(c: Core, mm: Mm, i: nat, keepRef: bool)
    requires UsesOk(c) && CountsOk(c) && MmInv(c.objs, mm) && i < |c.uses| && Placed(c.objs, mm, c.uses[i].obj)
    requires VmaKnown(c, c.uses[i])
    ensures MmInv(Release(c, i, keepRef).objs, MmRelease(c.objs, mm, c.uses[i]))
  {
    assert UseOk(c, c.uses[i]);
    UseIsCounted(c, i);
    MmReleaseKeeps(c.objs, mm, c.uses[i], Release(c, i, keepRef).objs[c.uses[i].obj]);
  }

  lemma GetPagesMmKeeps(c: Core, mm: Mm, o: nat, how: Backing)
    requires MmInv(c.objs, mm) && Placed(c.objs, mm, o)
    ensures MmInv(GetPages(c, o, how).objs, MmGetPages(c.objs, mm, o, how))
  {
    MmGetPagesKeeps(c.objs, mm, o, how);
  }

  lemma PinIovaMmKeeps(c: Core, mm: Mm, step: ClientStep)
    requires CountsOk(c) && MmInv(c.objs, mm) && WellPlaced(c.objs, mm) && ClientEnabled(c, step) && step.PinIova?
    ensures MmInv(ClientApply(c, step).objs, ClientMm(c, mm, step))
  {
    var o, how := step.o, step.how;
    if PinSucceeds(c, o, step.v, how, step.mapOk) {
      var objs' := ClientApply(c, step).objs;
      assert ObjCounted(c.uses, o, c.objs[o]);
      assert objs' == c.objs[o := objs'[o]];
      MmPinVmaKeeps(c.objs, mm, o, how, objs'[o]);
    } else {
      GetPagesMmKeeps(c, mm, o, how);
    }
  }

  lemma PinPagesMmKeeps(c: Core, mm: Mm, o: nat, how: Backing)
    requires CountsOk(c) && MmInv(c.objs, mm) && Placed(c.objs, mm, o)
    ensures MmInv(DoPinPages(c, o, how).objs, MmPinPages(c.objs, mm, o, how))
  {
    if GetsPages(c.objs[o], how) {
      assert ObjCounted(c.uses, o, c.objs[o]);
      var objs' := DoPinPages(c, o, how).objs;
      assert objs' == c.objs[o := objs'[o]];
      MmPinPagesKeeps(c.objs, mm, o, how, objs'[o]);
    } else {
      GetPagesMmKeeps(c, mm, o, how);
    }
  }

  lemma GetVaddrMmKeeps(c: Core, mm: Mm, o: nat, how: Backing, vmapOk: bool)
    requires MmInv(c.objs, mm) && Placed(c.objs, mm, o)
    ensures MmInv(DoGetVaddr(c, o, how, vmapOk).objs, MmGetVaddr(c.objs, mm, o, how, vmapOk))
  {
    var objs' := DoGetVaddr(c, o, how, vmapOk).objs;
    if c.objs[o].vaddr {
      assert FlagsSound(c.objs[o], mm.flags[o]);
      VaddrStays(c, o, how, vmapOk);
      QuietChange(c.objs, objs', mm, o);
    } else if GetsVaddr(c.objs[o], how, vmapOk) {
      MmGetVaddrKeeps(c.objs, mm, o, how, vmapOk, objs'[o]);
    } else {
      GetPagesMmKeeps(c, mm, o, how);
    }
  }

  lemma VaddrStays(c: Core, o: nat, how: Backing, vmapOk: bool)
    requires o < |c.objs| && c.objs[o].vaddr
    ensures OnlyChanges(c.objs, DoGetVaddr(c, o, how, vmapOk).objs, o)
    ensures var obj := DoGetVaddr(c, o, how, vmapOk).objs[o];
            Home(obj) == Home(c.objs[o]) && forall flags :: FlagsSound(c.objs[o], flags) ==> FlagsSound(obj, flags)
  {
  }

  lemma ClientReleaseMmKeeps(c: Core, mm: Mm, step: ClientStep)
    requires UsesOk(c) && CountsOk(c) && MmInv(c.objs, mm) && WellPlaced(c.objs, mm) && ClientEnabled(c, step)
    requires step.DropRef? || step.UnpinIova? || step.UnpinPages?
    ensures MmInv(ClientApply(c, step).objs, ClientMm(c, mm, step))
  {
    ReleaseMmKeeps(c, mm, step.i, false);
  }

  lemma ClientMmKeeps(c: Core, mm: Mm, step: ClientStep)
    requires CoreInv(c) && MmInv(c.objs, mm) && WellPlaced(c.objs, mm) && ClientEnabled(c, step)
    ensures MmInv(ClientApply(c, step).objs, ClientMm(c, mm, step))
  {
    match step
    case New(size, imported) => ListNewKeeps(c.objs, NewObj(size, imported), mm);
    case TakeRef(o) => QuietChange(c.objs, ClientApply(c, step).objs, mm, o);
    case PinIova(o, v, how, mapOk) => PinIovaMmKeeps(c, mm, step);
    case PinPages(o, how) => PinPagesMmKeeps(c, mm, o, how);
    case DropRef(i) => ClientReleaseMmKeeps(c, mm, step);
    case UnpinIova(i) => ClientReleaseMmKeeps(c, mm, step);
    case UnpinPages(i) => ClientReleaseMmKeeps(c, mm, step);
    case Fault(o, how) => GetPagesMmKeeps(c, mm, o, how);
    case GetVaddr(o, how, vmapOk) => GetVaddrMmKeeps(c, mm, o, how, vmapOk);
    case PutVaddr(o) => QuietChange(c.objs, ClientApply(c, step).objs, mm, o);
    case Madvise(o, madv) => MadviseMmKeeps(c, mm, o, madv);
    case Free(o) => ForgetKeeps(c.objs, ClientApply(c, step).objs, mm, o);
    case _ =>
  }

  lemma MadviseMmKeeps(c: Core, mm: Mm, o: nat, madv: Madv)
    requires CoreInv(c) && MmInv(c.objs, mm) && Placed(c.objs, mm, o) && c.objs[o].lock == None
    ensures var objs' := c.objs[o := AdvisedObj(c.objs[o], madv)];
            MmInv(objs', if c.objs[o].activeCount == 0 then UpdateInactive(objs', mm, o) else mm)
  {
    assert ObjCounted(c.uses, o, c.objs[o]);
    if c.objs[o].pinCount == 0 {
      ActiveIsPinned(c, o);
    }
    MmMadviseKeeps(c.objs, mm, o, madv);
  }

  lemma PinMmKeeps(c: Core, mm: Mm, step: SubmitStep)
    requires CountsOk(c) && MmInv(c.objs, mm) && WellPlaced(c.objs, mm) && SubmitEnabled(c, step) && step.Pin?
    ensures MmInv(SubmitApply(c, step).objs, SubmitMm(c, mm, step))
  {
    var o, how := c.uses[step.i].obj, step.how;
    if PinSucceeds(c, o, step.v, how, step.mapOk) {
      assert ObjCounted(c.uses, o, c.objs[o]);
      MmPinVmaKeeps(c.objs, mm, o, how, SubmitApply(c, step).objs[o]);
    } else {
      GetPagesMmKeeps(c, mm, o, how);
    }
  }

  lemma SubmitMmKeeps(c: Core, mm: Mm, step: SubmitStep)
    requires CoreInv(c) && MmInv(c.objs, mm) && WellPlaced(c.objs, mm) && SubmitEnabled(c, step)
    ensures MmInv(SubmitApply(c, step).objs, SubmitMm(c, mm, step))
  {
    var objs' := SubmitApply(c, step).objs;
    match step
    case Lookup(u, o) => QuietChange(c.objs, objs', mm, o);
    case Lock(i) => RelockMmKeeps(c, mm, i, objs');
    case Activate(i) =>
      assert ObjCounted(c.uses, c.uses[i].obj, c.objs[c.uses[i].obj]);
      MakeActiveKeeps(c.objs, objs', mm, c.uses[i].obj);
    case Pin(i, v, how, mapOk) => PinMmKeeps(c, mm, step);
    case BackOff(i) => ReleaseMmKeeps(c, mm, i, true);
    case Fail(i) => ReleaseMmKeeps(c, mm, i, false);
    case Unlock(i) => RelockMmKeeps(c, mm, i, objs');
    case _ =>
  }

  lemma RelockMmKeeps(c: Core, mm: Mm, i: nat, objs': seq<Obj>)
    requires MmInv(c.objs, mm) && i < |c.uses| && c.uses[i].obj < |c.objs| == |objs'|
    requires var o := c.uses[i].obj; objs' == c.objs[o := c.objs[o].(lock := objs'[o].lock)]
    ensures MmInv(objs', mm)
  {
    assert FlagsSound(c.objs[c.uses[i].obj], mm.flags[c.uses[i].obj]);
    QuietChange(c.objs, objs', mm, c.uses[i].obj);
  }

  lemma JobMmKeeps(c: Core, mm: Mm, step: JobStep)
    requires CoreInv(c) && MmInv(c.objs, mm) && WellPlaced(c.objs, mm) && JobEnabled(c, step)
    ensures MmInv(JobApply(c, step).objs, JobMm(c, mm, step))
  {
    match step
    case Retire(i) => ReleaseMmKeeps(c, mm, i, false);
    case _ =>
  }

  lemma ScanMmKeeps(c: Core, mm: Mm, step: ShrinkStep)
    requires MmInv(c.objs, mm) && WellPlaced(c.objs, mm) && ShrinkEnabled(c, step) && CanScan(c, mm, step)
    requires step.BeginScan? || step.ScanNext? || step.EndScan?
    ensures MmInv(c.objs, ShrinkMm(c, mm, step))
  {
    match step
    case BeginScan(kind) => OpenScanLinked(mm.lists, c.objs, kind);
    case ScanNext(t) =>
      var k := Base(mm.lists.lists[t].kind);
      var o := mm.lists.lists[k].members[0];
      assert ListSound(mm.lists, c.objs, k, mm.lists.lists[k]);
      assert o in mm.lists.lists[k].members;
      assert AtHome(mm.lists, o, c.objs[o]);
      MoveLinked(mm.lists, c.objs, o, t);
    case EndScan(t) => CloseScanLinked(mm.lists, c.objs, t);
  }

  lemma PurgeMmKeeps(objs: seq<Obj>, mm: Mm, o: nat)
    requires MmInv(objs, mm) && Placed(objs, mm, o) && Purgeable(objs[o]) && objs[o].activeCount == 0
    ensures MmInv(objs[o := PurgedObj(objs[o])], UpdateInactive(objs[o := PurgedObj(objs[o])], mm, o))
  {
    UpdateKeeps(objs, objs[o := PurgedObj(objs[o])], mm, o);
  }

  lemma EvictMmKeeps(objs: seq<Obj>, mm: Mm, o: nat)
    requires MmInv(objs, mm) && Placed(objs, mm, o) && !Unevictable(objs[o])
    ensures var warned := mm.(warned := Warn(mm.warned, !mm.flags[o].evictable, EvictUnmarked));
            MmInv(objs[o := EvictedObj(objs[o])], UpdateInactive(objs[o := EvictedObj(objs[o])], warned, o))
  {
    var warned := mm.(warned := Warn(mm.warned, !mm.flags[o].evictable, EvictUnmarked));
    assert FlagsSound(objs[o], mm.flags[o]);
    assert MmInv(objs, warned);
    UpdateKeeps(objs, objs[o := EvictedObj(objs[o])], warned, o);
  }

  lemma ShrinkMmKeeps(c: Core, mm: Mm, step: ShrinkStep)
    requires CoreInv(c) && MmInv(c.objs, mm) && WellPlaced(c.objs, mm)
    requires ShrinkEnabled(c, step) && CanScan(c, mm, step)
    ensures MmInv(ShrinkApply(c, step).objs, ShrinkMm(c, mm, step))
  {
    match step
    case Vunmap(o) => NoteUnmappedKeeps(c.objs, ShrinkApply(c, step).objs, mm, o);
    case Purge(o) =>
      ActiveIsPinned(c, o);
      PurgeMmKeeps(c.objs, mm, o);
    case Evict(o) => EvictMmKeeps(c.objs, mm, o);
    case _ => ScanMmKeeps(c, mm, step);
  }
}
