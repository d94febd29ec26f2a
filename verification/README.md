# The GPU job pipeline of the msm driver, in Dafny

This project models the job pipeline of the msm DRM driver and its GPU scheduler and proves what the
pipeline is supposed to guarantee: buffers stay resident while the hardware may use them, jobs start
only after what they depend on, nothing waits in a circle, submits retire once and in order, and
every count is exactly what it stands for.

Protocols between threads are transition systems. A step is one critical section or one atomic
access, and the theorems are about every state of every run, in any interleaving, for any number of
objects, submits, rings, entities, schedulers, queues, threads and CRTCs. Loops and in-place updates
of the driver are methods and classes, proved against specification functions or against the steps.
Each of the transition systems has an inductive invariant (`Inv`), a lemma that every step keeps it
(`InvKept`), and theorems drawn from it. History theorems say what fields of the state stand for in
terms of the steps taken so far, and the lemmas named `...GetsThrough` and `...Undone` go through whole
operations and give the exact outcome, so that no step is ruled out or left without effect.

| module | models |
|---|---|
| `GemObject`, `LruLists`, `Inactive` | buffer objects, the dontneed and evictable flags with their page counts, the mm lists and update_inactive |
| `Residency` | steps of clients, submits, job runs, hardware and shrinker on objects, mappings, uses, submits, rings, lists and counts |
| `ResidencyHistory`, `ResidencyLife` | what vmap_count and madv stand for; what one step undoes of another, and a submit from lookup to retiring |
| `ResidencyCore`, `ResidencyMm`, `ResidencySafety`, `ResidencyLimits`, `ResidencyWarnings` | what those steps keep, what that means for whole runs, and where the code falls short of it |
| `Shrinker`, `ShrinkerRace` | the scan loop and its callbacks, in place, undisturbed and with everybody else at work |
| `SubmitBos` | the loops over a submit's buffers: lookup, ww locking with back-off, pinning, cleanup, job run, retire |
| `Reloc`, `RelocWords` | command stream patching, and the words written, bit by bit |
| `ImplicitSync` | implicit fences before kernel 5.4 |
| `WaitGraph`, `WaitHistory` | who waits for whom, through buffers, syncobjs, file descriptors and entity queues |
| `JobDeps`, `SchedOrder`, `SchedBreaks` | job dependencies, why the scheduler's dependency shortcuts are sound, and exactly when they are not |
| `SchedCount`, `RunQueue` | counters and recovery, and entity selection of the scheduler |
| `Fence` | 32-bit fence numbers against unbounded ones, and the fences of a mapping |
| `Retire` | retiring submits and hang recovery |
| `Preempt` | the a5xx preemption state machine |
| `AtomicCommit`, `CommitHistory` | synchronous and asynchronous atomic commits |
| `Devfreq` | load averaging |

Sequence numbers are unbounded everywhere but in `Fence`, which shows under what condition the
32-bit ones agree with them.

## Where the code differs from what it promises

For each of the first nine there is a lemma with a run or input, and a lemma that says exactly when
the promise is kept.

- Submit queues of one file that have the same ring and priority share a scheduler entity
  (msm/msm_submitqueue.c:121-156), but arming and pushing are serialised per queue only, and a job's
  sync_file descriptor is installed before its push (msm/msm_gem_submit.c:1074-1122). So a job can be
  told to wait for a job of its own entity that is not pushed yet, ignore that fence as one of its
  entity, and run first. Of the fences of two jobs that are pushed in the other order than armed,
  de-duplication keeps the wrong one. Without failing run_jobs, a job can start before what it was
  told to wait for if and only if two queues share an entity (`SchedBreaks`).
- A run_job that fails signals its job's fence at once. If an earlier job of the entity is still
  running, fences of that context signal out of order: a job told to wait for both keeps only the
  later fence, and an entity looks idle that is not. With one queue per entity, a job can start too
  early if and only if not all entities are bound to the same ring, and only after a failure with an
  unfinished job of its entity before it. On one ring failures do no harm (`SchedBreaks`).
- Through descriptors of jobs not pushed yet, jobs can also wait for each other in a circle, and all
  that is left can be stuck. This is possible if and only if two queues share an entity and a third
  queue feeds another one (`WaitGraph`).
- recover_worker completes one more fence on the current ring even if that ring has nothing
  unfinished, for instance because the job finished after the hang check. The fence it completes is
  then that of the next submit, which retires before it ran. When the hung submit is all there is,
  the GPU is not reset and keeps it; if it finishes later it takes memptrs->fence back, and the next
  recovery gives up nothing. Recovery gives up a submit exactly if completed_fence is not ahead of
  memptrs->fence (`Retire`).
- A reader that opts out of implicit synchronisation replaces the fence of the writer before it. The
  next writer no longer waits for that writer, although the comment in submit_fence_sync says that
  writes stay ordered (`ImplicitSync`).
- Purging does not look at vmap_count: the pages of an object whose kernel mapping is in use can be
  purged, leaving the mapping behind. The warning of msm_gem_vunmap fires exactly then
  (`ResidencyLimits`).
- When get_pages has pages but cannot make the sg table, the pages stay, and the next pin maps the
  object without an sg table (`ResidencyLimits`).
- Freeing an object does not take its pages out of evictable_count (`ResidencyLimits`).
- msm_gem_evict warns if the object is not counted as evictable (msm/msm_gem.c:818). It can be called
  for such an object: when the owner calls the object DONTNEED while a scan looks at it, and when the
  shrinker takes the kernel mapping of an object, because that is not followed by update_inactive. The
  warning fires if and only if the object is no longer WILLNEED with an sg table; or its kernel mapping
  was taken since the last update_inactive, and the flag was not set when it last could be
  (`ResidencyLimits`).
- Of the other warnings of the buffer bookkeeping, only that for using an object which is not WILLNEED
  is not excluded (`ResidencySafety.NoForbiddenWarning` excludes all others). It is given if and only if
  such an object is pinned, faulted in, mapped into the kernel or made active (`ResidencyWarnings`).
- The comment on the preemption states gives START two successors, TRIGGERED and NONE. In the code
  they are TRIGGERED and ABORT (`Preempt`).
- can_do_async says yes to a commit without any CRTC and names none (`AtomicCommit.CanDoAsync`).

## Assumptions

- Clients balance pins, references and kernel mappings; the index of a fence context is below
  MSM_GPU_MAX_RINGS; objects are page-backed.
- A ring executes in order, and a fence is completed only after its submit was given to the ring,
  except where `Retire` says otherwise.
- After arming, allocating the fence id and the sync_file succeeds. In the code a failure there still
  pushes the job and then undoes the submit's pins.
- The properties of the scheduler exclude entities that are killed with jobs queued.
- No mapping has address 0.

## Model

| member | source | states |
|---|---|---|
| `JobDeps.AddAllFaithful` | scheduler/sched_main.c:657-690 | After any sequence of adds the kept fences have distinct contexts, each was added, and each added fence is kept or a later one of its context is. |
| `JobDeps.KeptStandsFor` | scheduler/sched_main.c:657-690 | For every added fence a kept one of its context that is no earlier, with the places of both. |
| `JobDeps.WaitingOnKeptIsWaitingOnAll` | scheduler/sched_main.c:657-690 | With in-order contexts, all kept fences are signaled if and only if all added ones are. |
| `JobDeps.OutOfOrderContextLosesADependency` | scheduler/sched_main.c:657-690 | Without in-order contexts that fails: a concrete pair of fences. |
| `JobDeps.Job.AddDependency` | scheduler/sched_main.c:657-690 | The xarray loop: a fence of a known context replaces the kept one iff it is later, another is appended at the next free index, a null fence or a failed allocation changes nothing. |
| `JobDeps.Job.NextDependency` | scheduler/sched_entity.c:214-225 | Takes the first kept fence out; the used indices stay a range that starts at last_dependency. |
| `JobDeps.Job.TakeAll` | scheduler/sched_entity.c:414-427 | The dependency loop sees every kept fence exactly once, in order, and ends with none left. |
| `JobDeps.LeastFreeIndex` | scheduler/sched_main.c:685-689 | xa_alloc finds the least index not in use. |
| `SchedOrder.InvKept` | scheduler/sched_main.c:999-1062 | Every step of submitters, scheduler threads, callbacks and rings keeps the invariant, arming apart from pushing, entity moves and failing run_jobs included, if steps are orderly and, with more than one ring, failures are clean. |
| `SchedOrder.IdleMeansComplete` | scheduler/sched_entity.c:449-488 | An entity that select_rq finds idle has only complete work behind it, on whatever rings. |
| `SchedOrder.ExaminedRight` | scheduler/sched_entity.c:370-412 | What add_dependency_cb does not wait for is settled for the entity's ring; what it waits for is awaited in the right way. |
| `SchedOrder.SettledCoversEarlier` | scheduler/sched_entity.c:370-412 | If a job is settled for a popped one, so is every earlier job of its entity. |
| `SchedOrder.DepIsAhead` | scheduler/sched_entity.c:414-447 | When a job is about to run, all that was ever added as its dependency is complete or ahead of it on its ring, de-duplicated and ignored fences included. |
| `SchedOrder.DependenciesCompleteBeforeStart` | scheduler/sched_entity.c:370-488 | In every run with orderly pushes and clean failures, a job that may have started has all its dependencies complete, those on jobs only armed included, across schedulers and entity moves. |
| `SchedOrder.ArmedFencesCompleteBeforeStart` | scheduler/sched_main.c:657-690 | So for every fence that a job was given when it was armed, however long ago. |
| `SchedOrder.ForeignIffSignaled` | scheduler/sched_entity.c:400-412 | A foreign fence counts as signaled iff it, or a later one of its context, was. |
| `SchedOrder.AwaitedHeadGoesOn` | scheduler/sched_entity.c:414-447 | A head that awaited its last fence is woken and taken once that has signaled, or was scheduled. |
| `SchedOrder.OneRingToleratesFailures` | scheduler/sched_main.c:1052-1057 | If all entities are bound to one ring, the same holds whatever run_jobs fail. |
| `SchedOrder.OneQueueIsOrderly` | msm/msm_submitqueue.c:121-156 | If no two queues share an entity, the queue locks make every push and every move orderly. |
| `SchedOrder.EntityExecutesInOrder` | scheduler/sched_main.c:999-1062 | When a job may have started, all jobs of its entity armed before it are complete, even on other rings. |
| `SchedBreaks.BreakableIff` | msm/msm_gem_submit.c:1074-1122 | For any queues, entities and rings: a run in which a job starts before a dependency is complete exists if and only if two queues share an entity, or run_job may fail and the entities are not all bound to one ring. |
| `SchedBreaks.SharedEntityBreaks` | msm/msm_gem_submit.c:1074-1122 | For any two queues of one entity, a run without failures that reaches it: a job ignores the fence of one of its entity that it overtook. |
| `SchedBreaks.OvertakingBreaks` | scheduler/sched_main.c:657-690 | Likewise for a job of a third queue: of the fences of two jobs pushed out of order, de-duplication keeps the one that signals first. |
| `SchedBreaks.EarlyFailureBreaksTheGuarantee` | scheduler/sched_main.c:1052-1057 | From any sound state, a failure with an earlier job of the entity unfinished goes on to a violation, if an entity with an empty queue is on another ring with a free thread. |
| `SchedBreaks.FailureBreaksAcrossEntities` | scheduler/sched_main.c:1052-1057 | For any two entities that can be on different rings, a run with one failure that reaches a violation. |
| `SchedBreaks.FailureBreaksAcrossAMove` | scheduler/sched_entity.c:449-488 | The same with one entity that may move, because it looks idle after the failure. |
| `SchedBreaks.BreakNeedsUncleanFailure` | scheduler/sched_main.c:1052-1057 | With one queue per entity every run that reaches a violation has an unclean failure, and entities that are not bound to one ring. |
| `SchedOrder.Peek` | scheduler/sched_entity.c:418-420 | Finds the first queued job of the entity, or that there is none. |
| `SchedOrder.PopJob` | scheduler/sched_entity.c:414-447 | The popping loop keeps the invariant, changes nothing for an empty queue, takes the head only with all its kept fences settled, and otherwise leaves it awaiting one. |
| `WaitGraph.InvKept` | msm/msm_gem_submit.c:1014-1132 | Every step of any number of submit ioctls keeps the invariant that fences found in reservation objects and syncobjs belong to pushed jobs. |
| `WaitGraph.PushedBeforeDependentArmed` | msm/msm_gem_submit.c:453-574 | Whatever an ioctl collected from reservation objects and syncobjs was pushed before its own job is armed. |
| `WaitGraph.NoCycle` | msm/msm_gem_submit.c:1014-1132 | In every reachable state the graph of implicit, syncobj and FIFO waits has no cycle of any length. |
| `WaitGraph.SomeJobCanRun` | scheduler/sched_entity.c:501-525 | While a pushed job is unfinished, some pushed job waits for nothing unfinished. |
| `WaitGraph.NoCycleWithDescriptors` | msm/msm_gem_submit.c:1107-1122 | With file descriptors there is still no cycle if no two queues share an entity, or all do. |
| `WaitGraph.SomeJobCanRunOrBePushed` | msm/msm_gem_submit.c:1107-1122 | In both cases, in every run, while a job is unfinished some job can run or a submit that armed one can push it. |
| `WaitGraph.CycleReached` | msm/msm_gem_submit.c:1107-1122 | If two queues share an entity and a third feeds another, a run that reaches a cycle of three jobs, with nothing left that can run or be pushed. |
| `WaitGraph.CycleIffQueuesCross` | msm/msm_submitqueue.c:121-156 | A cycle can be reached if and only if two queues share an entity and a third feeds another. |
| `WaitGraph.StuckIffQueuesCross` | msm/msm_submitqueue.c:121-156 | A state with unfinished jobs of which none can run or be pushed can be reached if and only if that is so. |
| `WaitHistory.DependsOnWhatItNamed` | msm/msm_gem_submit.c:453-574 | In every run a job depends on exactly the fences that its submit collected before arming: from syncobjs, descriptors and buffers. |
| `WaitHistory.SyncobjHoldsLast` | msm/msm_gem_submit.c:1124-1132 | A syncobj holds the job published to it last, unless it was reset since. |
| `WaitHistory.OrderedThroughSyncobj` | msm/msm_gem_submit.c:1124-1132 | A submit that takes a syncobj depends on the job published to it, if nobody wrote it in between. |
| `WaitHistory.OrderedThroughBuffer` | msm/msm_gem_submit.c:551-574 | A submit that collects from a buffer depends on the job attached to it, if nobody attached in between. |
| `WaitHistory.CompletesAfterWhatItNamed` | scheduler/sched_entity.c:370-412 | A job completes only after every job of another entity that its submit named completed. |
| `WaitHistory.NoLocksLeft` | msm/msm_gem_submit.c:1134-1150 | After a submit failed or finished it holds no buffer and no queue lock. |
| `WaitHistory.SubmitGetsThrough` | msm/msm_gem_submit.c:1014-1132 | From any state with its locks free a submit gets from begin to finish, with the exact outcome. |
| `GemObject.UpdateMarksEffect` | msm/msm_gem.h:328-415 | The mark helpers, as update_inactive calls them, keep both counts in step with the flags, give no double-mark or negative-count warning, leave the right flags, and note what set them. |
| `LruLists.ExactlyOneList` | msm/msm_gem.h:127-136 | A linked object is on one list only and there once. |
| `LruLists.MoveLinked` | msm/msm_gem.c:891-901 | Moving an object between lists keeps every object on exactly one list. |
| `LruLists.CloseScanLinked` | msm/msm_gem_shrinker.c:121-122 | Splicing a scan's list back keeps every object on exactly one list. |
| `Inactive.UpdateKeeps` | msm/msm_gem.c:875-904 | After a change to an object update_inactive makes page counts, lists, flags and the object's place right again. |
| `Inactive.MakeActiveKeeps` | msm/msm_gem.c:844-861 | msm_gem_active_get keeps them right and moves the object to the active list once. |
| `Inactive.ForgetKeeps` | msm/msm_gem.c:1066-1080 | Freeing keeps shrinkable_count exact and takes the object off its list. |
| `ResidencyCore.UnpinnedIsNotBusy` | msm/msm_gem_vma.c:41-56 | An object nobody has pinned has no mapping in use, by pin or by unfinished fence. |
| `ResidencyCore.ActiveIsPinned` | msm/msm_gem_submit.c:502-549 | An object whose lock is free and whose pin_count is 0 is not active. |
| `ResidencyCore.ReleaseKeeps` | msm/msm_gem_submit.c:227-256 | Releasing a use keeps all counts what the remaining uses claim, and warns of nothing. |
| `ResidencyCore.PinKeeps` | msm/msm_gem.c:444-474 | Pinning a submit's buffer, with any of its failures, keeps the invariant. |
| `ResidencyCore.HandOffKeeps` | msm/msm_gem_vma.c:87-93 | Swapping a VMA pin for a fence keeps the mapping guarded until the fence is done. |
| `ResidencyCore.UnmapKeeps` | msm/msm_gem.c:382-411 | Dropping all mappings of an unpinned object takes nothing from anybody who needs it. |
| `ResidencyCore.ClearIovaKeeps` | msm/msm_gem.c:560-576 | Clearing a mapping that is not in use takes nothing from anybody who needs it. |
| `ResidencyCore.ClientKeeps` | msm/msm_gem.c:189-223 | Every client step keeps objects, mappings, uses, pin, active and reference counts and fences consistent; vmap_count is the subject of `ResidencyHistory.VmapCountIsExact`. |
| `ResidencyCore.SubmitKeeps` | msm/msm_gem_submit.c:502-549 | So does every step of a submit ioctl. |
| `ResidencyCore.JobKeeps` | msm/msm_ringbuffer.c:14-44 | So does every step of job run, hardware and retiring. |
| `ResidencyCore.ShrinkKeeps` | msm/msm_gem_shrinker.c:41-65 | So do purge, evict and vunmap, without a warning that must not fire. |
| `ResidencyMm.ClientMmKeeps` | msm/msm_gem.c:751-771 | Client steps, madvise among them, keep lists, flags and page counts right. |
| `ResidencyMm.SubmitMmKeeps` | msm/msm_gem_submit.c:502-549 | So do the steps of a submit ioctl. |
| `ResidencyMm.JobMmKeeps` | msm/msm_gem_submit.c:690-703 | So do job run and retiring. |
| `ResidencyMm.ShrinkMmKeeps` | msm/msm_gem_shrinker.c:67-125 | So do purge, evict and the list moves of a scan. |
| `ResidencySafety.InvKept` | msm/msm_gem.c:773-873 | Every step keeps the whole invariant. |
| `ResidencySafety.NoForbiddenWarning` | msm/msm_gem.c:773-873 | In no run does a warning fire about pin counts, mappings in use, marks, negative counts, purgeability, evicting or freeing active objects. When the warnings for uncounted evictions and busy kernel mappings fire is stated by the rows of `ResidencyLimits`. |
| `ResidencySafety.ShrinkerTouchesOnlyIdleObjects` | msm/msm_gem_shrinker.c:41-125 | Whenever purge or evict may act, the object is not active, no mapping of it is in use, and no queued or in-flight submit has it. |
| `ResidencySafety.HardwareFindsItsBuffers` | msm/msm_ringbuffer.c:14-44 | Every buffer of a queued or in-flight submit is mapped in its address space and has pages, in every interleaving. |
| `ResidencySafety.RecordedFenceIsOwn` | msm/msm_gem_vma.c:87-93 | The fence that replaces a submit's VMA pin is the submit's own. |
| `ResidencySafety.PinCountIsExact` | msm/msm_gem.c:444-486 | pin_count is the sum of the inuse counts of the object's mappings, plus submits between job run and retire, plus pins of pages alone; an active object with a free lock is pinned. |
| `ResidencySafety.SubmitLeavesNoTrace` | msm/msm_gem_submit.c:674-703 | In every run, once a submit is over, failed or retired, locks, references, pins, inuse and active counts are what the others account for. |
| `ResidencySafety.PageCountsAreExact` | msm/msm_gem.h:345-415 | shrinkable_count is the flagged page total, evictable_count the flagged total plus what freeing left behind. |
| `ResidencySafety.ShrinkableIsWhatMayGo` | msm/msm_gem.h:328-377 | While its lock is free, an object counts as shrinkable if and only if it is DONTNEED, not imported and not pinned. |
| `ResidencySafety.LeakOnlyByFree` | msm/msm_gem.c:1066-1080 | Only freeing an object flagged evictable adds to that remainder, by the object's pages. |
| `ResidencySafety.EvictableIsExactWithoutFrees` | msm/msm_gem.c:1066-1080 | evictable_count is exact on runs that free no object flagged evictable. |
| `ResidencySafety.EveryObjectIsListed` | msm/msm_gem.c:751-904 | Every live object is on exactly one list, and unless imported on the one, or on the temporary list of a scan of the one, that active_count, madv and sgt call for. |
| `ResidencySafety.PurgedIsGone` | msm/msm_gem.c:773-806 | A purge takes pages, sg table and all mappings of its object and of no other, ends on the unpinned list, and takes exactly its pages out of shrinkable_count. |
| `ResidencySafety.EvictedMayComeBack` | msm/msm_gem.c:811-829 | An eviction takes pages and sg table and unmaps, but keeps the mappings allocated, and touches no other object. |
| `ResidencyLife.AddressUndone` | msm/msm_gem.c:413-442 | A mapping is made once per object and address space, and can be made again after it was cleared. |
| `ResidencyHistory.VmapCountIsExact` | msm/msm_gem.c:654-701 | In every run vmap_count is the number of get_vaddr calls that succeeded and were not put, and while there is one the kernel mapping is there. |
| `ResidencyHistory.HeldMappingStays` | msm/msm_gem.c:831-842 | The shrinker's vunmap is never enabled for an object that somebody holds mapped. |
| `ResidencyHistory.HeldMappingHasPages` | msm/msm_gem.c:654-701 | A mapping that somebody holds has its pages, in every run that purges no object while it is held. |
| `ResidencyHistory.MadvIsLastAdvice` | msm/msm_gem.c:751-771 | madv is what the owner said last, WILLNEED at first, and a purged object stays purged. |
| `ResidencyLife.RefUndone` | msm/msm_gem.c:1066-1080 | Taking and dropping a reference restores objects and mappings. |
| `ResidencyLife.PagesUndone` | msm/msm_gem.c:197-223 | Pinning and unpinning pages leaves the object as it was, with pages. |
| `ResidencyLife.IovaUndone` | msm/msm_gem.c:444-486 | Pinning and unpinning a mapping leaves counts as they were, the object with pages and the mapping mapped. |
| `ResidencyLife.VaddrUndone` | msm/msm_gem.c:654-749 | Of two callers that map an object, both must give it back before it can be unmapped. |
| `ResidencyLife.EvictedComesBack` | msm/msm_gem.c:811-829 | An evicted object comes back with the next pin, in the same mapping. |
| `ResidencyLife.PurgedStaysGone` | msm/msm_gem.c:773-806 | A purged one has no mapping left and cannot be faulted in. |
| `ResidencyLife.FailUndoes` | msm/msm_gem_submit.c:227-266 | Failing gives back all that lookup, locking, activating and pinning took; backing off all but the reference. |
| `ResidencyLife.PinGetsThrough` | msm/msm_gem_submit.c:502-549 | From any state the ioctl can get as far as having a free WILLNEED buffer pinned, with the exact outcome. |
| `ResidencyLife.PushGetsThrough` | msm/msm_gem_submit.c:1122-1140 | Pushed and unlocked, the submit keeps reference, active count and pins. |
| `ResidencyLife.RunGetsThrough` | msm/msm_ringbuffer.c:14-44 | Run, it has exchanged the mapping's pin for the ring's next fence. |
| `ResidencyLife.RetireGetsThrough` | msm/msm_gem_submit.c:690-703 | It retires when the hardware has come to that fence and not before, and leaves the object as it was, with pages and mapping. |
| `ResidencyLimits.KernelMapsLostIffPurged` | msm/msm_gem.c:773-806 | A step leaves a kernel mapping without pages if and only if it purges an object with vmap_count above 0. |
| `ResidencyLimits.PurgedUnderKernelMapping` | msm/msm_gem.c:831-842 | A run that does. |
| `ResidencyLimits.VunmapWarnsIffPurgesMapped` | msm/msm_gem.c:831-842 | The warning for a kernel mapping in use is given exactly by such a step. |
| `ResidencyLimits.EvictableIsWhatMayGo` | msm/msm_gem.h:379-415 | With its lock free, an object that is_unevictable lets go is flagged evictable iff it is WILLNEED with an sg table, unless its kernel mapping was taken since the last update_inactive; and always iff the last call that could set the flag did. |
| `ResidencyLimits.EvictWarnsIffUncounted` | msm/msm_gem.c:811-829 | In every run, the warning for evicting an uncounted object was given iff evict was called for an object not WILLNEED with an sg table, or unmapped since the last update_inactive and not flagged then. |
| `ResidencyLimits.EvictedThoughUnneeded` | msm/msm_gem_shrinker.c:78-118 | A run that gives it: madvise comes between the move to the scan's list and the callback. |
| `ResidencyLimits.EvictedThoughNotCounted` | msm/msm_gem.c:831-842 | A run that gives it: a submit patches a buffer under a kernel mapping, and the shrinker takes the mapping before it evicts. |
| `ResidencyWarnings.WarnedIffUsed` | msm/msm_gem.c:101-223 | In every run, the warning for using an object that is not WILLNEED was given iff one was pinned, faulted in, mapped into the kernel or made active, or one still counted as shrinkable was made active. |
| `ResidencyLimits.SgTablesLostIffSgtFails` | msm/msm_gem.c:101-148 | A step leaves pages without an sg table if and only if get_pages fails half way in it. |
| `ResidencyLimits.MappedHasSgTable` | msm/msm_gem.c:444-474 | On runs where that does not happen every mapped object has its sg table. |
| `ResidencyLimits.MappedWithoutSgTable` | msm/msm_gem.c:101-148 | A run that maps an object without one. |
| `ResidencyLimits.FreedPagesStayEvictable` | msm/msm_gem.c:1066-1080 | A run after which evictable_count includes a freed object's page. |
| `Shrinker.Device.PutIovaSpaces` | msm/msm_gem.c:382-411 | The loop unmaps exactly the object's mappings, closes them if asked, and warns iff one is in use. |
| `Shrinker.Device.Shrink` | msm/msm_gem_shrinker.c:41-65 | The callbacks act exactly if their test passes, and then do the corresponding step. |
| `Shrinker.Device.Visit` | msm/msm_gem_shrinker.c:78-118 | A turn of the loop takes the head of the list, shrinks it iff it can be, and keeps it on the temporary list otherwise. |
| `Shrinker.Device.Scan` | msm/msm_gem_shrinker.c:67-125 | Undisturbed, a scan visits a prefix of the list, shrinks exactly those visited that can be, puts the others back in order, loses none, returns exactly the pages shrunk, and stops at enough or at the end of the list. |
| `Shrinker.Device.ShrinkerScan` | msm/msm_gem_shrinker.c:127-150 | Undisturbed, eviction happens only after purging was not enough and with swap, and the result is the pages of all objects shrunk. |
| `ShrinkerRace.ScanAmidOthers` | msm/msm_gem_shrinker.c:67-125 | For any steps of others between and during its turns, a scan is a stretch of a run: it keeps the invariant, does only what a scan does, returns exactly the pages of the objects that it shrank, and stops only at enough or with the list empty. |
| `ShrinkerRace.ShrinkerScanAmidOthers` | msm/msm_gem_shrinker.c:127-150 | So do both scans together, and nothing is evicted if purging was enough or there is no swap. |
| `ShrinkerRace.PathExtendsRun` | msm/msm_gem_shrinker.c:67-125 | A run followed by such a stretch is a run, so the theorems about runs hold throughout it. |
| `ShrinkerRace.ShrinksOnlyIdle` | msm/msm_gem_shrinker.c:100-112 | What is purged or evicted in it is idle at that moment: not active, not mapped in use, in no queued or in-flight submit. |
| `ShrinkerRace.RefStays` | msm/msm_gem_shrinker.c:87-93 | The reference that the scan takes stays its own until it drops it, whatever others do. |
| `Fence.DifferenceModulo` | msm/msm_fence.h:73-83 | What the wrapped signed difference is for any two unbounded numbers. |
| `Fence.OrderInWindow` | msm/msm_fence.h:73-83 | fence_before and fence_after agree with the unbounded order within a window of 2^31. |
| `Fence.WindowIsTight` | msm/msm_fence.h:73-83 | They fail right outside of it, on both sides. |
| `Fence.CompletedInWindow` | msm/msm_fence.c:84-94 | msm_fence_completed answers whether the unbounded fence is done. |
| `Fence.FenceContext.Alloc` | msm/msm_fence.c:180-194 | Allocation follows the unbounded counter through wrap-around; a failed one uses up no number. |
| `Fence.FenceContext.Completed` | msm/msm_fence.c:84-94 | The query answers for the unbounded timeline. |
| `Fence.FenceContext.Update` | msm/msm_fence.c:97-107 | completed_fence becomes the greater of old and new and never goes back. |
| `Fence.GpuActive` | msm/msm_gpu.h:313-325 | The loop answers whether some ring was given a fence that the hardware has not reached. |
| `Fence.Mapping.SwapPinForFence` | msm/msm_gem_vma.c:87-93 | A pin is exchanged for the ring's fence and its mask bit. |
| `Fence.Mapping.IsInUse` | msm/msm_gem_vma.c:41-56 | The query answers right and clears exactly the bits below the first pending fence. |
| `Fence.LazyClearingIsInvisible` | msm/msm_gem_vma.c:41-56 | Over any sequence of pins, unpins, fences, queries and progress that undoes no completion, all answers are those of a mapping that never clears a bit. |
| `Fence.InUseIffClaimed` | msm/msm_gem_vma.c:41-93 | After any operations the answer is yes if and only if a pin is held, or the last fence exchanged for one on some ring is not done. |
| `Retire.DoneIsForever` | msm/msm_fence.c:84-107 | In every run of submits, interrupts, retiring and recoveries, spurious ones included, a fence that looks signaled does so ever after, although memptrs->fence can go back. |
| `Retire.RunsMakeProgress` | msm/msm_fence.c:84-107 | So the timelines of the rings move only in ways that lazy clearing tolerates. |
| `Retire.InvKept` | msm/msm_gpu.c:632-768 | Every step keeps each ring's lists, fences and hardware queue consistent, recoveries from a hang included. |
| `Retire.RetiredInOrderOnceFinished` | msm/msm_gpu.c:632-706 | Submits of a ring retire once, in fence order, and only after the hardware finished them or a recovery gave them up; the rest is still listed, in order. |
| `Retire.RecoveryRetiresOneMore` | msm/msm_gpu.c:358-452 | When the current ring has something unfinished, recovery and the retire work it queues retire the signaled prefix of every ring, and one submit more exactly on the current ring if completed_fence is not ahead of memptrs->fence; that one is given up. |
| `Retire.LateFinishHidesAHang` | msm/msm_gpu.c:411-447 | A run in which it is ahead: a hang that was not reset finishes late, and the recovery from the next hang retires no further submit. |
| `Retire.ReplayIsTheRest` | msm/msm_gpu.c:426-447 | If any ring, idle ones or not, has a fence allocated beyond memptrs->fence, on the current ring beyond one more, the GPU is reset and the hardware of every ring gets exactly the submits after the last fence that looks signaled, in order; otherwise its queue is left as it is. |
| `Retire.ResetBoundsFence` | msm/adreno/adreno_gpu.c:518-530 | A reset leaves memptrs->fence where it was, or at the last fence allocated if it was beyond. |
| `Retire.IrqThenRetire` | msm/msm_gpu.c:675-725 | After the interrupt completed_fence covers all that the hardware finished, and the worker then retires exactly that. |
| `Retire.SubmitGetsThrough` | msm/msm_gpu.c:728-768 | A submit on an idle ring is listed, queued, finished and retired after all before it. |
| `Retire.LoneHangIsNotReset` | msm/msm_gpu.c:426-447 | If the hung submit is all there is, the hardware keeps it. |
| `Retire.RecoveryIsSoundIffSomethingHangs` | msm/msm_gpu.c:411-424 | Recovery keeps the invariant if and only if the current ring has an unfinished submit; otherwise it completes the next submit's fence. |
| `Retire.RetiredBeforeItRan` | msm/msm_gpu.c:411-424 | A run in which a submit retires while the hardware still has it. |
| `Retire.Gpu.SubmitPending` | msm/msm_gpu.c:728-768 | msm_gpu_submit lists the submit and active_submits stays the total length of the lists. |
| `Retire.Gpu.RetireSubmit` | msm/msm_gpu.c:632-673 | Retiring the head keeps active_submits exact and not negative. |
| `Retire.Gpu.RetireRing` | msm/msm_gpu.c:683-702 | The inner loop retires exactly the signaled prefix. |
| `Retire.Gpu.RetireSubmits` | msm/msm_gpu.c:675-706 | So on every ring. |
| `Retire.Gpu.FindSubmit` | msm/msm_gpu.c:316-332 | Finds the submit iff it is listed. |
| `Retire.Gpu.UpdateFences` | msm/msm_gpu.c:716-725 | Every ring's completed fence catches up with the hardware. |
| `Retire.Gpu.RecoverWorker` | msm/msm_gpu.c:358-452 | The worker's loops do what the recovery step says, of which the rows above tell who is reset and what is replayed and retired; they count the fault to a submit iff one is found, and keep active_submits exact. |
| `SchedCount.InvKept` | scheduler/sched_main.c:401-574 | Every step keeps counters, pending lists and job stages consistent. |
| `SchedCount.CountersAreExact` | scheduler/sched_main.c:999-1062 | hw_rq_count is the number of begun jobs neither done nor detached, between 0 and the limit; score is unfinished jobs plus listed entities. |
| `SchedCount.StopReachesZero` | scheduler/sched_main.c:401-470 | After stop hw_rq_count is 0 and exactly the unfinished begun jobs are pending. |
| `SchedCount.StartRestores` | scheduler/sched_main.c:480-517 | After a full start hw_rq_count is the number of begun jobs not done. |
| `SchedCount.DoneExactlyOnce` | scheduler/sched_main.c:182-196 | Over any number of stop, resubmit and start cycles no job is completed twice. |
| `SchedCount.SignalCompletes` | scheduler/sched_main.c:203-208 | While the scheduler is going, a hardware fence that signals completes its job. |
| `SchedCount.DoneIffSignaled` | scheduler/sched_main.c:1040-1057 | In every run a done job has no pending hardware fence, and while its scheduler is going a job that run_job returned for is done iff its fence is not pending. |
| `SchedCount.DoneByCompletionOnly` | scheduler/sched_main.c:1040-1057 | A step makes a job done iff it is the signal of its fence, or a run_job or a start that finds no pending fence. |
| `SchedCount.FencesAreExact` | scheduler/sched_main.c:547-574 | The hardware fence of a job is what run_job returned last, at first or on resubmission, unless that has signaled. |
| `SchedCount.EntitiesAreExact` | scheduler/sched_main.c:100-130 | An entity is listed, or not, where it was put last. |
| `SchedCount.JobGetsThrough` | scheduler/sched_main.c:999-1062 | A job gets from push to completion by its signal, and the counters are what they were. |
| `SchedCount.TimeoutLosesNothing` | scheduler/sched_main.c:401-420 | The job that the time-out handler took off the list is back at its head when stop begins. |
| `SchedCount.Stop` | scheduler/sched_main.c:401-470 | Whatever hardware fences signal between its turns, the reverse loop ends with hw_rq_count 0, score exact, and exactly the detached jobs pending. |
| `SchedCount.Start` | scheduler/sched_main.c:480-517 | Likewise, the loop ends with hw_rq_count exact and within the limit and the pending list unchanged. |
| `SubmitBos.Submit.Lookup` | msm/msm_gem_submit.c:92-158 | Every entry found holds one reference and nothing else. |
| `SubmitBos.Submit.CleanupBo` | msm/msm_gem_submit.c:227-256 | Drops exactly the claims that are both held and asked for. |
| `SubmitBos.Submit.UnlockUnpinBo` | msm/msm_gem_submit.c:258-266 | Also forgets the presumed address of an entry not found valid. |
| `SubmitBos.Submit.TryLockAll` | msm/msm_gem_submit.c:273-298 | One pass locks a prefix, knows the contended entry, and succeeds only if all objects are distinct. |
| `SubmitBos.Submit.UnlockAll` | msm/msm_gem_submit.c:300-311 | The unwinding gives back every lock, the slow-locked one included although its index is compared with 0. |
| `SubmitBos.Submit.LockObjects` | msm/msm_gem_submit.c:269-338 | For any sequence of lock outcomes: success holds every lock exactly once, an error holds none, and none is held when the contended one is waited for. Without a signal it succeeds if and only if no buffer is listed twice, and says EINVAL otherwise. |
| `SubmitBos.Submit.PinObjects` | msm/msm_gem_submit.c:502-549 | Pins all or stops at the failing buffer; valid flags and submit->valid say which presumed addresses were right. |
| `SubmitBos.Submit.Cleanup` | msm/msm_gem_submit.c:674-688 | After an error all counts are as before the submit, otherwise only the locks go. |
| `SubmitBos.Submit.RunJob` | msm/msm_ringbuffer.c:23-30 | Drops the VMA pins and nothing else. |
| `SubmitBos.Submit.RetireBos` | msm/msm_gem_submit.c:690-703 | Leaves all counts as before the submit. |
| `SubmitBos.Submit.Ioctl` | msm/msm_gem_submit.c:1003-1054 | A failure at any point before arming leaves every count as it was; success leaves every buffer referenced, active and pinned, and unlocked. Without a signal it succeeds if and only if handles, dependencies, pins and commands are good and no buffer is listed twice. |
| `SubmitBos.Submit.RunAndRetire` | msm/msm_ringbuffer.c:14-44 | A submit that went through and retired leaves every count as it was. |
| `Reloc.PatchIsBuild` | msm/msm_gem_submit.c:596-668 | If distinct slots hold the presumed addresses, patching with skips gives what writing all actual addresses gives. |
| `Reloc.BuiltStream` | msm/msm_gem_submit.c:596-668 | A built stream has the encoded address in every slot and is untouched elsewhere. |
| `Reloc.BuiltAddress` | msm/msm_gem_submit.c:650-659 | The low and the high half of an address, relocated with shifts 0 and -32, put together are the buffer's address plus the offset. |
| `RelocWords.RightWordBits` | msm/msm_gem_submit.c:652-659 | With a shift to the right by n, bit i of the word is bit i + n of the address, or the or-ed bit. |
| `RelocWords.LeftWordBits` | msm/msm_gem_submit.c:652-659 | With a shift to the left, it is bit i - n. |
| `Reloc.OrBitsAreSet` | msm/msm_gem_submit.c:652-659 | A patched word has all the bits to be or-ed in, whatever the address and the shift. |
| `Reloc.SharedSlotIsNotRebuilt` | msm/msm_gem_submit.c:596-668 | With two relocations for one slot that fails. |
| `Reloc.SubmitReloc` | msm/msm_gem_submit.c:596-668 | The in-place loop succeeds exactly if there is nothing to patch, or the buffer can be mapped and all checks pass, and then the buffer is patched. |
| `Reloc.StreamFits` | msm/msm_gem_submit.c:1035-1041 | The size check, computed in 32 bits, is the plain one for every command that the lookup lets through. |
| `Reloc.PatchCommands` | msm/msm_gem_submit.c:1026-1054 | The loop succeeds exactly if every command is accepted; then it has patched every buffer with all its relocations, and none if submit->valid. |
| `Reloc.ComparedHonestly` | msm/msm_gem_submit.c:258-266 | A presumed address zeroed by back-off never passes for valid. |
| `Reloc.PatchAsIfBuilt` | msm/msm_gem_submit.c:1026-1054 | After success every command buffer is as if built from the actual addresses, whichever slots were patched, skipped, or skipped wholesale. |
| `RunQueue.SelectionIsComplete` | scheduler/sched_main.c:139-174 | Selection returns none iff no listed entity is ready, and otherwise a listed ready one. |
| `RunQueue.ReadyComesCloser` | scheduler/sched_main.c:139-174 | A ready entity is chosen or gets strictly closer in the search order. |
| `RunQueue.ReadyIsChosenWithinN` | scheduler/sched_main.c:139-174 | With n members, an entity that stays ready is chosen within n selections. |
| `RunQueue.Queue.AddEntity` | scheduler/sched_main.c:100-109 | Lists an entity once; the current entity stays listed. |
| `RunQueue.Queue.RemoveEntity` | scheduler/sched_main.c:119-130 | Removes just that entity and keeps the order of the others; the current entity is reset if it is the one. |
| `RunQueue.Queue.Select` | scheduler/sched_main.c:139-174 | The two loops find the first ready entity in round-robin order after the current one. |
| `RunQueue.SelectEntity` | scheduler/sched_main.c:872-889 | Chooses from the highest queue with a ready entity the one that comes first behind the queue's old current entity; only the current entity of that queue changes. |
| `RunQueue.ServedWithinN` | scheduler/sched_main.c:872-889 | An entity that stays ready in a queue of n is chosen within n of the calls that get down to its queue, whatever becomes ready elsewhere. |
| `RunQueue.HighestIsServed` | scheduler/sched_main.c:872-889 | While nothing above its queue is ready, every call gets down to it. |
| `ImplicitSync.FenceSync` | msm/msm_gem_submit.c:453-500 | The loop collects the fences of every buffer not opted out of. |
| `ImplicitSync.AttachFences` | msm/msm_gem_submit.c:551-574 | The loop makes the submit's fence the exclusive one of all its buffers. |
| `ImplicitSync.CollectsWhatItMust` | msm/msm_gem_submit.c:380-449 | Whatever is on the reservation objects, the fences collected are exactly the exclusive fence of every buffer heeded and the shared ones of every buffer written. |
| `ImplicitSync.ExclIsLast` | msm/msm_gem_submit.c:551-574 | A buffer's exclusive fence is always that of the last submit that touched it. |
| `ImplicitSync.DepsAreLast` | msm/msm_gem_submit.c:380-449 | A submit waits for exactly the last submits that touched the buffers it heeds. |
| `ImplicitSync.WriterWaitsForLast` | msm/msm_gem_submit.c:471-484 | A writer waits for the last submit that touched the buffer, whatever it opts out of. |
| `ImplicitSync.OrderedIffAllHeed` | msm/msm_gem_submit.c:453-500 | Two submits on a buffer are ordered through it if and only if no reader from after the first up to the second opted out. |
| `ImplicitSync.NoOptOutMakesAChain` | msm/msm_gem_submit.c:380-449 | If no reader of a buffer opts out, all submits that touch it are ordered. |
| `ImplicitSync.OptOutSplitsWriters` | msm/msm_gem_submit.c:453-500 | A reader that opts out leaves two writers around it unordered. |
| `Preempt.InvKept` | msm/adreno/a5xx_preempt.c:76-192 | Every step of any number of triggers, interrupts and timers keeps the ownership invariant, a timer that fires after it was deleted included. |
| `Preempt.ForcedFromOwnedState` | msm/adreno/a5xx_preempt.c:21-37 | Every forced change happens from the state that its caller, and nobody else, owns. |
| `Preempt.OnlyEdgesOccur` | msm/adreno/a5xx_gpu.h:55-79 | Only edges of the state machine occur, and START is never left for NONE directly. |
| `Preempt.ChangesAreRecorded` | msm/adreno/a5xx_preempt.c:12-37 | Every change of the state is one of the edges recorded. |
| `Preempt.TriggeredIsLeftOnce` | msm/adreno/a5xx_preempt.c:76-87 | Each TRIGGERED is left by exactly one of interrupt and timer. |
| `Preempt.RingsAreSound` | msm/adreno/a5xx_preempt.c:92-192 | cur_ring is never null, next_ring is another ring while TRIGGERED, and only a completed switch changes cur_ring, to the ring chosen. |
| `Preempt.TransientHasOwner` | msm/adreno/a5xx_gpu.h:55-79 | START, ABORT and PENDING always have a thread that is about to go on from there. |
| `Preempt.SwitchOnlyOnGoodStatus` | msm/adreno/a5xx_preempt.c:148-192 | The interrupt switches only after reading a good status, and faults only after a bad one. |
| `Preempt.SwitchesToTheChoice` | msm/adreno/a5xx_preempt.c:92-146 | What it switches to is the ring that the trigger chose. |
| `Preempt.TriggerGetsThrough` | msm/adreno/a5xx_preempt.c:92-146 | From NONE, a trigger that finds another ring reaches TRIGGERED with that ring next. |
| `Preempt.AbortGetsThrough` | msm/adreno/a5xx_preempt.c:92-146 | One that does not comes back to NONE through ABORT. |
| `Preempt.SwitchGetsThrough` | msm/adreno/a5xx_preempt.c:148-192 | From TRIGGERED, a good interrupt makes the next ring current and comes back to NONE. |
| `Preempt.FaultGetsThrough` | msm/adreno/a5xx_preempt.c:148-192 | A bad one ends in FAULTED with the rings unchanged. |
| `Preempt.TimeoutGetsThrough` | msm/adreno/a5xx_preempt.c:76-87 | So does the timer. |
| `AtomicCommit.InvKept` | msm/msm_atomic.c:185-291 | Every step of commits, workers and timers keeps the invariant. |
| `AtomicCommit.NoUpdateIsForgotten` | msm/msm_atomic.c:65-105 | An unflushed update has its pending bit set or somebody in the locked section; a set bit has a timer, work ahead, or a committer about to start the timer. |
| `AtomicCommit.FlushCoversAll` | msm/msm_atomic.c:259-272 | A flush covers exactly the updates pushed to its CRTC since the flush before it; it is done under the CRTC's lock, with nobody else about to push, and leaves no pending bit. |
| `AtomicCommit.PushedIsFlushedOrPending` | msm/msm_atomic.c:65-105 | In every run, an update pushed to a CRTC is flushed later, or its pending bit is set, or somebody is in the locked section. |
| `CommitHistory.SyncCommitDoesItAll` | msm/msm_atomic.c:185-291 | A finished synchronous commit has enabled, pushed, flushed, completed and disabled, one after the other. |
| `CommitHistory.CompletesAfterFlushUnderLocks` | msm/msm_atomic.c:259-283 | When it completes it has flushed, and holds all its locks. |
| `CommitHistory.TimerAndPendingAreExact` | msm/msm_atomic.c:65-105 | A timer runs from its start until its work begins; the pending bit is that of the last push, unless the worker has looked since. |
| `CommitHistory.AsyncGetsThrough` | msm/msm_atomic.c:220-252 | An asynchronous commit leaves its update pushed and pending, with the timer started unless one was pending before. |
| `CommitHistory.SyncGetsThrough` | msm/msm_atomic.c:254-291 | A synchronous one leaves nothing unflushed or pending on its CRTC. |
| `CommitHistory.WorkGetsThrough` | msm/msm_atomic.c:65-105 | The worker flushes what is pending, and leaves if nothing is. |
| `AtomicCommit.EnablesBalance` | msm/msm_atomic.c:185-291 | The enable nesting is the number of threads between enable_commit and disable_commit. |
| `AtomicCommit.WaitsUpwards` | msm/msm_atomic.c:46-63 | Whoever has a lock that is waited for waits only for higher ones. |
| `AtomicCommit.NoDeadlock` | msm/msm_atomic.c:46-63 | Whenever a thread is blocked on a lock, some thread has a step. |
| `AtomicCommit.CanDoAsync` | msm/msm_atomic.c:142-167 | Yes exactly for cursor or async updates with no connector and at most one CRTC, none needing a modeset; with no CRTC it names none. |
| `Devfreq.TruncateShortens` | msm/msm_gpu_devfreq.c:125-141 | Truncating never lengthens the history, keeps some of it, and keeps busy within total. |
| `Devfreq.CombineIsBetween` | msm/msm_gpu_devfreq.c:143-150 | The averaged frequency lies between its inputs. |
| `Devfreq.TruncateKeepsLoad` | msm/msm_gpu_devfreq.c:125-141 | The history kept has the load of the whole, rounded down. |
| `Devfreq.CombineIsWeighted` | msm/msm_gpu_devfreq.c:143-150 | Times add up, and the frequency is weighted with them, rounded down. |
| `Devfreq.UpdateCounts` | msm/msm_gpu_devfreq.c:99-151 | An update counts the measurement in full, and of the history as much as fits, in load and frequency. |
| `Devfreq.UpdateAverage` | msm/msm_gpu_devfreq.c:99-151 | Busy stays within total, the frequency between its inputs, and the history bounded. |
| `Devfreq.AverageStaysSound` | msm/msm_gpu_devfreq.c:99-151 | Over any series of measurements busy stays within total, the frequency in any range that holds the measured ones, and the history bounded. |

## Left out

- Register programming, firmware, power, clocks, debugfs, tracing, crash dumps, fbdev, prime and mmap plumbing, ioctl argument copying: no internal invariant.
- The VRAM carveout path of object creation, which lists an object twice.
- Memory barriers, RCU and interrupt masking: the critical sections are atomic steps. (The pre-5.4 dependency collector returns from its shared-fence loop without leaving its RCU read section; that is not visible here.)
- Failures after arming in the submit ioctl, which push the job and then undo its pins.
- Entities killed with queued jobs, guilty entities, karma, and scheduler callbacks for extra dependencies.
- Dependencies on the scheduled fence of a job, and syncobjs filled from a sync_file by another ioctl.
- drm_sched_start without full recovery, and the implicit dependencies of kernels 5.4 to 5.16.
- Reads and writes of pending_crtc_mask by commits on different CRTCs: each update is one step, as if the word were changed atomically.
- a5xx write-pointer freshness between flush and update_wptr: only ownership of the state machine is claimed.
- Updating in place and aliasing of the operations in `Residency`, `SchedOrder`, `SchedCount`, `WaitGraph`, `Preempt` and `AtomicCommit`: they are functions on values, one per step, so that runs can interleave them. `Shrinker`, `SubmitBos`, `Retire`, `Fence`, `Reloc`, `RunQueue` and `JobDeps` have in-place forms.
- Address allocation within an address space, and the iova range that a caller may ask for.
- Shift counts of 64 or more in relocations, which C leaves undefined.
- Circular buffers of the command dump, IOMMU page loops, priority mapping and profiling counters: provable, but easy next to the rest.
- Shrinker.Device.Scan: the exact outcome is that of a scan nobody disturbs, because otherwise the list changes under it; ShrinkerRace.ScanAmidOthers says what holds with others at work.
- Shrinker.Device.ShrinkerScan: likewise; see ShrinkerRace.ShrinkerScanAmidOthers.
- Fence.Mapping.IsInUse: requires the remembered fences to be within the window, because a fence that is not looked at for 2^31 submits is misjudged by the code as well.
