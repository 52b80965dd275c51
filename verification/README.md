# Verified models of QEMU's core state machines

A Dafny model of five pieces of QEMU and proofs of what they promise.

* **Exclusive sections** (`qemu/cpu-common.c`, `ExclusiveSection.dfy`): the vCPU threads and the
  exclusive operation, as a transition system over any number of threads in which every access to
  a shared variable is a step.
* **The block graph** (`qemu/block.c`; `BlockGraph`, `GraphTransaction`, `GraphWalks`,
  `Permissions`, `BlockLayer`, `AioContextMove`): edges between nodes that are attached, moved and
  freed inside transactions, permissions that flow down the graph, the cycle tests, reference
  counts, and the move of connected nodes to another AioContext.
* **Image algorithms** (`qemu/qemu-img.c`; `Alignment`, `ImageBuffers`, `Rebase`, `Compare`,
  `MapCoalesce`, `ConvertSettings`, `ConvertOrder`, `ConvertContent`, `OptionLists`): rebase, compare, map and convert
  as fast loops that agree with what the guest sees.
* **Jobs** (`qemu/job.c`, `qemu/blockjob.c`; `JobModel`, `JobRun`, `JobGroup`): the life of one job
  with its coroutine, the main loop and everybody else interleaved, and groups of jobs that commit
  or abort together.

Lists whose order the code does not fix are sets, and a loop over one takes the elements in any
order. I/O errors, answers of drivers, the block status and the choice of the next thread are
arbitrary within the contracts stated below. In convert the contents of a sector are a number, 0
for a sector of zeros; elsewhere images are sequences of bytes.

Contracts asked of code that is not modelled:

* `bdrv_child_perm` is a function of its arguments; drivers of nodes with children have one. Whether
  the two ends of an edge can be brought into one AioContext is an answer of the outside.
* A block status or allocation query is honest about the range it answers for, and answers for at
  least one unit and at most what was asked. For convert it answers in whole sectors.
* In a rebase, allocation is uniform within blocks of the write alignment, which divides
  `IO_BUF_SIZE`.
* `driver->cancel` returns true when forced and when the job never started; a driver announces
  readiness once; callbacks do not call back into the job layer; a group finalizes one of its jobs
  only once it has completed.

What came out against expectation:

* An assertion of the job layer can fail: when a job stops on an I/O error while
  `job_user_resume_locked` or `job_cancel_async_locked` has released the mutex, after the reset of the
  I/O status and before the user's pause is given back, the error stays recorded without its pause,
  and `qmp_cont` runs into the assertion of `block_job_iostatus_reset_locked`.
  `JobRun.AnErrorLosesItsPause` is such a run; `JobRun.SafeUnlessOvertaken` shows that along any run
  all assertions are safe if and only if this does not happen.
* A group of jobs is not all-or-nothing when a `prepare` callback fails for another job than the one
  being finalized: that one is committed, the others are aborted. `JobTxn.DoFinalize` says exactly
  when, `MixedIsNeither` that it is neither, and `MixedExample` is a group of two jobs to which it
  happens.
* Nor does a group come to an end when one of its jobs fails while another was never started: the
  abort waits for a completion that never comes. `JobTxn.CompletedTxnAbort` says that it is exactly
  this, and `StuckExample` is such a group.
* A thread that calls `cpu_exec_start` inside its own exclusive section waits for ever
  (`SelfWaitNeverEnds`), and one CPU alone can get there (`OneCpuIsCaught`); without such a thread
  there is no deadlock (`NoDeadlock`).
* A drained job can come to run driver code before the drained section ends. `NoDriverCodeWhileDrained`
  gives the exact condition: somebody enters it while it is paused, by `job_enter` or by cancelling it,
  or it is forced to cancel and then goes on. `EnterRunsTheDrainedDriver` and
  `CancelRunsTheDrainedDriver` are runs of both kinds.
* The assertion of a rebase on the stretched range fails exactly if the allocation query on that range
  fails or answers for a part of it, which `bdrv_is_allocated` may do (`CheckStretched`).
  `ShortAnswersTrip` is an overlay on which it fails although every answer is honest.
* The comment of `is_allocated_sectors` says that it returns true if and only if the first sector has
  a nonzero byte. It also returns true for zeros that end before an alignment boundary; the model
  follows the code.
* An empty range makes `img_map` emit one empty entry.

## Model

| member | source | states |
|---|---|---|
| `ExclusiveSection.RunsAreSafe` | qemu/cpu-common.c:192-325 | in every state of every run, for any number of threads: while one is in its exclusive section nobody executes guest code or is in another section; `pending_cpus` is 0 or one plus the CPUs with a waiter; no sleeper has missed its wake-up |
| `ExclusiveSection.InvPromises` | qemu/cpu-common.c:205-230 | the inductive invariant implies exclusion, the count and no lost wake-up |
| `ExclusiveSection.StepInv` | qemu/cpu-common.c:183-325 | every step of every thread keeps the invariant |
| `ExclusiveSection.SetPendingInv` | qemu/cpu-common.c:205-209 | raising `pending_cpus` while the lock is held begins an exclusive operation with no other under way |
| `ExclusiveSection.ScanInv` | qemu/cpu-common.c:211-215 | reading `running` of one CPU after `pending_cpus` was set: a CPU found not running will see `pending_cpus` before it executes |
| `ExclusiveSection.MarkInv` | qemu/cpu-common.c:215-219 | marking a running CPU adds it to the count it will have to decrement |
| `ExclusiveSection.WaitInv` | qemu/cpu-common.c:222-225 | the requester waits exactly while counted CPUs are left |
| `ExclusiveSection.DecrementInv` | qemu/cpu-common.c:314-323 | a CPU with a waiter takes itself out of the count once |
| `ExclusiveSection.ResetInv` | qemu/cpu-common.c:236-247 | the outermost `end_exclusive` ends the section for everybody |
| `ExclusiveSection.StartInv` | qemu/cpu-common.c:250-289 | `cpu_exec_start` lets a CPU execute only if it is counted or no section is under way |
| `ExclusiveSection.NoDeadlock` | qemu/cpu-common.c:183-325 | in every reachable state in which some thread is inside a call, some thread can take a step, provided no thread waits for itself |
| `ExclusiveSection.SelfWaitNeverEnds` | qemu/cpu-common.c:250-289 | a thread that entered `cpu_exec_start` inside its own exclusive section never leaves it |
| `ExclusiveSection.OneCpuIsCaught` | qemu/cpu-common.c:192-289 | there is a run of a single CPU that ends with it caught that way |
| `BlockGraph.AcyclicAfterAdding` | qemu/block.c:3218-3222 | adding an edge keeps the graph acyclic if the child does not reach the parent |
| `BlockGraph.CycleAfterAdding` | qemu/block.c:3218-3222 | and closes a cycle if it does |
| `GraphTransaction.TransactionTheorem` | qemu/block.c:2343-2512 | any sequence of permission changes, edge moves and attachments, also several of one edge: abort restores the graph exactly, and references equal edges plus records plus scheduled unrefs plus outside holders before, after commit and after abort |
| `GraphTransaction.ApplyKeepsOpen` | qemu/block.c:2358-2512 | one more edit keeps the open transaction undoable and the references accounted for |
| `GraphTransaction.ReplaceChildUndo` | qemu/block.c:2436-2512 | undoing an edge move gives back the edge and the reference |
| `GraphTransaction.AttachUndo` | qemu/block.c:3033-3068 | undoing an attachment frees the edge |
| `GraphTransaction.AbortConserves` | qemu/util/transactions.c:47-79 | running the undo records, most recent first, conserves references |
| `GraphTransaction.CommitConserves` | qemu/util/transactions.c:81-100 | running the commit records conserves references |
| `GraphWalks.RecurseHasChild` | qemu/block.c:4341-4356 | the recursive cycle test answers exactly reachability |
| `GraphWalks.ShouldUpdateChild` | qemu/block.c:5241-5318 | the breadth-first test allows a redirection exactly if the parent is not a job edge and the edge does not hang below the new node |
| `GraphWalks.SearchChildren` | qemu/block.c:5270-5312 | the inner loop adds the children of one node and reports the edge if it meets it |
| `GraphWalks.TopologicalSort.Visit` | qemu/block.c:2313-2335 | called on its own result, the list stays free of duplicates, closed under children and parents first, and gains exactly the subtree |
| `GraphWalks.SortSubtrees` | qemu/block.c:2633-2644 | for any list of roots the result is topologically sorted and holds exactly what the roots reach |
| `Permissions.GetCumulativePerm` | qemu/block.c:2646-2662 | the union of what the parents need and the intersection of what they share |
| `Permissions.ParentPermsConflict` | qemu/block.c:2258-2281 | true exactly if two different parent edges conflict |
| `Permissions.SettledFrame` | qemu/block.c:2601-2622 | changing the permissions of other edges does not unsettle a node |
| `BlockLayer.BlockLayer.NodeRefreshPerm` | qemu/block.c:2522-2591 | on success the node passes its checks and every child edge carries what follows from its final cumulative permissions; it fails exactly if a check does; only its child edges change |
| `BlockLayer.BlockLayer.SetChildPerms` | qemu/block.c:2580-2588 | the loop over the children sets each edge to the computed permissions and touches nothing else |
| `BlockLayer.BlockLayer.DoRefreshPerms` | qemu/block.c:2601-2622 | one pass over a topologically sorted list settles all listed nodes at once; it fails only if no permissions of their child edges would settle them all |
| `BlockLayer.BlockLayer.RefreshOne` | qemu/block.c:2607-2621 | a round settles one more node, keeps the earlier ones settled, and its outcome is forced: any assignment that settles the list agrees with what has been set so far |
| `BlockLayer.BlockLayer.RefreshPerms` | qemu/block.c:2633-2644 | everything below the roots is settled, and only permissions of edges owned below the roots change; it fails only if no permissions below the roots would do |
| `BlockLayer.BlockLayer.RefreshAndFinalize` | qemu/block.c:2700-2718 | the common end of the operations: success leaves everything below the roots settled and nothing else touched, failure brings back the graph of the beginning, and after a completed edit it fails only if no permissions would do |
| `BlockLayer.BlockLayer.RefreshAlone` | qemu/block.c:2700-2718 | the same for one node outside any transaction |
| `BlockLayer.BlockLayer.ChildTrySetPerm` | qemu/block.c:2720-2752 | the edge carries what was asked for with everything below settled and nothing else changed; or no permissions below would allow it, nothing has changed at all, and success is reported exactly for a loosening |
| `BlockLayer.BlockLayer.AttachCommon` | qemu/block.c:3092-3190 | refuses exactly more than consistent reads of an inactive node and ends that cannot share an AioContext; otherwise adds the one edge and keeps the graph acyclic |
| `BlockLayer.BlockLayer.AttachChildNoperm` | qemu/block.c:3205-3236 | refuses exactly an edge that would close a cycle, an active parent of an inactive child, and what `AttachCommon` refuses; otherwise adds the one edge with the permissions the parent computes for it |
| `BlockLayer.BlockLayer.AttachChild` | qemu/block.c:3288-3319 | success adds exactly the one edge, settles everything below the parent and changes nothing else; failure restores the graph and comes only of a refusal or of permissions that cannot be settled; takes the caller's reference either way |
| `BlockLayer.BlockLayer.RootAttachChild` | qemu/block.c:3247-3276 | the same for a parent outside the graph, whose edge carries exactly what was asked for |
| `BlockLayer.BlockLayer.RootUnrefChild` | qemu/block.c:3326-3351 | the edge is gone, the rest keeps its ends, and the references balance; below the node everything is settled and nothing else changed, or no permissions would do and they stay as they were |
| `BlockLayer.BlockLayer.ReplaceChildTran` | qemu/block.c:2491-2512 | moves one edge and records how to undo it |
| `BlockLayer.BlockLayer.RemoveChildTran` | qemu/block.c:5338-5350 | detaches one edge inside the transaction |
| `BlockLayer.BlockLayer.ReplaceNodeNoperm` | qemu/block.c:5360-5391 | exactly the movable parents are redirected, and the graph stays acyclic after each; it fails exactly if a movable one is frozen, or if one is not movable and is not to be skipped |
| `BlockLayer.BlockLayer.MovableStill` | qemu/block.c:5371-5389 | the test made anew for each edge answers as it would have before the first redirection |
| `BlockLayer.BlockLayer.ReplaceNode` | qemu/block.c:5404-5441 | success redirects exactly the movable parents, settles both subtrees and changes nothing else; failure restores the graph and comes only of such a parent or of permissions that cannot be settled |
| `BlockLayer.BlockLayer.Append` | qemu/block.c:5481-5517 | success puts the new node between the old top and its movable parents, settled, with nothing else changed; failure restores the graph and comes only of a refusal, a frozen parent or permissions that cannot be settled |
| `BlockLayer.BlockLayer.SetBackingNoperm` | qemu/block.c:3493-3578 | succeeds exactly if the link is not frozen, the driver takes a backing file and the new one can be attached without the old; then exactly the link is replaced |
| `BlockLayer.BlockLayer.SetBacking` | qemu/block.c:3586-3607 | the same with permissions settled and nothing else changed, or the graph restored, which comes only of a refusal or of permissions that cannot be settled |
| `BlockLayer.BlockLayer.AbortTran` | qemu/util/transactions.c:60-79 | the graph is what it was when the transaction began |
| `BlockLayer.BlockLayer.CommitTran` | qemu/util/transactions.c:81-100 | only detached edges are freed, and the references balance |
| `AioContextMove.TryChangeContext` | qemu/block.c:7702-7739 | succeeds exactly if the node is there already or nothing connected refuses; a move takes exactly the nodes of the component and the jobs that hold one of them; otherwise nothing changes |
| `AioContextMove.Walk.ChangeNode` | qemu/block.c:7654-7689 | the recursion ends, enters every neighbour that is not skipped and visits a node again without harm |
| `AioContextMove.Walk.ParentChange` | qemu/block.c:7569-7596 | a parent edge is entered once and refuses exactly if its parent does |
| `AioContextMove.Walk.ChildChange` | qemu/block.c:7603-7618 | a child edge is entered once |
| `AioContextMove.Walk.JobChange` | qemu/blockjob.c:147-171 | a job drags along every node it holds |
| `AioContextMove.WalkCoversComponent` | qemu/block.c:7654-7689 | a walk that succeeded has entered every node connected with its start |
| `AioContextMove.CommitMoves` | qemu/block.c:7627-7640 | the recorded nodes and jobs, and no others, are in the new context |
| `ImageBuffers.FindNonzero` | qemu/qemu-img.c:1133-1147 | the first sector with a nonzero byte, or none exactly if all are zero, for any buffer length |
| `ImageBuffers.CompareBuffers` | qemu/qemu-img.c:1264-1289 | the longest stretch of chunks that all agree or all differ |
| `Rebase.RebaseLoop` | qemu/qemu-img.c:4026-4149 | ends although the offset moves back; at every exit the guest reads what it read before; without an error it also does over the new backing file; its assertion fails exactly if the answer about one of the checked ranges, all of them free and of whole blocks, fails or is too short, and nothing is copied outside ranges that passed; an error comes only of a request or question that failed |
| `Rebase.CheckStretched` | qemu/qemu-img.c:4085-4086 | on a free range the assertion fails exactly if the answer fails or does not cover the range |
| `Rebase.ShortAnswersTrip` | qemu/qemu-img.c:4081-4086 | an overlay with honest answers of one byte and blocks of two on which the assertion fails |
| `Rebase.CopyStretched` | qemu/qemu-img.c:4073-4146 | a round stretches the range to whole blocks that are still free, checks it, copies what differs and ends beyond the offset it began at |
| `Rebase.CopyDifferences` | qemu/qemu-img.c:4088-4146 | copies where the backing files differ and leaves what the guest reads alone |
| `Rebase.CopyChunk` | qemu/qemu-img.c:4125-4140 | a write of old backing data into unallocated blocks, even a partial one, is invisible |
| `Rebase.SafeRebase` | qemu/qemu-img.c:4026-4161 | whatever fails, over the backing file named at the end the guest reads what it read before |
| `Compare.CheckEmpty` | qemu/qemu-img.c:1308-1329 | 4 exactly if the range cannot be read, else 0 exactly for zeros |
| `Compare.CompareChunk` | qemu/qemu-img.c:1530-1585 | 4 exactly if a buffer that is needed cannot be read, else 0 exactly if the chunk agrees, whichever side is known to be zero or unallocated |
| `Compare.CompareTail` | qemu/qemu-img.c:1602-1624 | an error only where asking or reading can fail, else 0 exactly for zeros beyond the shorter image |
| `Compare.CheckTail` | qemu/qemu-img.c:1604-1622 | one round of it: 0 exactly for a nonempty chunk of zeros |
| `Compare.ImgCompare` | qemu/qemu-img.c:1501-1627 | an error only where asking or reading can fail; without one and without strict mode 0 exactly if the images agree after zero extension and 1 exactly if they do not; strict 0 means identical, strict 1 that size, content or a block status differs |
| `MapCoalesce.MergeMeaning` | qemu/qemu-img.c:3313-3334 | two entries can be joined exactly if the joined entry says of every byte what they say |
| `MapCoalesce.ImgMap` | qemu/qemu-img.c:3452-3477 | the emitted entries tile the range, say of every byte what the single answers say, and no two neighbours can be joined |
| `ConvertSettings.Settings.HandledRight` | qemu/qemu-img.c:1880-1932 | whichever case of the write applies, sectors that read as at the beginning come to read as the source, if the status is right and the buffer loaded |
| `ConvertOrder.FirstWaiter` | qemu/qemu-img.c:2067-2076 | the first coroutine that waits for an offset, or none |
| `ConvertOrder.RangesStep` | qemu/qemu-img.c:1992-2013 | claimed ranges stay disjoint and below the next sector |
| `ConvertOrder.OrderStep` | qemu/qemu-img.c:2037-2077 | with ordered writes the turn comes to a range when its predecessor has finished, and a waiter has an unfinished predecessor, also after an error |
| `ConvertOrder.StatusStep` | qemu/qemu-img.c:1992-2013 | whatever the other coroutines do, the status each one works with stays right for its range, its buffer loaded, and the status remembered for the next claim right |
| `ConvertOrder.WriteSplices` | qemu/qemu-img.c:1873-1935 | in every such state each case of the write makes its piece of the target read as the source |
| `ConvertOrder.WaiterHasPredecessor` | qemu/qemu-img.c:2037-2077 | when a coroutine waits for its turn, one whose range lies before can take a step |
| `ConvertOrder.NoDeadlock` | qemu/qemu-img.c:1968-2089 | as long as a coroutine is not done, some coroutine can take a step that does not fail |
| `ConvertOrder.StepCountsDown` | qemu/qemu-img.c:1986-2078 | every step brings the end nearer |
| `ConvertOrder.WritesAreInOrder` | qemu/qemu-img.c:2037-2077 | with ordered writes, in every run and whatever fails, the pieces written follow one another from sector 0 |
| `ConvertOrder.WritesAreFresh` | qemu/qemu-img.c:1986-2078 | a sector reads as at the beginning until it is written |
| `ConvertOrder.WritesAreOnce` | qemu/qemu-img.c:1986-2078 | no sector lies in two of the pieces that are written |
| `ConvertOrder.ClaimsAreReady` | qemu/qemu-img.c:1992-2000 | whoever claims a range finds the remembered status right, which is what `IterationSectors` asks for |
| `ConvertOrder.CopyIsCorrect` | qemu/qemu-img.c:1968-2152 | for any settings, any number of coroutines and any schedule: every run ends, with all coroutines done and a result; the result is success exactly if no step failed, and then the target reads as the sources in a row |
| `ConvertContent.IsAllocatedSectors` | qemu/qemu-img.c:1159-1208 | `false` only for zeros, exactly when the run of zeros reaches a boundary or the end; the count ends on a boundary or with the buffer |
| `ConvertContent.IsAllocatedSectorsMin` | qemu/qemu-img.c:1217-1254 | the same, and a write ends only with the buffer or before zeros that go on for the minimum or to the end |
| `ConvertContent.SelectPart` | qemu/qemu-img.c:1700-1710 | finds the source image that holds a sector; its assertion holds |
| `ConvertContent.ImgConvert.IterationSectors` | qemu/qemu-img.c:1712-1817 | the range is not empty, its status is right for every sector, data fits the buffer, compressed ranges are whole clusters, and the remembered status stays right |
| `ConvertContent.ImgConvert.Ask` | qemu/qemu-img.c:1735-1796 | the status derived from an honest answer is right, also beyond the end of the target's backing file; it is data exactly for data and for what no backing file provides |
| `ConvertContent.ImgConvert.Choose` | qemu/qemu-img.c:1992-2013 | the claim that `ConvertOrder` takes: a status that is right for a range that fits the buffer whenever it is to be written out, and a remembered status that stays right |
| `ConvertContent.ImgConvert.WholeClusters` | qemu/qemu-img.c:1804-1814 | rounding to clusters keeps the status right |
| `ConvertContent.ImgConvert.Read` | qemu/qemu-img.c:1819-1870 | on success the buffer is the range of the sources in a row |
| `ConvertContent.ImgConvert.WritePiece` | qemu/qemu-img.c:1880-1932 | the write that `ConvertOrder` takes: one of the cases applies, has its effect on exactly the sectors handled, and the two assertions hold |
| `ConvertContent.ImgConvert.WriteZeroes` | qemu/qemu-img.c:1915-1926 | zeros are skipped exactly where the target reads as zero already |
| `ConvertContent.ImgConvert.Write` | qemu/qemu-img.c:1873-1935 | on success the range reads as the source; nothing else changes even on failure |
| `ConvertContent.ImgConvert.CopyRange` | qemu/qemu-img.c:2015-2063 | a round leaves its range reading as the source, with or without keeping the target sparse |
| `ConvertContent.ImgConvert.CopyAll` | qemu/qemu-img.c:2091-2152 | with one coroutine, success means that the target reads as the sources in a row |
| `OptionLists.IsValidOptionList` | qemu/qemu-img.c:165-182 | decides exactly the accepted lists |
| `OptionLists.SplitGlue` | qemu/util/qemu-option.c:64-89 | a reader of a text that ends in an even number of commas goes on afresh |
| `OptionLists.JoinSplits` | qemu/qemu-img.c:184-202 | joined lists are read one after the other, and the result is accepted again |
| `OptionLists.Accumulate` | qemu/qemu-img.c:184-202 | any number of lists: all are accepted or it fails, and the result is read as the lists in a row |
| `OptionLists.ValidIsSafe` | qemu/qemu-img.c:155-182 | a list is accepted exactly if it keeps its reading between any accepted lists |
| `JobRun.AssertsHold` | qemu/job.c:208-221 | in every state of the invariant, every assertion of the job layer that a possible step passes holds, but for the one of `qmp_cont` on an error that has lost its pause, which fails |
| `JobRun.StepInv` | qemu/job.c:538-1163 | every step of the coroutine, the main loop and anybody else keeps the invariant |
| `JobRun.RunsAreSafe` | qemu/job.c:59-84 | the same in every state of every run; the pause count is one if not started plus one if paused by the user plus the drained sections; the creation reference is held until dismissal; no job sleeps over a pause, and none stays paused that nobody holds |
| `JobRun.OrphanedStep` | qemu/job.c:740-758 | an error loses its pause exactly by the end of a resume or cancellation that a new error has overtaken |
| `JobRun.SafeUnlessOvertaken` | qemu/monitor/qmp-cmds.c:96-101 | along a run no assertion can fail if and only if no resume or cancellation ends overtaken |
| `JobRun.OvertakenByAnError` | qemu/blockjob.c:555-576 | the end of a resume or cancellation is overtaken exactly if the job stopped on an error since the reset of the I/O status, which came before |
| `JobRun.AnErrorLosesItsPause` | qemu/blockjob.c:555-563 | there is a run after which `qmp_cont` fails its assertion |
| `JobRun.RunsGoForward` | qemu/job.c:761-801 | completion, dismissal and deferral are never taken back, so the creation reference is dropped once |
| `JobRun.NeverWokenTwice` | qemu/job.c:538-606 | the coroutine is woken only while suspended in a yield, never after deferral, and between two wake-ups it has run |
| `JobRun.NoDriverCodeWhileDrained` | qemu/blockjob.c:93-127 | once a drained section finds the job not busy, no driver code but `pause` runs until the section ends, if and only if nobody enters the paused job, by `job_enter` or by cancelling it, and it does not go on after a forced cancellation |
| `JobRun.DrainedStep` | qemu/blockjob.c:93-127 | one step of it, both ways |
| `JobRun.NotBusyIsStill` | qemu/blockjob.c:105-112 | a job that is not busy and not completed, started or not, is where no driver code runs |
| `JobRun.DrainedMayMove` | qemu/job.c:372-382 | in every run: a drained job that `child_job_drained_poll` finds quiescent meets the assertion of `job_set_aio_context` |
| `JobRun.ParkedStep` | qemu/job.c:372-382 | it goes on to meet it exactly until the job is started or comes back from its pause point |
| `JobRun.EnterRunsThePausedDriver` | qemu/job.c:609-642 | entering a paused job takes it back to its driver whatever its pause count |
| `JobRun.EnterRunsTheDrainedDriver` | qemu/job.c:609-642 | there is a run in which `job_enter` takes a drained job back to its driver |
| `JobRun.CancelRunsTheDrainedDriver` | qemu/job.c:1137-1163 | there is a run in which a soft cancellation does |
| `JobRun.ContractsAreExact` | qemu/job.c:1137-1146 | what is asked of drivers and groups is exactly what the assertions need, paused by the user or not |
| `JobRun.WakeInv` | qemu/job.c:538-561 | entering a job keeps the invariant |
| `JobRun.AddPauseInv` | qemu/job.c:690-696 | adding a pause keeps the count right and wakes a sleeping job to notice it |
| `JobRun.DropPauseInv` | qemu/job.c:704-714 | dropping the last pause wakes a paused job |
| `JobRun.CoStepInv` | qemu/job.c:578-683 | pause points, yields, readiness, error stops and the end of the coroutine keep the invariant |
| `JobRun.CancelEndInv` | qemu/job.c:888-1163 | cancelling balances the user's pause, fails a job that never started and enters one that runs |
| `JobRun.UnstartedCancelInv` | qemu/job.c:1144-1145 | a job cancelled before its start completes with an error |
| `JobRun.UserResumeReturnInv` | qemu/job.c:740-758 | resuming gives back exactly the user's pause |
| `JobRun.ExitInv` | qemu/job.c:1081-1096 | the end of the coroutine completes the job in the main loop |
| `JobRun.FinalizedInv` | qemu/job.c:846-883 | finalizing concludes the job and dismisses it if nobody else will |
| `JobRun.DismissInv` | qemu/job.c:761-772 | dismissal drops the creation reference and leaves the group |
| `JobGroup.JobTxn.Life` | qemu/job.c:929-1171 | whatever operations are made on the jobs of a group, in any order: nothing is decided, or all were prepared and then committed once, which takes that no callback fails, or all aborted once; `Mixed` takes a callback that fails, and `Stuck` a job still on the list that was never started |
| `JobGroup.MixedIsNeither` | qemu/job.c:945-957 | that outcome commits one job and aborts another |
| `JobGroup.MixedExample` | qemu/job.c:945-1008 | a group of two jobs, brought through the operations to commit one and abort the other |
| `JobGroup.StuckExample` | qemu/job.c:958-965 | a group of two jobs whose abort never ends |
| `JobGroup.MeanwhileIsSound` | qemu/job.c:538-683 | what is assumed of jobs while the mutex is released covers every step of the single-job machine |
| `JobGroup.JobTxn.DoFinalize` | qemu/job.c:996-1008 | the callbacks are asked in order up to the first that fails; all jobs commit if none does; if it is that of the finalized job all abort; if it is that of another, exactly the finalized job commits |
| `JobGroup.JobTxn.Prepare` | qemu/job.c:972-987 | a failed callback readies the group for abort |
| `JobGroup.JobTxn.FinalizeAll` | qemu/job.c:177-199 | every job of a pending group commits once, in order |
| `JobGroup.JobTxn.FinalizeSingle` | qemu/job.c:846-883 | commits or aborts the first job by its result, concludes it, dismisses it if nobody else will, and takes it off the list |
| `JobGroup.JobTxn.CompletedTxnSuccess` | qemu/job.c:1037-1061 | leaves the group open exactly if another job is running or some job needs manual finalization; else the last job makes all pending and the callbacks decide |
| `JobGroup.JobTxn.AllToPending` | qemu/job.c:1020-1027 | all waiting jobs become pending before any is prepared |
| `JobGroup.JobTxn.CompletedTxnAbort` | qemu/job.c:929-969 | never ends exactly if a job was never started; else empties the list, and every job aborts except an initiating job that is pending without error |
| `JobGroup.JobTxn.CancelOthers` | qemu/job.c:943-957 | afterwards every other job is bound to abort |
| `JobGroup.JobTxn.EndFirst` | qemu/job.c:958-965 | a round waits for ever exactly for a job that was never started; else it shrinks the group by its first job and sends it where it belongs |
| `JobGroup.JobTxn.FinishSync` | qemu/job.c:1242-1270 | waiting for one job of an aborting group, while others may complete, finalizes none |
| `JobGroup.JobTxn.CancelAsync` | qemu/job.c:888-922 | force-cancels when forced or never started, with the jobs going on meanwhile |
| `JobGroup.JobTxn.JobCompleted` | qemu/job.c:1064-1075 | what the completion comes to, exactly: with an error the group aborts, or waits for a job never started; without one it is open or the callbacks decide; inside an aborting group it only records the error |
| `JobGroup.JobTxn.JobFailed` | qemu/job.c:1064-1075 | the first failure aborts the group, or waits for ever exactly if another job was never started |
| `JobGroup.JobTxn.Exit` | qemu/job.c:1081-1096 | the same from the main loop |
| `JobGroup.JobTxn.Finalize` | qemu/job.c:1010-1017 | refused exactly unless pending, else the callbacks decide the group |
| `JobGroup.JobTxn.Cancel` | qemu/job.c:1137-1171 | aborts the group if the job never started, or is forced after its end, and gets stuck exactly if another job never started; otherwise the group goes on |
| `JobGroup.JobTxn.Add` | qemu/job.c:391-456 | a new job joins the head of an undecided group |
| `JobGroup.JobTxn.Start` | qemu/job.c:1121-1135 | a started job leaves the group undecided |
| `JobGroup.JobTxn.CoroutineEnds` | qemu/job.c:1098-1118 | a coroutine that ends changes its own job only and leaves the group undecided |

## Left out

- Opening, probing, reopening and option handling of block nodes: plumbing around the modelled core.
- The default permission functions of drivers: `bdrv_child_perm` is any function of its arguments.
- Drain polling and quiesced parents: all affected nodes are taken to be drained.
- BlockLayer.BlockLayer.AttachCommon: whether one end of a new edge can be moved to the AioContext of the other is an answer of the outside; what such a move does is `AioContextMove.TryChangeContext`.
- `inherits_from`, node deletion at reference count 0, `bdrv_refresh_limits` and `bdrv_replace_child_bs`, which makes no cycle check of its own.
- Update in place and aliasing of block nodes, edges and jobs: they are records in maps of one object, so sharing is by identifier.
- Copy offload and salvage retries in convert, bitmaps, progress and rate limits.
- ConvertContent.ImgConvert.CopyAll: models one coroutine, as the loop of the source with in-order writes; any number of them is `ConvertOrder.CopyIsCorrect`.
- ConvertContent.IsAllocatedSectors: takes the remainder by the alignment where the source masks with a power of two less one.
- Human-readable map output, which joins more entries than the exact meaning allows.
- OptionLists.Accumulate: reads every option as `get_opt_value` does; the short form of boolean options, where a doubled comma is not an escape, is not modelled.
- Weak memory, scheduling fairness and CPUs that come and go during an exclusive section.
- Events, tracing, error texts and statistics of jobs; several groups at once.
- JobGroup.JobTxn.FinishSync: the wait for a job is taken to end, as the coroutine of a cancelled job does.
- The remaining files of the repository.
