# The Linux 3.4.2 block layer: a verified model

Models and proofs, in Dafny 4.11, for the parts of `block/` in Linux 3.4.2 where several data
structures or several requests have to agree over time. `dafny verify dfyconfig.toml` checks
everything; nothing is executed.

| part | files | what is established |
|---|---|---|
| FLUSH/FUA sequencer | `FlushSpec`, `FlushInvariant`, `FlushRuns`, `FlushSafety`, `FlushTheorems`, `FlushProgress`, `FlushPolicy`, `FlushQueue` | durability against a device with a volatile cache, exactly the steps that are needed for it, structure of the double-buffered lists, no lost flush, progress |
| segments and merging | `Segments`, `SegmentCount`, `SegmentRecount`, `RequestMerge`, `RequestJoin` | the mapper's cut and the recount's are minimal; the count kept through all merges covers what the mapper makes |
| I/O throttling | `ThrottleRate`, `ThrottleWait`, `ThrottlePrompt`, `ThrottleTrim`, `ThrottleSlice`, `ThrottleLane`, `ThrottleQueue`, `ThrottleIssue`, `ThrottleData` | the rate bound over all runs, the accuracy of announced waits, which bios are issued, the service tree and the pending work |
| tags | `TagProtocol`, `TagQueue` | mutual exclusion under any interleaving of queues, reserved tags, resizing, invalidation of one queue of a shared map |
| deadline scheduler | `Deadline`, `DeadlineRuns`, `DeadlineExpiry`, `DeadlineBatch`, `DeadlineQueue` | batches in sector order, starvation bounds, when an expired request is served, agreement of the two orders, termination of the forced drain |
| elevator core | `ElevatorOrder`, `ElevatorRuns`, `ElevatorSort`, `ElevatorHash` | barrier order with the noop and the deadline scheduler, when the end of the dispatch queue stays sorted, the merge hash as an index |
| partial completion | `Completion`, `CompletionParts` | which bios end well however the parts fail; exactly a prefix of the byte stream goes; completing twice is completing once; the segment count covers what is left, through later merges |
| CFQ group tree | `FairGroups`, `FairJoin`, `FairQueue` | weighted fairness of groups that compete, where a group that joins starts and whom it waits for |

`Lists` holds lists as sequences, `RbTree` red-black trees as their in-order sequences, `Common` what
everything shares, with a way to keep a definition out of proofs that need only its name.

How the model reads:

- Each entry point runs under the queue lock and is one step, except that the bit and index operations
  on a tag map shared by several queues are steps of their own. `jiffies` is an integer passed to it
  as `now`; it does not wrap and does not go back. HZ is arbitrary, but at least 10.
- Code that works in place is a class whose methods follow the source, proved against functions on
  values (`View() == Apply(old(View()), …)`); what the source promises is proved about those functions,
  over every run.
- A `BUG_ON` is either a precondition that the theorems discharge for every reachable state
  (`FlushTheorems.BugChecksNeverFire`) or an assertion inside a method.
- The driver, the device, the submitters and the clock are the steps of each run; error flags, in-flight
  counts, integrity checks and allocation failures are parameters.
- Ghost state that only records history (what arrived, was sent, was asked of a slice; the start order
  of tagged requests) is named as such where it is declared.

Where the code departs from what one would expect, the code is modelled and the departure is a lemma:

- The wait announced for a bio over its byte limit can be one tick short: `ThrottleWait.BytesWaitExact`
  gives the exact condition, `ThrottleWait.BytesWaitLate` an instance, `ThrottleWait.BytesWaitNext` the
  bound of one more tick.
- A trim gives up time that was not used, so a bio that passes before it may be refused after it:
  `ThrottleTrim.TrimExact` gives the exact condition, `ThrottleTrim.TrimGivesUp` an instance.
- Growing a tag map copies the old arrays whole, although the new depth is cut to twice the queue's
  request count, which may have been lowered since: the copy fits if and only if the old real depth is no
  more than that (`TagQueue.TaggedQueue.ResizeTags`). `TagQueue.LostTag` runs into it: a tag that is in
  use ends up beyond the new arrays, and the call has reported success.
- While a read waits, at most one batch of writes goes by if and only if `writes_starved` is at least 1
  (`DeadlineRuns.WritesBoundExact`); at 0 any number of writes can (`DeadlineRuns.WritesUnbounded`). The
  same condition decides whether an expired read is served in time (`DeadlineExpiry.ExpiredReadsExact`).
- The end of the dispatch queue does not stay sorted when the scheduling boundary moves into it:
  `ElevatorSort.BoundaryMoves` and `ElevatorRuns.OrderExact` give the exact conditions,
  `ElevatorRuns.BoundaryUnsorts` a run with noop in which it happens.
- A completion that finishes a request leaves its sector alone, so two completions leave the sector
  where one would unless only the second finishes it (`Completion.SectorTwice`); for a kilobyte completed
  in halves they do not (`Completion.SectorDiffers`).

## Model

| member | source | states |
|---|---|---|
| `FlushSpec.KickEffect` | linux-3.4.2/block/blk-flush.c:244-273 | kicking changes only the pending index, the dispatch queue and who the flush is for, and declines only if a flush is outstanding, nothing is pending, or data is in flight |
| `FlushPolicy.KickExact` | linux-3.4.2/block/blk-flush.c:244-273 | with requests pending and no flush outstanding, one is issued if and only if no data is in flight or five seconds have passed since `flush_pending_since` |
| `FlushPolicy.PendingSince` | linux-3.4.2/block/blk-flush.c:144-189 | in every run that is when the pending list got its first request |
| `FlushInvariant.SettleCore` | linux-3.4.2/block/blk-flush.c:144-189 | moving a request to its next stage keeps every sequenced request on exactly one flush list, the one its lowest clear bit names |
| `FlushInvariant.CompleteKeeps` | linux-3.4.2/block/blk-flush.c:144-192 | completing part of a sequence keeps the whole invariant of the flush state |
| `FlushInvariant.WalkKeeps` | linux-3.4.2/block/blk-flush.c:194-229 | the walk over the running list keeps it although each visit may issue the next flush and turn the walked list into the pending one |
| `FlushInvariant.FlushEndIoKeeps` | linux-3.4.2/block/blk-flush.c:194-229 | a flush completion finds a flush outstanding and every waiter at a flush stage, and keeps the invariant |
| `FlushInvariant.DataEndIoKeeps` | linux-3.4.2/block/blk-flush.c:275-285 | a data completion finds its request sequenced with the data bit clear and off the dispatch queue, and keeps the invariant |
| `FlushInvariant.InsertFlushKeeps` | linux-3.4.2/block/blk-flush.c:298-347 | an insertion, whatever its policy, keeps the invariant |
| `FlushTheorems.StepKeeps` | linux-3.4.2/block/blk-flush.c:94-347 | every step of submitters, driver and device keeps the invariant, durability included, and meets no BUG check |
| `FlushTheorems.BugChecksNeverFire` | linux-3.4.2/block/blk-flush.c:144-285 | no BUG check can fire at any step of any run |
| `FlushTheorems.FlushBeforeData` | linux-3.4.2/block/blk-flush.c:94-347 | in every run the data of a REQ_FLUSH request is on the dispatch queue or with the driver only when all writes completed before its submission are non-volatile |
| `FlushTheorems.EndedKept` | linux-3.4.2/block/blk-flush.c:94-347 | a request reported done without error has had its policy's steps in order; after REQ_FLUSH the earlier writes, after REQ_FUA its own data, are non-volatile |
| `FlushPolicy.EndsExactly` | linux-3.4.2/block/blk-flush.c:94-111 | in every run a request that has ended did so without error if and only if the device has done exactly: a flush if it has a cache and the request REQ_FLUSH, the data, a flush if it has a cache but no FUA and the request REQ_FUA |
| `FlushPolicy.PreFlushNeeded` | linux-3.4.2/block/blk-flush.c:101-104 | whenever that first flush is called for, some run has only it standing between the request and an earlier write that is still volatile |
| `FlushPolicy.PostFlushNeeded` | linux-3.4.2/block/blk-flush.c:101-106 | whenever the last one is, some run has only it left to do while the request's own data is still volatile |
| `FlushPolicy.Enters` | linux-3.4.2/block/blk-flush.c:298-347 | a request that needs no flush of the device, REQ_FUA on a FUA device included, goes to the end of the dispatch queue as it is, or ends at once without data; any other is sequenced |
| `FlushPolicy.HeadAfter` | linux-3.4.2/block/blk-flush.c:165-192 | data goes to the front of the dispatch queue, a flush to its end, and nothing else changes there |
| `FlushTheorems.EndsOnce` | linux-3.4.2/block/blk-flush.c:144-347 | a submitted request is sequenced, bypassing, or ended, and ends at most once |
| `FlushTheorems.FlushStructure` | linux-3.4.2/block/blk-flush.c:144-285 | at most one flush is outstanding, exactly when the indices differ; the running list is who was pending when it was issued; pending requests with no data in flight never lack a flush; each sequenced request is on the one list its lowest clear bit names |
| `FlushProgress.WorkFalls` | linux-3.4.2/block/blk-flush.c:144-285 | the uncompleted sequence bits strictly fall with every flush or data completion and change with nothing else but insertions |
| `FlushProgress.CompletionsBounded` | linux-3.4.2/block/blk-flush.c:144-285 | without insertions a run has at most as many completions as there were uncompleted bits |
| `FlushProgress.NeverStuck` | linux-3.4.2/block/blk-flush.c:144-273 | while a request is sequenced, a flush or a data request is on its way to complete |
| `FlushProgress.AllEnded` | linux-3.4.2/block/blk-flush.c:94-347 | in every run, when nothing is on the dispatch queue, with the driver or at the device, every submitted request has ended exactly once |
| `FlushQueue.RequestQueue.KickFlush` | linux-3.4.2/block/blk-flush.c:244-273 | the code does what the value function does, and reports whether it issued a flush |
| `FlushQueue.RequestQueue.StartStage` | linux-3.4.2/block/blk-flush.c:159-189 | the switch leaves the queue in the closed-form state of the next stage |
| `FlushQueue.RequestQueue.FlushCompleteSeq` | linux-3.4.2/block/blk-flush.c:144-192 | the code does what the value function does, and reports whether it queued a request |
| `FlushQueue.RequestQueue.WalkRunning` | linux-3.4.2/block/blk-flush.c:207-213 | the loop over the list that changes under it ends where the recursive walk does |
| `FlushQueue.RequestQueue.FlushEndIo` | linux-3.4.2/block/blk-flush.c:194-229 | a flush completion keeps the invariant, and reruns the queue if something was queued or the driver was held off |
| `FlushQueue.RequestQueue.FlushDataEndIo` | linux-3.4.2/block/blk-flush.c:275-285 | a data completion keeps the invariant, and reruns the queue exactly if something was queued |
| `FlushQueue.RequestQueue.InsertFlush` | linux-3.4.2/block/blk-flush.c:298-347 | an insertion ends at once, bypasses or is sequenced as its policy says, and keeps the invariant |
| `Segments.MappedPartition` | linux-3.4.2/block/blk-merge.c:128-169 | the mapper's runs are segments the limits allow, and together are the vectors in order |
| `Segments.CountedPartition` | linux-3.4.2/block/blk-merge.c:27-58 | so are the segments the recount counts |
| `Segments.MapperMinimal` | linux-3.4.2/block/blk-merge.c:128-169 | no way of cutting the vectors into allowed segments has fewer than the mapper's |
| `Segments.RecountCovers` | linux-3.4.2/block/blk-merge.c:27-68 | hence the mapper never makes more entries than the recount counts |
| `SegmentRecount.RecountMinimal` | linux-3.4.2/block/blk-merge.c:27-68 | the recount puts no high page into a segment with others, and no cut that keeps to that is shorter |
| `SegmentCount.Recalc` | linux-3.4.2/block/blk-merge.c:12-69 | the loop returns the number of segments and raises the front and back sizes to those of the first and last |
| `SegmentCount.MapSg` | linux-3.4.2/block/blk-merge.c:117-169 | the scatterlist has the bytes of the vectors in order, with no more entries than any allowed cut |
| `RequestMerge.CoverFuse` | linux-3.4.2/block/blk-merge.c:297-304 | joining the last segment of one request and the first of the next when the ends are contiguous gives a cut with one segment less and the sizes the code writes |
| `RequestMerge.ChainJoined` | linux-3.4.2/block/blk-merge.c:297-304 | so the decremented count still covers the merged request |
| `RequestMerge.WidenedChain` | linux-3.4.2/block/blk-merge.c:298-303 | the size written to the first bio leaves the first request right on its own, merged or not |
| `RequestMerge.WidenedBackChain` | linux-3.4.2/block/blk-merge.c:298-303 | the size written to the last bio leaves the second request right on its own, merged or not |
| `RequestMerge.RecountBio` | linux-3.4.2/block/blk-merge.c:76-84 | a recounted bio's count and sizes describe a cut of its vectors |
| `RequestMerge.Request.constructor` | linux-3.4.2/block/blk-core.c:1301-1313 | a request made from a bio has a count that covers it |
| `RequestMerge.Request.MapRequest` | linux-3.4.2/block/blk-merge.c:117-169 | a valid request maps to at most `nr_phys_segments` entries with exactly its bytes |
| `RequestMerge.Request.RecalcSegments` | linux-3.4.2/block/blk-merge.c:71-74 | a full recount keeps the request valid and its data the same |
| `RequestMerge.Request.NewSegments` | linux-3.4.2/block/blk-merge.c:202-226 | the merge checks pass exactly when sectors, segments and integrity allow, and set REQ_NOMERGE otherwise |
| `RequestMerge.Request.BackMerge` | linux-3.4.2/block/blk-core.c:1196-1216 | a back merge appends the bio's data and adds the counts; refused, it leaves the request valid |
| `RequestMerge.Request.FrontMerge` | linux-3.4.2/block/blk-core.c:1218-1246 | a front merge puts the bio's data first, moves the sector and adds the counts; refused, it leaves the request valid |
| `RequestMerge.Request.TryMerge` | linux-3.4.2/block/blk-merge.c:503-510 | a bio merges at the back exactly if it starts where the request ends, at the front exactly if it ends where the request starts |
| `RequestMerge.Request.MergeBio` | linux-3.4.2/block/blk-core.c:1345-1360 | a bio is merged if and only if the request may be merged, they are alike, it touches the request and sectors, segments and integrity allow; then its data is at the end it touches, and REQ_NOMERGE is set exactly if the limits refuse it |
| `RequestMerge.Request.JointSegments` | linux-3.4.2/block/blk-merge.c:277-315 | the joint count, one below the sum exactly if the ends are contiguous, covers the joined data; both requests stay valid |
| `RequestJoin.JoinSaves` | linux-3.4.2/block/blk-merge.c:277-315 | with the sizes on record, one segment is saved if and only if the last of one request and the first of the other can be one |
| `RequestMerge.Request.MergeRequests` | linux-3.4.2/block/blk-merge.c:367-447 | a request merge succeeds if and only if flags, kind (discard, secure, direction, disk), position and limits allow, joins the data and keeps the count covering it; refused, both requests stay valid |
| `ThrottleRate.RenewEarned` | linux-3.4.2/block/blk-throttle.c:514-522 | a slice is not renewed before everything dispatched has been earned |
| `ThrottleRate.ChargeEarned` | linux-3.4.2/block/blk-throttle.c:584-674 | a dispatch within the limit overdraws by at most what the slice still has ahead of it |
| `ThrottleRate.TrimEarned` | linux-3.4.2/block/blk-throttle.c:526-582 | trimming forgets no more than the trimmed time earned |
| `ThrottleTrim.TrimTakes` | linux-3.4.2/block/blk-throttle.c:526-582 | the start moves by whole slices to within one of now, or not at all, and each counter loses what that time allowed, or everything |
| `ThrottleTrim.TrimExact` | linux-3.4.2/block/blk-throttle.c:526-582 | every bio within the byte limit before a trim is within it afterwards if and only if what the counter loses makes up for what the allowance loses |
| `ThrottleTrim.TrimGivesUp` | linux-3.4.2/block/blk-throttle.c:526-582 | a slice and a bio that passes before the trim and not after it |
| `ThrottleRate.StepKeeps` | linux-3.4.2/block/blk-throttle.c:487-747 | each call, charged or not, keeps both accounts |
| `ThrottleRate.RateBound` | linux-3.4.2/block/blk-throttle.c:487-747 | in every run the bytes and the I/Os dispatched since the first call are at most the rate times the time since, plus one slice |
| `ThrottleWait.IosWaitDue` | linux-3.4.2/block/blk-throttle.c:621-627 | the wait for an I/O count is always the computed one: the one-tick fallback is not reached |
| `ThrottleWait.IosWaitAccurate` | linux-3.4.2/block/blk-throttle.c:584-632 | a bio refused for its I/O count is let through when the announced wait is over |
| `ThrottleWait.BytesWaitExact` | linux-3.4.2/block/blk-throttle.c:634-674 | a bio refused for bytes is within its limit when the wait is over, if and only if the delay is not a whole number of slices or its division was exact enough |
| `ThrottleWait.BytesWaitNext` | linux-3.4.2/block/blk-throttle.c:634-735 | checked again at that time, it is within its limit one tick later |
| `ThrottleWait.BytesWaitLate` | linux-3.4.2/block/blk-throttle.c:634-674 | a limit and a bio of whole sectors for which the announced wait is one tick short |
| `ThrottlePrompt.BytesPrompt` | linux-3.4.2/block/blk-throttle.c:634-674 | the announced wait ends at most a tick, and the time of one byte, after the limit has earned the bio |
| `ThrottlePrompt.IosPrompt` | linux-3.4.2/block/blk-throttle.c:584-632 | the announced wait ends at most a tick after it has |
| `ThrottleSlice.Direction.StartNewSlice` | linux-3.4.2/block/blk-throttle.c:488-497 | a new slice has nothing dispatched and one interval |
| `ThrottleSlice.Direction.ExtendSlice` | linux-3.4.2/block/blk-throttle.c:505-512 | the end is the first multiple of the interval not before the time asked for |
| `ThrottleSlice.Direction.WithinBps` | linux-3.4.2/block/blk-throttle.c:634-674 | the byte test and its wait are those of the value functions |
| `ThrottleSlice.Direction.WithinIops` | linux-3.4.2/block/blk-throttle.c:584-632 | the I/O test, with its clamp, and its wait are those of the value functions |
| `ThrottleSlice.Direction.AskDispatch` | linux-3.4.2/block/blk-throttle.c:686-735 | verdict, wait and resulting slice are those of the value function |
| `ThrottleSlice.Direction.TrimSlice` | linux-3.4.2/block/blk-throttle.c:526-582 | trimming leaves the slice of the value function |
| `ThrottleSlice.Direction.Send` | linux-3.4.2/block/blk-throttle.c:1165-1183 | asking, charging and trimming is one event of a run, and the slice never ends before it starts |
| `ThrottleLane.LanePop` | linux-3.4.2/block/blk-throttle.c:782-800 | dispatching the first bio of a direction keeps arrivals equal to sent plus queued, and the slice equal to what its history makes of it |
| `ThrottleLane.RefusedAgain` | linux-3.4.2/block/blk-throttle.c:686-735 | a refused bio has to wait at least a tick, and is refused again if asked again at once |
| `ThrottleQueue.TreeNotEmpty` | linux-3.4.2/block/blk-throttle.c:467-477 | while bios are queued the service tree is not empty |
| `ThrottleData.DrainedStops` | linux-3.4.2/block/blk-throttle.c:802-833 | a direction gives up a prefix of its bios, less than its quota only when the next one has to wait |
| `ThrottleData.IdleMoves` | linux-3.4.2/block/blk-throttle.c:850-857 | a group that could send nothing gets a dispatch time in the future |
| `ThrottleData.ThrottledQueue.NewGroup` | linux-3.4.2/block/blk-throttle.c:184-283 | a new group has its limits, is off the tree and has nothing queued; all others stay |
| `ThrottleData.ThrottledQueue.RbFirst` | linux-3.4.2/block/blk-throttle.c:372-385 | it returns the earliest group, cached or looked up |
| `ThrottleData.ThrottledQueue.Enqueue` | linux-3.4.2/block/blk-throttle.c:413-453 | the tree stays sorted, holds the group once, and its cached node stays unset or first |
| `ThrottleData.ThrottledQueue.Dequeue` | linux-3.4.2/block/blk-throttle.c:393-399 | the group is off the tree and the cache is dropped if it was the group |
| `ThrottleData.ThrottledQueue.UpdateDisptime` | linux-3.4.2/block/blk-throttle.c:762-780 | the group moves to the time of the sooner of its two first bios |
| `ThrottleData.UpdatedDue` | linux-3.4.2/block/blk-throttle.c:762-780 | that time is now plus the wait of the first bio of one direction, and no later than that of the other |
| `ThrottleData.ThrottledQueue.TryDispatch` | linux-3.4.2/block/blk-throttle.c:782-800 | the first bio goes, with all counts, if the limits let it; the queue total is never below what is taken from it |
| `ThrottleData.ThrottledQueue.DispatchLane` | linux-3.4.2/block/blk-throttle.c:812-830 | exactly a prefix of the direction's bios is dispatched, flagged and in order |
| `ThrottleData.ThrottledQueue.DispatchGroup` | linux-3.4.2/block/blk-throttle.c:802-833 | at most six reads, then at most two writes, in order |
| `ThrottleData.ThrottledQueue.ServeFirst` | linux-3.4.2/block/blk-throttle.c:835-864 | the first group gives up the first of its reads and then of its writes, in order and flagged; its lists hold the rest |
| `ThrottleData.ThrottledQueue.SelectDispatch` | linux-3.4.2/block/blk-throttle.c:835-864 | it ends with nothing due or a quantum dispatched and every queued group on the tree; each list has given up its first bios, in order, and what is issued is exactly those: every bio is issued or queued as often as it was queued |
| `ThrottleData.ThrottledQueue.ScheduleNext` | linux-3.4.2/block/blk-throttle.c:467-485 | work is pending for the earliest dispatch time, or now if that has passed |
| `ThrottleData.ThrottledQueue.Work` | linux-3.4.2/block/blk-throttle.c:904-945 | the same over the whole work, which keeps the invariant and is pending again while any bio is queued |
| `ThrottleData.ThrottledQueue.ThrottleBio` | linux-3.4.2/block/blk-throttle.c:1112-1204 | a bio is held back exactly if others of its direction are or the limits refuse it; then it is last on the list of its group and direction, and all other lists are as they were; the invariant, with the pending work, is kept |
| `ThrottleData.ThrottledQueue.RateHolds` | linux-3.4.2/block/blk-throttle.c:487-747 | in every state of the whole throttle each direction has sent a prefix of its arrivals within its limits |
| `TagProtocol.StepKeeps` | linux-3.4.2/block/blk-tag.c:282-377 | every bit or index operation of any queue keeps: a set bit has exactly one owner, and the index entry is its owner's |
| `TagProtocol.TagsExclusive` | linux-3.4.2/block/blk-tag.c:282-377 | in every interleaving no two live requests hold one tag, and looking a held tag up gives its holder |
| `TagProtocol.EntryStable` | linux-3.4.2/block/blk-tag.c:282-377 | no step changes the entry of a tagged request, from the index write until its own release |
| `TagProtocol.WritesFreeEntry` | linux-3.4.2/block/blk-tag.c:282-377 | an index entry is written only where there was none, and cleared only by its request's queue |
| `TagProtocol.AsyncBelowReserve` | linux-3.4.2/block/blk-tag.c:344-358 | with the depth unchanged asynchronous requests hold only tags below the reserve |
| `TagProtocol.SyncFailsOnlyToSync` | linux-3.4.2/block/blk-tag.c:344-366 | a synchronous request finds no tag only when synchronous ones own all reserved tags |
| `TagQueue.StartAlone` | linux-3.4.2/block/blk-tag.c:330-377 | undisturbed, the steps of a start amount to setting the first free bit and its entry |
| `TagQueue.GrownKeeps` | linux-3.4.2/block/blk-tag.c:220-265 | growing keeps every tag, its bit and its holder |
| `TagQueue.TaggedQueue.constructor` | linux-3.4.2/block/blk-tag.c:108-138 | a new map is empty, with a depth of at most twice the queue's requests |
| `TagQueue.TaggedQueue.StartTag` | linux-3.4.2/block/blk-tag.c:330-377 | it takes the lowest free tag under the limit or reports full, exactly when there is none or too many asynchronous requests are in flight |
| `TagQueue.StartExact` | linux-3.4.2/block/blk-tag.c:344-365 | a start succeeds if and only if a tag is free that is not among the last two, which are for synchronous requests, and no more asynchronous requests than that are in flight; it takes the lowest such tag |
| `TagQueue.TaggedQueue.EndTag` | linux-3.4.2/block/blk-tag.c:282-309 | the tag is within the real depth, was set and indexed, and is free afterwards; the start order of the others is kept |
| `TagQueue.TaggedQueue.InvalidateTags` | linux-3.4.2/block/blk-tag.c:392-398 | on a map shared with other queues, this queue's tags are free and all others, with bits and index, as they were; its requests lead the dispatch queue in the order they were started |
| `TagQueue.TaggedQueue.ResizeTags` | linux-3.4.2/block/blk-tag.c:220-265 | shrinking changes only the depth; growing a shared map or without memory changes nothing; otherwise the depth and both arrays are new, with all tags kept if the old real depth is at most twice the queue's requests, and with tags beyond the arrays lost if not |
| `TagQueue.TaggedQueue.SetRequests` | linux-3.4.2/block/blk-sysfs.c:40-54 | the request count can be set to anything from four up, whatever tags are in use |
| `TagQueue.LostTag` | linux-3.4.2/block/blk-tag.c:220-265 | a run in which a growing map loses a tag that is in use: it is past the real depth that ending it checks |
| `Deadline.LatterOrder` | linux-3.4.2/block/deadline-iosched.c:66-74 | no request starts between one and its latter |
| `Deadline.AddedKeeps` | linux-3.4.2/block/deadline-iosched.c:99-111 | adding keeps both orders sorted and with the same requests |
| `Deadline.RemovedKeeps` | linux-3.4.2/block/deadline-iosched.c:85-122 | removing takes exactly that request from both orders and keeps the next one in the tree |
| `Deadline.RepositionedKeeps` | linux-3.4.2/block/deadline-iosched.c:154-166 | a front-merged request moves in sector order only |
| `Deadline.MergedKeeps` | linux-3.4.2/block/deadline-iosched.c:169-187 | a request that swallows another takes the earlier of the deadlines and its place, and the fifo stays sorted |
| `DeadlineRuns.StepKeeps` | linux-3.4.2/block/deadline-iosched.c:76-325 | every operation keeps: both orders agree, at most one next request is set and it is held, the fifo is sorted by expiry, the count is the number held |
| `DeadlineRuns.RunKeeps` | linux-3.4.2/block/deadline-iosched.c:76-325 | hence so does every run |
| `DeadlineRuns.ReadsBounded` | linux-3.4.2/block/deadline-iosched.c:243-325 | while a write waits at most (writes_starved + 1) batches of reads are dispatched, whatever is added or merged meanwhile |
| `DeadlineRuns.WritesBounded` | linux-3.4.2/block/deadline-iosched.c:243-325 | while a read waits at most one batch of writes is, if writes_starved is at least 1 |
| `DeadlineRuns.ReadsNeverFirst` | linux-3.4.2/block/deadline-iosched.c:268-293 | if it is 0, a waiting write is always served and no batch of reads can start |
| `DeadlineRuns.WritesUnbounded` | linux-3.4.2/block/deadline-iosched.c:243-325 | then any number of writes can be served while the same read waits |
| `DeadlineRuns.WritesBoundExact` | linux-3.4.2/block/deadline-iosched.c:243-325 | every run of the scheduler keeps to one batch of writes while a read waits if and only if writes_starved is at least 1 |
| `DeadlineRuns.ExpiredFirst` | linux-3.4.2/block/deadline-iosched.c:297-312 | a new batch in a direction with an expired request starts with the one that expired first |
| `DeadlineBatch.DispatchFollows` | linux-3.4.2/block/deadline-iosched.c:205-325 | while a batch lasts the next dispatch takes the neighbour in sector order; a new batch starts there too if it stays with the direction and the oldest has not expired, else at the oldest |
| `DeadlineBatch.NextSector` | linux-3.4.2/block/deadline-iosched.c:205-220 | that request starts no earlier than the last one, and none behind that starts before it |
| `DeadlineBatch.NextStands` | linux-3.4.2/block/deadline-iosched.c:253-261 | whatever arrives or is merged in between, short of merging it away, the batch goes on with it |
| `DeadlineBatch.NextSwallowed` | linux-3.4.2/block/deadline-iosched.c:80-93 | merged away, it hands on to the request behind it |
| `DeadlineBatch.BatchInOrder` | linux-3.4.2/block/deadline-iosched.c:243-325 | an undisturbed batch dispatches a stretch of the sector order, one neighbour after the other, up to fifo_batch |
| `DeadlineBatch.ReadsPreferred` | linux-3.4.2/block/deadline-iosched.c:268-293 | in every run, between two batches of writes that reads had to wait for, at least writes_starved batches of reads go ahead of waiting writes |
| `DeadlineBatch.Arrives` | linux-3.4.2/block/deadline-iosched.c:98-114 | a new request is behind all that start no later, last in its fifo, and expires after fifo_expire |
| `DeadlineBatch.FrontMoves` | linux-3.4.2/block/deadline-iosched.c:154-166 | a front merge moves the request to its new sector and changes nothing else |
| `DeadlineExpiry.DispatchDue` | linux-3.4.2/block/deadline-iosched.c:225-325 | no dispatch adds to the expired requests of a direction, and a new batch of it takes the oldest |
| `DeadlineExpiry.DueMerged` | linux-3.4.2/block/deadline-iosched.c:168-188 | a merge adds nothing to the requests that expire by a given time |
| `DeadlineExpiry.OverdueBounded` | linux-3.4.2/block/deadline-iosched.c:243-325 | in every run, while expired requests of a direction wait, one is dispatched at least every writes_starved + 1 batches if they are writes, every two batches if they are reads and writes_starved is not 0 |
| `DeadlineExpiry.ExpiredServed` | linux-3.4.2/block/deadline-iosched.c:243-325 | an expired request, followed through merges, is dispatched within such a round for each request of its direction that expires no later, itself included |
| `DeadlineExpiry.ExpiredReadsExact` | linux-3.4.2/block/deadline-iosched.c:243-325 | for reads every run keeps to that if and only if writes_starved is at least 1 |
| `DeadlineRuns.ChosenHeld` | linux-3.4.2/block/deadline-iosched.c:243-325 | the choice is a held request of its direction, and there is none only when nothing is held |
| `DeadlineQueue.DeadlineData.RbAdd` | linux-3.4.2/block/elevator.c:302-320 | the walk inserts the node behind all with the same or a lower sector |
| `DeadlineQueue.DeadlineData.AddRequest` | linux-3.4.2/block/deadline-iosched.c:99-111 | the code does what the value function does and keeps the invariant |
| `DeadlineQueue.DeadlineData.RemoveRequest` | linux-3.4.2/block/deadline-iosched.c:85-122 | the code does what the value function does |
| `DeadlineQueue.DeadlineData.MergedRequest` | linux-3.4.2/block/deadline-iosched.c:154-166 | repositioning keeps the invariant |
| `DeadlineQueue.DeadlineData.MergedRequests` | linux-3.4.2/block/deadline-iosched.c:169-187 | merging two requests keeps the invariant, the count included |
| `DeadlineQueue.DeadlineData.MoveRequest` | linux-3.4.2/block/deadline-iosched.c:205-220 | the request goes to the dispatch queue, its latter becomes next, the other direction has none, and the last sector is its end |
| `DeadlineQueue.DeadlineData.Select` | linux-3.4.2/block/deadline-iosched.c:243-318 | the branches choose what the value function does, with the batch and starvation counts |
| `DeadlineQueue.DeadlineData.DispatchRequests` | linux-3.4.2/block/deadline-iosched.c:243-325 | the whole dispatch does what the value function does, of which `DeadlineBatch` tells the order, keeps the invariant and leaves the last sector at the end of what it dispatched |
| `DeadlineQueue.DeadlineData.Drain` | linux-3.4.2/block/elevator.c:552-565 | the forced drain ends with nothing held, `nr_sorted` at zero, and every held request dispatched exactly once |
| `ElevatorOrder.StepKeeps` | linux-3.4.2/block/elevator.c:356-653 | each single list operation, an append being the second half of a back insertion, keeps: everything ahead of a barrier is older, everything behind it or held is newer, merge candidates are held |
| `ElevatorRuns.PickHolds` | linux-3.4.2/block/elevator.c:552-556 | a scheduler lets go of a request it holds, exactly that one, or it holds none: noop from its fifo, deadline by its own choice |
| `ElevatorRuns.PlaceBehindStops` | linux-3.4.2/block/elevator.c:356-393 | the place elv_dispatch_sort finds, or the tail, is behind every started or barrier request |
| `ElevatorRuns.DrainSteps` | linux-3.4.2/block/elevator.c:552-565 | the forced drain of either scheduler, from any state, is a sequence of dispatches that ends with nothing held |
| `ElevatorRuns.Steps` | linux-3.4.2/block/elevator.c:356-653 | every operation with either scheduler goes by steps of the line; a back insertion, from any state, by the drain and one append |
| `ElevatorRuns.RunOk` | linux-3.4.2/block/elevator.c:356-653 | in every run scheduler, merge hash and last_merge agree on what is held |
| `ElevatorRuns.BarrierOrder` | linux-3.4.2/block/elevator.c:586-653 | in every run with noop or deadline a back-inserted request leaves after all that entered before it, merged bios included, and before all that entered after |
| `ElevatorRuns.MergesBehindBarrier` | linux-3.4.2/block/elevator.c:416-492 | in every run with noop or deadline nothing can be merged into a request ahead of a barrier |
| `ElevatorRuns.OrderExact` | linux-3.4.2/block/elevator.c:356-653 | an operation leaves the reorderable end of the dispatch queue sorted if and only if a boundary it moves does not fall into that end, and a request linked at the tail comes last |
| `ElevatorRuns.SortedRuns` | linux-3.4.2/block/elevator.c:356-653 | the end is sorted all through a run if and only if every operation of it keeps to that |
| `ElevatorRuns.BoundaryUnsorts` | linux-3.4.2/block/blk-core.c:1938-1941 | a run with noop in which starting a request moves the boundary into the sorted end |
| `ElevatorSort.SweepOrder` | linux-3.4.2/block/elevator.c:375-389 | the order the scan compares by is that of a one-way sweep of the disk from the boundary around |
| `ElevatorSort.InsertKeeps` | linux-3.4.2/block/elevator.c:356-393 | an insertion at the place found keeps the reorderable end of the queue sorted from the boundary around |
| `ElevatorSort.BoundaryMoves` | linux-3.4.2/block/elevator.c:592-598 | a sorted end is sorted from a new boundary if and only if its first request does not come after its last from there |
| `ElevatorSort.AppendExact` | linux-3.4.2/block/elevator.c:400-413 | a request linked at the very end leaves it sorted if and only if it does not join it or comes last |
| `ElevatorSort.DispatchQueue.DispatchSort` | linux-3.4.2/block/elevator.c:356-393 | the backward scan passes only later entries of the same kind, leaves every stop entry and what is ahead of it in place, and keeps the end sorted |
| `ElevatorSort.NoopData.Dispatch` | linux-3.4.2/block/noop-iosched.c:21-33 | the oldest request goes to its place on the dispatch queue |
| `ElevatorSort.NoopData.Drain` | linux-3.4.2/block/elevator.c:552-565 | with noop the forced drain ends with nothing held and every request on the dispatch queue once, all stop entries and what is ahead of them in place |
| `ElevatorHash.MergeHash.HashDel` | linux-3.4.2/block/elevator.c:251-260 | unlinking a request leaves all others indexed |
| `ElevatorHash.MergeHash.HashAdd` | linux-3.4.2/block/elevator.c:262-268 | linking it by its end restores the index |
| `ElevatorHash.MergeHash.Insert` | linux-3.4.2/block/elevator.c:636-653 | an inserted request is indexed if it can be merged |
| `ElevatorHash.MergeHash.Dispatch` | linux-3.4.2/block/elevator.c:401-413 | a dispatched request is no longer indexed |
| `ElevatorHash.MergeHash.BackMerge` | linux-3.4.2/block/elevator.c:494-505 | after a back merge the request is indexed by its new end |
| `ElevatorHash.MergeHash.FrontMerge` | linux-3.4.2/block/blk-core.c:1353-1360 | a front merge keeps the end, so the index is right without a move |
| `ElevatorHash.MergeHash.MergeRequests` | linux-3.4.2/block/elevator.c:507-524 | a request merge indexes the survivor by its new end and drops the other |
| `ElevatorHash.MergeHash.SetNoMerge` | linux-3.4.2/block/elevator.c:286-289 | a request that can no longer be merged may stay linked |
| `ElevatorHash.MergeHash.Find` | linux-3.4.2/block/elevator.c:276-296 | the lookup finds a request exactly when a scan of all held mergeable requests finds one ending there |
| `Completion.LeftStream` | linux-3.4.2/block/blk-core.c:2096-2244 | completing n bytes leaves the byte stream without its first n, or nothing, and nothing is left exactly if n covers it all |
| `Completion.EndedCovered` | linux-3.4.2/block/blk-core.c:151-177 | the bios that end with a part are those it covers, in order, with an error if it had one or the bio was not up to date |
| `CompletionParts.PartsResult` | linux-3.4.2/block/blk-core.c:151-177 | however a request is completed, recounts included, a bio has ended exactly if all its bytes are, and without error if and only if it was up to date and no part that had any of its bytes failed |
| `CompletionParts.TwoParts` | linux-3.4.2/block/blk-core.c:151-177 | in two calls, an error of the first stays with the bio it had bytes of and with no other |
| `Completion.LeftUntouched` | linux-3.4.2/block/blk-core.c:2144-2193 | of the bios that stay only the first is changed |
| `Completion.LeftTwice` | linux-3.4.2/block/blk-core.c:2096-2244 | completing whole sectors and then more leaves the same chain as completing both at once |
| `Completion.EndedTwice` | linux-3.4.2/block/blk-core.c:2096-2244 | and ends the same bios with the same results |
| `Completion.SectorTwice` | linux-3.4.2/block/blk-core.c:2195-2223 | the request's sector is the same too, if and only if it is not the second completion alone that finishes the request |
| `Completion.SectorDiffers` | linux-3.4.2/block/blk-core.c:2201-2226 | a request for which two completions and one leave different sectors |
| `Completion.UpdatedTwice` | linux-3.4.2/block/blk-core.c:2096-2244 | recounts included, completing twice leaves the chain of completing once, but for the front and back sizes, and ends the same bios |
| `Completion.LeftInStep` | linux-3.4.2/block/blk-core.c:2201-2244 | a request whose fields describe its bios as merging needs is so after a partial completion if and only if that was in whole sectors |
| `Completion.Scan` | linux-3.4.2/block/blk-core.c:2143-2193 | the loop over bios and vectors stops where the completed bytes end, having ended exactly the covered bios |
| `Completion.Request.Update` | linux-3.4.2/block/blk-core.c:2096-2244 | the request is left with exactly the remaining chain, first and last segment sizes raised by the recount; its length and sector follow; it returns false if and only if everything is completed, and otherwise the count covers what the mapper makes of the rest and the request is ready for merges if whole sectors went |
| `Completion.Request.Recount` | linux-3.4.2/block/blk-core.c:2231-2241 | the check for a botched request never finds one; the recount covers the mapper's entries and writes the first and last segment sizes |
| `FairGroups.StepKeeps` | linux-3.4.2/block/cfq-iosched.c:838-1014 | every operation keeps: the tree is sorted by virtual time and holds the groups with queues, `total_weight` is their sum, nobody is behind the group being served or `min_vdisktime` |
| `FairGroups.RunGap` | linux-3.4.2/block/cfq-iosched.c:974-1014 | while two groups compete the gap of their virtual times is at most the larger of the initial gap and one scaled charge |
| `FairGroups.RunService` | linux-3.4.2/block/cfq-iosched.c:544-551 | virtual time is service over weight, up to one rounding a turn |
| `FairGroups.FairRun` | linux-3.4.2/block/cfq-iosched.c:974-1014 | in every run the service of two competing groups is in proportion to their weights, up to the initial gap, one charge and the rounding |
| `FairJoin.JoinsBehind` | linux-3.4.2/block/cfq-iosched.c:892-914 | a group that gets its first queue is last on the tree, CFQ_IDLE_DELAY behind the last of the others; alone, it starts at `min_vdisktime` |
| `FairJoin.WaitersFirst` | linux-3.4.2/block/cfq-iosched.c:892-994 | in every run it is not served before each group that was on the tree has been served or has left |
| `FairJoin.WeightTakesEffect` | linux-3.4.2/block/cfq-iosched.c:871-890 | in every run a weight that is set is in force from the next time the group is put on the tree, and not before |
| `FairQueue.GroupScheduler.FindPlace` | linux-3.4.2/block/cfq-iosched.c:844-869 | the walk ends behind all groups with the same or a lower virtual time, and knows whether that is in front |
| `FairQueue.GroupScheduler.TreeAdd` | linux-3.4.2/block/cfq-iosched.c:882-889 | the code does what the value function does, a pending weight included |
| `FairQueue.GroupScheduler.TreeDel` | linux-3.4.2/block/cfq-iosched.c:917-922 | the code does what the value function does |
| `FairQueue.GroupScheduler.NotifyQueueAdd` | linux-3.4.2/block/cfq-iosched.c:892-914 | a queue is counted, and a group that had none joins the tree as `FairJoin.JoinsBehind` tells |
| `FairQueue.GroupScheduler.NotifyQueueDel` | linux-3.4.2/block/cfq-iosched.c:925-940 | a group leaves with its last queue, also while it is being served |
| `FairQueue.GroupScheduler.UpdateWeight` | linux-3.4.2/block/cfq-iosched.c:1024-1030 | a new weight is noted and changes nothing on the tree |
| `FairQueue.GroupScheduler.NextGroup` | linux-3.4.2/block/cfq-iosched.c:2292-2302 | it chooses a group nobody is behind, and `min_vdisktime` becomes its virtual time |
| `FairQueue.GroupScheduler.GroupServed` | linux-3.4.2/block/cfq-iosched.c:990-994 | the served group is charged off the tree and put back, its scaled charge later |

## Left out

- Flush aborts (`blk_abort_flushes`): they empty the running list without touching the indices; the flush theorems are about runs without them.
- Requests without data that carry REQ_FUA: the source says they make no sense; insertions of them are not steps of a flush run.
- Padding and drain entries of the scatterlist, discard and data-less requests in the segment count.
- Segment boundaries are a function of the address, not bit masks; mergeability of two vectors is the equality of addresses that the default macro tests.
- Throttle drain and limit changes: the first ignores limits on purpose, the second restarts both slices; the rate bound is for fixed limits.
- 32- and 64-bit wrap-around of byte counts, jiffies, sectors and virtual times: integers are unbounded; only the clamp of the allowed I/O count is kept.
- ThrottleWait.IosWaitAccurate: requires fewer than UINT_MAX I/Os in the slice, beyond which the source's own counter would wrap.
- Destruction of throttle groups and their reference counts, and the lookup of a bio's group.
- Tag map allocation sizes in words, and freeing of tag maps; the search for a zero bit is one atomic snapshot.
- TagQueue.TaggedQueue.ResizeTags: after a copy that does not fit it promises the new depth and array lengths and that a tag beyond them is lost, not the contents of the arrays or of the memory behind them.
- FRONT, REQUEUE and FLUSH insertions in the barrier order: they may jump the queue. CFQ as the scheduler behind the elevator core.
- Front-merge lookup in the scheduler's tree (`elv_rb_find`), plug lists, and the accounting of in-flight requests.
- Mixed failfast attributes and `blk_rq_err_bytes`, integrity data, and bidirectional requests in completion.
- CFQ beyond the group tree: queues within a group, idling, preemption, cooperators, and which queue a slice is charged to.
- Sysfs, ioctl, cgroup files, SCSI pass-through, RCU, memory barriers, tracing, statistics: plumbing around the logic modelled here.
