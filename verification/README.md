# Verified models of the BFS scheduler and the block layer

This project models ten pieces of a Linux 3.2.6 tree whose CPU scheduler is BFS with
idle injection, and proves properties of them. Each piece runs under one lock in the
kernel (the global runqueue lock, the request queue lock, or the lock of a completion),
so a step of a model is one region between taking and releasing that lock, and a run is
any sequence of steps.

Every module has the same three layers. Pure functions say what a step does to a state
value. Lemmas prove what every step keeps and what every run satisfies. A class holds the
fields that the source updates, and its methods, with the loops of the source, are proved
to compute those functions.

| module | piece | main result |
|---|---|---|
| `CfqMerge` | cooperating queues of the CFQ scheduler | in every run a queue's process references are the io-contexts whose merge chain passes through it and the references that raced calls lost; without a raced call no freed queue is followed or dropped; a merge always moves the side with less work |
| `FlushSequence` | the FLUSH/FUA sequencer | in every run data and completions stand behind the cache flushes their policy asks for, nobody stalls, every request lives exactly the story of its policy, and no flush goes out before it is due or is left overdue |
| `ThrottleSlice`, `ThrottleRate`, `ThrottleQueue` | block throttling | the long-run rate bound from both sides, computed waits that suffice, conservation of bios, references and device counts, first-in first-out lanes, and a dispatch loop that ends |
| `Segments` | physical segment counts | for every merge history the scatterlist has at most `nr_phys_segments` entries, and count and size respect the queue limits; exactly when each merge is refused |
| `Runqueue` | the BFS global runqueue | every step of every run keeps lists, bitmap, counters and idle map consistent; the earliest-deadline scan meets its specification; the shortcut of `schedule` agrees with requeue-and-pick; exactly when a pass puts its task to sleep and what it leaves behind |
| `IdleInjection` | the idle injection counter | exactly which passes through `schedule` force an idle, over whole runs of the counter and of the runqueue |
| `Completion` | completions | no lost wakeup and no lost token in any run, first come first woken, and a `complete_all` that lets everybody through |
| `DeadlineElevator` | the deadline scheduler | the data of an expired request is dispatched within a bound, under arbitrary inserts and merges; how a batch starts and what it sends |
| `PartialCompletion` | `blk_update_request` | completing n bytes drops exactly n bytes, ends bios in order, advances the sector with the bytes, and composes |
| `ElevatorCore` | merge hash and dispatch sort | the merge index agrees with a plain scan in every run; merges lose no sector; one-way elevator order |

`Lists`, `Arithmetic` and `Wrappers` hold shared vocabulary.

Where the code and its comments differ, the code is modelled:

- The raced path of `cfq_get_queue` (the lock is dropped to allocate, and another task that
  shares the io-context installs a queue first) takes a reference that nobody owns.
  `CfqMerge.GetQueueExact` states that every reference keeps an owner across that call exactly
  if the context still has no queue, and `CfqMerge.RunCounts` is the count law of all runs, with
  the lost references in it. The guard of `cfq_setup_merge` counts a lost reference like any
  other: `CfqMerge.LostReferenceMisleads` is a run from the empty state after which the guard
  passes on a queue whose link names a freed one, and `CfqMerge.SafeExactly` and
  `CfqMerge.SetupMergeExactly` say exactly when the walk behind the guard is safe.
- A request merged into one that expires at the same time but stands further back loses its
  place, so its data may be dispatched later than the request alone would have been.
  `DeadlineElevator.TieBreaksBound` is such a run, `DeadlineElevator.RivalsSplit` says that ties
  are the only loss, and `DeadlineElevator.BoundedStarvation` is the bound that always holds.
- The injection test is an equality, so a threshold pass that leaves `schedule` early is
  missed for good until the queue next runs empty (`IdleInjection.NextForcedIff`).
- The request's sector is advanced by whole sectors at each update and not at all by the last
  one, so it depends on how a completion is split (`PartialCompletion.SectorsExactly`).
- A completion of zero bytes ends leading bios without data, so two completions do not
  always equal one (`PartialCompletion.ComposesExactly`).
- The completion loop of `flush_end_io` relies on requests without data not asking for both
  flushes; `FlushSequence.ProperExactly` and `FlushSequence.PolicyProper` say which ones those are.

One obligation of a caller is part of the model: `try_to_wake_up_local` tests only whether its
task is queued, so whoever picks the task to wake must pick one that is not running, which
`Runqueue.WakeLocalExact` states is exactly what is needed. `wq_worker_sleeping` promises a worker
of the CPU that asks, and by `Runqueue.OthersRest` such a worker meets it.

## Model

| member | source | states |
|---|---|---|
| `CfqMerge.ChainUnique` | linux-3.2.6-bfs/block/cfq-iosched.c:2758-2777 | a queue has at most one complete merge chain, so every walk along `new_cfqq` sees the same queues |
| `CfqMerge.DropRefsKeeps` | linux-3.2.6-bfs/block/cfq-iosched.c:2654-2678 | dropping references that are owed never goes below zero, frees a queue only without requests and users, and settles that part of the debt |
| `CfqMerge.ReleasedKeeps` | linux-3.2.6-bfs/block/cfq-iosched.c:2758-2789 | letting go of a context's queue drops one reference on every queue of its chain and restores the count law |
| `CfqMerge.MergedKeeps` | linux-3.2.6-bfs/block/cfq-iosched.c:3748-3756 | moving a context along its scheduled merge follows a live queue and keeps the count law |
| `CfqMerge.LinkKeeps` | linux-3.2.6-bfs/block/cfq-iosched.c:2165-2184 | granting the target as many references as the source has process references keeps the count law and the forest |
| `CfqMerge.SetupMergeKeeps` | linux-3.2.6-bfs/block/cfq-iosched.c:2144-2184 | scheduling a merge, in either direction or not at all, keeps forest and counts; lost references are handed on with the others |
| `CfqMerge.MergesLesserWork` | linux-3.2.6-bfs/block/cfq-iosched.c:2144-2184 | behind the guards nothing is scheduled if and only if the chain leads back or one side has no process references; otherwise the side with fewer process references is merged into the other, the source into the target's end on a tie, and the other side gains exactly those references |
| `CfqMerge.SetRequestKeeps` | linux-3.2.6-bfs/block/cfq-iosched.c:3783-3841 | split, merge and request accounting of a context that has a queue keep the count law |
| `CfqMerge.SetRequestExactly` | linux-3.2.6-bfs/block/cfq-iosched.c:3783-3841 | a new queue is needed exactly if the context's queue is to be split and still shared; otherwise the context moves to the target of a scheduled merge, and the request is charged there, in its own direction, with one reference |
| `CfqMerge.MarkedSplits` | linux-3.2.6-bfs/block/cfq-iosched.c:3806-3817 | a cooperating queue marked for a split loses the next context that sends it a request, unless that is its last process |
| `CfqMerge.ReferencedChain` | linux-3.2.6-bfs/block/cfq-iosched.c:2134-2156 | a queue with a process reference that is not lost has a chain over live queues only, however many dangling links exist elsewhere |
| `CfqMerge.SafeExactly` | linux-3.2.6-bfs/block/cfq-iosched.c:2148-2163 | everything that following `new_cfqq` comes to is live if and only if the chain is live to its end, and a user of the queue, which is a process reference that is not lost, guarantees it |
| `CfqMerge.SetupMergeExactly` | linux-3.2.6-bfs/block/cfq-iosched.c:2144-2184 | `cfq_setup_merge` has a defined outcome if and only if a guard stops it or the target's chain is safe to follow |
| `CfqMerge.NextKeepsInv` | linux-3.2.6-bfs/block/cfq-iosched.c:3724-3832 | every operation, raced or not, keeps the forest and the count law; a raced call loses one reference, a link hands lost ones on, and nothing drops one |
| `CfqMerge.RunCounts` | linux-3.2.6-bfs/block/cfq-iosched.c:2134-2184 | in every state of every run, with raced calls, `new_cfqq` is a forest and a queue's references are its requests, the io-contexts whose chain passes through it, and the references lost so far |
| `CfqMerge.LostExactly` | linux-3.2.6-bfs/block/cfq-iosched.c:3075-3101 | references have been lost if and only if a call was raced |
| `CfqMerge.RunKeepsInv` | linux-3.2.6-bfs/block/cfq-iosched.c:2134-2184 | in every state of every run without a raced call every reference has an owner |
| `CfqMerge.RunMergesSafely` | linux-3.2.6-bfs/block/cfq-iosched.c:2144-2184 | in every state of every run without a raced call `cfq_setup_merge` has a defined outcome |
| `CfqMerge.ProcessRefsCountsChains` | linux-3.2.6-bfs/block/cfq-iosched.c:2134-2142 | the process references of a queue are the number of io-contexts whose chain passes through it and its lost references |
| `CfqMerge.GetQueueExact` | linux-3.2.6-bfs/block/cfq-iosched.c:3075-3101 | giving a context a queue after the lock was dropped leaves every reference with an owner if and only if the context still has none |
| `CfqMerge.LostReference` | linux-3.2.6-bfs/block/cfq-iosched.c:3075-3101 | after the raced call no accounting of chains explains the reference count |
| `CfqMerge.LostReferenceMisleads` | linux-3.2.6-bfs/block/cfq-iosched.c:2148-2163 | a concrete run: after a raced call on a queue with a scheduled merge and the exit of both contexts, that queue has one process reference, its link names a freed queue, and `cfq_setup_merge` has no defined outcome |
| `CfqMerge.CfqData.PutQueue` | linux-3.2.6-bfs/block/cfq-iosched.c:2654-2678 | pays one owed reference and frees the queue on the last one; its BUG_ONs hold |
| `CfqMerge.CfqData.PutCooperator` | linux-3.2.6-bfs/block/cfq-iosched.c:2758-2777 | the walk drops exactly one reference on every queue behind the first and never visits a freed one |
| `CfqMerge.CfqData.DropContext` | linux-3.2.6-bfs/block/cfq-iosched.c:2779-2789 | releases the whole chain of a context |
| `CfqMerge.CfqData.ExitContext` | linux-3.2.6-bfs/block/cfq-iosched.c:2791-2822 | the sync part of the exit of an io-context |
| `CfqMerge.CfqData.PutRequest` | linux-3.2.6-bfs/block/cfq-iosched.c:3724-3745 | a request gives back its allocation and its reference; the BUG_ON holds |
| `CfqMerge.CfqData.FindEnd` | linux-3.2.6-bfs/block/cfq-iosched.c:2158-2163 | finds the end of the target's chain, or that the chain leads back to the source |
| `CfqMerge.CfqData.SetupMerge` | linux-3.2.6-bfs/block/cfq-iosched.c:2144-2184 | schedules a merge between the source and the end of the target's chain exactly when both have process references and no cycle would arise, in the direction `CfqMerge.MergesLesserWork` states; needs the target's chain safe to follow only if the target has lost references |
| `CfqMerge.CfqData.MergeCfqqs` | linux-3.2.6-bfs/block/cfq-iosched.c:3748-3756 | moves the context to the merge target |
| `CfqMerge.CfqData.SetRequest` | linux-3.2.6-bfs/block/cfq-iosched.c:3783-3832 | splits, merges or charges the context's queue, or reports that it needs a new one |
| `CfqMerge.CfqData.GetQueue` | linux-3.2.6-bfs/block/cfq-iosched.c:3075-3101 | the count law holds afterwards, with one reference more lost exactly if the context had a queue |
| `FlushSequence.KickKeeps` | linux-3.2.6-bfs/block/blk-flush.c:244-273 | issuing a flush keeps the protocol invariant: every request it serves was queued, or had its data completed, before the issue |
| `FlushSequence.CompleteSeqKeeps` | linux-3.2.6-bfs/block/blk-flush.c:144-192 | moving a request to its next stage keeps the protocol invariant |
| `FlushSequence.CompleteSeqTold` | linux-3.2.6-bfs/block/blk-flush.c:144-192 | the move extends the request's history by exactly the next stage of its policy |
| `FlushSequence.InsertKeeps` | linux-3.2.6-bfs/block/blk-flush.c:298-347 | inserting any request, with any policy, keeps ordering, no-stall and histories |
| `FlushSequence.DataEndKeeps` | linux-3.2.6-bfs/block/blk-flush.c:275-285 | a DATA completion, good or bad, keeps them |
| `FlushSequence.DrainKeeps` | linux-3.2.6-bfs/block/blk-flush.c:194-229 | the completion loop keeps them, even if a new flush is issued in the middle of it |
| `FlushSequence.FlushEndKeeps` | linux-3.2.6-bfs/block/blk-flush.c:194-229 | a flush completion keeps them |
| `FlushSequence.RunIsLawful` | linux-3.2.6-bfs/block/blk-flush.c:144-347 | in every state of every run ordering, no-stall and histories hold |
| `FlushSequence.RunOneFlush` | linux-3.2.6-bfs/block/blk-flush.c:194-273 | in every run the two indices differ exactly while the single embedded flush request is outstanding |
| `FlushSequence.RunTimely` | linux-3.2.6-bfs/block/blk-flush.c:244-273 | in every run `flush_pending_since` is the time the oldest pending request joined; every flush issued so far was issued with no DATA in flight or after that request had waited for the timeout; and after every step of the sequencer a pending list without a flush outstanding has DATA in flight and a head that has not waited that long |
| `FlushSequence.KickTimely` | linux-3.2.6-bfs/block/blk-flush.c:244-273 | a kick issues no flush before it is due and leaves none overdue |
| `FlushSequence.RunPromises` | linux-3.2.6-bfs/block/blk-flush.c:8-65 | DATA with PREFLUSH is sent only after a flush issued after queueing has completed; a good end stands after the data and a flush issued after it; a pending list has a flush or data in flight; an ended request ran its stages once and in order |
| `FlushSequence.FlagsKept` | linux-3.2.6-bfs/block/blk-flush.c:94-108 | in every run on a device with a volatile cache: the data of a REQ_FLUSH request is sent only after a flush issued after it was queued, and without FUA support a REQ_FUA request ends well only after a flush issued after its data was written |
| `FlushSequence.FlagsSpared` | linux-3.2.6-bfs/block/blk-flush.c:94-108 | no flush is asked for exactly if there is no cache, or neither FLUSH nor an unsupported FUA |
| `FlushSequence.StoryNext` | linux-3.2.6-bfs/block/blk-flush.c:110-113 | the lowest missing bit is the next stage of the policy, and completing it extends the story by that stage |
| `FlushSequence.ProperExactly` | linux-3.2.6-bfs/block/blk-flush.c:13-14 | completing a flush stage always takes a request off the flush lists if and only if its policy does not ask for two flushes without data |
| `FlushSequence.PolicyProper` | linux-3.2.6-bfs/block/blk-flush.c:94-108 | on every device exactly the requests that do not combine FLUSH and FUA without data have such a policy |
| `FlushSequence.RequestQueue.KickFlush` | linux-3.2.6-bfs/block/blk-flush.c:244-273 | computes the specified kick, whose timing `FlushSequence.RunTimely` states; reports true exactly if a flush was issued |
| `FlushSequence.RequestQueue.NextStep` | linux-3.2.6-bfs/block/blk-flush.c:144-189 | unlinks the request and enters its next stage; reports true exactly if DATA was sent |
| `FlushSequence.RequestQueue.CompleteSeq` | linux-3.2.6-bfs/block/blk-flush.c:144-192 | the stage change and the kick after it; reports true exactly if something was added to the dispatch queue |
| `FlushSequence.RequestQueue.InsertFlush` | linux-3.2.6-bfs/block/blk-flush.c:298-347 | the insert, with the whole invariant kept |
| `FlushSequence.RequestQueue.DataEndIo` | linux-3.2.6-bfs/block/blk-flush.c:275-285 | the data completion, with the whole invariant kept; reports true exactly if something was added to the dispatch queue |
| `FlushSequence.RequestQueue.CompleteFirst` | linux-3.2.6-bfs/block/blk-flush.c:207-213 | one round of the loop serves the head of the running list; its BUG_ON holds |
| `FlushSequence.RequestQueue.FlushEndIo` | linux-3.2.6-bfs/block/blk-flush.c:194-229 | the loop over the lists being changed computes the same as completing a list taken off beforehand, and `queued` says whether any round added to the dispatch queue |
| `ThrottleSlice.RenewedSound` | linux-3.2.6-bfs/block/blk-throttle.c:708-717 | restarting or extending a slice forgives nothing that was not earned |
| `ThrottleSlice.TrimSound` | linux-3.2.6-bfs/block/blk-throttle.c:525-582 | trimming with rounding down forgives at most what the trimmed time allowed; `ThrottleRate.TrimGivesBack` is the other side |
| `ThrottleRate.TrimGivesBack` | linux-3.2.6-bfs/block/blk-throttle.c:525-582 | a trim costs nothing but a rounding: what the limits would have admitted with one byte, or one io, to spare is admitted after the trim, unless it is more than a slice that starts afresh at the new start would take |
| `ThrottleSlice.StepSound` | linux-3.2.6-bfs/block/blk-throttle.c:686-747 | every check and every charge keeps the account sound |
| `ThrottleSlice.RateBound` | linux-3.2.6-bfs/block/blk-throttle.c:487-747 | over any run, bytes and ios sent from the first slice start to any later time never exceed the limit for that time plus one slice |
| `ThrottleRate.RateReached` | linux-3.2.6-bfs/block/blk-throttle.c:525-747 | over any run in which a bio is always waiting and refused ones are retried when told, what was let through, with the bio that waits, is no less than the limit allows for the time, but for one byte or io and one jiffy in every slice and one slice at the end |
| `ThrottleRate.RefusedTimes` | linux-3.2.6-bfs/block/blk-throttle.c:584-735 | a refusal is never given for time that would have sufficed, and the wait it asks for is at most one unit and one jiffy more than the bio needs |
| `ThrottleRate.StepAbreast` | linux-3.2.6-bfs/block/blk-throttle.c:525-747 | every check, extension, charge and trim of such a run keeps the direction abreast of its limit |
| `ThrottleSlice.TwoLimits` | linux-3.2.6-bfs/block/blk-throttle.c:717-735 | the verdict under two limits is that of the byte limit if it refuses, and else that of the iops limit |
| `ThrottleSlice.IdleForgiven` | linux-3.2.6-bfs/block/blk-throttle.c:708-717 | a direction whose slice has run out is judged as one that never sent anything |
| `ThrottleSlice.RefusalStable` | linux-3.2.6-bfs/block/blk-throttle.c:686-735 | a refused bio waits at least one jiffy, and asking again at once gives the same answer and the same slice |
| `ThrottleSlice.IopsWaitSuffices` | linux-3.2.6-bfs/block/blk-throttle.c:584-632 | with only an iops limit the computed wait is never the fallback, and the first retry is admitted |
| `ThrottleSlice.BpsWaitSuffices` | linux-3.2.6-bfs/block/blk-throttle.c:634-674 | with only a byte limit of at least HZ and slices of at least two jiffies, the second retry at the latest is admitted |
| `ThrottleQueue.DispatchLane` | linux-3.2.6-bfs/block/blk-throttle.c:810-830 | lets the oldest bios through in order, up to the quantum, and stops early only at a refused head; each takes one off the device count, whose BUG_ON holds |
| `ThrottleQueue.DispatchTg` | linux-3.2.6-bfs/block/blk-throttle.c:802-833 | at most six reads and two writes, and fewer only before a refused head or an empty line, each dropping one reference of the group and one of the device count of its direction |
| `ThrottleQueue.UpdateDisptimeOk` | linux-3.2.6-bfs/block/blk-throttle.c:762-780 | computing the dispatch time changes slices only |
| `ThrottleQueue.DisptimeEarliest` | linux-3.2.6-bfs/block/blk-throttle.c:762-780 | the dispatch time is the earliest time at which a head asked to be retried |
| `ThrottleQueue.DisptimeAdmits` | linux-3.2.6-bfs/block/blk-throttle.c:762-780 | with only an iops limit, the head that set the dispatch time is admitted at that time |
| `ThrottleQueue.DisptimeAdmitsBytes` | linux-3.2.6-bfs/block/blk-throttle.c:762-780 | with only a byte limit of at least HZ and slices of at least two jiffies, the head that set the dispatch time is admitted at that time or at the next one it sets |
| `ThrottleQueue.RefusedIsLater` | linux-3.2.6-bfs/block/blk-throttle.c:762-780 | a group none of whose heads is admitted gets a dispatch time in the future |
| `ThrottleQueue.TreeAddSorted` | linux-3.2.6-bfs/block/blk-throttle.c:412-438 | insertion keeps the service tree ordered by dispatch time and free of duplicates |
| `ThrottleQueue.TreeAddPlace` | linux-3.2.6-bfs/block/blk-throttle.c:412-438 | a group goes behind all that are due no later and before all others, which keep their order |
| `ThrottleQueue.QueuedMeansScheduled` | linux-3.2.6-bfs/block/blk-throttle.c:467-485 | if anything is queued on the device, the service tree is not empty |
| `ThrottleQueue.TotalsCover` | linux-3.2.6-bfs/block/blk-throttle.c:791-792 | the device counts cover the bios of every group, so the BUG_ON of a dispatch cannot be hit |
| `ThrottleQueue.TalliedExactly` | linux-3.2.6-bfs/block/blk-throttle.c:749-800 | after a group changed, the device counts are the sums over all groups if and only if they moved by what each direction of that group gained or lost |
| `ThrottleQueue.DeviceRate` | linux-3.2.6-bfs/block/blk-throttle.c:737-800 | in every valid device state the bios a direction of a group let through obey both limits from its first slice start on |
| `ThrottleQueue.DueShrinks` | linux-3.2.6-bfs/block/blk-throttle.c:835-864 | a turn that lets nothing through strictly shrinks the set of due groups: the second component of the loop's measure |
| `ThrottleQueue.ServeTg` | linux-3.2.6-bfs/block/blk-throttle.c:849-856 | a turn of one group, which is rescheduled into the future if nothing was let through |
| `ThrottleQueue.ThrotlData.DequeueTg` | linux-3.2.6-bfs/block/blk-throttle.c:455-465 | takes a group off the service tree; the tree holds exactly the other groups with bios, in order, and counts and references stay right |
| `ThrottleQueue.ThrotlData.EnqueueTg` | linux-3.2.6-bfs/block/blk-throttle.c:440-453 | puts a group in hand that has bios back at its place; the tree again holds exactly the groups with bios, in order |
| `ThrottleQueue.ThrotlData.Service` | linux-3.2.6-bfs/block/blk-throttle.c:841-856 | one turn keeps totals, tree membership, references and order of the device; the counts of both directions go down by the bios let through, one at a time |
| `ThrottleQueue.ThrotlData.SelectDispatch` | linux-3.2.6-bfs/block/blk-throttle.c:835-864 | terminates; lets fewer than 40 bios through; if it stops below 32 no queued group is due; bios are conserved and leave oldest first |
| `ThrottleQueue.ThrotlData.CreateGroup` | linux-3.2.6-bfs/block/blk-throttle.c:184-203 | a new group has the given limits, its creation reference and nothing queued; the others stay as they are |
| `ThrottleQueue.ThrotlData.DestroyGroup` | linux-3.2.6-bfs/block/blk-throttle.c:977-990 | dropping the creation reference leaves a live reference exactly if bios are queued |
| `ThrottleQueue.ThrotlData.UpdateTg` | linux-3.2.6-bfs/block/blk-throttle.c:762-780 | the group gets the computed dispatch time and its place in the tree; all queues stay as they are |
| `ThrottleQueue.ThrotlData.AddBio` | linux-3.2.6-bfs/block/blk-throttle.c:749-760 | a queued bio takes a reference, is counted once in its group and once in the device count of its own direction, and puts its group on the tree |
| `ThrottleQueue.ThrotlData.SubmitBio` | linux-3.2.6-bfs/block/blk-throttle.c:1112-1204 | a bio is throttled if and only if its direction already has queued bios or refuses it, and then counted in its own direction; otherwise it passes an empty line |
| `Segments.PiecesCut` | linux-3.2.6-bfs/block/blk-merge.c:29-60 | the left-to-right grouping cuts the vectors into valid hardware segments |
| `Segments.GreedyAhead` | linux-3.2.6-bfs/block/blk-merge.c:135-170 | no cut into valid segments has fewer segments than the mapping pass, and on a tie the last segment of the pass is no bigger |
| `Segments.RecalcSegments` | linux-3.2.6-bfs/block/blk-merge.c:12-69 | counts the segments that keep high pages apart, and raises the recorded outer sizes to cover them |
| `Segments.RecountSegments` | linux-3.2.6-bfs/block/blk-merge.c:76-84 | the cached count of a bio is right and its cached sizes cover its outer segments |
| `Segments.FirstCount` | linux-3.2.6-bfs/block/blk-merge.c:12-84 | the first count of a bio records its segments and the sizes of its outer ones exactly |
| `Segments.BackKeeps` | linux-3.2.6-bfs/block/blk-merge.c:202-250 | a back merge, allowed or refused, keeps a cut that witnesses the count, within the limit |
| `Segments.FrontKeeps` | linux-3.2.6-bfs/block/blk-merge.c:252-275 | a front merge, allowed or refused, does too |
| `Segments.BackExactly` | linux-3.2.6-bfs/block/blk-merge.c:202-250 | a back merge is refused if and only if the sectors of the data, or the segments, would exceed the limit of the queue; accepted it appends the data, refused it changes nothing but the mark against merging; either way the size is that of the data |
| `Segments.FrontExactly` | linux-3.2.6-bfs/block/blk-merge.c:252-275 | a front merge likewise, putting the data in front |
| `Segments.FacingFuse` | linux-3.2.6-bfs/block/blk-merge.c:87-111 | if sizes and vectors say contiguous, the facing segments of the two requests really form one segment |
| `Segments.FacingExactly` | linux-3.2.6-bfs/block/blk-merge.c:87-111 | with outer sizes recorded exactly, two requests count as contiguous if and only if their facing segments form one |
| `Segments.StretchedCovers` | linux-3.2.6-bfs/block/blk-merge.c:298-303 | the size updates stay upper bounds even if the merge is refused after them |
| `Segments.JoinKeeps` | linux-3.2.6-bfs/block/blk-merge.c:277-315 | a request merge keeps the witness of both requests, with one segment less if contiguous |
| `Segments.JoinExactly` | linux-3.2.6-bfs/block/blk-merge.c:277-315 | a request merge is refused if and only if one of them is special or the sectors of all data, or the segments less the fused one, would exceed the limit; accepted it puts the data of both together; sizes stay those of the data |
| `Segments.MapSg` | linux-3.2.6-bfs/block/blk-merge.c:117-170 | the scatterlist maps the segments of the greedy cut one to one |
| `Segments.MappingFits` | linux-3.2.6-bfs/block/blk-merge.c:113-170 | a request with a witness needs at most `nr_phys_segments` scatterlist entries |
| `Segments.HistoryFits` | linux-3.2.6-bfs/block/blk-merge.c:12-315 | for every history of back, front and request merges the scatterlist fits the count, and the count fits the queue unless the request is still its first bio |
| `Segments.HistoryTallied` | linux-3.2.6-bfs/block/blk-core.c:1174-1226 | for every history `__data_len` is the size of the data, and a merged request is within `max_sectors`, exactly so with bios of whole sectors |
| `Segments.NewTallied` | linux-3.2.6-bfs/block/blk-core.c:2506-2521 | a new request is its bio and nothing else, with the right size and count, and may be merged |
| `Segments.Request.BackMerge` | linux-3.2.6-bfs/block/blk-core.c:1174-1195 | computes the specified back merge, which `Segments.BackExactly` pins down, and keeps the witness, the size and the limits |
| `Segments.Request.FrontMerge` | linux-3.2.6-bfs/block/blk-core.c:1197-1226 | computes the specified front merge, which `Segments.FrontExactly` pins down, and keeps the witness, the size and the limits |
| `Segments.Request.MergeNext` | linux-3.2.6-bfs/block/blk-merge.c:277-315 | computes the specified request merge, which `Segments.JoinExactly` pins down, and keeps both witnesses, sizes and limits |
| `Segments.Request.Map` | linux-3.2.6-bfs/block/blk-merge.c:117-170 | maps exactly the data of the request into at most `nr_phys_segments` entries |
| `Runqueue.AddOk` | sched_bfs.c:709-722 | queueing keeps bitmap and lists consistent and adds one task |
| `Runqueue.RemoveOk` | sched_bfs.c:680-685 | dequeueing a task by its own priority keeps them and removes exactly that one |
| `Runqueue.AddExactly` | sched_bfs.c:709-722 | queueing a task that is not queued leaves lists and bitmap consistent if and only if the task is not running |
| `Runqueue.LevelBound` | sched_bfs.c:709-722 | every task is queued at a real level |
| `Runqueue.LevelIs` | sched_bfs.c:969-1023 | where an activated task is queued: a boosted one at its boost, a real-time one at 100 less its rt_priority, ISO and idle tasks at 101 and 103 if they qualify, all others at 102 |
| `Runqueue.HigherRtFirst` | sched_bfs.c:969-980 | of two real-time tasks the one with the higher rt_priority is queued at an earlier level |
| `Runqueue.AddLast` | sched_bfs.c:709-722 | a task joins its list behind all others, which keep their order |
| `Runqueue.RemoveInOrder` | sched_bfs.c:680-685 | taking a task out leaves the others in queueing order |
| `Runqueue.ActivateKeeps` | sched_bfs.c:1002-1023 | activating a task that neither runs nor waits keeps the runqueue consistent |
| `Runqueue.ActivateExactly` | sched_bfs.c:1002-1023 | activating a task that is not queued leaves the runqueue consistent if and only if the task is not running |
| `Runqueue.WakeKeeps` | sched_bfs.c:1567-1607 | a wakeup keeps it, queues its task exactly if that slept in a matching state, clears a matching state, drops the sticky mark exactly if it may preempt, and changes no other task |
| `Runqueue.WakeLocalExact` | sched_bfs.c:1617-1637 | a local wakeup keeps it if and only if its task is not running or not in a state that would be woken |
| `Runqueue.OthersRest` | linux-3.2.6-bfs/kernel/workqueue.c:680-716 | a task that was last put on a CPU and is not its current one does not run, so a worker of the asking CPU may be woken from inside `schedule` |
| `Runqueue.WakeNewKeeps` | sched_bfs.c:1766-1789 | the first wakeup of a forked task keeps it, and queues it runnable on the CPU of its parent |
| `Runqueue.ChangeKeeps` | sched_bfs.c:3843-3853 | taking a queued task out, changing it and queueing it again keeps it, with the same tasks queued and the same counters, and drops the sticky mark of a queued task exactly if it is to preempt |
| `Runqueue.SetPrioKeeps` | sched_bfs.c:3833-3857 | a priority-inheritance change keeps it, changes no other task, and sets the priority unless a waiting task is levelled |
| `Runqueue.SetNiceKeeps` | sched_bfs.c:3870-3914 | a nice change keeps it, changes no other task, sets the static priority to 121 plus nice exactly if nice is in range, renews the deadline of a task that is not real-time, and unsticks a queued one only if it became more urgent |
| `Runqueue.SetSchedulerKeeps` | sched_bfs.c:4038-4056 | a policy change keeps it, changes no other task, and sets policy and real-time priority |
| `Runqueue.SetSchedulerSets` | sched_bfs.c:4038-4056 | the priority becomes that of the new policy, or that of the top waiter if it is more urgent |
| `Runqueue.PickIsChoice` | sched_bfs.c:2982-3049 | the scan finds what leads the first list with an eligible task, and none if and only if no queued task is eligible |
| `Runqueue.ChoiceUnique` | sched_bfs.c:2965-2981 | that specification leaves no freedom |
| `Runqueue.EligibleCases` | sched_bfs.c:3010-3030 | who may run on a CPU and by which deadline: last run there or not sticky, by its own; sticky elsewhere, put off by the bias, and not at all on a scaled CPU unless real-time |
| `Runqueue.SwapStickyKeeps` | sched_bfs.c:1091-1111 | moving the sticky mark touches no queue, counter or running task |
| `Runqueue.SwapStickyIs` | sched_bfs.c:1091-1111 | the task is marked and recorded unless it is real-time, and the one recorded before loses its mark |
| `Runqueue.LeaveKeeps` | sched_bfs.c:1154-1162 | a task that leaves its CPU, to sleep or to the queues, is counted correctly |
| `Runqueue.GoIdleKeeps` | sched_bfs.c:3236-3255 | running the idle task, forced or not, keeps the idle map truthful |
| `Runqueue.RunTaskKeeps` | sched_bfs.c:1142-1148 | taking a queued task to a CPU keeps everything |
| `Runqueue.ScheduleKeeps` | sched_bfs.c:3118-3302 | every pass through `schedule` keeps the runqueue consistent and moves the injection counter as that counter's model says |
| `Runqueue.ScheduleSleeps` | sched_bfs.c:3160-3232 | a pass takes its current task off the runqueue if and only if that asks to sleep, is not being preempted, has no signal pending, is not the worker to be woken, and no plug is to be flushed; `nr_running` falls by one then, and rises by one for a worker woken in its place |
| `Runqueue.ScheduleExits` | sched_bfs.c:3188-3230 | a pass leaves before the choice exactly to flush a plug, or because its task stays awake, may stay on the CPU and nothing else is queued, and then the CPU, idle map and sticky records are as before |
| `Runqueue.SchedulePasses` | sched_bfs.c:3205-3284 | what any other pass leaves behind: the deadline renewed, the idle map telling whether this CPU idles and else unchanged, no mark on the next task or a sleeping one, and a displaced task recorded and marked unless real-time tasks are involved |
| `Runqueue.ScheduleIdles` | sched_bfs.c:3234-3284 | a pass that reaches the choice with work queued idles if the count forces it, and else only if no queued task may run on this CPU |
| `Runqueue.ShortcutAgrees` | sched_bfs.c:3209-3233 | with nothing else queued and no idle due, the shortcut leaves the same running task, queues, counters and idle map as requeue-and-pick |
| `Runqueue.NextKeeps` | sched_bfs.c:3118-3302 | every step of the scheduler keeps the runqueue consistent |
| `Runqueue.BootOk` | sched_bfs.c:4915-4942 | the state with every CPU running its idle task is consistent |
| `Runqueue.RunKeeps` | sched_bfs.c:3118-3302 | from boot on every run keeps it, and the injection counter is a function of the passes made |
| `Runqueue.InjectedExactly` | sched_bfs.c:3138-3261 | after any run from boot, a pass that reaches the choice with work queued goes idle at the threshold pass, and at any other pass only if no queued task may run on this CPU |
| `Runqueue.InvMeans` | sched_bfs.c:667-675 | consistent means: a bit per non-empty list, each queued task once and at its own priority, no task queued and running or running twice, right counters, an idle map of idle CPUs only |
| `Runqueue.GlobalRq.constructor` | sched_bfs.c:4915-4942 | starts consistent |
| `Runqueue.GlobalRq.DequeueTask` | sched_bfs.c:680-685 | removes exactly that task from consistent queues, which stay consistent, with one task less |
| `Runqueue.GlobalRq.EnqueueTask` | sched_bfs.c:709-722 | the levelled task is queued, with one task more; lists and bitmap stay consistent if and only if it is not running |
| `Runqueue.GlobalRq.ActivateTask` | sched_bfs.c:1002-1023 | the task is queued and counted, and the runqueue stays consistent if and only if it is not running |
| `Runqueue.GlobalRq.TryToWakeUp` | sched_bfs.c:1567-1607 | the wakeup, with the invariant kept |
| `Runqueue.GlobalRq.TryToWakeUpLocal` | sched_bfs.c:1617-1637 | the local wakeup keeps the runqueue consistent if and only if its task is not running or not in a state that would be woken |
| `Runqueue.GlobalRq.RtMutexSetprio` | sched_bfs.c:3833-3857 | the priority change, with the invariant kept |
| `Runqueue.GlobalRq.ChangeTask` | sched_bfs.c:3895-3905 | off the queue, change, and back on it at the new level: the runqueue stays consistent and the task is queued exactly if it was |
| `Runqueue.GlobalRq.SetUserNice` | sched_bfs.c:3870-3914 | the nice change, with the invariant kept |
| `Runqueue.GlobalRq.SetSchedulerLocked` | sched_bfs.c:4209-4238 | the policy change, with the invariant kept |
| `Runqueue.GlobalRq.WakeUpNewTask` | sched_bfs.c:1766-1789 | the first wakeup, with the invariant kept |
| `Runqueue.GlobalRq.StickTask` | sched_bfs.c:1091-1111 | the sticky swap keeps the runqueue consistent and touches no list and no running task |
| `Runqueue.GlobalRq.ReturnTask` | sched_bfs.c:1154-1162 | what leaves the CPU is deactivated or requeued, the CPU is between two tasks, and the runqueue stays consistent |
| `Runqueue.GlobalRq.ScanList` | sched_bfs.c:3006-3040 | the best eligible entry of one list |
| `Runqueue.GlobalRq.EarliestDeadlineTask` | sched_bfs.c:2982-3049 | the search over bitmap and lists meets the specification of the choice |
| `Runqueue.GlobalRq.ChooseNext` | sched_bfs.c:3234-3284 | idle or the earliest deadline, and the switch to it |
| `Runqueue.GlobalRq.SchedulePass` | sched_bfs.c:3118-3302 | a whole pass, with the invariant kept; `Runqueue.ScheduleSleeps`, `Runqueue.ScheduleExits` and `Runqueue.SchedulePasses` say what it does to its task |
| `IdleInjection.AfterCounts` | sched_bfs.c:3138-3144 | the counter is the number of passes since the last idle choice, and `is_init` says whether there was one |
| `IdleInjection.ForcedExactly` | sched_bfs.c:3234-3261 | an idle is forced with work queued if and only if the passes since the last idle choice equal the threshold and that pass reaches the choice |
| `IdleInjection.ForcedApart` | sched_bfs.c:136-140 | a forced idle comes at least fifteen passes after any other idle choice |
| `IdleInjection.EveryFifteenth` | sched_bfs.c:136-140 | with no early exit and never an empty queue: pass 2000, then exactly every fifteenth |
| `IdleInjection.MissedStaysMissed` | sched_bfs.c:3243 | once the threshold is passed no idle is forced until the queue is empty at a choice |
| `IdleInjection.NextForcedIff` | sched_bfs.c:3193-3228 | the fifteenth pass after an idle choice forces one if and only if it is no early exit, and otherwise none is forced while work is queued |
| `Completion.NoLostWakeup` | sched_bfs.c:3552-3606 | in every state of every run, while some waiter sleeps there are at least as many awake waiters as tokens, and some waiter is awake if there is a token |
| `Completion.WakeOneCounts` | sched_bfs.c:3424-3437 | an exclusive wakeup wakes a sleeper or leaves only awake waiters |
| `Completion.WakeOneInOrder` | sched_bfs.c:3539-3551 | the first sleeper in queueing order is woken, and none after it is touched |
| `Completion.RunInOrder` | sched_bfs.c:3583-3606 | in every state of every run the waiters stand in the order in which they began to wait |
| `Completion.WaitResults` | sched_bfs.c:3583-3606 | a wait reports success exactly with a token there, a timeout before a signal, and else goes on, behind the others if it is new |
| `Completion.EverybodySucceeds` | sched_bfs.c:3572-3580 | in any run, for half of UINT_MAX steps after `complete_all`, every wait that starts, resumes or tries succeeds, and it leaves no waiter asleep |
| `Completion.NextKeeps` | sched_bfs.c:3552-3606 | every step keeps that, and a token is consumed if and only if success is reported |
| `Completion.RunKeeps` | sched_bfs.c:3552-3606 | in every run the tokens left are those posted less the successes reported, and no wakeup is lost |
| `Completion.Object.WakeUpCommon` | sched_bfs.c:3424-3437 | the scan over the wait list, for one or for all |
| `Completion.Object.CompleteOne` | sched_bfs.c:3552-3560 | posts one token |
| `Completion.Object.CompleteEveryone` | sched_bfs.c:3572-3580 | posts half of UINT_MAX tokens and wakes everybody |
| `Completion.Object.BeginWait` | sched_bfs.c:3583-3597 | takes a token, gives up on a signal, or joins the list |
| `Completion.Object.ResumeWait` | sched_bfs.c:3590-3606 | a returning waiter takes a token if there is one; otherwise it times out, is interrupted or sleeps on, without one |
| `Completion.Object.TryWaitFor` | sched_bfs.c:3739-3751 | takes a token exactly if there is one |
| `DeadlineElevator.AddedKeeps` | linux-3.2.6-bfs/block/deadline-iosched.c:98-111 | an insert keeps FIFO in expiry order and sort list in sector order, both holding the same requests |
| `DeadlineElevator.AddedExpires` | linux-3.2.6-bfs/block/deadline-iosched.c:98-111 | a request expires the time of its direction after it was added, joins the end of its FIFO, and leaves the batch alone |
| `DeadlineElevator.RepositionedKeeps` | linux-3.2.6-bfs/block/deadline-iosched.c:154-166 | so does a front merge |
| `DeadlineElevator.MergedKeeps` | linux-3.2.6-bfs/block/deadline-iosched.c:168-187 | so does a merge of two requests, with the earlier expiry taken over |
| `DeadlineElevator.MergedCandidate` | linux-3.2.6-bfs/block/deadline-iosched.c:168-187 | a batch whose next request is merged away goes on with the one behind it in sector order; other merges leave the batch alone |
| `DeadlineElevator.DispatchKeeps` | linux-3.2.6-bfs/block/deadline-iosched.c:243-325 | a dispatch call removes exactly one queued request, and none if and only if nothing is queued |
| `DeadlineElevator.BatchAscends` | linux-3.2.6-bfs/block/deadline-iosched.c:204-220 | a batch goes on with the nearest request at or past the one just sent |
| `DeadlineElevator.NewBatch` | linux-3.2.6-bfs/block/deadline-iosched.c:263-317 | which request starts a batch: reads unless writes have been starved often enough; the oldest if it has expired, and else where the last batch of that direction left off; and how the counts of batch and starvation move |
| `DeadlineElevator.BatchSends` | linux-3.2.6-bfs/block/deadline-iosched.c:251-323 | the next calls of a batch that is not full, as many as `fifo_batch` allows and the direction has requests, return consecutive requests in sector order, whatever has expired meanwhile |
| `DeadlineElevator.TurnNears` | linux-3.2.6-bfs/block/deadline-iosched.c:271-308 | each new batch brings an expired request one batch nearer, by direction or by place in its FIFO |
| `DeadlineElevator.DispatchNears` | linux-3.2.6-bfs/block/deadline-iosched.c:243-325 | each call lowers the bound of an expired request or dispatches it |
| `DeadlineElevator.MergedNears` | linux-3.2.6-bfs/block/deadline-iosched.c:168-187 | no merge pushes a third request, or the surviving one, back |
| `DeadlineElevator.AbsorbedKeepsPlace` | linux-3.2.6-bfs/block/deadline-iosched.c:168-187 | a request merged into another keeps its place in line if and only if it expired earlier or the other was at most one place behind it |
| `DeadlineElevator.CallsBound` | linux-3.2.6-bfs/block/deadline-iosched.c:20-24 | the sharper bound never exceeds (k+1) times (writes_starved+1) times fifo_batch |
| `DeadlineElevator.LeavesOnlyBy` | linux-3.2.6-bfs/block/deadline-iosched.c:168-220 | a request leaves only by dispatch or by being merged into another |
| `DeadlineElevator.DispatchedUnlessMerged` | linux-3.2.6-bfs/block/deadline-iosched.c:243-325 | an expired request with k ahead of it that is not merged into another is itself dispatched within (k+1)(writes_starved+1)fifo_batch calls of any run |
| `DeadlineElevator.NextSpends` | linux-3.2.6-bfs/block/deadline-iosched.c:168-325 | no insert or merge raises the bound for the data of an expired request, a merge hands the data to a request that expires no later, and each dispatch call returns its holder or lowers the bound |
| `DeadlineElevator.BoundedStarvation` | linux-3.2.6-bfs/block/deadline-iosched.c:243-325 | when a request has expired and k others of its direction expire no later, the request that holds its data after any merges is dispatched within (k+1)(writes_starved+1)fifo_batch dispatch calls of any run |
| `DeadlineElevator.RivalsSplit` | linux-3.2.6-bfs/block/deadline-iosched.c:168-187 | those k others are the ones ahead of the request in its FIFO and the ones behind it that expire at the same time |
| `DeadlineElevator.NoTiesNoLoss` | linux-3.2.6-bfs/block/deadline-iosched.c:168-187 | with no tie behind it, merges cost a request nothing: its data keeps the bound of the request itself |
| `DeadlineElevator.TieBreaksBound` | linux-3.2.6-bfs/block/deadline-iosched.c:168-187 | a concrete run in which a request is merged into a later tie and its data is not dispatched within the bound of the request itself |
| `DeadlineElevator.DeadlineData.AddRequest` | linux-3.2.6-bfs/block/deadline-iosched.c:98-111 | the insert, with the request expiring the time of its direction from now |
| `DeadlineElevator.DeadlineData.RemoveRequest` | linux-3.2.6-bfs/block/deadline-iosched.c:84-122 | removes exactly that request from consistent FIFO and sort list, which stay consistent, and no batch goes on from it |
| `DeadlineElevator.DeadlineData.MergedRequest` | linux-3.2.6-bfs/block/deadline-iosched.c:154-166 | the repositioning |
| `DeadlineElevator.DeadlineData.MergedRequests` | linux-3.2.6-bfs/block/deadline-iosched.c:168-187 | the merge of two requests |
| `DeadlineElevator.DeadlineData.MoveRequest` | linux-3.2.6-bfs/block/deadline-iosched.c:204-220 | the request leaves consistent lists, which stay consistent, and the batch goes on from its successor in sector order |
| `DeadlineElevator.DeadlineData.DispatchRequests` | linux-3.2.6-bfs/block/deadline-iosched.c:243-325 | the dispatch call |
| `PartialCompletion.CompletedDrops` | linux-3.2.6-bfs/block/blk-core.c:2117-2195 | exactly the first min(n, total) bytes of the stream are dropped |
| `PartialCompletion.CompletedEnds` | linux-3.2.6-bfs/block/blk-core.c:2117-2167 | with data in every bio, exactly the bios whose last byte is done end, in order, with the right error, and only the first one left changes |
| `PartialCompletion.SectorTracks` | linux-3.2.6-bfs/block/blk-core.c:2170-2197 | while something is left the request's sector advances by the whole sectors of the bytes dropped |
| `PartialCompletion.AdvancedTracks` | linux-3.2.6-bfs/block/blk-core.c:2131-2167 | a bio cut short loses exactly those bytes and advances by their whole sectors |
| `PartialCompletion.ComposesExactly` | linux-3.2.6-bfs/block/blk-core.c:2117-2195 | two completions in a row end the same bios and leave the same content as one if and only if the second is not empty, or the first does not end exactly with a bio that is followed by one without data |
| `PartialCompletion.ComposesWithData` | linux-3.2.6-bfs/block/blk-core.c:2117-2195 | with data in every bio any two completions in a row equal one |
| `PartialCompletion.LeavesOff` | linux-3.2.6-bfs/block/blk-core.c:2117-2127 | whether a completion leaves nothing, or leaves off before a bio without data, told from sizes alone |
| `PartialCompletion.EmptyBioBreaksComposition` | linux-3.2.6-bfs/block/blk-core.c:2118-2127 | a concrete request for which they differ |
| `PartialCompletion.SectorsExactly` | linux-3.2.6-bfs/block/blk-core.c:2195-2197 | the request's sector is the same after two updates as after one if and only if the first finishes the request or the second adds nothing, or the second finishes it and the first made up no sector, or neither finishes it and the byte remainders stay below a sector |
| `PartialCompletion.Request.EndBios` | linux-3.2.6-bfs/block/blk-core.c:2117-2167 | the loop ends the specified bios, never runs past the vectors of a bio and stops at the right byte |
| `PartialCompletion.Request.Update` | linux-3.2.6-bfs/block/blk-core.c:2070-2218 | leaves the specified request, hands nothing back for a flush sequence, and never finds the request botched |
| `ElevatorCore.EnteredKeeps` | linux-3.2.6-bfs/block/elevator.c:689-698 | a sorted insert keeps the merge index, adds just that request and caches it if there is no cached one |
| `ElevatorCore.RefusedKeeps` | linux-3.2.6-bfs/block/blk-merge.c:221-226 | marking a request unmergeable keeps it, changes nothing else of any request, and uncaches just that one |
| `ElevatorCore.BackMergedKeeps` | linux-3.2.6-bfs/block/elevator.c:547-558 | a back merge rehashes the request under its new end sector |
| `ElevatorCore.FrontMergedKeeps` | linux-3.2.6-bfs/block/elevator.c:547-558 | a front merge leaves the end sector, and so the hash, as it is |
| `ElevatorCore.JoinedKeeps` | linux-3.2.6-bfs/block/elevator.c:560-577 | a merge of two requests keeps the index and the cache |
| `ElevatorCore.BackMergedFound` | linux-3.2.6-bfs/block/elevator.c:323-349 | after a back merge the request reaches further by just the new sectors, and a lookup at its new end finds it |
| `ElevatorCore.FrontMergedSpans` | linux-3.2.6-bfs/block/elevator.c:547-558 | after a front merge it starts earlier by just the new sectors and ends where it did |
| `ElevatorCore.JoinedFound` | linux-3.2.6-bfs/block/elevator.c:560-577 | a merge of two adjacent requests covers both, and a lookup at the end of the second finds the first |
| `ElevatorCore.RunConserves` | linux-3.2.6-bfs/block/elevator.c:547-577 | in every run the sectors in the elevator are those inserted and merged in less those dispatched |
| `ElevatorCore.DispatchedKeeps` | linux-3.2.6-bfs/block/elevator.c:409-466 | a dispatched request leaves index and cache, and no other does |
| `ElevatorCore.FindIsScan` | linux-3.2.6-bfs/block/elevator.c:329-349 | a lookup finds a mergeable request ending at the sector if and only if a plain scan of the elevator would, and drops only unmergeable entries |
| `ElevatorCore.RunIndexed` | linux-3.2.6-bfs/block/elevator.c:304-577 | after every run lookup is a plain scan, the cache is null or queued, and the count is right |
| `ElevatorCore.SortedKeeps` | linux-3.2.6-bfs/block/elevator.c:409-446 | a sorted insert moves no other entry, passes only requests of its own kind that are neither barriers nor started, and keeps one-way elevator order |
| `ElevatorCore.StretchInOrder` | linux-3.2.6-bfs/block/elevator.c:421-443 | within a stretch any two entries are in one-way elevator order |
| `ElevatorCore.StretchSweeps` | linux-3.2.6-bfs/block/elevator.c:421-443 | within a stretch the head sweeps up from the boundary and then up from the bottom to it |
| `ElevatorCore.SortAllInOrder` | linux-3.2.6-bfs/block/elevator.c:409-446 | so any sequence of sorted inserts yields ordered stretches of exactly the inserted requests |
| `ElevatorCore.WalkBucket` | linux-3.2.6-bfs/block/elevator.c:329-349 | the walk along a bucket |
| `ElevatorCore.RequestQueue.AddSorted` | linux-3.2.6-bfs/block/elevator.c:689-698 | the sorted insert |
| `ElevatorCore.RequestQueue.HashFind` | linux-3.2.6-bfs/block/elevator.c:329-349 | the lookup, and that it finds something exactly if a plain scan would |
| `ElevatorCore.RequestQueue.MergedBack` | linux-3.2.6-bfs/block/elevator.c:547-558 | the back merge |
| `ElevatorCore.RequestQueue.MergedFront` | linux-3.2.6-bfs/block/elevator.c:547-558 | the front merge |
| `ElevatorCore.RequestQueue.RefuseMerge` | linux-3.2.6-bfs/block/blk-merge.c:221-226 | the refusal |
| `ElevatorCore.RequestQueue.MergeRequests` | linux-3.2.6-bfs/block/elevator.c:560-577 | the merge of two requests |
| `ElevatorCore.RequestQueue.FindSortPoint` | linux-3.2.6-bfs/block/elevator.c:421-443 | the backward scan |
| `ElevatorCore.RequestQueue.DispatchSort` | linux-3.2.6-bfs/block/elevator.c:409-446 | the sorted dispatch |
| `ElevatorCore.RequestQueue.DispatchAddTail` | linux-3.2.6-bfs/block/elevator.c:454-466 | the dispatch to the tail |

## Left out

- CfqMerge.RunCounts: a run ends where `cfq_setup_merge` would follow a freed queue, which happens only after a raced call (RunMergesSafely).
- CfqMerge.CfqData.SetupMerge: asks for two different queues; the search for cooperating queues returns only queues with pending requests, and the active queue has none then.
- ThrottleSlice.IopsWaitSuffices: asks that the ios of the slice fit their 32-bit counter, because beyond it the source compares a wrapped count.
- ThrottleSlice.RateBound: products and counters are unbounded, so the 64-bit and 32-bit wrap-around of the source is not modelled; limits are fixed during a run.
- ThrottleRate.RateReached: one limit at a time, a bio always waiting and retried exactly when told, and for an iops limit a slice's ios fit their 32-bit counter.
- FlushSequence.RunTimely: a flush is never overdue at the end of a step; between steps nothing runs, because the source arms no timer.
- FlushSequence.RunIsLawful: a request with neither PREFLUSH nor POSTFLUSH is recorded when it is handed over and not followed further, because the sequencer does not follow it either.
- FlushSequence.RequestQueue.InsertFlush: asks for a policy without two flushes and no data, as the header of blk-flush.c promises; ProperExactly says why.
- Segments.HistoryFits: bios carry data; DMA drain, padding and integrity segments are not modelled, and neither is the recount after a partial completion.
- Segments.HistoryTallied: bios that are not whole sectors may carry two parts of a sector past `max_sectors`, because the source counts whole sectors; a request that is still its first bio is not held to the limit.
- PartialCompletion.CompletedEnds: stated for bios that carry data; ComposesExactly says what happens otherwise.
- PartialCompletion.Request.Update: failfast flags, statistics and the recount of segments are not modelled.
- Runqueue.ScheduleKeeps: a worker woken from inside `schedule` is one of that CPU, as `wq_worker_sleeping` promises, or one that does not run (WakeLocalExact); clocks and time slices are inputs, so how a deadline arises is not modelled.
- Runqueue.SetPrioKeeps: priority and policy changes are for tasks other than idle tasks.
- Runqueue.ScheduleSleeps: like ScheduleExits and SchedulePasses, stated for a current task other than the idle task; ScheduleKeeps and ScheduleIdles cover idle ones.
- IdleInjection.ForcedExactly: the pass counter is unbounded, so its wrap-around is not modelled.
- Completion.RunKeeps: a completion's token count is unbounded, so its wrap-around after repeated complete_all is not modelled.
- Completion.EverybodySucceeds: counts every step after `complete_all`, also those that take no token.
- DeadlineElevator.BoundedStarvation: the settings do not change during a run.
- ElevatorCore.SortedKeeps: the boundary sector is fixed; a change of it starts a new order.
- Slices of a throttled direction, bios in a request and the lists of an elevator are values held in a field: what is updated in place is that field, and aliasing between such structures is not captured.
- Freeing of tasks, CPU hotplug, scheduling domains, the niffies clock, tick accounting, preemption of remote CPUs and all of the system-call layer of the scheduler.
- CFQ heuristics (think time, seek history, slices), cgroup changes, async and out-of-memory queues.
- blk_abort_flushes, limit changes and draining of throttled groups, jiffies wrap-around, discard merges.
- Placement of flush-sequence requests on the dispatch queue: the model records that they were sent, not where they were put.
- Balancing of red-black trees: trees are sorted sequences.
- Tag maps, queue settings, the no-op scheduler, cgroup and sysfs code: they would only add easier members.
