# Verified models of the block layer and of three parts of the crypto layer

This project models parts of a Linux 2.6.32 kernel in Dafny and proves what they are relied on for. Each
critical section under the queue lock is one step; sectors, sizes and request identities are unbounded
integers unless a module says otherwise; lists and red-black trees are sequences.

- **Barriers** (`BarrierModel`, `BarrierInvariant`, `BarrierSafety`, `BarrierPlan`, `BarrierReports`,
  `BarrierUnsupported`, `BarrierColour`, `BarrierQueue`, `QueueOrder`, with `DispatchSort`): the
  ordered sequence of drain, preflush, bar and postflush as a state machine over submissions, fetches,
  starts, completions with and without errors and requeues, on top of the noop scheduler. The queue
  tells requests of different barriers apart by one colour bit; the invariant keeps the number of
  barriers before each request (its epoch) beside it and shows that the bit is enough exactly as long
  as only file system requests carry the barrier flag. Proved for every such run: safety, the commands
  each barrier is carried out with and the error it reports, conservation of requests, and progress;
  and, for queues without ordering support, that barriers are refused and nothing else.
- **Segments** (`Segments`, `RequestMerge`, `RequestObject`): a request carries a segment count that
  is kept up to date through merges and recounts by one rule and consumed by a mapping pass with
  another. A count is *accurate* if a valid partition into that many segments exists whose first and
  last sizes are bounded by the size fields; every operation keeps that, and both passes are optimal.
  Merges are made exactly within the limits of the queue.
- **Schedulers** (`AsNext`, `Deadline`, `DeadlineDispatch`, `DeadlineTight`, `DeadlineExpiry`,
  `DeadlineStarved`, `DeadlineScheduler`, `ServiceTree`, `CfqQueue`, `CfqChoice`, `CfqNeighbours`,
  `Cfq`, `ThinkTime`, with `SortTree`): the cached next request of the anticipatory scheduler is a
  global minimum; the two indexes of the deadline scheduler agree, writes starve only so long, a bound
  that is attained, and an expired request waits only so many dispatches; CFQ's forced dispatch
  empties everything; the decaying averages are bounded.
- **Merge hash, completion and tags** (`MergeHash`, `Completion`, `CompletionErrors`, `Tags`).
- **Crypto** (`SpawnRemoval`, `Cbc`, `CbcLoops`, `NameScanner`, `NameGrammar`, `NameNumber`): removing
  an algorithm removes exactly its transitive dependents; the CBC loops compute the mode of section
  6.2 of NIST SP 800-38A; the name scanner inverts the printed names and accepts exactly a given
  grammar.

Where the source updates things in place the model is a class or a method with loops, proved against a
function on values, and the results are proved about that function and over its runs.

Some promises do not hold as one would like. Each has an input that shows it and the exact condition.

- Any request with `REQ_HARDBARRIER` toggles the colour of the queue, but only file system requests
  are carried out as barriers. A packet command with the flag, such as `drivers/block/pktcdvd.c`
  submits, lets a later write pass an earlier barrier and fires a warning (`BarrierColour.StrayFlag`).
  Every run is safe exactly if callers keep the flag off other requests
  (`BarrierColour.ExactlyHonest`).
- Completing a request in two parts and at once agree in the bytes, the bios ended and the length, but
  the sectors agree only if the two byte counts carry no sector between them (`Completion.RestTwice`,
  `Completion.SectorTwice`, `Completion.CarryExample`).
- After a dispatch the anticipatory scheduler's cache is the best request exactly if, seen from where
  the dispatched request ends, the request behind it is taken before those behind that
  (`AsNext.DispatchExact`). Requests that do not overlap always meet this; overlapping ones need not
  (`AsNext.ApartBehind`, `AsNext.OverlapMisleads`).
- CFQ looks at the neighbours too. In a queue of one kind of request this finds the best one exactly
  under a condition on the two requests on either side, for every position of the head; if the head is
  elsewhere or kinds are mixed it need not (`CfqNeighbours.NeighboursExact`,
  `CfqNeighbours.HeadMisleads`, `CfqNeighbours.KindsMislead`).
- A front merge can leave the anticipatory scheduler's cache empty although a request is queued, and a
  forced dispatch then leaves the request behind (`AsNext.FrontMergeNext`, `AsNext.FrontMergeStrands`,
  `AsNext.StrandedExample`).
- Growing an unshared tag map copies the old one past the end of the new one exactly if the old depth
  is more than twice the number of requests (`Tags.OverrunIff`, `Tags.LoweredOverruns`).
- `writes_starved` is compared as unsigned: a negative value is a starvation bound of up to 2^32
  batches, and that many reads can pass (`DeadlineDispatch.PatienceIs`,
  `DeadlineTight.BoundAttained`).
- An expired read waits for at most the rest of a batch and one batch of writes exactly if
  `writes_starved` is not zero; with zero there is no bound (`DeadlineExpiry.OverdueReadBound`,
  `DeadlineStarved.ReadsWaitForever`).
- A numeric argument of an algorithm name is cut short if it begins with a zero and has a digit 8 or 9
  (`NameNumber.ReadsTheArgument`, `NameNumber.LeadingZero`).

`Lists` holds facts about sequences without repetitions, `Options` the type of what may be missing.

## Model

| member | source | states |
|---|---|---|
| `DispatchSort.InsertAt` | kernel/block/elevator.c:430-452 | everything behind the insertion point is overtaken, and the entry just before it is not |
| `DispatchSort.StaysInRun` | kernel/block/elevator.c:435-440 | an insertion passes entries of its own direction and discard kind only, and none with a barrier or started flag |
| `DispatchSort.InsertKeepsOrder` | kernel/block/elevator.c:417-453 | the compatible tail stays in one-way elevator order around the boundary, and the new request stands behind exactly those of its run that it does not strictly precede (stability) |
| `DispatchSort.SameRun` | kernel/block/elevator.c:435-438 | requests of one direction and discard kind belong to the same run |
| `DispatchSort.TailStaysInOrder` | kernel/block/elevator.c:417-453 | whatever is inserted, the last run of the queue stays in elevator order |
| `DispatchSort.Scan` | kernel/block/elevator.c:432-452 | the backward loop finds the insertion point |
| `BarrierModel.DrainElevator` | kernel/block/elevator.c:556-568 | draining empties the scheduler and touches nothing but the dispatch queue |
| `BarrierModel.GoneShrinks` | kernel/block/blk.h:54-68 | a false answer of blk_do_ordered takes exactly the head request away, so the fetch loop ends |
| `BarrierModel.RequeueAt` | kernel/block/elevator.c:669-677 | a requeued request goes to the first place whose step is not before its own |
| `BarrierInvariant.UnflaggedTail` | kernel/block/elevator.c:417-453 | sorted insertion never crosses a barrier: an unflagged tail of the queue is of the current epoch |
| `BarrierInvariant.PendingBarrier` | kernel/block/blk-barrier.c:235-279 | every barrier submitted after the running one waits in the dispatch queue |
| `BarrierInvariant.HeadLate` | kernel/block/blk-barrier.c:62-89 | in a state of the invariant, where the colour is the parity of the epoch: a later file system request at the head is ranked behind the whole sequence |
| `BarrierInvariant.EarlyIsOfEpoch` | kernel/block/blk-barrier.c:62-89 | an unfinished earlier request is of the epoch being drained, is ranked as drain, and the drain bit is still open |
| `BarrierInvariant.RequeueRq` | kernel/block/elevator.c:539-554 | a submitted request that is given back goes to the very front, ahead of everything of its epoch |
| `BarrierInvariant.OnlySpecialsAhead` | kernel/block/elevator.c:669-677 | a proxy that is given back has only special requests ahead of it |
| `BarrierInvariant.DrainKeeps` | kernel/block/elevator.c:556-568 | draining the scheduler keeps the invariant |
| `BarrierInvariant.SubmitKeeps` | kernel/block/elevator.c:695-730 | submitting a request keeps the invariant exactly if REQ_HARDBARRIER is not set on a request that is not of the file system |
| `BarrierInvariant.StartKeeps` | kernel/block/blk-core.c:1849-1872 | dequeueing a fetched request keeps the invariant |
| `BarrierInvariant.RequeueKeeps` | kernel/block/elevator.c:539-554 | giving a request back keeps the invariant |
| `BarrierSafety.BeginKeeps` | kernel/block/blk-barrier.c:153-233 | starting a sequence (proxies stacked, steps skipped) keeps the invariant |
| `BarrierSafety.AtOnceKeeps` | kernel/block/blk-barrier.c:153-233 | a sequence whose steps are all skipped ends at once and keeps the invariant |
| `BarrierSafety.HeadCleared` | kernel/block/blk-barrier.c:235-279 | what blk_do_ordered lets through outside a sequence has no unfinished barrier before it |
| `BarrierSafety.DoOrderedKeeps` | kernel/block/blk-barrier.c:235-279 | blk_do_ordered keeps the invariant on every path |
| `BarrierSafety.PeekKeeps` | kernel/block/blk-core.c:1765-1846 | fetching, with its loop over gone requests and scheduler dispatches, keeps the invariant |
| `BarrierSafety.DrainIsOver` | kernel/block/elevator.c:823-853 | when the last request in flight ends and the head is behind the drain, every earlier request has ended |
| `BarrierSafety.CompleteRqKeeps` | kernel/block/elevator.c:823-853 | completing a request, with or without error, keeps the invariant |
| `BarrierSafety.CompleteProxyKeeps` | kernel/block/blk-barrier.c:91-129 | completing a proxy, with or without error, keeps the invariant |
| `BarrierSafety.StepKeeps` | kernel/block/blk-barrier.c:91-279 | every step of the protocol that does not put REQ_HARDBARRIER on a request that is not of the file system keeps the invariant |
| `BarrierSafety.RunInv` | kernel/block/blk-barrier.c:91-279 | every state of every run without such a flag satisfies the invariant |
| `BarrierSafety.NoBugFires` | kernel/block/blk-barrier.c:91-279 | in no run without a stray REQ_HARDBARRIER does the BUG_ON of the sequence or the WARN_ON on the head fire, a step bit get set twice or a request end twice |
| `BarrierSafety.TakenIsSafe` | kernel/block/blk-barrier.c:235-279 | whatever the driver has or may start respects every barrier |
| `BarrierSafety.PeekIsSafe` | kernel/block/blk.h:54-68 | the request a fetch returns respects every barrier |
| `BarrierSafety.HandOutsAreSafe` | kernel/block/blk-barrier.c:153-279 | in every run without a stray REQ_HARDBARRIER, a file system request is handed out only after all barriers before it have ended, and a proxy only after all requests before its barrier have ended and exactly the proxies planned before it have completed; errors, requeues and several queued barriers included |
| `BarrierSafety.DriverIsSafe` | kernel/block/blk-barrier.c:153-279 | the same of everything the driver holds, at any point of any run |
| `BarrierSafety.BarrierOutcome` | kernel/block/blk-barrier.c:91-129 | in such a run every ended barrier went through its planned proxies once each, in order, and carries the first non-zero error among them; which proxies these are, BarrierPlan.BarrierCommands says |
| `BarrierSafety.EndedForGood` | kernel/block/blk-barrier.c:91-111 | in such a run what has ended never ends again nor changes its error |
| `BarrierSafety.NothingIsLost` | kernel/block/elevator.c:598-693 | in such a run every request ever submitted is in exactly one place |
| `BarrierSafety.NoStall` | kernel/block/blk-barrier.c:235-279 | if the driver has nothing and is given nothing, no request is queued and no sequence is running |
| `BarrierSafety.FetchMakesProgress` | kernel/block/blk.h:54-68 | in such a run, a driver that has given everything back and is given nothing has seen every request end |
| `BarrierPlan.PlanAsked` | kernel/block/blk-barrier.c:158-219 | the plan of a barrier has exactly the flush before, the data and the flush after that its mode and its size ask for, in this order |
| `BarrierPlan.BarrierCommands` | kernel/block/blk-barrier.c:158-219 | in such a run every ended barrier was carried out with a flush before it exactly if the mode has one, its data exactly if it has any and the mode writes them, and a flush after exactly if it has data and the mode has one; each once and in this order |
| `BarrierPlan.BarrierError` | kernel/block/blk-barrier.c:91-111 | it ends without error exactly if all its commands did, and otherwise with the first failure |
| `BarrierPlan.CommandsInTurn` | kernel/block/blk-barrier.c:187-219 | in such a run the data of a barrier reach the driver only after its first flush has completed, whenever the mode has one, and the second flush only after the data |
| `BarrierReports.CommandReported` | kernel/block/blk-barrier.c:113-129 | in such a run what the driver reports for a command stays on record for the barrier it belongs to |
| `BarrierReports.FailureIsReported` | kernel/block/blk-barrier.c:91-129 | so that no failure of a command is lost |
| `BarrierReports.FailureHasCause` | kernel/block/blk-barrier.c:91-129 | and a barrier that fails reports an error that the driver gave for a command |
| `BarrierReports.RequestOutcome` | kernel/block/blk-core.c:2085-2150 | in such a run a request that the driver completes has for good the error it was completed with |
| `BarrierUnsupported.HeadRefused` | kernel/block/blk-barrier.c:244-255 | without ordering support a barrier at the head ends with -EOPNOTSUPP and the fetch goes on |
| `BarrierUnsupported.FetchRefuses` | kernel/block/blk.h:54-68 | a fetch passes over the barriers it ends, never returns one, and returns nothing only if nothing is queued |
| `BarrierUnsupported.BarriersAreRefused` | kernel/block/blk-barrier.c:244-255 | in every run without ordering support, whatever flags are set, no assertion fails, the driver sees neither a barrier nor a proxy, and every barrier that has ended did so with -EOPNOTSUPP |
| `BarrierUnsupported.NothingWaits` | kernel/block/blk-barrier.c:244-255 | and after a fetch that gives nothing, every barrier has ended so and every other request is with the driver or has ended |
| `QueueOrder.SubmitRecords` | kernel/block/elevator.c:695-706 | a request is recorded as submitted, with the current colour, and no other is changed |
| `QueueOrder.SortedExactly` | kernel/block/elevator.c:708-728 | a request goes to the scheduler exactly if that was asked for, it has no barrier flag and it has scheduler data |
| `QueueOrder.SubmitEnds` | kernel/block/elevator.c:598-648 | there it goes behind all others; otherwise it goes to the very front of the queue or, after all that the scheduler had, to its very end |
| `QueueOrder.SubmitBoundary` | kernel/block/elevator.c:714-722 | the boundary moves to the end of a file system request with a barrier flag, and waits for it; others leave it |
| `QueueOrder.PeekBoundary` | kernel/block/blk-core.c:1789-1792 | a fetch moves the boundary to the end of the request unless the boundary waits for another one |
| `QueueOrder.PeekProxyBoundary` | kernel/block/blk-core.c:1789-1792 | a fetched bar counts as its barrier, and a flush has no place |
| `QueueOrder.BoundaryWaits` | kernel/block/elevator.c:714-722 | in every run the boundary, while it waits for a request, is the end of that request |
| `QueueOrder.DispatchPlace` | kernel/block/elevator.c:417-453 | what the scheduler hands over is put behind the last entry that it may not pass: one with a flag, of another direction or discard kind, or earlier in the sweep from the boundary |
| `QueueOrder.FirstInFirstOut` | kernel/block/noop-iosched.c:20-40 | in every run the scheduler holds its requests in the order in which they were submitted |
| `BarrierInvariant.TableGrows` | kernel/block/elevator.c:698-706 | a new request gets the current colour; the colour stays the parity of the number of barriers exactly if the flag is not stray |
| `BarrierColour.HonestRunIsSafe` | kernel/block/blk-barrier.c:153-279 | a run without a stray flag fails no assertion and hands out nothing ahead of a barrier |
| `BarrierColour.StrayFlag` | kernel/block/elevator.c:701-706 | one packet command with REQ_HARDBARRIER between a barrier and a write, in a run from the empty queue, makes the WARN_ON fire and hands out the write before the barrier has ended |
| `BarrierColour.ExactlyHonest` | kernel/block/elevator.c:701-706 | of callers that submit barriers and file system requests every run is safe exactly if they put the flag on no other request |
| `BarrierQueue.RequestQueue.constructor` | kernel/block/elevator.c:247-294 | an empty queue |
| `BarrierQueue.StackChain` | kernel/block/blk-barrier.c:187-219 | stacking the proxies last first gives the planned queue |
| `BarrierQueue.RequestQueue.FinishSteps` | kernel/block/blk-barrier.c:91-111 | the step bits, the first error and the end of the sequence are those of the model; the result says whether the sequence is over |
| `BarrierQueue.RequestQueue.EndSequence` | kernel/block/blk-barrier.c:104-110 | the original barrier ends with the first error |
| `BarrierQueue.RequestQueue.CompletedRequest` | kernel/block/elevator.c:823-853 | the accounting and the end of a drain are those of the model |
| `BarrierQueue.RequestQueue.BeginSequence` | kernel/block/blk-barrier.c:153-233 | the new state, the answer and the request are those of the model, whose commands BarrierPlan.PlanAsked pins to the mode and the size of the barrier |
| `BarrierQueue.RequestQueue.StackProxies` | kernel/block/blk-barrier.c:193-219 | the proxies asked for are stacked, the first of them is returned and the bits of the others are skipped |
| `BarrierQueue.RequestQueue.DequeueHead` | kernel/block/blk-core.c:1849-1872 | the head goes, and is counted in flight exactly if it is accounted |
| `BarrierQueue.RequestQueue.TakeBarrier` | kernel/block/blk-barrier.c:158-184 | the barrier is dequeued and stashed, and the sequence entered |
| `BarrierQueue.RequestQueue.CheckHead` | kernel/block/blk-barrier.c:235-279 | the new state and the answer are those of the model, on every path |
| `BarrierQueue.RequestQueue.Dispatch` | kernel/block/noop-iosched.c:20-32 | the first request of the scheduler is sorted into the queue |
| `BarrierQueue.RequestQueue.DrainScheduler` | kernel/block/elevator.c:556-568 | the loop is the drain of the model |
| `BarrierQueue.RequestQueue.FetchLoop` | kernel/block/blk.h:54-68 | the loop is the fetch of the model |
| `BarrierQueue.RequestQueue.PeekRequest` | kernel/block/blk-core.c:1765-1846 | the fetch of the model; with the invariant, every request returned respects every barrier |
| `BarrierQueue.RequestQueue.StartRequest` | kernel/block/blk-core.c:1888-1901 | the start of the model |
| `BarrierQueue.RequestQueue.EndIo` | kernel/block/blk-barrier.c:113-129 | the completion of the model, for requests and proxies |
| `BarrierQueue.RequestQueue.RequeueRequest` | kernel/block/elevator.c:539-554 | the requeue of the model |
| `BarrierQueue.RequestQueue.FindPlace` | kernel/block/elevator.c:671-675 | the scan finds the first place in sequence order |
| `BarrierQueue.RequestQueue.AddRequest` | kernel/block/elevator.c:695-730 | the submission of the model: boundary, colour toggling for any request with the flag, draining for a back insertion |
| `BarrierQueue.RequestQueue.InsertRequest` | kernel/block/elevator.c:598-648 | the insertion of the model at the front, at the back after a drain, or into the scheduler |
| `Segments.SegsPartition` | kernel/block/blk-merge.c:12-171 | both passes cut the bvecs into segments of a single bvec, or of several whose neighbours are contiguous and pass the boundary test and that are together within the maximum size |
| `Segments.GreedyOptimal` | kernel/block/blk-merge.c:118-171 | neither pass is ever worse than a valid partition of the same bvecs; for the counting pass, than one that keeps bounce pages apart |
| `Segments.SegsApart` | kernel/block/blk-merge.c:35-59 | the counting pass keeps every page that may be bounced in a segment of its own |
| `Segments.CountSuffices` | kernel/block/blk-merge.c:118-171 | a count that has a witness partition bounds the number of scatter entries |
| `Segments.SideBySide` | kernel/block/blk-merge.c:203-223 | adding the counts of two lists leaves an accurate count |
| `Segments.Joined` | kernel/block/blk-merge.c:295-301 | one segment fewer is accurate if the last and first segments join within the limits, with the joined size at the ends of a single segment |
| `Segments.SingleSegment` | kernel/block/blk-merge.c:296-299 | the size of a single segment bounds both its ends |
| `Segments.SegmentIsRun` | kernel/block/blk-merge.c:118-171 | a valid segment is one run of physical bytes |
| `Segments.OneWindow` | kernel/block/blk-merge.c:118-171 | every byte of a segment of several bvecs lies in one boundary window, although only neighbours are compared |
| `Segments.SameBytes` | kernel/block/blk-merge.c:118-171 | the entries of a valid partition give exactly the bytes of the bvecs, in order |
| `Segments.MappedList` | kernel/block/blk-merge.c:118-171 | the scatter list has the bytes of the request, and every joined pair passes the contiguity, boundary and size tests |
| `RequestMerge.RecalcIsAccurate` | kernel/block/blk-merge.c:12-70 | a recount leaves a count and end sizes that have a witness partition |
| `RequestMerge.RefreshedIsAccurate` | kernel/block/blk-merge.c:77-85 | so does asking a bio for its segments |
| `RequestMerge.NewIsOk` | kernel/block/blk-core.c:2345-2360 | a request built from a bio is accurate |
| `RequestMerge.BackMergeKeeps` | kernel/block/blk-merge.c:225-247 | accurate after a back merge, merged or refused, and exactly the data of the bio is appended; when it is refused, BackMergeExactly says |
| `RequestMerge.FrontMergeKeeps` | kernel/block/blk-merge.c:249-272 | accurate after a front merge, merged or refused, and exactly the data of the bio is prepended; when it is refused, FrontMergeExactly says |
| `RequestMerge.FrontResized` | kernel/block/blk-merge.c:295-307 | the size fields written before the merge is refused do no harm |
| `RequestMerge.MergeRequestsKeeps` | kernel/block/blk-merge.c:274-312 | both requests stay accurate, merged or refused, and exactly the data of the second is appended |
| `RequestMerge.CountPositive` | kernel/block/blk-merge.c:294-300 | a request never counts no segments, so joining two never counts below zero |
| `RequestMerge.BackMergeExactly` | kernel/block/blk-merge.c:203-247 | a back merge succeeds exactly if the request then keeps the sector limit of its kind, the hardware and the physical segment limit; it then has the sum of the sectors and counts, and a refused request is marked as not to be merged |
| `RequestMerge.FrontMergeExactly` | kernel/block/blk-merge.c:203-272 | the same of a front merge |
| `RequestMerge.MergeRequestsExactly` | kernel/block/blk-merge.c:274-312 | two requests are merged exactly if neither is special, their sectors are within the limit and their counts, less one if the ends share a segment, are within both segment limits; the result has the sums |
| `RequestMerge.NewRequestIs` | kernel/block/blk-core.c:2345-2360 | a new request has the bio, its sectors, its count and the kind asked for |
| `RequestMerge.RecalcIsLeast` | kernel/block/blk-merge.c:12-70 | a recount is the least number of valid segments that keep bounce pages apart, and is attained |
| `RequestMerge.RecalcSizes` | kernel/block/blk-merge.c:62-69 | a recount raises the two end sizes to those of the first and last segment and no further, and changes nothing else |
| `RequestObject.RunKeeps` | kernel/block/blk-merge.c:12-312 | in every run over a pool of requests every request stays accurate |
| `RequestObject.RunLimits` | kernel/block/blk-merge.c:203-312 | in every run a bio merge that adds a bio leaves a request within the sector limit of its kind and both segment limits, and one that does not leaves a request that is not to be merged any more |
| `RequestObject.RunJoins` | kernel/block/blk-merge.c:274-312 | in every run two requests that were joined are not special and are together within the limits for file system requests |
| `RequestObject.CountBoundsMapping` | kernel/block/blk-merge.c:118-171 | in every run, every request can be mapped into as many entries as it claims, whatever was merged, refused, recounted or stored |
| `RequestObject.CountBvec` | kernel/block/blk-merge.c:35-59 | one bvec extends the segment or begins one, as in the partition |
| `RequestObject.CountBio` | kernel/block/blk-merge.c:29-60 | the inner loop counts the bvecs of one bio |
| `RequestObject.CountSegments` | kernel/block/blk-merge.c:12-70 | the nested loops compute the count and the end sizes of the greedy partition |
| `RequestObject.MapBios` | kernel/block/blk-merge.c:118-171 | the loop fills exactly the entries of the greedy partition and nothing beyond them |
| `RequestObject.MapBvec` | kernel/block/blk-merge.c:135-169 | one bvec grows the last entry or fills the next |
| `RequestObject.AskSegments` | kernel/block/blk-merge.c:77-85 | a bio with a valid count is left alone, another one is recounted |
| `RequestObject.RequestObject.constructor` | kernel/block/blk-core.c:2345-2360 | an accurate request holding the bio |
| `RequestObject.RequestObject.RecalcSegments` | kernel/block/blk-merge.c:72-75 | the count and sizes of a recount |
| `RequestObject.RequestObject.MapSg` | kernel/block/blk-merge.c:118-171 | given room for the count of the request, at most that many entries are written, and they describe exactly the bytes of the request |
| `RequestObject.RequestObject.BackMergeBio` | kernel/block/blk-merge.c:225-247 | the back merge of the model, whose limits BackMergeExactly states |
| `RequestObject.RequestObject.FrontMergeBio` | kernel/block/blk-merge.c:249-272 | the front merge of the model, whose limits FrontMergeExactly states |
| `RequestObject.RequestObject.MergeNext` | kernel/block/blk-merge.c:274-312 | the request merge of the model, on both requests |
| `SpawnRemoval.ClosedIsAll` | kernel/crypto/algapi.c:131-178 | a closed set of reached spawns is all of them |
| `SpawnRemoval.TakeKeeps` | kernel/crypto/algapi.c:152-168 | moving a spawn from a user list to the stack keeps the traversal invariant |
| `SpawnRemoval.PopKeeps` | kernel/crypto/algapi.c:84-105 | moving the top of the stack to the finished list keeps it |
| `SpawnRemoval.AllVisited` | kernel/crypto/algapi.c:131-178 | at the end exactly the reached spawns have been visited, and the algorithm is not built on itself |
| `SpawnRemoval.ListsAfter` | kernel/crypto/algapi.c:131-178 | the lists of the algorithm and of its dependents are empty, all others as they were |
| `SpawnRemoval.CycleFound` | kernel/crypto/algapi.c:159 | the assertion that stops the traversal is only met if the algorithm is built on itself |
| `SpawnRemoval.Registry.constructor` | kernel/crypto/algapi.c:189 | algorithms nothing is built on |
| `SpawnRemoval.Registry.CollectTop` | kernel/crypto/algapi.c:143-148 | all users are moved off the list of the algorithm |
| `SpawnRemoval.Registry.TakeHead` | kernel/crypto/algapi.c:155-161 | exactly the first spawn is moved |
| `SpawnRemoval.Registry.Descend` | kernel/crypto/algapi.c:152-168 | the inner loop ends at an instance without users, or finds a cycle through the algorithm |
| `SpawnRemoval.Registry.Traverse` | kernel/crypto/algapi.c:150-170 | the traversal ends on every graph; it stops at the assertion exactly if the algorithm depends on itself, and otherwise has unlinked exactly the reached spawns |
| `SpawnRemoval.Registry.RemoveSpawn` | kernel/crypto/algapi.c:107-129 | the instance is dead; it goes on the list and off its template exactly under the three tests; the assertion fails only if it still has users |
| `SpawnRemoval.Registry.RemoveEach` | kernel/crypto/algapi.c:172-177 | the assertion on users never fails, and exactly the instances of the list are dead |
| `SpawnRemoval.Registry.RemoveSpawns` | kernel/crypto/algapi.c:131-178 | exactly the transitive dependents are marked dead and unlinked, each put on the list once; it fails exactly if the algorithm depends on itself |
| `SpawnRemoval.Registry.RemoveAlg` | kernel/crypto/algapi.c:373-385 | false exactly if it is not registered; otherwise the algorithm and its dependents are dead and nothing is built on a dead algorithm |
| `SpawnRemoval.Registry.InitSpawn` | kernel/crypto/algapi.c:520-537 | a spawn is linked exactly if the algorithm is neither dead nor dying, and nothing is ever built on a dead algorithm |
| `SortTree.Lower` | kernel/block/elevator.c:360-381 | the place of a sector in the tree |
| `SortTree.At` | kernel/block/elevator.c:392-409 | the search finds a request that starts at the sector exactly if there is one |
| `SortTree.AddedSorted` | kernel/block/elevator.c:360-381 | adding at a free sector keeps the tree sorted and adds just that request |
| `SortTree.DeletedSorted` | kernel/block/elevator.c:384-389 | deleting keeps it sorted and takes just that request away |
| `AsNext.PrefersIsLinear` | kernel/block/as-iosched.c:293-361 | the choice between two requests is a linear order |
| `AsNext.ChoosesBySector` | kernel/block/as-iosched.c:293-361 | of two requests ahead, or of two behind, the nearer one; of one ahead and one behind, the former exactly if it is not more than twice as far away; one more than 2^20 sectors behind goes last, and of two such the lower one first |
| `AsNext.NeighboursSuffice` | kernel/block/as-iosched.c:368-391 | of the requests left, the choice between the two neighbours and the first is the best of the whole tree |
| `AsNext.NeighboursExact` | kernel/block/as-iosched.c:368-391 | for every tree, the search among the neighbours of a request that starts before the head finds the best of the others exactly if the request behind it is taken before the one behind that, and, when that is far behind the head, all requests are and at most one stands ahead |
| `AsNext.DispatchExact` | kernel/block/as-iosched.c:973-1008 | after any dispatch from any tree, overlapping or not, the cache is the best of all exactly under that condition, seen from where the dispatched request ends |
| `AsNext.ApartBehind` | kernel/block/as-iosched.c:973-1008 | requests that do not overlap meet the condition, whichever is dispatched |
| `AsNext.DispatchKeeps` | kernel/block/as-iosched.c:973-1008 | dispatching any request leaves the cache the best of all |
| `AsNext.RemoveKeeps` | kernel/block/as-iosched.c:898-922 | so does removing one |
| `AsNext.AddKeeps` | kernel/block/as-iosched.c:1186-1212 | so does adding one that overlaps none |
| `AsNext.BackMergeKeeps` | kernel/block/as-iosched.c:1263-1280 | so does a back merge |
| `AsNext.MergeKeeps` | kernel/block/as-iosched.c:1282-1303 | so does merging two requests |
| `AsNext.AddCovers` | kernel/block/as-iosched.c:1186-1212 | a new request is queued with its own start and size, and the others that stay keep theirs |
| `AsNext.BackMergeCovers` | kernel/block/as-iosched.c:1263-1280 | a back merge adds just the sectors behind the request |
| `AsNext.MergeCovers` | kernel/block/as-iosched.c:1282-1303 | merging a request with the one that follows it leaves the same sectors waiting |
| `AsNext.FrontMergeMoves` | kernel/block/as-iosched.c:1263-1280 | a front merge moves the start of the request and keeps its end |
| `AsNext.After` | kernel/block/as-iosched.c:293-391 | after every run on requests that do not overlap, the cached next request is the best of the whole tree, although only neighbours were looked at |
| `AsNext.OverlapMisleads` | kernel/block/as-iosched.c:368-391 | three requests added to an empty scheduler, of which the first overlaps the others: dispatching it leaves a cache that is not the best |
| `AsNext.FrontMergeNext` | kernel/block/as-iosched.c:1263-1280 | a front merge leaves the cache naming a queued request unless it dispatches the alias that was the only other request |
| `AsNext.FrontMergeStrands` | kernel/block/as-iosched.c:1263-1280 | in that case the cache names none, one request is queued and a forced dispatch leaves it there |
| `AsNext.StrandedExample` | kernel/block/as-iosched.c:1263-1280 | two requests added to an empty scheduler and a front merge of ten sectors lead there |
| `AsNext.DrainOrder` | kernel/block/as-iosched.c:1045-1054 | a forced dispatch hands out the requests in the order of the repeated choice |
| `AsNext.DrainEmpties` | kernel/block/as-iosched.c:1045-1054 | and it hands out every request, each once |
| `AsNext.AsData.constructor` | kernel/block/as-iosched.c:1354-1386 | an empty scheduler |
| `AsNext.AsData.RemoveQueuedRequest` | kernel/block/as-iosched.c:898-922 | the removal of the model |
| `AsNext.AsData.MoveToDispatchQueue` | kernel/block/as-iosched.c:973-1008 | the dispatch of the model |
| `AsNext.AsData.AddRqRb` | kernel/block/as-iosched.c:263-271 | the alias loop and the insertion of the model |
| `AsNext.AsData.AddRequest` | kernel/block/as-iosched.c:1186-1212 | the addition of the model |
| `AsNext.AsData.MergedInFront` | kernel/block/as-iosched.c:1263-1280 | the front merge of the model; the cache names a queued request afterwards exactly if no alias was the only other request |
| `AsNext.AsData.MergedRequests` | kernel/block/as-iosched.c:1282-1303 | the request merge of the model |
| `AsNext.AsData.ForcedDispatch` | kernel/block/as-iosched.c:1045-1054 | the loop empties the tree and hands out every request once |
| `Completion.SeekFinds` | kernel/block/blk-core.c:1991-2021 | the search for a byte ends inside a bio_vec, with the right rest behind it |
| `Completion.TrimData` | kernel/block/blk-core.c:2049-2054 | a bio done in part loses exactly its first bytes and stays well formed |
| `Completion.RestData` | kernel/block/blk-core.c:1982-2054 | what is left of the nested list are exactly the bytes after the first ones, and nothing is left exactly if there were no more |
| `Completion.CompletedData` | kernel/block/blk-core.c:1952-2082 | the request stays well formed: its length is the number of bytes left |
| `Completion.EndsAre` | kernel/block/blk-core.c:133-170 | the bios ended followed by the bios left are the bios there were, in order; their errors are those of CompletionErrors.CallErrors |
| `Completion.AfterAll` | kernel/block/blk-core.c:1952-2082 | every run of completions leaves a well-formed request |
| `Completion.RunData` | kernel/block/blk-core.c:1952-2082 | however a request is completed in parts, exactly the sum of the bytes is gone from its front |
| `Completion.RunEnds` | kernel/block/blk-core.c:2036-2044 | it is over exactly when all bytes are done |
| `Completion.RunConserves` | kernel/block/blk-core.c:133-170 | the bios ended so far followed by those left are its bios, in order |
| `Completion.RestTwice` | kernel/block/blk-core.c:1982-2054 | completing in two parts leaves what completing at once leaves; the sector of the bio they stop in differs exactly if the two parts carry a sector |
| `Completion.EndsTwice` | kernel/block/blk-core.c:133-170 | and ends the same bios with the same errors |
| `Completion.CompletedTwice` | kernel/block/blk-core.c:1952-2082 | two completions with one error are one, for the bios ended and the bytes left |
| `Completion.SectorTwice` | kernel/block/blk-core.c:2056-2061 | the request length agrees; the request sector agrees exactly under a condition on the two byte counts |
| `Completion.CarryExample` | kernel/block/blk-core.c:2056-2061 | two completions of 300 bytes of a request of 1024 leave the sector one behind a completion of 600 |
| `Completion.NotBotched` | kernel/block/blk-core.c:2073-2076 | the check for a botched request never fires |
| `CompletionErrors.CallErrors` | kernel/block/blk-core.c:133-170 | a call with an error ends every bio it completes with that error; one without ends it with 0 exactly if it is up to date, and otherwise with -5 |
| `CompletionErrors.RunErrors` | kernel/block/blk-core.c:133-170 | over every run of completions a bio that is up to date at first ends with the error of the call that completes it, if there is one, and otherwise with 0 exactly if no call that did bytes of it had an error, and with -5 if one had |
| `Completion.ReqBioEndio` | kernel/block/blk-core.c:133-170 | a bio ends exactly if all its bytes are done, with the error of the call, or without one with 0 or -5 as it is up to date or not; otherwise it is advanced and a failed one is not up to date any more |
| `Completion.EndBio` | kernel/block/blk-core.c:1985-1990 | the loop goes on behind a bio that is done |
| `Completion.EndVec` | kernel/block/blk-core.c:1991-2021 | the index stays within the bio, and the loop stops exactly where the bytes run out |
| `Completion.ScanBios` | kernel/block/blk-core.c:1982-2031 | the loop ends bios and finds the place exactly as specified, for every nested list |
| `Completion.Advance` | kernel/block/blk-core.c:2049-2054 | the bio is brought up to date as specified |
| `Completion.BlockRequest.UpdateRequest` | kernel/block/blk-core.c:1952-2082 | the completion of the model; false exactly if nothing is left |
| `Deadline.MoveKeeps` | kernel/block/deadline-iosched.c:194-222 | moving a request out keeps tree and FIFO of each direction the same requests, sorted and timed, and the next request queued |
| `Deadline.AddKeeps` | kernel/block/deadline-iosched.c:76-113 | so does adding one, alias or not |
| `Deadline.FrontMergeKeeps` | kernel/block/deadline-iosched.c:156-168 | so does a front merge with its reposition |
| `Deadline.MergeKeeps` | kernel/block/deadline-iosched.c:170-189 | so does merging two requests; the FIFO stays ordered by expiry |
| `DeadlineDispatch.PickIffQueued` | kernel/block/deadline-iosched.c:245-327 | nothing is dispatched exactly if both FIFOs are empty |
| `DeadlineDispatch.DispatchKeeps` | kernel/block/deadline-iosched.c:245-327 | a dispatch keeps the invariant of both directions |
| `DeadlineDispatch.ReadsWear` | kernel/block/deadline-iosched.c:270-279 | a read dispatched past a waiting write wears the patience down |
| `DeadlineDispatch.CountersKept` | kernel/block/deadline-iosched.c:76-189 | adding and merging do not touch the counters |
| `DeadlineDispatch.After` | kernel/block/deadline-iosched.c:76-327 | in every run the two indexes of each direction agree, the FIFO is ordered by expiry, at most one next request is set, and the counters are bounded |
| `DeadlineDispatch.StarvationBound` | kernel/block/deadline-iosched.c:245-327 | while a write waits, no more reads are dispatched than the patience, under any additions and merges |
| `DeadlineDispatch.PatienceIs` | kernel/block/deadline-iosched.c:245-327 | the patience, with what has been used up, is writes_starved batches and one more, where a negative writes_starved counts as unsigned |
| `DeadlineTight.Round` | kernel/block/deadline-iosched.c:245-327 | a read that arrives while a read waits is followed by the dispatch of a read, going on with the batch or beginning one |
| `DeadlineTight.BoundAttained` | kernel/block/deadline-iosched.c:245-327 | for all tunables, negative ones included, a run from the empty scheduler leads to a waiting write that exactly the bound of reads then pass |
| `DeadlineExpiry.DispatchRule` | kernel/block/deadline-iosched.c:245-327 | a dispatch goes on with the batch if there is a next request and the batch is not full; otherwise it takes reads unless there are none or writes have been starved enough, and of the direction the oldest request if it has expired or nothing is next, else the next one; the counters follow |
| `DeadlineExpiry.ExpiredFirst` | kernel/block/deadline-iosched.c:298-309 | if no batch goes on and the oldest request of the chosen direction has expired, it is the one that is dispatched |
| `DeadlineExpiry.NextInSectorOrder` | kernel/block/deadline-iosched.c:194-222 | after a dispatch the next request is the one with the lowest sector above it, of the same direction, and the last sector is its end |
| `DeadlineExpiry.AddExpires` | kernel/block/deadline-iosched.c:100-113 | a request added now is last in its FIFO and expires after the time for its direction |
| `DeadlineExpiry.MergeExpires` | kernel/block/deadline-iosched.c:170-189 | of two merged requests the earlier deadline counts, and the size is the sum |
| `DeadlineExpiry.MergePlace` | kernel/block/deadline-iosched.c:170-189 | an earlier one that goes leaves its place in the FIFO to the one that stays |
| `DeadlineExpiry.MergeNext` | kernel/block/deadline-iosched.c:86-124 | if it was the next one, the one with the lowest sector above it takes over |
| `DeadlineExpiry.FrontMergeMoves` | kernel/block/deadline-iosched.c:156-168 | a front merge moves the start, and keeps the end, the deadline and the place in the FIFO |
| `DeadlineExpiry.BackMergeMoves` | kernel/block/deadline-iosched.c:156-168 | a back merge moves the end only |
| `DeadlineExpiry.BatchTakesOldest` | kernel/block/deadline-iosched.c:298-315 | a dispatch that begins a batch in the direction of an expired oldest request takes that request |
| `DeadlineExpiry.OverdueGoesFirst` | kernel/block/deadline-iosched.c:245-327 | in every run, as long as an expired oldest request stays queued, no batch begins in its direction |
| `DeadlineExpiry.OverdueWriteBound` | kernel/block/deadline-iosched.c:245-327 | in every run, while an expired oldest write stays queued, at most the patience of DeadlineDispatch.PatienceIs is dispatched, whatever is added and merged |
| `DeadlineExpiry.OverdueReadBound` | kernel/block/deadline-iosched.c:245-327 | in every run, while an expired oldest read stays queued, at most the rest of the batch and one batch of writes are dispatched, if writes_starved is not zero |
| `DeadlineStarved.ReadsWaitForever` | kernel/block/deadline-iosched.c:270-279 | if writes_starved is zero there is no such bound: for every number a run from the empty scheduler leads to an expired read that stays while that many requests are dispatched |
| `DeadlineDispatch.DrainEmpties` | kernel/block/elevator.c:556-568 | a forced drain ends with nothing queued |
| `DeadlineDispatch.OrderIsAll` | kernel/block/elevator.c:556-568 | and has handed out every queued request, each once |
| `DeadlineScheduler.DeadlineData.constructor` | kernel/block/deadline-iosched.c:350-368 | an empty scheduler |
| `DeadlineScheduler.DeadlineData.RemoveRequest` | kernel/block/deadline-iosched.c:86-124 | the removal of the model from tree, FIFO and next request |
| `DeadlineScheduler.DeadlineData.MoveOut` | kernel/block/deadline-iosched.c:194-222 | the move of the model |
| `DeadlineScheduler.DeadlineData.AddRqRb` | kernel/block/deadline-iosched.c:76-84 | the alias loop of the model |
| `DeadlineScheduler.DeadlineData.AddRequest` | kernel/block/deadline-iosched.c:100-113 | the addition of the model |
| `DeadlineScheduler.DeadlineData.MergedInFront` | kernel/block/deadline-iosched.c:156-168 | the front merge of the model |
| `DeadlineScheduler.DeadlineData.JoinLane` | kernel/block/deadline-iosched.c:170-189 | an earlier deadline and its place in the FIFO stay with the merged request |
| `DeadlineScheduler.DeadlineData.MergedRequests` | kernel/block/deadline-iosched.c:170-189 | the request merge of the model |
| `DeadlineScheduler.DeadlineData.FindRequest` | kernel/block/deadline-iosched.c:298-315 | the request of the model, which DeadlineExpiry.DispatchRule spells out: the oldest if it has expired or nothing is behind the last one |
| `DeadlineScheduler.DeadlineData.Select` | kernel/block/deadline-iosched.c:245-317 | the direction, the request and the counters are those of the model |
| `DeadlineScheduler.DeadlineData.DispatchRequests` | kernel/block/deadline-iosched.c:245-327 | the dispatch of the model, which DeadlineExpiry.DispatchRule spells out; 0 exactly if nothing was queued |
| `DeadlineScheduler.DeadlineData.DrainElevator` | kernel/block/elevator.c:556-568 | the loop empties the scheduler and hands out every request once |
| `Cbc.EncBlock` | kernel/crypto/cbc.c:42-64 | the blocks of the encryption are those of section 6.2 of NIST SP 800-38A |
| `Cbc.RoundTrip` | kernel/crypto/cbc.c:42-191 | decrypting what was encrypted gives the plaintext back, for every block cipher with an inverse |
| `Cbc.CipherGoesOn` | kernel/crypto/cbc.c:90-112 | encryption goes on with the last ciphertext block as the vector |
| `Cbc.PlainGoesOn` | kernel/crypto/cbc.c:169-191 | and so does decryption |
| `Cbc.EncChunks` | kernel/crypto/cbc.c:90-112 | encrypting chunk by chunk is encrypting at once |
| `Cbc.DecChunks` | kernel/crypto/cbc.c:169-191 | decrypting chunk by chunk is decrypting at once |
| `CbcLoops.XorInto` | kernel/crypto/algapi.c:891-906 | the buffer becomes the exclusive or, four bytes at a time and then the rest, even with both operands in one buffer |
| `CbcLoops.EncryptSegment` | kernel/crypto/cbc.c:42-64 | the output buffer becomes the encryption of all whole blocks, nothing else changes, and the vector is the last block |
| `CbcLoops.EncryptInplace` | kernel/crypto/cbc.c:66-88 | the same in place |
| `CbcLoops.DecryptSegment` | kernel/crypto/cbc.c:114-138 | the output buffer becomes the decryption, and the vector is the last ciphertext block |
| `CbcLoops.DecryptInplace` | kernel/crypto/cbc.c:140-167 | the same in place, from the last block to the first |
| `CbcLoops.EncryptCopied` | kernel/crypto/cbc.c:103-106 | a chunk that the walk has copied is encrypted in place in the copy, with the same result |
| `CbcLoops.DecryptCopied` | kernel/crypto/cbc.c:182-185 | a chunk that the walk has copied is decrypted in place in the copy, with the same result |
| `CbcLoops.Encrypt` | kernel/crypto/cbc.c:90-112 | however the walk cuts the data, and whichever chunks it copies to a page and does there in place, the result is the encryption of the whole |
| `CbcLoops.Decrypt` | kernel/crypto/cbc.c:169-191 | however the walk cuts the data, and whichever chunks it copies to a page and does there in place, the result is the decryption of the whole |
| `ServiceTree.FirstIsFirst` | kernel/block/cfq-iosched.c:426-435 | the leftmost node is the first queue in order |
| `ServiceTree.LinkedOrder` | kernel/block/cfq-iosched.c:534-573 | a queue linked at the end of the descent comes first exactly if the descent never turned right, and the order of the others stays |
| `ServiceTree.ErasedOrder` | kernel/block/cfq-iosched.c:437-448 | erasing keeps the order of the others |
| `CfqQueue.DispatchKeeps` | kernel/block/cfq-iosched.c:1128-1142 | a dispatch keeps the queue: tree and FIFO hold the same requests, the counters are right, a next request is set exactly if there is one, and it is served exactly if it has requests |
| `CfqQueue.RemoveKeeps` | kernel/block/cfq-iosched.c:786-801 | so does a removal |
| `CfqQueue.Evicted` | kernel/block/cfq-iosched.c:715-716 | the alias loop ends with the sector free and the queue in order |
| `CfqQueue.AliasesAre` | kernel/block/cfq-iosched.c:715-716 | what the queue loses is dispatched, each request once |
| `CfqQueue.LinkedKeeps` | kernel/block/cfq-iosched.c:703-734 | linking the request in completes the queue again |
| `CfqChoice.KindsFirst` | kernel/block/cfq-iosched.c:346-354 | a request that is waited for goes before one that is not, and then metadata before data, wherever they are |
| `CfqChoice.SectorsNext` | kernel/block/cfq-iosched.c:356-419 | of two requests of one kind: the nearer one of two ahead or of two behind; of one ahead and one behind, the former exactly if it is not farther than the other times the penalty; one out of reach of a backward seek goes last, and of two such the lower one first |
| `CfqChoice.AddedBest` | kernel/block/cfq-iosched.c:721-726 | and adding a request keeps the best one next |
| `CfqChoice.RemovedNext` | kernel/block/cfq-iosched.c:786-801 | a request that is removed unserved leaves the next one, or is replaced by the better one of its neighbours if it was the next one |
| `CfqNeighbours.NeighboursExact` | kernel/block/cfq-iosched.c:454-475 | in a queue of one kind, for every tree and every position of the head, the better one of the neighbours and the first is the best of the others exactly if each neighbour is chosen before the request behind it, with the cases out of reach of a backward seek spelled out |
| `CfqNeighbours.HeadAtSuffices` | kernel/block/cfq-iosched.c:454-475 | that is so when the head is where the request was and no requests overlap |
| `CfqNeighbours.DispatchedExact` | kernel/block/cfq-iosched.c:1128-1142 | after a dispatch the next request is the best one left exactly under that condition |
| `CfqNeighbours.KindsMislead` | kernel/block/cfq-iosched.c:454-475 | metadata two places away are not found, so that the condition needs one kind |
| `CfqNeighbours.HeadMisleads` | kernel/block/cfq-iosched.c:454-475 | with the default tunables, a request right at the head is not found if the one that goes is elsewhere |
| `CfqQueue.Entered` | kernel/block/cfq-iosched.c:2160-2174 | after an insertion the queue is in order and holds the request |
| `CfqQueue.TakenOut` | kernel/block/cfq-iosched.c:736-741 | a request that is repositioned leaves the tree and keeps its place in the FIFO |
| `Cfq.ServiceLess` | kernel/block/cfq-iosched.c:668-683 | taking a queue off keeps the service tree, the leftmost cache and the number of busy queues in step |
| `Cfq.ServiceMore` | kernel/block/cfq-iosched.c:654-662 | so does putting one on |
| `Cfq.QueuesUpdated` | kernel/block/cfq-iosched.c:703-801 | a change of one queue leaves every queue in order and no request in two of them |
| `Cfq.CfqData.constructor` | kernel/block/cfq-iosched.c:2500-2550 | an empty scheduler |
| `Cfq.CfqData.NewQueue` | kernel/block/cfq-iosched.c:1686-1704 | a new queue has no requests and is not served |
| `Cfq.CfqData.RbFirst` | kernel/block/cfq-iosched.c:426-435 | the first queue in order, cached or not |
| `Cfq.CfqData.RbErase` | kernel/block/cfq-iosched.c:443-448 | exactly this queue leaves the tree, and a cached first is forgotten or still right |
| `Cfq.CfqData.AddCfqqRr` | kernel/block/cfq-iosched.c:492-573 | the queue is put where the descent ends, and the cache is right |
| `Cfq.CfqData.Descend` | kernel/block/cfq-iosched.c:534-565 | the loop knows whether the descent ever turned right |
| `Cfq.CfqData.Resort` | kernel/block/cfq-iosched.c:639-648 | the queue is erased and linked anew, or left where it is if its key has not changed; the others keep their order |
| `Cfq.CfqData.DelRqRb` | kernel/block/cfq-iosched.c:688-701 | the counter and the tree, and the service tree when the last request goes |
| `Cfq.CfqData.RemoveRequest` | kernel/block/cfq-iosched.c:786-801 | the removal of the model |
| `Cfq.CfqData.DispatchInsert` | kernel/block/cfq-iosched.c:1128-1142 | the dispatch of the model; when the next request is then the best one left CfqNeighbours.DispatchedExact says |
| `Cfq.CfqData.EvictAliases` | kernel/block/cfq-iosched.c:715-716 | the loop dispatches exactly the aliases |
| `Cfq.CfqData.AddRqRb` | kernel/block/cfq-iosched.c:703-734 | the alias loop and the link of the model, which keeps the best request next (CfqChoice.AddedBest) |
| `Cfq.CfqData.InsertRequest` | kernel/block/cfq-iosched.c:2160-2174 | everything stays in order, the request is queued and last in the FIFO, exactly what the queue lost was dispatched, and other queues are untouched |
| `Cfq.CfqData.Enqueue` | kernel/block/cfq-iosched.c:703-734 | the request is counted, linked and queued, and exactly what the queue lost was dispatched |
| `Cfq.CfqData.MergedInFront` | kernel/block/cfq-iosched.c:736-741 | the same for a request repositioned after a front merge |
| `Cfq.CfqData.MergedRequests` | kernel/block/cfq-iosched.c:828-842 | the second request goes; if it is the older one, its place in the FIFO goes to the first |
| `Cfq.CfqData.ForcedDispatchCfqq` | kernel/block/cfq-iosched.c:1231-1242 | the queue is emptied and every request of it dispatched once |
| `Cfq.CfqData.ForcedDispatch` | kernel/block/cfq-iosched.c:1248-1262 | it ends with an empty service tree, no busy queue and no queued request, and every request was dispatched exactly once |
| `MergeHash.ListComplete` | kernel/block/elevator.c:334-354 | the list for a sector has every mergeable request that ends there |
| `MergeHash.RepositionHashes` | kernel/block/elevator.c:328-332 | moving a request to the list for its new end keeps the hash right |
| `MergeHash.RemoveHashes` | kernel/block/elevator.c:309-318 | so does taking one out |
| `MergeHash.PruneHashes` | kernel/block/elevator.c:344-347 | so does pruning one that may not be merged |
| `MergeHash.Elevator.constructor` | kernel/block/elevator.c:207-235 | an empty hash |
| `MergeHash.Elevator.Find` | kernel/block/elevator.c:334-354 | it finds a mergeable queued request that ends at the sector exactly if a scan of all requests would |
| `MergeHash.Elevator.InsertSorted` | kernel/block/elevator.c:632-648 | the hash stays right, and the cache takes a first mergeable request |
| `MergeHash.Elevator.BackMerged` | kernel/block/elevator.c:511-522 | the hash follows the new end, and the cache names the request |
| `MergeHash.Elevator.FrontMerged` | kernel/block/elevator.c:511-522 | a front merge leaves the hash right as it is |
| `MergeHash.Elevator.MergedRequests` | kernel/block/elevator.c:524-537 | the hash follows the merged request and loses the other |
| `MergeHash.Elevator.Dispatched` | kernel/block/elevator.c:417-428 | the hash and the counter lose the request, and the cache never names one that is gone |
| `MergeHash.Elevator.Forbid` | kernel/block/blk-merge.c:225-247 | a request that may not grow any more is no longer found nor cached |
| `MergeHash.Elevator.Merge` | kernel/block/elevator.c:476-509 | an answer fits the bio at its end or its front; without one, either no mergeable request ends there or one that does is refused; a cached request that fits comes first, and no other is looked for if merging is off |
| `Tags.FirstFree` | kernel/block/blk-tag.c:366-369 | the lowest clear bit below the depth |
| `Tags.StartKeeps` | kernel/block/blk-tag.c:336-383 | starting keeps bits, slots, tags and busy lists in step |
| `Tags.StartExactly` | kernel/block/blk-tag.c:336-383 | a synchronous request gets a tag exactly if one below the depth is free; an asynchronous one leaves the last two tags alone (the last one of two) and gets none while more of its kind are in flight than it may use; it is the lowest free tag |
| `Tags.EndKeeps` | kernel/block/blk-tag.c:281-315 | ending keeps them in step and frees the tag; no error path is taken |
| `Tags.RequeueFirst` | kernel/block/blk-core.c:947-959 | one turn of the invalidation puts the busy request back at the head and frees its tag |
| `Tags.InvalidateReturnsAll` | kernel/block/blk-tag.c:398-404 | all tags of the queue are free and its busy requests stand at the head in the order they were started; other queues of the map are untouched |
| `Tags.StartKeepsLine` | kernel/block/blk-tag.c:336-383 | started requests followed by waiting ones do not change by a start |
| `Tags.StartRun` | kernel/block/blk-tag.c:336-383 | after any number of starts, with any choice of kinds and loads, everything is in step, the line is as it was and other queues are untouched |
| `Tags.InvalidateUndoes` | kernel/block/blk-tag.c:398-404 | invalidation undoes any number of starts: bits, slots, tags, busy lists and dispatch queues are what they were |
| `Tags.OverrunIff` | kernel/block/blk-tag.c:219-264 | copying the old map runs past the new one exactly if an unshared map is to grow while it holds more than twice the number of requests |
| `Tags.LoweredOverruns` | kernel/block/blk-tag.c:219-264 | a map made for eight requests, whose number has been lowered to four, is such a one |
| `Tags.ResizeKeeps` | kernel/block/blk-tag.c:219-264 | shrinking and growing keep every tag in use whenever the copy does not overrun; a grown map has the depth asked for or twice the number of requests, whichever is less; -EBUSY exactly if a shared map is to grow |
| `Tags.TagMap.constructor` | kernel/block/blk-tag.c:139-165 | an empty map |
| `Tags.TagMap.FindFirstZero` | kernel/block/blk-tag.c:367 | the loop finds the lowest clear bit |
| `Tags.TagMap.StartTag` | kernel/block/blk-tag.c:336-383 | the start of the model, keeping everything in step; true exactly if the request has a tag |
| `Tags.TagMap.EndTag` | kernel/block/blk-tag.c:281-315 | the end of the model; the slot and the bit were as expected |
| `Tags.TagMap.InvalidateTags` | kernel/block/blk-tag.c:398-404 | the loop is the invalidation of the model |
| `Tags.TagMap.ResizeTags` | kernel/block/blk-tag.c:219-264 | the resize of the model, keeping everything in step; -EBUSY with nothing changed; or an overrun, exactly under the condition of OverrunIff |
| `NameScanner.ScanInvertsPrint` | kernel/crypto/algboss.c:113-181 | for every printed term with fewer arguments than the maximum, nested ones included, the scanner returns the template and exactly the printed arguments, an argument being numeric exactly if it is all digits |
| `NameGrammar.ClosingExact` | kernel/crypto/algboss.c:136-145 | the parenthesis found is exactly the first that takes the nesting below where it began |
| `NameGrammar.ScanExact` | kernel/crypto/algboss.c:113-181 | the scanner accepts exactly the strings that begin with a word and, in parentheses, one to thirty-one arguments, each a word or a balanced application, and yields exactly these; an argument is numeric exactly if it is all digits |
| `NameNumber.Strtoul` | kernel/lib/vsprintf.c:37-78 | the loop yields the number that the text begins with, decimal, octal or hexadecimal, in an unsigned long |
| `NameNumber.NumericValue` | kernel/crypto/algboss.c:157-163 | the argument is given that number in 32 bits |
| `NameNumber.ReadsTheArgument` | kernel/crypto/algboss.c:157-163 | the conversion, which does not know where the argument ends, never reads beyond it, and takes all of it exactly if it does not begin with a zero or is octal |
| `NameNumber.LeadingZero` | kernel/lib/vsprintf.c:37-78 | the argument 08 is numeric and has the value zero |
| `NameScanner.ScanWord` | kernel/crypto/algboss.c:113-114 | the loop ends at the first character that is not part of a word and knows whether all were digits |
| `NameScanner.ScanNested` | kernel/crypto/algboss.c:136-145 | the loop with its depth counter finds the matching parenthesis or the end of the string |
| `NameScanner.ScanArg` | kernel/crypto/algboss.c:124-153 | one argument, or an error for an empty or unclosed one |
| `NameScanner.ScanArguments` | kernel/crypto/algboss.c:122-178 | the loop over the arguments with its errors |
| `NameScanner.ScanName` | kernel/crypto/algboss.c:113-181 | the whole scan |
| `ThinkTime.After` | kernel/block/cfq-iosched.c:1943-1952 | after any think times the samples are between 32 and 249 and grow until they are full, so the division is safe; they are trusted exactly from the third on |
| `ThinkTime.TotalAtMost` | kernel/block/cfq-iosched.c:1943-1952 | the total is at most the largest think time times the samples and seven, for every history |
| `ThinkTime.MeanBounds` | kernel/block/cfq-iosched.c:1943-1952 | the mean is at least the smallest think time and exceeds the largest by no more than the rounding allows, for every history |
| `ThinkTime.SteadyMean` | kernel/block/cfq-iosched.c:1943-1952 | a think time that stays the same is in the long run reported as it is up to 17 ticks, and otherwise at most (7t+128)/249 too long |
| `ThinkTime.ThinkTicks` | kernel/block/cfq-iosched.c:1946-1947 | no more ticks count than twice the idle slice |
| `ThinkTime.TicksCounted` | kernel/block/cfq-iosched.c:1946-1947 | the ticks are right across a wrap of the clock |
| `ThinkTime.CfqMean` | kernel/block/cfq-iosched.c:1943-1952 | the bound for CFQ holds for every idle slice: nothing wraps in 64 bits |
| `ThinkTime.IoContext.Update` | kernel/block/as-iosched.c:508-510 | the fields are those of the history |
| `ThinkTime.IoContext.UpdateIoThinktime` | kernel/block/cfq-iosched.c:1943-1952 | the history gets the ticks since the last completion |
| `ThinkTime.AsHistory.UpdateThinktime` | kernel/block/as-iosched.c:498-511 | only the first think time of a process counts for new processes; their mean stays within the largest think time and the exit probability below one |
| `ThinkTime.AsHistory.NoteExit` | kernel/block/as-iosched.c:485-488 | the exit probability grows until it is full, and stays below one |

## Left out

- Ordering by tag, and a queue whose ordering mode changes while requests are queued: barrier safety is
  for the drain modes with any choice of flushes, and what becomes of barriers is for the mode without support too.
- BarrierQueue.RequestQueue.BeginSequence: requires a drain mode, because ordering by tag is not modelled.
- BarrierQueue.RequestQueue.CheckHead: has no branch for ordering by tag.
- BarrierQueue.RequestQueue.PeekRequest: does not call the driver's prepare function, so a request is never
  deferred or killed by it.
- Discard requests that are not of the file system: `Special` requests are never sorted.
- Merging inside the scheduler under the barrier protocol, plugging, and the re-entrant calls to the
  driver: each is a later step or absent.
- The forced-unit-access flag that a mode may put on the bar proxy: it does not bear on the order.
- One counter of requests in flight stands for the two the queue keeps by direction.
- The pad and drain tail of the scatter list, integrity data, high memory beyond one test per bvec, and
  I/O statistics.
- The replacement algorithm of `crypto_remove_spawns`: only removal without a successor; module and
  reference counts, notifications and larvals.
- Anticipation, batches, FIFO expiry and the second data direction of the anticipatory scheduler: the
  cached next request of one direction is modelled.
- Priority trees, time slices, idling, cooperators and the keys of the service tree of CFQ: the descent
  is steered by an arbitrary predicate, so every order the keys could give is covered. The head position
  that the choice depends on is a field nobody changes during a step.
- AsNext.AsData.MergedInFront: states when the cache names a queued request, not when that is the best one,
  which front merges do not keep.
- Red-black rebalancing: any tree with the same order.
- The scheduler's own merge search in `elv_merge`, and the scheduler callbacks in the hash model.
- The barrier proxy in partial completion, whose bio is not advanced, and mixed-merge flags.
- Tag maps allocated by a driver, allocation failure, and the barrier sequence during invalidation.
- The walk over scatter lists in CBC is an arbitrary choice of chunk sizes, each chunk in the buffers or
  copied to a page; the block size is a power of
  two, so that its mask is a remainder; the cipher is any function on blocks.
- NameScanner.ScanName: returns the text of a numeric argument, whose value `NameNumber` gives; a name is a
  string of characters without its terminator, and the fixed sizes of the name buffers are not modelled.
- Seek distances of the two schedulers, and think times in 32-bit words.
- ioctl, sysfs, bsg, SCSI passthrough, user-memory mapping, timeouts, softirq lists, the other ciphers
  and hashes.
