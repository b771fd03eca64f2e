# Dokany verification

Dokany lets a user-mode program be a Windows file system: a kernel driver turns I/O requests (IRPs)
into events, a library hands the events to the file system's callbacks, and the replies travel back.
This project models that traffic in Dafny and proves what keeps it correct: the races over pending
IRPs, the queue that feeds the library, the buffers and reference counts on the way, the
variable-length structures that one side packs and the other unpacks, and the directory and stream
listings.

`dafny verify dfyconfig.toml` checks everything.

## Layout

| module | what it is about |
|---|---|
| `PendingIrp`, `PendingIrpSafety` | registration, oplock waits, cancellation, reply, event write, timeout scan, retry and unmount as a transition system of 39 atomic steps; an invariant kept by each step; safety in every run |
| `PendingIrpLoss` | exactly which steps lose an IRP, and exactly which IRPs are bound to be lost |
| `PendingIrpEffects` | resource by resource: the exact steps that complete an IRP, free an entry or a write context, hand out a serial number, or change the pointers of an IRP |
| `PendingIrpProgress` | what the driver can do by itself from every reachable state: complete exactly the IRPs that are not bound to be lost, and finish an unmount |
| `ReplyCompletion`, `ReplyProtocol` | the two passes of `DokanCompleteIrp` over a reply batch, `MoveIrpList`, and their place in the transition system |
| `ReplyWire` | replies as the bytes that the library sends, and what the two passes find in them |
| `EventQueue` | `PullEvents` packs queued events into a buffer, `DispatchBatchIoCallback` takes it apart |
| `BatchBuffer` | the reference-counted batch buffers, as a transition system |
| `OpenLifetime` | `OpenCount` of an open file and the deferred `CloseFile` |
| `CreateLayout` | the four variable regions of a create event, byte by byte |
| `EntryChain` | chains of entries linked by `NextEntryOffset` (section 2.4 of MS-FSCC) |
| `DirectoryListing` | `MatchFiles`, the reply status and the index the driver stores; enumerations |
| `ListingCache` | the per-handle listing cache |
| `Enumeration` | enumerations through the driver's stored index and the library's cache together |
| `StreamListing` | the stream callback and its end routine |
| `NameMatcher` | `DokanIsNameInExpression` |
| `ReplyPools` | reply buffers by size class |
| `RingList`, `DokanVector` | the containers |
| `Bytes`, `Structures`, `Options` | little-endian fields, copies into buffers, sizes of shared structures, optional values |

Protocols whose threads race are state machines: `Enabled` and `Step` say what may happen next, `IsRun`
and `After` what a run is, and the results quantify over every run. `IoSetCancelRoutine` is an atomic
exchange, the operating system raises `Cancel` and takes the routine in two steps, and the routine's body
runs in further ones. Code that updates memory in place is imperative: classes for objects, arrays for
buffers, loops with invariants; each method is proved against a function of the old state, and the
results are lemmas about that function.

Structure sizes and offsets are those of the 64-bit build. `ULONG` and `USHORT` truncation is written
out where a value can reach it. Clocks, allocation addresses, `towupper` and the file system's callbacks
are parameters.

Assumptions: allocations succeed, except that of an entry by a callback of the oplock package; the operating system cancels an IRP at most once;
`DokanDispatchCompletion` and `DokanCancelCreateIrp` complete their IRP; the kernel sends one Close per
open and sets up no event on it after that Close was released; serial numbers do not wrap.

Where the source does not keep a property in general, the model keeps the source's behaviour, and a lemma
states exactly when the property holds:

- `PendingIrpLoss.LostExactly`: an IRP is lost, that is, nobody is left who will complete it, exactly
  when a run contains one of three kinds of step. A registration fails while its caller drops the status:
  the callbacks of the oplock package do so (sys/event.c:180, 347-375, sys/create.c:327-342), whether an
  unmount is seen, the entry cannot be allocated, the event is too large, or the IRP was cancelled in the
  meantime (sys/event.c:211-223, 250-255, 278-286, 321-329). A walk of the pending or retry list finds the
  cancel routine of a create already taken and leaves the entry to that routine, which only marks it for
  the timeout scan (sys/event.c:32-52, 527-531): the reply, timeout and drain walks do so while the routine
  has not run, an event write (sys/event.c:1379-1384) also when it has. The comments at sys/event.c:528-529
  and 1380 count on the routine to complete the IRP. An early return of the second pass of
  `DokanCompleteIrp` during an unmount leaves the entries it has not processed on its stack
  (sys/event.c:602-607).
- `PendingIrpProgress.CompletableSomehow`, `CompletableExactly`: not every uncompleted IRP can still be
  completed. It cannot exactly when it is lost or one of these steps is inevitable: its entry is on the
  local list of a reply and the unmount flag is set; an event write that owns the lock will come to its
  entry and find the routine of a create taken; or it is registered, or is to be, by a callback of the
  oplock package and this will fail. A reply that owns the lock and is to match the entry during an unmount
  is a fourth case, from which only a cancellation in time saves the IRP.
- `ReplyCompletion.PairingIsExact`: a reply batch in which an entry was diverted to cancellation before a
  completed one pairs replies with the wrong IRPs.
- `NameMatcher.ExactIffQuestionsLast`: a `?` with anything but `?` behind it. `NameMatcher.DosStarWithoutDot`:
  `<`, which is to match a name up to its last dot, stops at the start of a name without one.
- `ListingCache.CacheIsTransparent`: a pattern callback that is not implemented for one pattern and lists,
  for another, a file that the library's own matcher refuses.
- `ReplyPools.LargeEnough`, `StreamListing.RoomTestIsRight`, `CreateLayout.MaximumLengthCovers`: lengths
  that overflow a `ULONG` or a `USHORT`.

## Model

| member | source | states |
|---|---|---|
| `PendingIrpSafety.NothingHappensTwice` | sys/event.c:32-302 | In every interleaving of register, cancel, reply, event write, timeout, retry and unmount no IRP is completed twice and no IRP_ENTRY or pending write context is freed twice |
| `PendingIrpSafety.ListedEntriesHaveIrps` | sys/event.c:510-517 | In every reachable state each entry on a list has its IRP, which is uncompleted: the "already canceled" branches are unreachable |
| `PendingIrpSafety.NoUseAfterFree` | sys/event.c:100-138 | In every reachable state, whatever step comes next, the IRP_ENTRY it reads, writes or frees has not been freed |
| `PendingIrpSafety.CancelRoutineFindsEntry` | sys/event.c:55-100 | When a cancel routine starts, DRIVER_CONTEXT_IRP_ENTRY is set |
| `PendingIrpSafety.SerialsAscend` | sys/event.c:257-293 | In every reachable state the non-zero serial numbers on the pending list strictly increase and are bounded by the counter |
| `PendingIrpSafety.DrainedStaysEmpty` | sys/notification.c:354-382 | Once the release has drained a list it is empty in every later state, whatever registrations were in flight |
| `PendingIrpLoss.CompletedHeldOrLost` | sys/event.c:597-623 | In every reachable state an IRP is lost exactly when it is uncompleted and has no dispatcher, no oplock wait, no running cancel routine and no waiting or local entry; a completed one is in nobody's hands |
| `PendingIrpLoss.StepLoses` | sys/event.c:522-531 | For every invariant state, each of the 39 steps and every IRP: the IRP is lost afterwards exactly when it was lost before or the step is a failed registration whose caller takes no notice, a walk that drops a cancelled create, or an early return with the entry unprocessed |
| `PendingIrpLoss.LostExactly` | sys/event.c:597-607 | For every run and IRP: the IRP is lost at the end exactly when the run contains such a step |
| `PendingIrpLoss.LostForever` | sys/event.c:602-607 | A lost IRP stays lost and uncompleted in every continuation |
| `PendingIrpLoss.LossNeedsCause` | sys/event.c:278-286 | In every run, while no unmount has begun, an IRP is lost only if it waited for an oplock break, or is a create that was cancelled |
| `PendingIrpLoss.StrandedForever` | sys/event.c:602-607 | In every continuation in which the IRP is not cancelled anew, an IRP that is bound to be lost is not completed |
| `PendingIrpLoss.HopelessForever` | sys/event.c:1366-1384 | In every continuation whatsoever, the same for an IRP that no cancellation can save |
| `PendingIrpLoss.StrandedExactly` | sys/event.c:597-607 | In every reachable state, which IRPs are bound to be lost, told by the fields of IRP and entry, the owner of the lock, the list and the unmount flag |
| `PendingIrpLoss.CallbackRefused` | sys/event.c:347-375 | For any kind of IRP and either list, a run in which an unmount begins while a callback of the oplock package registers the IRP |
| `PendingIrpLoss.CancelledWaitIsLost` | sys/event.c:278-286 | For any kind of IRP and either list, a run without an unmount in which the IRP is cancelled while it waits for an oplock break and then lost |
| `PendingIrpLoss.CreateDroppedByReply` | sys/event.c:527-531 | A run in which the reply to a create arrives between the taking of its cancel routine and its body |
| `PendingIrpLoss.CreateDroppedByEventWrite` | sys/event.c:1378-1384 | A run in which an event write drops a create whose cancel routine has finished |
| `PendingIrpLoss.ReplyAbandoned` | sys/event.c:602-607 | For any kind of IRP, a run in which an unmount begins between the two passes |
| `PendingIrpSafety.KeepsStep` | sys/event.c:204-302 | Each of the 39 steps keeps the invariant that says who may complete each IRP and free each entry |
| `PendingIrpSafety.KeepsRegistration` | sys/event.c:232-302 | The steps of registration under the list lock keep the invariant |
| `PendingIrpSafety.KeepsInsert` | sys/event.c:286-300 | Appending the new entry keeps list, lock and serial order |
| `PendingIrpSafety.KeepsCancelSection` | sys/event.c:76-138 | The locked section of DokanIrpCancelRoutine, with the entry listed, being registered or already unlinked, keeps the invariant |
| `PendingIrpSafety.KeepsMarkForced` | sys/event.c:40-52 | DokanCreateIrpCancelRoutine marks the entry of its own IRP |
| `PendingIrpSafety.KeepsReplyMatch` | sys/event.c:508-545 | Matching a reply keeps the invariant in each branch |
| `PendingIrpSafety.KeepsWriteMatch` | sys/event.c:1354-1436 | Each branch of DokanEventWrite keeps the invariant |
| `PendingIrpEffects.ContextStep` | sys/event.c:1433-1434 | For every invariant state, step and write context: the step frees it, once, exactly when it is the dispatcher's giving up, the locked section of the cancel routine of its write, or an event write whose IRP still has its routine |
| `PendingIrpEffects.ContextFreedExactly` | sys/event.c:88-97 | For every run: a write context is freed at the end exactly when the run has such a step |
| `PendingIrpEffects.EventStep` | sys/event.c:1433-1434 | For every step and IRP: DRIVER_CONTEXT_EVENT is set by the dispatcher and cleared exactly when its context is freed or a create is marked as cancelled |
| `PendingIrpEffects.CompletedExactly` | sys/event.c:602-623 | For every run: an IRP is completed at the end exactly when its dispatcher, a failed oplock wait, its cancel routine or the thread with its entry completed it |
| `PendingIrpEffects.EntryFreedExactly` | sys/event.c:118-126 | For every run: an IRP_ENTRY is freed at the end exactly when its registration was refused, its cancel routine ran after the entry was left to it, or a thread finished it |
| `PendingIrpEffects.EntryStep` | sys/event.c:257-275 | For every step and entry: what becomes of its serial number, its forced mark, its IRP and its CancelRoutineFreeMemory |
| `PendingIrpEffects.PointerStep` | sys/event.c:532-540 | For every step and IRP: what becomes of its cancel routine and of DRIVER_CONTEXT_IRP_ENTRY |
| `PendingIrpEffects.LocalsWaitForUnlock` | sys/event.c:583-604 | While the walk that moved an entry to its local list owns the lock, the entry stays there |
| `PendingIrpEffects.RetryListIsForCreates` | sys/event.c:347-375 | In every run dispatchers register with an event on the pending list, callbacks register creates without one and other IRPs with one, and only creates are on the retry list |
| `PendingIrpEffects.SerialNumbersAreUnique` | sys/event.c:257-261 | In every run the counter is the number of events registered, and no two entries, listed or not, share a serial number other than 0 |
| `PendingIrpSafety.KeepsScanExpire` | sys/timeout.c:90-130 | Expiring an entry keeps the invariant in each branch |
| `PendingIrpSafety.KeepsDrainPop` | sys/notification.c:132-173 | MoveIrpList keeps the invariant in each branch |
| `PendingIrpSafety.KeepsDrainUnlock` | sys/notification.c:380-382 | When a list is drained for the release, nothing can be on it or on its way to it |
| `PendingIrpSafety.KeepsForget` | sys/event.c:602-607 | The early return keeps the invariant |
| `PendingIrpSafety.KeepsPass` | sys/event.c:604-608 | Passing the unmount check keeps the invariant |
| `PendingIrpSafety.KeepsRefused` | sys/event.c:250-255 | A registration refused under the lock keeps the invariant, whether its caller heeds the status or not |
| `PendingIrpSafety.KeepsRefuse` | sys/event.c:211-223 | A callback's registration refused before it has an entry keeps the invariant |
| `PendingIrpSafety.KeepsAllocate` | sys/event.c:217-232 | A new entry for an IRP of a dispatch routine or of a callback keeps the invariant |
| `PendingIrpProgress.FreeLock` | sys/notification.c:132-173 | From every invariant state with no event write and no cancellation half done, the steps of the owner of a list lock free it, a reply after all its matches; no IRP gets further from completion, the same ones are bound to be lost, and a drain empties its list |
| `PendingIrpProgress.EveryIrpCanComplete` | sys/event.c:55-302 | From every reachable state, whatever locks are held, there is a run of the driver's own steps that empties both lists and completes exactly the IRPs that are not bound to be lost |
| `PendingIrpProgress.CompletableExactly` | sys/event.c:597-623 | In every reachable state an IRP can be completed without a new cancellation if and only if it is not bound to be lost |
| `PendingIrpProgress.CompletableSomehow` | sys/event.c:597-623 | In every reachable state an IRP can be completed in some continuation if and only if it is not bound to be lost for good |
| `PendingIrpProgress.UnmountCanFinish` | sys/notification.c:354-382 | From every reachable state in which an unmount has begun, there is a run of the driver's own steps after which both lists are drained and exactly the IRPs that were not bound to be lost are completed |
| `ReplyWire.SizeIsSent` | sys/event.c:435-452 | The size that the driver works out from a header is the number of bytes that the library sent for the reply |
| `ReplyWire.WrappedSize` | sys/event.c:448-450 | A buffer length whose sum with the header wraps a ULONG counts as that of a header alone |
| `ReplyWire.OneReplyMatches` | sys/event.c:490-583 | A request with exactly one sent reply takes exactly the IRP it is for and is no misuse, with batching on or off |
| `ReplyWire.SentBatchMatches` | sys/event.c:490-583 | For a sorted batch as bytes, the pass takes exactly the longest pending prefix |
| `ReplyWire.EachIrpGetsItsReply` | sys/event.c:597-623 | For a sorted batch as bytes, without a diversion before a completed entry, each completed IRP is given the very bytes sent for it |
| `ReplyCompletion.EndMeans` | sys/event.c:546-582 | For any list and buffer: why the first pass ends, told by where it stands in the buffer after its last match; without batching it takes at most one reply |
| `ReplyCompletion.DealReads` | sys/event.c:608-620 | The second pass hands out what it reads at its offsets, and once off the buffer it stays there |
| `ReplyCompletion.IrpList.MatchReplies` | sys/event.c:490-583 | The first pass leaves the unmatched entries, sorts the matched ones into the two local lists and ends as `Walk` says |
| `ReplyCompletion.IrpList.MoveTo` | sys/notification.c:132-173 | MoveIrpList empties the list and forwards exactly the entries it owns or that were force-cancelled |
| `ReplyCompletion.CompleteReplies` | sys/event.c:597-623 | The second pass deals replies in list order, up to the entry at which the unmount is seen |
| `ReplyCompletion.WalkChains` | sys/event.c:508-583 | Each match sits at the offset reached after the matches before it, with its whole header inside the buffer, on a reply with its serial |
| `ReplyCompletion.PairingWithoutDetour` | sys/event.c:597-623 | For any list and buffer: if no matched entry was diverted before a completed one, every completed IRP gets the very reply it was matched with, and the second pass reads no header across the end |
| `ReplyCompletion.PairingIsExact` | sys/event.c:597-623 | For any sorted list and any buffer without a reply of serial 0: every completed IRP gets the reply with its own serial if and only if no matched entry was diverted before a completed one |
| `ReplyCompletion.DetourMispairs` | sys/event.c:513-540 | After such a diversion some completed IRP gets a reply with another serial |
| `ReplyCompletion.DetourLeavesBuffer` | sys/event.c:610-618 | A batch after whose diversion the second pass reads a header across the end of the buffer |
| `ReplyCompletion.BatchPairing` | sys/event.c:597-623 | For an ascending batch the condition is one on list and batch: among the pending entries named by the matched replies none is diverted before an owned one |
| `ReplyCompletion.WalkSerialsDistinct` | sys/event.c:490-583 | On a list with ascending serials and a buffer without a reply of serial 0 the matched serials are distinct |
| `ReplyCompletion.BatchMatchesPendingPrefix` | sys/event.c:495-582 | For an ascending batch with batching on and no overflow reply, the single pass takes exactly the longest prefix of replies whose serials are all pending, and leaves the rest of the list |
| `ReplyProtocol.MatchIsAction` | sys/event.c:508-545 | One match of the walk is one step of the transition system, with the entry where its state sends it |
| `ReplyProtocol.WalkIsRun` | sys/event.c:490-583 | From every invariant state with a free lock the whole first pass, with its lock, is a run of the transition system; the list is left as the walk says, and every entry that left it is where its state at the start sends it |
| `ReplyProtocol.DrainIsRun` | sys/notification.c:132-173 | From every invariant state in which it owns the lock, MoveIrpList is a run of the transition system that empties the list and puts every entry where its state at the start sends it |
| `ReplyProtocol.ForwardedAreMoved` | sys/notification.c:132-173 | The entries that `MoveTo` forwards are the ones such a run moves, in the same order |
| `ReplyProtocol.ReachableListsAreSorted` | sys/event.c:257-293 | In every reachable state the pending list meets the order that the matching results need |
| `ReplyProtocol.ReachableBatchMatch` | sys/event.c:495-582 | In every reachable state the first pass matches the longest pending prefix of the batch |
| `ReplyProtocol.ReachablePairing` | sys/event.c:597-623 | In every reachable state, for a buffer without a reply of serial 0, the pairing is right if and only if no matched entry was diverted before a completed one |
| `ReplyProtocol.ReachableBatchPairing` | sys/event.c:597-623 | In every reachable state, for an ascending batch, the same with the condition on list and batch |
| `ReplyProtocol.ReachableReplies` | sys/event.c:597-623 | In every reachable state, for a sorted batch as bytes and without a diversion, each completed IRP is given the very bytes sent for it |
| `EventQueue.AllocateEventContextRaw` | sys/notification.c:63-88 | Succeeds exactly for lengths that fit, and the event notes its own length |
| `EventQueue.NotifyQueue.Notify` | sys/notification.c:108-130 | Events are appended and stay distinct |
| `EventQueue.NotifyQueue.PullEvents` | sys/fscontrol.c:495-547 | The in-place rotation terminates; the buffer holds the pulled events back to back, the queue what `Left` says, the rest of the buffer is unchanged |
| `EventQueue.PullConserves` | sys/fscontrol.c:509-536 | Copied plus left over is the original queue as a multiset |
| `EventQueue.CopiedIffFits` | sys/fscontrol.c:517-532 | In batch mode an event is copied if and only if it fits at its turn, and otherwise stays |
| `EventQueue.NothingLeftFits` | sys/fscontrol.c:517-527 | After a batch pull nothing left in the queue fits the remaining space |
| `EventQueue.KeepsQueueShape` | sys/fscontrol.c:509-536 | What is left is again a queue of distinct well-formed events |
| `EventQueue.EveryEventIsDelivered` | sys/fscontrol.c:495-547 | Pulling again and again with a buffer that any event fits delivers every event exactly once |
| `EventQueue.CountEvents` | dokan/dokan.c:568-575 | The first length walk terminates and counts exactly the copied events |
| `EventQueue.DispatchBatch` | dokan/dokan.c:576-597 | The second walk dispatches each event once, in order, all but the last to the pool |
| `EventQueue.PullAndDispatch` | dokan/dokan.c:568-597 | Packing and unpacking are inverse: what the driver pulled is what the library dispatches |
| `BatchBuffer.NoAccessAfterReturn` | dokan/dokan.c:576-597 | In every interleaving no thread touches a batch buffer that was freed or can be popped by another thread |
| `BatchBuffer.CountIsUnreleased` | dokan/dokan_pool.c:293-299 | While events are handed out or processed the counter is the number of unreleased events |
| `BatchBuffer.ReturnedExactlyOnce` | dokan/dokan_pool.c:293-315 | A buffer is given back at most once per pop, and exactly when its thread is done with it and every event is released, in any order |
| `BatchBuffer.PoolIsSound` | dokan/dokan_pool.c:266-315 | The pool stays within its capacity, holds no buffer twice and none in use, and two users never share a buffer |
| `BatchBuffer.NoBufferLeaks` | dokan/dokan_pool.c:266-315 | In every interleaving each allocated buffer is in the pool or in use |
| `BatchBuffer.ReturnedBuffer` | dokan/dokan_pool.c:299-315 | A returned buffer is kept exactly when the pool has room, and freed otherwise |
| `BatchBuffer.BuffersCanBeReturned` | dokan/dokan_pool.c:293-315 | From every reachable state, the threads of a buffer in use can give it back by their own steps: no buffer is stuck |
| `OpenLifetime.IoEvent.SetupIOEventForProcessing` | dokan/dokan.c:276-308 | A reference is taken and the stored context read |
| `OpenLifetime.IoEvent.ReleaseDokanOpenInfo` | dokan/dokan.c:1324-1364 | References are dropped, the close is deferred, and the last one recycles the open and calls CloseFile |
| `OpenLifetime.OpenInfo.constructor` | dokan/create.c:129-136 | A created open holds one reference and no close |
| `OpenLifetime.OpenCountIsReferences` | dokan/dokan.c:1324-1342 | In every interleaving OpenCount is the number of events in flight, plus one until Close is released |
| `OpenLifetime.ClosedExactlyOnce` | dokan/dokan.c:1342-1364 | The open is recycled once and CloseFile called once, exactly when Close and every other event were released |
| `OpenLifetime.NoUseAfterRecycle` | dokan/dokan.c:1350-1354 | No event in flight refers to a recycled open |
| `OpenLifetime.ContextGiven` | dokan/dokan.c:287-292 | In every run, an event is given the context with which the last event was released, or that of the create; told by the actions of the run |
| `OpenLifetime.CloseFileArguments` | dokan/close.c:26-39 | CloseFile gets the name of the Close event, and the context with which the last event before it was released, or that of the create |
| `CreateLayout.PackCreateEvent` | sys/create.c:764-993 | The packed event is the header and the four regions in order, with the alignment gaps cleared; packing fails exactly when the length is out of range |
| `CreateLayout.PointerAlignSize` | sys/dokan.c:622-632 | The least multiple of 8 that is not smaller |
| `CreateLayout.SecurityContextRoundTrip` | dokan/create.c:28-54 | The library reads the four booleans, the four rights and the desired access of the request |
| `CreateLayout.ParametersRoundTrip` | dokan/create.c:139-144 | The library reads the attributes, options, disposition, share access and name length of the request, with FILE_OPEN for FILE_OPEN_IF on a device that cannot be written to |
| `CreateLayout.LengthRoundTrip` | sys/create.c:822-828 | The event starts with its own length, and the opaque part follows |
| `CreateLayout.DescriptorRoundTrip` | dokan/create.c:56-64 | The descriptor is found if and only if one was packed, at its place, with its bytes |
| `CreateLayout.StringsRoundTrip` | dokan/create.c:66-87 | Both counted strings come back with length, bytes and terminator |
| `CreateLayout.FileNameRoundTrip` | dokan/create.c:119-120 | With or without an access state the file name comes back up to its first NUL |
| `CreateLayout.RegionsFillTheEvent` | sys/create.c:812-835 | The regions are aligned, disjoint, in order and exactly fill the allocated length |
| `CreateLayout.MaximumLengthCovers` | sys/create.c:939-943 | The USHORT MaximumLength covers the string exactly up to 65520 bytes |
| `CreateLayout.CheckFileName` | dokan/dokan.c:1248-1264 | In place, one of two leading separators and a trailing one go |
| `CreateLayout.CheckedIs` | dokan/dokan.c:1248-1264 | What is left is the name without at most one separator at each end, and exactly when each goes |
| `EntryChain.ReplyIsAChain` | dokan/directory.c:428-447 | Following NextEntryOffset from 0 visits exactly the entries written, in order, disjoint and 8-byte aligned; the last link is 0 and the last entry ends at the used length |
| `EntryChain.EntryAt` | dokan/directory.c:420-441 | Each visited offset holds its entry |
| `DirectoryListing.FillDirectoryInformation` | dokan/directory.c:288-372 | An entry is written, cleared and unlinked, if and only if its aligned size fits |
| `DirectoryListing.MatchFiles` | dokan/directory.c:385-463 | The reply is the chain of the page from FileIndex on, also after an overflow in the middle; the result is the next index, -1 or -2; the used length is the request length minus what remains |
| `DirectoryListing.PageIsMaximal` | dokan/directory.c:417-427 | A page fits the buffer, and the next entry would not |
| `DirectoryListing.ReplyEntry` | dokan/directory.c:410-443 | Entry k of the page is match number FileIndex + k and carries the index of the one after it |
| `DirectoryListing.EntryReads` | dokan/directory.c:277-286 | An entry gives its index, name length, name and metadata back |
| `DirectoryListing.SizeIsNatural` | dokan/directory.c:300-327 | The size of each structure is what its members and their alignment ask for |
| `DirectoryListing.FrontIsNatural` | dokan/directory.c:277-286 | FileNameLength lies where the members before it put it |
| `DirectoryListing.BackIsNatural` | dokan/directory.c:277-286 | FileName lies where the members before it put it |
| `DirectoryListing.WriteDirectoryResults` | dokan/directory.c:528-557 | Status and index of the reply: success, BUFFER_OVERFLOW, NO_MORE_FILES or NO_SUCH_FILE |
| `DirectoryListing.Ccb.QueryDirectory` | sys/directory.c:170-191 | One query from index selection to completion: the caller's buffer holds the chain, the stored index is the next one |
| `DirectoryListing.QueryOutcome` | sys/directory.c:170-183 | For every query: a specified index wins over a restart and a restart over the stored index; from there on a page, BUFFER_OVERFLOW when the next entry does not fit, or the end status; nothing moves without a buffer |
| `DirectoryListing.NoGapNoDuplicate` | sys/directory.c:293-315 | Whatever the buffers and modes, the pages of consecutive queries follow each other without gap or duplicate |
| `DirectoryListing.AnswerKinds` | dokan/directory.c:528-557 | With room for the next entry, an answer is a non-empty page while entries are left and the end status afterwards |
| `DirectoryListing.EnumerationIsComplete` | sys/directory.c:170-191 | Enough queries, each with room for one entry, return exactly the filtered listing in order and end with NO_MORE_FILES, or NO_SUCH_FILE when nothing matches |
| `ListingCache.CacheAnswers` | dokan/directory.c:668-692 | The cache answers if and only if cached and requested pattern agree, with no pattern meaning `*`, and no restart is in force |
| `ListingCache.AddMissingCurrentAndParentFolder` | dokan/directory.c:465-526 | Exactly the missing folder entries are put in front |
| `ListingCache.FoldersAreListed` | dokan/directory.c:480-526 | A whole listing of a directory other than the root has both folder entries |
| `ListingCache.OpenInfo.FindFiles` | dokan/directory.c:559-601 | A scan tries both callbacks and replaces the cache only when it succeeds |
| `ListingCache.OpenInfo.DispatchDirectoryInformation` | dokan/directory.c:613-744 | Unknown classes are refused; otherwise the answer is cached or scanned, filtered by the pattern when the callback did not, and paged |
| `ListingCache.FreshShows` | dokan/directory.c:404-408 | What the caller sees of a fresh scan: without an implemented pattern callback what was reported and the matcher accepts, with one exactly what it lists, for no pattern or `*` everything with the missing folder entries, or the error |
| `ListingCache.CacheIsTransparent` | dokan/directory.c:404-408 | In every run of requests the caller sees, file by file or as an error, what a fresh scan would show, if and only if the pattern callback does not combine a pattern it does not implement with another for which it lists a file that the matcher refuses |
| `Enumeration.QueryDirectory` | sys/directory.c:164-191 | One query through the driver's index, the library's dispatch routine with its cache, and the completion: new cache, new index and the reply are those of `Ask` |
| `Enumeration.OwnAnswer` | dokan/directory.c:664-692 | On one open directory, whose pattern is fixed, every request is answered as by a fresh scan, whatever the callbacks do with other patterns |
| `Enumeration.RepliesAreAnswers` | sys/directory.c:293-315 | The replies to any run of queries, with any restarts and indices, are the answers from one fixed listing, that of a fresh scan; a refused pattern fails every query in the same way |
| `Enumeration.CachedEnumerationIsComplete` | sys/directory.c:170-191 | After any queries, an enumeration from the start through driver and cache returns exactly the entries of the listing for the pattern, in order, and ends with NO_MORE_FILES, or NO_SUCH_FILE when it is empty |
| `StreamListing.StreamReply.Fill` | dokan/fileinfo.c:261-304 | While the room test does not wrap, a stream is accepted if and only if its entry fits behind the others, and is appended |
| `StreamListing.RoomTestIsRight` | dokan/fileinfo.c:279-282 | The ULONG room test refuses exactly what does not fit, if and only if its sum does not wrap around |
| `StreamListing.StreamReply.End` | dokan/fileinfo.c:426-459 | The last link is cleared and BufferLength becomes the sum of the entry sizes, within the request |
| `StreamListing.FindStreams` | dokan/fileinfo.c:482-491 | After any sequence of callbacks and the end routine the buffer is the chain of exactly the accepted streams |
| `StreamListing.EntryReads` | dokan/fileinfo.c:292-297 | An entry gives its sizes and its name back |
| `NameMatcher.DokanIsNameInExpression` | dokan/directory.c:755-843 | The recursive matcher terminates and its outcome, with reads behind the terminator noticed, is that of `Run` |
| `NameMatcher.LiteralsAndStars` | dokan/directory.c:763-772 | For literals and `*` the matcher stays inside the name and accepts exactly the glob language |
| `NameMatcher.ExactIffQuestionsLast` | dokan/directory.c:823-843 | With `?` it is right about every name if and only if nothing but `?` follows a `?` |
| `NameMatcher.QuestionBeforeStar` | dokan/directory.c:823-826 | `a?*` accepts `a`, and `a?a` leaves the name `a` |
| `NameMatcher.LiteralsMatchThemselves` | dokan/directory.c:827-834 | Without wildcards exactly the name itself is accepted, up to case if case is ignored |
| `NameMatcher.DosWildcards` | dokan/directory.c:774-821 | Without `?`, and with `>` at most at the end, the matcher accepts exactly the language of `DosGlob`, for every name |
| `NameMatcher.DosStarWithoutDot` | dokan/directory.c:779-799 | `<` alone refuses every name without a dot but the empty one |
| `NameMatcher.StaysInside` | dokan/directory.c:774-821 | Without `?`, and with `>` at most at the end, it never leaves the name |
| `ReplyPools.Pools.CreateDispatchCommon` | dokan/dokan.c:1274-1322 | A reply buffer is taken from its size class or the heap, and its size noted |
| `ReplyPools.Pools.FreeIoEventResult` | dokan/dokan.c:394-414 | The noted size leads the buffer back to its class, or to the heap |
| `ReplyPools.ClassFor` | dokan/dokan.c:1278-1304 | The class chosen for a reply holds it |
| `ReplyPools.PoolsHoldTheirClass` | dokan/dokan_pool.c:354-541 | After any sequence of allocations and frees each pool holds only distinct idle buffers of its size, within its capacity |
| `ReplyPools.PoolsApart` | dokan/dokan_pool.c:354-541 | No buffer is in two pools |
| `ReplyPools.BackToItsClass` | dokan/dokan.c:394-414 | After any run a pooled buffer is freed into the class that it was taken from |
| `ReplyPools.ClassIsSmallest` | dokan/dokan.c:1278-1304 | The class is the smallest that holds the reply, and only the first is for requests without extra pools |
| `ReplyPools.NoBufferLeaks` | dokan/dokan_pool.c:354-541 | After any run each allocated buffer is lent or in a pool |
| `ReplyPools.FreedBuffer` | dokan/dokan_pool.c:354-541 | A pooled buffer is kept exactly when its pool has room, and any other buffer is freed |
| `ReplyPools.LargeEnough` | dokan/dokan.c:1266-1316 | After any run a buffer handed out is large enough if and only if its length does not overflow a ULONG |
| `RingList.IsListEmpty` | dokan/list.h:34-37 | A list is empty when its head is alone or absent |
| `RingList.InsertTailList` | dokan/list.h:83-91 | The ring gains the entry at the end |
| `RingList.InsertHeadList` | dokan/list.h:94-102 | The ring gains the entry behind the head |
| `RingList.RemoveEntryList` | dokan/list.h:40-54 | The ring loses the entry, a node alone stays as it is, and the result is TRUE exactly when one node or none is left |
| `RingList.RemoveHeadList` | dokan/list.h:57-67 | The first entry leaves the ring; an empty list gives its head |
| `RingList.RemoveTailList` | dokan/list.h:70-80 | The last entry leaves the ring; an empty list gives its head |
| `RingList.AppendTailList` | dokan/list.h:105-112 | Two rings become one |
| `RingList.RingRotates` | dokan/list.h:28-31 | A ring is a ring seen from any node |
| `DokanVector.Vector.Grow` | dokan/dokan_vector.c:205-229 | The contents stay and there is room for the increase |
| `DokanVector.Vector.PushBack` | dokan/dokan_vector.c:129-141 | The item is appended, with growth where needed |
| `DokanVector.Vector.PushBackArray` | dokan/dokan_vector.c:144-160 | The items are appended in order |
| `DokanVector.Vector.PushFrontArray` | dokan/dokan_vector.c:106-126 | The items are put in front in order, after one overlapping move |
| `DokanVector.Vector.PopBack` | dokan/dokan_vector.c:163-168 | The last item goes; nothing happens when empty |
| `DokanVector.Vector.PopBackArray` | dokan/dokan_vector.c:171-178 | The last items go, at most all |
| `DokanVector.Vector.GetItem` | dokan/dokan_vector.c:187-193 | The item at an index, or nothing |
| `DokanVector.Vector.GetLastItem` | dokan/dokan_vector.c:196-202 | The last item, or nothing |

## Left out

- Fairness: what the driver can complete by its own steps is proved, not that its threads are scheduled.
- Freeing of every entry: an entry whose cancel routine may not free it stays allocated
  (sys/event.c:118-119).
- A failure of `DokanBuildRequestContext`, after which a cancel routine or callback returns without
  completing its IRP (sys/event.c:67-73, 163-169, sys/create.c:329-336), and of `IoAcquireRemoveLock`, after
  which a release claims the volume and drains nothing (sys/notification.c:366-370).
- The contents of a reply in the transition system: a reply matches some set of listed entries, fixed when it
  takes the lock; `ReplyProtocol.WalkIsRun` connects this with the buffer.
- Memory ordering: every step is atomic and sequentially consistent.
- ReplyCompletion.PairingIsExact: a reply with serial 0, which would match entries that were registered
  without an event, is excluded; `PairingWithoutDetour` covers it.
- StreamListing.StreamReply.Fill: the write behind the buffer after a room test that wraps is not modelled;
  `RoomTestIsRight` says when it happens.
- DirectoryListing.FillDirectoryInformation: times, sizes, attributes and short names of an entry are opaque
  bytes, because the eight fill functions only copy them.
- DirectoryListing.MatchFiles: at most 2^31 - 1 files, the range of its LONG result.
- ListingCache.CacheIsTransparent: the clock that stamps the added folder entries is a constant, and the
  listing of a directory does not change between requests.
- ListingCache.OpenInfo.DispatchDirectoryInformation: a request without an open info is not modelled.
- ReplyWire.Sent: Flags, Operation and Context of a reply are opaque bytes.
- CreateLayout.PackCreateEvent: the fields between Length and Operation are one opaque part, and the total
  length fits a ULONG.
- NameMatcher.DosWildcards: `?` together with DOS wildcards, and `>` in the middle of an expression.
- BatchBuffer: dedicated mode, where one thread keeps one buffer for ever, and a failed allocation of an
  event in the middle of a batch.
- OpenLifetime: creates that fail give their open info straight back and have no lifetime.
- Requeueing of the wake-up object at the end of `PullEvents`.
- FCB table and garbage collector, oplocks, share access, cache manager, section objects, MDLs, mount
  manager, device control codes, `DokanEventStart`, log macros.
- The thin library wrappers (mount, version, access, security, volume, set-file), dokanctl, the network
  provider and the installer.
