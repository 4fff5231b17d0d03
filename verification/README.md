# CXL-SHM in Dafny

CXL-SHM is an allocator for memory shared by many processes. Objects carry a reference count; a
client that crashes must neither leak, nor free twice, nor leave a dangling reference, and nobody
may block meanwhile. This project models its four connected parts and proves what they keep.

**Counted references** (`Ref*.dfy`). `RefMachine` is a transition system with one step per shared
access of link, unlink, allocation stamp, release, redo and the monitor's own unlinks, for any number
of clients, objects and slots, with a crash possible between any two steps. Each object has one word
(last client, count, era of that client); each client logs an operation, compares-and-swaps the word,
writes the slot and bumps its era. After a crash the monitor decides from the word and the era matrix
whether the CAS happened; then it unlinks what the client held, in the client's name and with its era,
without writing records, while the other clients run on. `RefInvariant` is the inductive invariant,
`RefSteps`, `RefOpen`, `RefUpdates` and `RefFinish` prove that each step keeps it, the theorems follow in
`RefTheorems`, `RefRelease`, `RefEras`, `RefRedoLog`, `RefInfo` (the packed word), `RefClosed` (what the
monitor makes of closed records), and `RefLimits`, `RefLost`, `RefWitness` and `RefRestamp` (where the
protocol fails, and exactly when).

**Cascade and its recovery** (`ObjectGraph`, `Tracing`, `Cascade`, `SharedMemory`). Class `Shm` holds the
words, slots, era matrix and redo lines of one active client. `TestFree` releases a slot, children
first; `mayStop` guards the points where the client may stop for good, and a client that may not runs every
operation to its end. What is left is then replayed by `RedoRefCnt`,
and `RecoverRoots` sweeps the client's root slots, one of which may hold a block that was never stamped.
The outcome is compared with tracing from the root slots that remain. The contracts also say what becomes of
the era matrix: what was seen and nothing else enters the client's own row, each counted update costs one era,
and no record of another client that the monitor would replay is hidden from it (`HidesNothing`).

**Message ring** (`RingMachine`, `RingInvariant`, `RingSteps`, `RingTheorems`, `RingReplay`, `RingStray`,
`RingDelivery`, `RingWitness`, `MessageQueue`). The single-producer single-consumer queue of 16 slots as a
transition system with a crash of either side anywhere, the monitor's replay of the newest record of the
side that stopped, and its scans slot by slot; and once more as a class with the source's loops.

**Heap** (`Layout`, `PageQueue`, `BlockLists`, `PageLists`, `Heap`, `ThreadFree`, `ThreadFreeSteps`,
`ThreadFreeProgress`, `Allocation`). Blocks, pages, size classes and segments of one client, which come down to the set of
live blocks; the intrusive page queues; the lock-free list that other clients push released blocks on;
and, on top of `Shm`, the allocation of an object behind a root slot across a crash.

**Hash index** (`HashIndex`). Bucket chains in place, refining a map.

## Reading the model

- Memory accesses are sequentially consistent and durable at once; shared memory survives a crash.
- Client ids are 1 to 1023 in the concurrent machine, and row 0 of the era matrix reads 0. `EraCells`
  shows that the cells of real ids are disjoint, and that row 0, where the scan starts, lies below the
  matrix. Registration also hands out id 1024; that client is not in the machine (see below).
- A CAS in the concurrent machine needs a count that stays in 0 to 65535 and an era below 2^32;
  `UpdateExact` and `GuardExact` show that this is exactly when the packed fields survive.
- A slot has one operator at a time, a linked slot starts at 0 and the linker holds the object in
  another slot. This is what callers of the library owe; the machine's `CanBegin` guards state it.
- `Calm`, used by the runs of the concurrent machine, excludes two behaviours of the monitor that the
  code does not exclude: the torn read that `TornReadExact` describes, and the stale replay that changes a
  slot. `RefLimits` shows that each is needed and exactly when it occurs (see below).
- A client of the concurrent machine that was recovered gets no new owner of its id in the same run;
  `ThreadInit` says when a new owner would be harmed. A receiver of the ring may be given the id of the one
  before, with its redo lines. Of the ring, the monitor never recovers both sides at once.
- In the ring a replay always takes the record for committed: `ClosedLinkLooksCommitted`.
- The block given to an object with embedded references holds zeroes in those words; `cxl_malloc` does not
  clear them. In `slots` a free root slot reads as empty, although its word links the free list.
- The cascade has one active client; its graph is acyclic, given as a rank.
- Weak compare-and-swaps may fail for no reason, a bounded number of times in the classes and without
  bound in the machines.

## Where the code does less than its design

- `redo_ref_cnt` loads the word twice, once for the client id and once for the era
  (src/recovery.cpp:201-202). If another client writes in between, the two may match although the CAS
  never happened. `TornReadExact` says exactly when; the replay that follows makes counts and slots
  disagree (`TornReplay`); `TornReadHappens` is a run.
- Registration hands out ids up to 1024 (src/cxl_shm.cpp:44-59), but the scan of the rows stops at 1023
  (src/recovery.cpp:211). A record is replayed exactly if the word has its stamp or one of these rows has
  its era (`NeedRedoExact`), so evidence that only client 1024 has left is missed: `LastIdMissed`.
- The newest record is replayed although its operation is closed (src/recovery.cpp:198-252). That is
  harmless exactly if it does not change the slot: `StaleReplayExact`; `StaleReplayHappens` is a run in
  which a reused root slot is zeroed. In an allocation it costs the new object its root slot exactly if the
  block was stamped and the newest record emptied the very root slot that is reused: `MallocAndRedo`.
  A new owner of the id inherits the record (src/cxl_shm.cpp:44-71), and is safe exactly if its replay
  would change nothing: `ThreadInit`.
- In the ring the newest record of a sender that stopped may be of a reference that was received since
  (src/transfer.cpp:24, src/recovery.cpp:222-225). Its replay then puts the reference back into its slot
  without a count, and only then: `ReplayExact`. From there the ring can always be recovered into a state
  in which the object's count is one too low (`OutdatedIsFatal`), unless the receiver stopped just before
  its last step and its own record empties the slot again (`ReplaysCancel`); `OutdatedHappens` and
  `CancelHappens` are runs. The receiver's record is never outdated: `UnlinkReplayHarmless`.
- Recovery goes on with the crashed client's era. If the client stopped between CAS and bump, the
  monitor's first stamp repeats a published one, and only then: `RecoveryRestamps`, `StampsAreFresh`;
  `RestampMidway` and `StampRepeated` are runs. Another client's CAS may then meet an equal word that is not
  the write it loaded: `AbaHappens`. Counts survive it (`CountConserved`), and so does the commit test of
  every other client.
- The second scan of a recovered sender is guarded by one read of `receiver_id`
  (src/recovery.cpp:322). A receiver that registers later and starts to receive during the scan makes a
  double release possible: without such a receive, and without the replay of an outdated record, there is
  none (`AtMostOnce`); with one there is a continuation that releases twice (`RacyIsFatal`);
  `DoubleReleaseHappens` is a run from the start.
- Recovery of a receiver empties the queued slots and leaves `start` (src/recovery.cpp:353-362). Something
  can be received again exactly if nothing was queued and the sender runs, or if the replay of the sender's
  newest record can fill the slot at `start` once more: `RecoveredRingExact`. Otherwise every later receiver
  stops at the empty slot for ever; `StuckHappens` is a run that ends so.
- `put` writes to the caller's partition, `get` reads the partition named by the key's top byte. They
  agree exactly for keys whose top byte is the writer's id minus 1: `PutThenGet`.
- The table has room for 64 partitions (include/cxlmalloc-types.h:30-32), while there are ids up to 1024
  and top bytes up to 255; the others address the segments: `EntryInTable`.
- A client that stops between taking the last count of an object and handing the block over, or inside an
  allocation, leaves the block to the search for leaked blocks, whatever the others do, and in no other case
  is a block left so: `LossExact`, `FreeOrLost`; `LossHappens` is a run. After a release the newest record
  tells that it happened: `ReleaseWithRecovery`. The branch of the monitor meant for it is never taken.

## Model

| member | source | states |
|---|---|---|
| RefTheorems.Keep | src/cxl_shm.cpp:157-258 | every step of link, unlink, allocation, release, crash, redo and the monitor's own unlinks keeps the invariant, for any number of clients |
| RefTheorems.CommitTestExact | src/recovery.cpp:198-252 | for a client between its log write and its bump, stopped or not, until it is recovered, in every run, whatever is done meanwhile in the name of other recovered clients: the word has its stamp or another row has seen its era if and only if its CAS succeeded |
| RefTheorems.ScanDecidesExactly | src/recovery.cpp:200-221 | the monitor's separate loads and its cell-by-cell scan, interleaved with running clients, end with the same exact answer |
| RefTheorems.RedoCompletes | src/recovery.cpp:222-243 | replay completes a committed operation and drops an uncommitted one, touches only its slot, and leaves slot and counts in agreement |
| RefTheorems.CountConserved | src/cxl_shm.cpp:168-256 | in every run, recovery's unlinks included: count + unlinks and allocations not visible yet = slots holding the object + links not visible yet |
| RefTheorems.QuietCounts | src/cxl_shm.cpp:157-258 | once no operation is open, or redo has closed it, each count is the number of slots holding the object |
| RefRelease.NoAba | src/cxl_shm.cpp:199-199 | a CAS that can succeed has met the very write that was loaded, unless the word loaded is of a client under recovery that stopped between CAS and bump |
| RefRelease.StampsAreFresh | src/recovery.cpp:469-498 | no link, unlink or allocation publishes a (client, era) stamp a second time, but for the first unlink the monitor makes for a client that stopped between CAS and bump, which does |
| RefRelease.ReleaseIsSafe | src/cxl_shm.cpp:253-256 | at a release no slot, pending link or other operation refers to the object, it is not free already and nobody else will release it |
| RefRelease.NothingLost | src/cxl_shm.cpp:218-258 | the invariant that an object without a count is free, in one client's charge, or left to the search for leaked blocks is kept over every run |
| RefRelease.LeftIsDead | src/recovery.cpp:253-263 | what recovery leaves to that search is dead for good: never again a count, a committed reference, an owner, or a place among the free |
| RefLost.LossExact | src/cxl_shm.cpp:253-256 | in every run, when the monitor turns to the references of a client, an object is left to the search for leaked blocks if and only if the client stopped between its CAS on the last count and the hand-over, or between storing a root slot and stamping the block |
| RefLost.FreeOrLost | src/cxl_shm.cpp:253-256 | an object without a count and with nobody in charge is free if and only if it is not left to that search |
| RefLost.LossHappens | src/cxl_shm.cpp:250-256 | a run from the start in which an object is left so |
| RefEras.ZeroCountIsInCharge | src/cxl_shm.cpp:218-258 | from the start: an object whose count is 0 is free, left to the search for leaked blocks, or somebody is in charge of its release |
| RefEras.EraBounds | src/cxl_shm.cpp:168-204 | no word or foreign row carries an era above its client's own; words carry the own era only between CAS and bump; rows hold published eras only |
| RefEras.ErasGrow | src/cxl_shm.cpp:182-187 | no cell of the era matrix ever decreases |
| RefRedoLog.RedoSelectsLast | src/recovery.cpp:190-197 | the scan of the eight lines picks the last record written since the lines were wiped, through era gaps, retries and slot reuse |
| RefRedoLog.RunSelects | src/page.cpp:11-17 | the same from any reachable state, with wipes in between |
| RefLimits.TornReadExact | src/recovery.cpp:201-207 | the two separate loads claim a CAS that did not happen if and only if another client's word with that era came in between |
| RefLimits.TornReplay | src/recovery.cpp:222-225 | whenever the two loads claim a match for an operation that did not happen, the replay makes counts and slots disagree |
| RefWitness.TornReadHappens | src/recovery.cpp:201-207 | a run from the start in which that happens |
| RefLimits.StaleReplayExact | src/recovery.cpp:198-252 | whatever the others are doing, replaying the record of a closed operation keeps the account of counts and slots if and only if it does not change the slot |
| RefWitness.StaleReplayHappens | src/recovery.cpp:225-252 | a run from the start in which a reused root slot is zeroed and an object keeps a count nobody holds |
| RefClosed.ClosedLinkLooksCommitted | src/recovery.cpp:198-221 | in every run, as long as the newest record of a client is of a link, the evidence for its CAS stays after the link was closed, whatever becomes of object and slot |
| RefLimits.RecoveryRestamps | src/recovery.cpp:469-498 | when the monitor begins to unlink, the client's era is already published if and only if redo found it between CAS and bump |
| RefRestamp.RestampMidway | src/recovery.cpp:198-252 | a run from the start to such a state |
| RefRestamp.StampRepeated | src/recovery.cpp:469-498 | a run from the start after which the monitor's CAS publishes a stamp a second time |
| RefRestamp.AbaHappens | src/recovery.cpp:469-498 | a run from the start after which another client's CAS takes the repeated word for the one it loaded |
| RefInfo.PackReads | include/cxlmalloc-internal.h:132-153 | packing and unpacking are inverse for fields that fit |
| RefInfo.UpdateExact | include/cxlmalloc-internal.h:132-135 | a count plus or minus one leaves the other fields intact if and only if it stays a 16-bit count |
| RefInfo.PackCarry | include/cxlmalloc-internal.h:132-135 | count 65535 plus one carries into the client id |
| RefInfo.PackBorrow | include/cxlmalloc-internal.h:132-135 | count 0 minus one borrows from the client id |
| RefInfo.SameWord | src/cxl_shm.cpp:199-199 | comparing packed words is comparing their fields |
| RefInfo.PackedStamp | src/cxl_shm.cpp:196-196 | the packed new word is the protocol's stamp |
| RefInfo.GuardExact | src/cxl_shm.cpp:196-199 | with the word unchanged, a CAS of the machine is possible if and only if the packed new word reads back as its three fields |
| RefInfo.RunFits | src/cxl_shm.cpp:168-204 | in every run every word fits its fields |
| RefInfo.EraCells | src/cxl_shm.cpp:263-267 | distinct pairs of ids have distinct cells inside the matrix; row 0 lies below it |
| ObjectGraph.DropSound | src/cxl_shm.cpp:208-258 | an unlink keeps counts equal to in-degrees, provided the last reference goes after the children |
| ObjectGraph.Resume | src/cxl_shm.cpp:269-297 | a release that stopped half-way, followed by a sweep of root slots with this one among them, is that sweep |
| ObjectGraph.SweepOn | src/recovery.cpp:284-303 | sweeping some slots and then others is sweeping all of them |
| Tracing.LiveReachable | src/cxl_shm.cpp:269-297 | in a sound acyclic graph what has a count can be reached from a root slot |
| Tracing.ReleaseIsTracing | src/recovery.cpp:284-303 | after the release of any set of slots exactly the objects still reachable without them have a count, and it is their in-degree |
| Tracing.ReleaseIsUnique | src/recovery.cpp:284-303 | slots and counts after a sweep depend neither on the order of the slots nor on interruptions |
| Cascade.ChildDone | src/cxl_shm.cpp:287-294 | releasing one child brings the emptying of its parent one step on |
| Cascade.Finish | src/cxl_shm.cpp:295-296 | the last reference goes when the children are gone, and completes the release |
| Cascade.FreedTrans | src/cxl_shm.cpp:253-256 | what two releases in a row hand to the allocator is distinct, and with what they left it is all that died |
| SharedMemory.Shm.CompareExchangeWeak | src/cxl_shm.cpp:199-199 | swaps only on equality, may fail without reason |
| SharedMemory.NoneHidden | src/cxl_shm.cpp:182-188 | a word may be overwritten once its era is in the row of the client that does it: every record of another client that the monitor would have replayed it still replays |
| SharedMemory.SeenTrans | src/cxl_shm.cpp:182-188 | over several updates, what a client's row gained about others is an era that some word carried before the first of them |
| SharedMemory.Shm.LogAndTry | src/cxl_shm.cpp:168-199 | the retry loop ends with the client's stamp on the word, its record in its line, and the era it saw on the word in its row, where nothing else changed; stopped earlier, words and slots are as before and redo has nothing to do; no other client's commit is hidden |
| SharedMemory.Shm.LinkReference | src/cxl_shm.cpp:157-206 | a link counts the reference, logs it and costs one era; stopped anywhere, after redo it is made completely or not at all; the era it saw is in its row before the word is overwritten, so that no other client's commit is hidden |
| SharedMemory.Shm.UnlinkReference | src/cxl_shm.cpp:208-258 | an unlink drops the reference, logs it, costs one era and hands over an object without count; stopped anywhere, after redo it is made completely or not at all; no other client's commit is hidden |
| SharedMemory.Shm.TestFree | src/cxl_shm.cpp:269-297 | terminates, releases exactly what hung from the slot, hands each dead object over once; the words of the objects that lost a reference carry the client's stamp or are wiped, all others are untouched, each reference costs an era, and no other client's commit is hidden; stopped anywhere, redo leaves a release under way whose rest hangs from the same slot, and at most the object of a record written during the release is dead and not handed over |
| SharedMemory.Shm.RedoRefCnt | src/recovery.cpp:186-266 | computes the replay of the newest record |
| SharedMemory.Shm.NeedsRedo | src/recovery.cpp:200-221 | the loop over the rows computes the decision |
| SharedMemory.NeedRedoExact | src/recovery.cpp:200-221 | the decision is to replay if and only if the word has the record's stamp or a row below 1024 has seen its era |
| SharedMemory.LastIdMissed | src/recovery.cpp:211-217 | values for which the count includes a reference and the record of its link is not replayed, as only client 1024 has seen the era |
| SharedMemory.Shm.ThreadInit | src/cxl_shm.cpp:44-71 | bumps the own era and changes no other cell; a new owner of an id can start with the redo lines of the old one if and only if their replay would change nothing |
| SharedMemory.Shm.RecoveryUnlinkReference | src/recovery.cpp:469-498 | drops one reference without a record: the era seen on the word enters the client's row, the client's era goes up by one, every other cell stays |
| SharedMemory.Shm.RecoveryTestFree | src/recovery.cpp:448-466 | completes the release of a slot and hands over all that died, while other root slots may hold objects that never got a count; such a slot is left alone; each reference dropped costs the client an era, and no word carries the client's era or a later one if none did before |
| SharedMemory.Shm.RecoverRoots | src/recovery.cpp:269-307 | after the sweep over a client's root slots, some of which may hold blocks never stamped: what has a count is exactly what the other root slots reach, and all that died was handed over, each object once; words of objects that lost no reference are untouched; no word carries the client's era or a later one if none did before |
| SharedMemory.SpendsOn | src/recovery.cpp:485-494 | unlinks made for a client one after the other: eras add up, and none of them publishes a stamp at or above the era they leave |
| Cascade.UnlinksOn | src/recovery.cpp:448-466 | the references that two releases in a row drop are distinct, and just the words of their objects are touched |
| SharedMemory.Shm.ReleaseWithRecovery | src/recovery.cpp:269-307 | released by the client, or by redo and the sweep after a crash at any point: what keeps a count is exactly what can be reached from the root slots that are left; nothing is handed over twice; an object that died is not handed over if and only if the newest record, written during the release, took its last count and the client had not handed it over; all along no other client's commit is hidden |
| RingTheorems.Keep | src/transfer.cpp:9-68 | every step of sending, receiving, crashing, replaying and recovering keeps the ring's invariant, unless a receive starts during the second scan or an outdated record is replayed |
| RingTheorems.FirstInFirstOut | src/transfer.cpp:22-64 | but for these two cases: what was received is a prefix of what was sent; at most 15 are queued; slots in [start,end) hold the next references in order unless released; outside only the slot at `end` may hold one, between S1 and S2 |
| RingTheorems.QueuedSlots | src/transfer.cpp:51-64 | without recovery, the slots in [start,end) are nonzero, all but the one at `start` between R2 and R3 |
| RingTheorems.FullTestExact | src/transfer.cpp:16-19 | the test on unsigned indices, and its two steps one after the other, answer full exactly if 15 are queued |
| RingTheorems.AliveInTransit | src/transfer.cpp:22-64 | but for these two cases a transferred object's count never touches 0 on its way |
| RingTheorems.AtMostOnce | src/recovery.cpp:309-364 | but for these two cases every reference is released from the ring at most once, and counts are exactly the references |
| RingTheorems.BothRecovered | src/recovery.cpp:309-364 | but for these two cases, with the sender recovered and no receiver left, in any order and from any crash points: all 16 slots are 0, every reference was released exactly once, and the ring keeps no count up |
| RingReplay.ReplayExact | src/recovery.cpp:222-225 | after the replay of the sender's newest record counts are the references if and only if the record is not outdated, which it is if and only if it is of a published reference that was released from the ring; then the slot holds a reference that is not counted |
| RingReplay.UnlinkReplayHarmless | src/recovery.cpp:249-252 | the replay of the receiver's newest record never changes a slot of the ring |
| RingStray.OutdatedIsFatal | src/recovery.cpp:309-364 | from every reachable state in which an outdated record is about to be replayed, unless the receiver's record is of the same queued slot, some continuation ends with both sides recovered, all slots 0 and the object's count one below the references that are left |
| RingStray.ReplaysCancel | src/recovery.cpp:222-252 | in that remaining case the receiver's replay restores the invariant and the counts, whatever happens before it |
| RingWitness.OutdatedHappens | src/transfer.cpp:22-64 | a run from the empty ring to such a state: one reference sent and received, and the sender stops |
| RingWitness.CancelHappens | src/transfer.cpp:58-64 | a run to the remaining case |
| RingTheorems.RacyIsFatal | src/recovery.cpp:322-332 | from every reachable state in which a receive can start during the second scan, some continuation releases a reference twice |
| RingTheorems.RaceReleasesTwice | src/recovery.cpp:322-332 | the steps that do it, and what they leave behind |
| RingWitness.DoubleReleaseHappens | src/recovery.cpp:322-332 | a run from the empty ring in which it happens |
| RingDelivery.RecoveredRingExact | src/recovery.cpp:353-362 | after recovery of a receiver some continuation receives something if and only if nothing was queued and the sender runs, or something was and the sender's newest record, not replayed yet, is of the slot at `start` |
| RingTheorems.RecoveredRingIsStuck | src/recovery.cpp:353-362 | with references queued, and no such record, no continuation receives anything |
| RingWitness.StuckHappens | src/recovery.cpp:353-362 | a run from the empty ring that ends so |
| RingSteps.PublishKeeps | src/transfer.cpp:27-27 | moving `end` keeps order and contents, and the position of any scan of the queued slots |
| RingSteps.AdvanceKeeps | src/transfer.cpp:64-64 | moving `start` past a released slot keeps order and contents, and what a scan has covered |
| MessageQueue.MessageQueue.SentTo | src/transfer.cpp:9-30 | appends unless 15 are queued; writes the slot at `end` and no other |
| MessageQueue.MessageQueue.CxlUnwrap | src/transfer.cpp:34-68 | takes the oldest and empties its slot, no other, or takes nothing if the queue or its first slot is empty; registers the first receiver |
| MessageQueue.MessageQueue.RecoverSender | src/recovery.cpp:312-333 | releases in ring order, once each, the slots from `end` to `start` and, without a receiver, the queued ones; leaves them empty and the others as they were |
| MessageQueue.MessageQueue.RecoverReceiver | src/recovery.cpp:353-361 | releases the queued references in order, once each, and leaves `start` and the slot at `end` |
| MessageQueue.MessageQueue.FirstScanFinds | src/recovery.cpp:313-320 | the first scan finds at most the reference linked and not published |
| MessageQueue.MessageQueue.ReceiveThenRecover | src/transfer.cpp:22-64 | a receive while the sender has linked a reference and not published it, then the sender's recovery: that reference is released, once, and what is queued stays |
| PageQueue.PageQueue.Push | src/page_queue.cpp:4-37 | prepends; first, last, next and prev agree with the sequence; other pages untouched |
| PageQueue.PageQueue.Remove | src/page_queue.cpp:39-77 | deletes the page at any position; its own links are wiped, other queues' pages untouched |
| PageQueue.OtherQueueKept | src/page_queue.cpp:4-77 | queues that share no page do not notice |
| PageQueue.WalkEnds | src/page.cpp:110-125 | following `next` from `first` visits the pages in order and ends at null |
| Layout.PageOfBlock | include/cxlmalloc-internal.h:109-125 | every byte of a block leads back to its segment and page descriptor: the offset's bits from 26 up are the segment, bits 16 to 25 the page |
| Layout.BlocksDisjoint | include/cxlmalloc-internal.h:116-125 | blocks do not overlap, within a page or across pages and segments |
| Layout.SweepMeetsBlocks | src/recovery.cpp:375-390 | the sweep by block size up to the last block meets exactly the blocks of the page |
| Layout.QueueRoundTrip | src/cxl_shm.cpp:301-314 | looking a queue up by the block size of its pages finds it again, the queue of 192-byte message queues included |
| Layout.RequestFits | src/cxl_shm.cpp:62-65 | a request up to 1024 bytes is served by the smallest class that holds it |
| Layout.RequestTooLarge | src/cxl_shm.cpp:314-314 | a request stays in the table of 66 queues if and only if it has at most 1024 bytes |
| BlockLists.OnePlace | src/page.cpp:33-104 | each block of a page in use is in one place, and if that is a list, once |
| BlockLists.PageAccount | src/page.cpp:33-104 | free list, local list and `used` add up to the page's capacity |
| BlockLists.UnusedPageIsHome | src/alloc.cpp:101-106 | when `used` is 0 no block of the page is live, waiting in the segment's list, or in a collector's hands |
| BlockLists.OpenKeeps | src/page.cpp:164-207 | laying out a page adds its blocks, all free, and keeps every other list |
| BlockLists.CloseKeeps | src/page.cpp:210-220 | wiping an unused page keeps every other list |
| BlockLists.HomeKeeps | src/page.cpp:77-102 | one step of the collecting walk moves a block to its own page's local list and uncounts it there once |
| PageLists.TakeKeeps | src/segment.cpp:29-35 | taking a free page keeps the segment counters exact |
| PageLists.GiveKeeps | src/page.cpp:222-224 | giving a page back keeps the segment counters exact |
| PageLists.ClaimKeeps | src/segment.cpp:71-102 | claiming a segment adds its 1023 usable pages to the free pages |
| PageLists.IdleSegmentIsFree | src/segment.cpp:110-115 | at counter 0 every page 1..1023 of the segment is in the free queue |
| PageLists.DropIsRemove | src/page_queue.cpp:39-77 | dropping a page from a sequence is what the linked queue does |
| Heap.Heap.SegmentAlloc | src/segment.cpp:40-103 | claims a free entry or changes nothing; a free entry is passed over only for a spurious failure, so that it fails only if none is free but those |
| Heap.Heap.SegmentPageAlloc | src/segment.cpp:4-36 | takes the first free page; if there is none, claims a segment, retries once and takes its page 1; fails only if no page is free and every free segment was passed over for a spurious failure, and then changes nothing |
| Heap.Heap.SegmentFree | src/segment.cpp:105-132 | unlinks each of the 1023 pages, which is found every time, and gives the segment back |
| Heap.Heap.PageInit | src/page.cpp:164-207 | the free list is null-terminated and has exactly the page's blocks, in order |
| Heap.Heap.PageFresh | src/page.cpp:139-161 | a fresh page, the first free one or page 1 of a new segment, is first in its queue with all blocks free; null only if there is neither |
| Heap.Heap.PageFree | src/page.cpp:210-233 | a page without used blocks leaves its queue, its descriptor wiped, and heads the free queue; its segment is given back, and all its pages leave that queue, exactly with its last page in use; no live block is lost |
| Heap.Heap.TakeBlock | src/cxl_shm.cpp:102-110 | hands out the first free block, which was in nobody's hands |
| Heap.Heap.CxlFree | src/alloc.cpp:75-133 | takes exactly that block out of the live ones; by the owner onto its page's local list, giving up the page exactly when its counter reaches 0, from the queue found by block size; by others onto the segment's list, still counted, with pages and segments untouched |
| Heap.Heap.ThreadFreeCollect | src/page.cpp:53-104 | every waiting block of the segment goes to its own page's local list; live blocks and free lists are untouched |
| Heap.Heap.PageFreeCollect | src/page.cpp:33-50 | the waiting blocks of the segment come home to their own pages; then an empty free list is replaced by the local list, and otherwise kept; if the page still has no free block, all its blocks are in somebody's hands |
| Heap.Heap.FindFree | src/page.cpp:107-135 | the first page of the class that has a free block after collecting: those before it in the queue have all their blocks in somebody's hands; a fresh page only if that is so for every page of the class; null only if moreover no page is free and every free segment was passed over for a spurious failure |
| Heap.Heap.BlockAlloc | src/alloc.cpp:4-31 | adds one block to the live ones, of the right class and inside its page, never one that was live: the first free block of the first page if it has one, without touching anything else; fails only if all blocks of the class are live, no page is free and no segment to be had |
| Heap.Heap.Conservation | src/page.cpp:53-104 | between operations `used` is the page's live blocks plus its blocks waiting in the segment's list |
| ThreadFreeSteps.Keep | src/alloc.cpp:121-130 | every step of pushing, collecting, allocating and releasing keeps the list's invariant under any interleaving |
| ThreadFreeSteps.PushesAccounted | src/alloc.cpp:111-130 | the list is an acyclic chain of exactly the waiting blocks; pushes = waiting + in the owner's hands + home, each once |
| ThreadFreeSteps.Quiet | src/page.cpp:66-104 | between collections counters are exact; with the list empty every push has come home |
| ThreadFreeSteps.UnusedPage | src/alloc.cpp:101-106 | in every state of every interleaving: when a page's `used` is 0 its blocks are all on its own two lists, none waiting, none held by a pushing client or by the collecting owner |
| ThreadFreeSteps.HomeToOwnPage | src/page.cpp:88-102 | a block comes home to its own page, whose counter loses one, though `next` is rewritten while walking |
| ThreadFreeProgress.PushFinishes | src/alloc.cpp:111-130 | nobody waits for anybody: a client that has begun to release a block gets it onto the list within five steps of its own, in front of what is there, whatever the others are in the middle of |
| ThreadFreeProgress.ReleaseFinishes | src/alloc.cpp:111-130 | every live block of the segment that nobody is releasing can be released so |
| ThreadFreeProgress.CollectFinishes | src/page.cpp:53-104 | in every reachable state the owner, at whatever point of a collection, ends with an empty list by its own steps, and then everything ever pushed has come home, with the clients' pushes left where they were |
| Allocation.AllocatedSound | src/cxl_shm.cpp:102-121 | stamping a blank block held by an empty root slot keeps counts equal to in-degrees and the graph acyclic |
| Allocation.AllocatedReach | src/cxl_shm.cpp:102-121 | without its root slot the new object changes nothing about what can be reached |
| Allocation.Allocation.BlockToRootRef | src/cxl_shm.cpp:123-139 | counts the root slot's block, takes it off its page, then marks it in use, in this order |
| Allocation.Allocation.LinkBlock | src/cxl_shm.cpp:92-100 | stores the block in the root slot; the handle is counted only after that |
| Allocation.Allocation.BlockToObject | src/cxl_shm.cpp:102-121 | counts the block, takes it off its page, spends the era, stamps, writes the number of embedded references, in this order |
| Allocation.Allocation.Malloc | src/alloc.cpp:33-73 | wherever the client stops: the root slot is empty, or holds the block without a count, or holds the stamped block, which is then off the free list with its era spent; counters, lists, marks and the handle are as far as that stage allows |
| Allocation.Allocation.MallocAndRedo | src/recovery.cpp:186-266 | stopped anywhere and replayed, the graph is sound, up to a root slot with a block that has no count, if and only if it is not the case that the block was stamped and the newest record empties its root slot; then the object keeps a count that no slot holds; no other client's commit is hidden |
| Allocation.Allocation.MallocWithRecovery | src/recovery.cpp:269-307 | stopped anywhere, replayed and swept, exactly what other root slots reach has a count, as if the allocation had not begun; what died was handed over once, and the block too if it was stamped, being off the free list |
| HashIndex.EntryInTable | src/hash_index.cpp:6-39 | the entry is the word that the key's low 17 bits number in the partition's megabyte, and lies in the table if and only if its partition is one of the first 64; otherwise it lies in the segments |
| HashIndex.HashIndex.Walk | src/hash_index.cpp:8-17 | terminates at the node with the key or after the last node of the chain |
| HashIndex.HashIndex.Put | src/hash_index.cpp:4-33 | updates the map at (writer's partition, key) and nowhere else; chains stay acyclic with distinct keys |
| HashIndex.HashIndex.Get | src/hash_index.cpp:35-51 | looks the key up in the partition with the number of its top byte, if there is one |
| HashIndex.HashIndex.PutThenGet | src/hash_index.cpp:4-51 | for every key of a top byte and 56 low bits: what a client puts, get returns exactly if the top byte is the client's id minus 1; otherwise get returns what it returned before, if the top byte is below 64 |
| HashIndex.PutsThenGet | src/hash_index.cpp:4-51 | after any sequence of puts, get finds a key that the writer whose id is its top byte plus 1 has put, returns the value of that writer's newest put, and, with a top byte below 64, finds no other key |

## Left out

- RingTheorems.Keep: not for a receive that starts during the monitor's second scan, nor for the replay of an outdated record, where the invariant is lost (`RacyIsFatal`, `OutdatedIsFatal`).
- RingTheorems.AtMostOnce: not for these two cases; `ReplayExact` says exactly when the second one breaks it. The same goes for `BothRecovered`, `FirstInFirstOut` and `AliveInTransit`.
- RefTheorems.Keep: not for a torn load that misleads the monitor and a stale replay that changes a slot, which `Calm` excludes and after which counts and slots disagree; `TornReadExact` and `StaleReplayExact` say exactly when they occur.
- SharedMemory.Shm.TestFree: one active client, as two clients that both see count 2 skip the children (src/cxl_shm.cpp:279-285); the replay of the client's newest record must not change anything when the release starts, as it would if the client stopped at once.
- Allocation.Allocation.MallocWithRecovery: not after a stale record for the root slot, where `MallocAndRedo` shows the object to be lost; the two pages are the heads and counters the call touches, not the pages of `Heap`.
- Heap.Heap.BlockAlloc: the memory for page and block headers is the model's maps, not bytes; the page queues appear as sequences, which `PageQueue` shows the links to implement.
- Heap.Heap.CxlFree: in this class other clients' pushes happen between operations; the interleaving of pushes and a collection is the subject of `ThreadFree`.
- HashIndex.HashIndex.Get: for a top byte of 64 or more it promises nothing, as the code reads words of the segments; `EntryInTable` says that exactly these are outside the table.
- HashIndex.HashIndex.Put: the node's allocation is a parameter, and its count and stamp are not part of this class; crash behaviour of `put` is not modelled, as it stamps without bumping the era.
- The POTENTIAL_LEAKING branch, which a shift of a 16-bit value keeps from ever being taken (src/recovery.cpp:253), and the segment scan that looks for leaked blocks.
- Registration of a client, and the part of recovery that gives up the pages of root slots and object pages (src/recovery.cpp:282-307 and 366-446): loops over what is proved for one page and one queue.
- Handle counts of `CXLRef` (src/cxl_ref.cpp): copy and destruction would only add easy members; its moves and assignments neither clear the source nor release the old target.
- Requests above 1000 bytes of payload, which leave the table of queues (`RequestTooLarge`), and running out of segments, where the code uses a null page (src/page.cpp:148-150) and the model answers null.
- `normal_garbage_collection`, which repeats the recovery scans and has no caller.
- Mapping of the device, process and machine ids, cache-line flushes and fences, `check_tls`, and everything under test and script.
