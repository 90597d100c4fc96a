# Block I/O core of tapdisk, modelled and proved in Dafny

`tapdisk` is a single-threaded, event-driven block backend. A guest request is split into
pieces, pushed down a chain of image drivers, turned into asynchronous I/Os that are merged,
submitted and split again on completion, and answered. This project models the parts of it
that hold state between events, and proves what each keeps over every run, for every order of
completions and for every I/O error.

Check everything with `dafny verify dfyconfig.toml` (add `--resource-limit 2000000
--verification-time-limit 0` for the limits the proofs were written for).

## How it is built

**The VHD driver** (drivers/block-vhd.c), the main part.

- `VhdTypes`, `VhdEngine`: the driver as functions from state to state, one for each C function,
  with the same branches and errors, and the disk as a function from sectors to contents.
  An ASSERT that fails sets `panicked`. A step (`Next`) is a guest request, a submitted I/O reaching
  the disk, or a completion. A successful I/O reaches the disk at any moment before it completes; a
  failed one never does. The transaction code works on one block at a time (`Blk`), taken out of
  the state by `At` and put back by `Put`.
- `VhdInvariants`, `VhdStructure`, `VhdSafety`: the in-memory invariant, kept by every step.
- `VhdAccounting`: where every sector of every request is.
- `VhdLayout`, `VhdMoves`, `VhdDisk`, `VhdDurability`, `VhdLanding`, `VhdServing`: what the disk holds at every
  moment, relative to memory and to the history of answers.
- `VhdTracking`: the part of that which every failure keeps: where extents are, the BAT, and the bitmaps.
- `VhdTheorems`: the results for all runs. `VhdCounterexample`: why durability has a condition, and that the
  condition is exact. `VhdReads`, `VhdReadback`, `VhdMoments`: what a read forwards, reads and returns, with
  writes in flight. `VhdTurns`: what one turn of the two loops does, and when it refuses, in terms of the fields of the
  state. `VhdErrors`, `VhdAnswers`: where the errors of answers come from. `VhdLocks`: that no bitmap stays locked for
  nothing and some I/O is always on its way. `VhdStill`: sectors that no write is on its way to. `VhdTickets`: the reads
  on a driver's lists, one by one. `VhdOpen`: where the first free block is.
- `VhdDriver`: class `Driver`, whose fields its methods update in place as the C code does. Each method
  is proved to do what its function in `VhdEngine` does, so that the results hold of it; `Turn` says so for
  one event.

**The virtual disk** (drivers/tapdisk-vbd.c): `TapdiskVbd` (what happens to one request, with
completions nested to any depth), `TapdiskEnds` (with which error it ends, and whether it is tried again),
`VirtualDisk` (class `Vbd`), `TapdiskKick` (the response loop).

**Both together.** `VhdChain`: over a chain of images that the VHD driver serves, what the drivers do with a read is
a plan that the virtual disk can follow. `ChainTickets`: which driver holds which piece. `ChainStack`, `ChainSteps`,
`ChainWake`: one state machine (`Stack`) of the virtual disk's reads and all the drivers. A ticket is a piece that the
virtual disk counts as held, with the driver's number of the request; the tickets are exactly the reads on the drivers'
lists. A read is *steady* as long as no write of its sectors has been in flight since it was issued. `ChainRun`: its
runs, with what a guest gets from a read (`GuestReads`). `ChainStored`: a run that reads a stored sector. `ChainEnds`:
which reads are tried again (`RetryLaw`). `ChainDisk`: an object of class `Vbd` on top of the drivers
goes through the same states, so that its preconditions are met.

**The block cache** (drivers/block-cache.c): `RadixTree`, `RadixPrune` (the steps on the tree, and what pruning
and deletion mean), `BlockCache` (class `Cache`), `CacheReads` (class `Reader`: misses in flight). Nodes are named by
the path that leads to them.

**I/O merging and queueing** (drivers/io-optimize.c, drivers/tapdisk-queue.c): `IoOptimize` (class `Context`, with
the pool of records), `TapdiskQueue` (class `TQueue`).

**The VHD index** (vhd/vhd-index.c): `VhdIndex`. **The rate limiter** (drivers/td-rated.c): `TailQueue` (the wait list,
with its pointers), `TokenBucket` (class `Limiter`). **The syslog ring** (drivers/tapdisk-syslog.c): `SyslogRing`.
`Arithmetic` holds the facts about division.

## Where the code differs from what one would expect

- The comment at drivers/block-vhd.c:35-50 says that the BAT entry is written after the data. The code
  starts the BAT write as soon as the zero-bitmap write is done (drivers/block-vhd.c:2110-2111), while data
  writes may be out. The model follows the code; crash ordering holds because the bitmap, not the BAT entry,
  is written after the data.
- When the zero-bitmap write fails, the BAT lock is dropped (drivers/block-vhd.c:2105-2109) even if data writes of the
  transaction may still reach the disk; the next allocation may reserve the same extent, and a late write then destroys
  data already answered with success. `VhdCounterexample.ZeroFailureDecides` says that these failures, and only these,
  endanger acknowledged data: `LeavesWritesBehind` holds if the completion has an error and some write of the
  transaction has neither landed nor finished. Writes that have landed and only wait for their completion do no harm.
  `Orderly` excludes exactly these failures from a run. No ASSERT fires and no request is lost in either case.
- `read_bitmap_cache` refuses a block only if it is greater than `max_bat_size` (drivers/block-vhd.c:1161-1165), one too
  far: block `max_bat_size` is let through (`VhdReads.RangeCheckExact`), and is then treated as one without extent, where
  the code reads beyond its array. `tapdisk_image_check_td_request` (drivers/tapdisk-image.c:96) refuses requests beyond
  the end of the disk, so that the driver never sees that block.
- `rlb_conn_close` takes the connection off the wait list whether it waits or not (drivers/td-rated.c:504-520). One that
  has never waited has pointers that were never set, and one that was served earlier has stale ones; to remove it may
  write through a null pointer, or cut other connections off the list (`TailQueue.StaleRemoveLosesOthers`). A client that
  disconnects while it does not wait, which is an ordinary event, does just that. `TailQueue.RemoveStale` gives the exact
  condition under which the list survives. The results about the list need it of each connection when it is closed
  (`CanHear`, `CanHearAll`); what is granted is bounded in every run, whatever becomes of the list
  (`TokenBucket.GrantBound`).
- The index tools take the block count of an image for granted. `vhd_index_clone_bat` walks all blocks of the child over
  a copy of its parent's table (vhd/vhd-index.c:564-571), and `vhd_index_add_bat` all blocks of each image over a table
  of the first's size (vhd/vhd-index.c:450-492): an image with more blocks takes them past the end of the array.
  `VhdIndex.Index.OverlayBat` and `AddBat` stop there and say so (`overrun`), if and only if it would happen.
- A file whose extents are not on page boundaries is opened like any other, but the page that a redundant bitmap write
  touches may then reach into the extent before it; `VhdOpen.PadStaysOut` says exactly when.
- A non-blocking `recv` that has nothing to read returns a negative count, which the remainder test of
  `rlb_conn_receive` converts to unsigned (drivers/td-rated.c:522-545); the connection is closed, as in the model.
- `radix_tree_add_leaf` stamps a link and then, if a page has to go, clears it with its time
  (drivers/block-cache.c:321-351); the new leaf then looks idle to the next prune.
- The limit of the cache is 10 << 20 bytes (drivers/block-cache.c:62), where the comment beside it says 100MB.
- Completions serve newcomers first: what a callback queues takes the room that completions have made before what was
  deferred earlier moves up (drivers/tapdisk-queue.c:446-457, 672-678); `TapdiskQueue.TQueue.Completed` gives the order.
- A message longer than the packet size without a NUL would be cut in two when read back
  (`SyslogRing.ReadsBack`); `tapdisk_syslog_vsprintf` never makes one.

## Assumptions

- Geometry: a bitmap is no longer than a page, a block is a whole number of pages and of bytes of bitmap. `padbm_size`
  (drivers/block-vhd.c:543-545) is computed for such disks.
- A disk is opened with a well-formed file: extents that do not overlap, on page boundaries, initialised bitmaps,
  a batmap that marks only full blocks.
- The outcome of a synchronous write is a parameter of the disk; so are the answers of drivers (`Plan`), the results of
  sends and of `select`, and all times, which do not decrease.

## Model

| member | source | states |
|---|---|---|
| VhdTheorems.NoAssertionFires | drivers/block-vhd.c:929-1146 | In every state of every run, whatever the interleaving and whatever I/Os fail, no ASSERT has fired; cached plus free bitmaps are the cache size, and free, in-flight, transaction, queue and waiting requests add up to the pool. |
| VhdTheorems.ExactlyOnce | drivers/block-vhd.c:1733-1917 | Every sector of every guest request is, at every moment, in exactly one place: on one list, or in one answer or forward of the history; a sector nobody asked for is nowhere. |
| VhdTheorems.AllAnswered | drivers/block-vhd.c:1892-1917 | When every pool request is free again, every sector of every request has been completed or forwarded exactly once. |
| VhdTheorems.StagedBitmap | drivers/block-vhd.c:1919-2042 | Of a valid cached bitmap: `shadow` is `map` plus the sectors of the finished error-free writes of its transaction; it is `map` when no transaction is live; and while the bitmap write is out every write of the transaction has finished. |
| VhdTheorems.Durability | drivers/block-vhd.c:35-50 | After any orderly run, a sector whose write was answered with error 0 is found through the BAT, the bitmap and the data on the disk alone; what is found was written for that sector by a write not answered before the acknowledged one was issued. |
| VhdTheorems.LastWriteFound | drivers/block-vhd.c:1544-1610 | If every other write of the sector had been answered before the acknowledged write was issued, the data on the disk is that write's. |
| VhdTheorems.CrashOrdering | drivers/block-vhd.c:1329-1351 | At every moment of every run, whatever fails, a BAT entry on the disk points at an initialised bitmap without a bit beyond the block. As long as the run is orderly, every bit set there has its sector's data in place, put there by a data write that has completed (or from before the disk was opened). |
| VhdTheorems.LockedElsewhere | drivers/block-vhd.c:1401-1432 | In every run, whatever fails, an entry of the in-memory BAT is on the disk, unchanged, at every moment: a BAT write on its way is only ever for a block with no entry yet. |
| VhdTheorems.BatmapFull | drivers/block-vhd.c:1032-1043 | In every run, whatever fails, a block marked in the batmap has its BAT entry on the disk and an all-ones bitmap behind it. |
| VhdTheorems.ExtentsApart | drivers/block-vhd.c:1276-1290 | In every run, whatever fails, the extents of two blocks, allocated or being allocated, never share a sector, including the page that a redundant bitmap write touches. |
| VhdTheorems.StepAccounts | drivers/block-vhd.c:1892-1917 | One step of the driver or of the disk keeps exactly-once accounting for all requests and sectors at once. |
| VhdTheorems.StepOnDisk | drivers/block-vhd.c:2260-2311 | One step keeps the whole relation between memory, disk and history that the durability results rest on, except a zero-bitmap failure that leaves writes behind. |
| VhdTheorems.OpenedOk | drivers/block-vhd.c:415-572 | A freshly opened well-formed disk satisfies every invariant. |
| VhdTracking.StepTracked | drivers/block-vhd.c:2260-2311 | Every step, also a zero-bitmap failure that leaves writes behind, keeps the layout of the file, the BAT on the disk, the bitmap that memory expects on the disk for every block, and the bits of all that has been acknowledged. |
| VhdTracking.OnDiskTracked | drivers/block-vhd.c:2260-2311 | The relation of an orderly run implies that one. |
| VhdCounterexample.ZeroFailureDecides | drivers/block-vhd.c:2084-2115 | In every state that an orderly run can reach, with another block without extent and room to write to it: after the completion of the zero-bitmap write every orderly continuation keeps all acknowledged writes recoverable from the file if and only if the completion does not leave behind a write of its transaction that may still reach the disk. |
| VhdCounterexample.FailureDestroys | drivers/block-vhd.c:2105-2109 | From any state that satisfies the invariants, if it does leave such a write behind, ten further steps, all orderly, end with an acknowledged sector whose data on the disk is another sector's. |
| VhdCounterexample.LateWriteDestroysData | drivers/block-vhd.c:2105-2109 | On every disk without preallocation that has two blocks of the disk without extent, two bitmaps and two requests, a run of twelve steps from the opening, with that one failure, destroys an acknowledged write. |
| VhdCounterexample.SmallDisk | drivers/block-vhd.c:415-572 | There is such a disk: two blocks of eight sectors. |
| VhdReadback.AckedNeverForwarded | drivers/block-vhd.c:1733-1805 | In every run, whatever is in flight and whatever fails: once a write of a sector has been answered with success, no read of that sector is ever forwarded to the parent. |
| VhdReadback.AckedIsServed | drivers/block-vhd.c:1744-1800 | In every state of every run, a turn of a read whose span covers an acknowledged sector parks the span, or reads the sector at its place in the file; if the run has been orderly, the data there is as new as that write. |
| VhdReadback.ReadFindsRecovered | drivers/block-vhd.c:1499-1542 | In every run, when a data read reaches the file, it takes for every sector what lies where the BAT and the bitmap on the disk say; if the run has been orderly, that is what can be recovered, data of the sector. |
| VhdReadback.ReadIsCurrent | drivers/block-vhd.c:2212-2219 | A data read completed with success has found, for every sector, data of that sector, by a write not answered before any write that was acknowledged before the read was issued. |
| VhdMoments.ReadReturnsMoment | drivers/block-vhd.c:2212-2219 | In every run, a data read completed with success returns, for all its sectors, what the BAT and the bitmap on the disk led to at one and the same moment after it had been issued; if the run was orderly until then, it is data of those sectors. |
| VhdMoments.LandsFound | drivers/block-vhd.c:1499-1542 | The moment at which the read reaches the file is such a moment. |
| VhdMoments.ServeNone | drivers/block-vhd.c:1733-1890 | Serving a request, of either kind, submits only requests that have not reached the file. |
| VhdReadback.StepSees | drivers/block-vhd.c:2260-2311 | Every step keeps what the reads rest on: between the landing and the completion of a bitmap write, memory still has the bits of all that is acknowledged, read or rewritten. |
| VhdChain.ServeReadOk | drivers/block-vhd.c:1733-1805 | By induction over the read loop and the chain, over images in any state: a read of any length at any image gives a plan that deals with every sector once, asks parents only for what they have, completes nothing by itself without error, and, if no transaction is writing its sectors, is honest about what the files hold; the driver's state is that of the loop, its history has exactly the plan's answers and forwards, and its lists have exactly the spans the plan holds. |
| VhdChain.AskOk | drivers/tapdisk-vbd.c:957-1012 | A new request to any image of the chain: the same, and every image asked is again in a state that satisfies the invariants. |
| VhdChain.AskBelowOk | drivers/tapdisk-vbd.c:966-1006 | A forwarded span: the parent is asked for what lies within it, once, or nobody is. |
| VhdChain.ChainAnswers | drivers/tapdisk-vbd.c:1077-1168 | Over a chain of sound VHD images all pieces of a read have plans that fit, which is what issuing it requires; they are honest if no transaction is writing its sectors; and afterwards the images are sound, and only read. |
| VhdChain.WokenServed | drivers/block-vhd.c:2160-2175 | A read that waited for a bitmap is served again with a plan that fits, and is honest if no transaction is writing its sectors by then, whatever requests were served before it; and the loop over the waiting requests goes on from there. |
| VhdChain.CompletionServed | drivers/block-vhd.c:2212-2219 | The completion of a data read, with any outcome, is a plan that fits and is honest: the image holds the sectors; with error 0 the data is current. |
| VhdChain.HonestSame | drivers/tapdisk-vbd.c:957-1012 | Whether a plan is honest depends only on what the images from its own on hold of its own sectors. |
| VhdChain.RunIsSound | drivers/block-vhd.c:2260-2311 | Every state of an orderly run satisfies what the chain results ask of an image. |
| VhdStill.StepStill | drivers/block-vhd.c:2260-2311 | A sector of which no write is on any list stays such a sector over every step but the request of a write of it. |
| VhdStill.StepRecovers | drivers/block-vhd.c:2260-2311 | What can be recovered of such a sector is the same after any step: no write of another sector, bitmap, BAT entry or new extent changes it. |
| VhdTickets.PlainReads | drivers/block-vhd.c:2260-2311 | A step that is not the request of a read, the completion of one, or of a bitmap read, neither adds a read to the lists of the driver nor takes one away. |
| VhdTickets.TurnReads | drivers/block-vhd.c:1744-1800 | A turn of the read loop adds its span to the lists, once, if it neither fails nor forwards it, and else adds nothing. |
| VhdTickets.DoneReads | drivers/block-vhd.c:2117-2219 | A completion takes just that read off. |
| VhdTickets.ReadsOnce | drivers/block-vhd.c:1733-1805 | The same read is never on the lists twice. |
| ChainTickets.ServeTicketsHeld | drivers/tapdisk-vbd.c:957-1069 | The tickets given out while a read is served, at an image and below it, are for exactly the pieces that the plan leaves with drivers. |
| ChainTickets.ServeDraws | drivers/tapdisk-vbd.c:957-1069 | At every image of the chain the lists grow by exactly the reads that the tickets are for. |
| ChainTickets.PiecesDraw | drivers/tapdisk-vbd.c:1112-1150 | The same for all pieces of a request that is issued. |
| ChainSteps.StartOk | drivers/tapdisk-vbd.c:1077-1168 | Issuing a read, new or again, keeps the joint invariant: what the virtual disk counts as held is exactly what is on the lists of the drivers; every request waits for what is held of it; and of a read whose sectors have not been written since its issue, every sector has failed, is held, or is in the buffer as the youngest image has it. |
| ChainSteps.OtherOk | drivers/block-vhd.c:2260-2311 | So does any orderly step of a driver on its own: a write comes in, something lands, something completes that is not a read. |
| ChainSteps.FinishDeals | drivers/block-vhd.c:2212-2219 | The completion of a data read is honest also about what the images held when the read was issued, if its sectors have not been written since. |
| ChainSteps.FinishOk | drivers/block-vhd.c:2212-2219 | So does the completion of a data read, with any outcome: it is for exactly one held piece, and the data is what the image has. |
| ChainWake.RouseDeals | drivers/block-vhd.c:2160-2175 | So is the plan by which a waiting read is served again. |
| ChainWake.WakeRead | drivers/block-vhd.c:2160-2175 | A read that waited is served again, with the help of the images below: the pieces still held, and the requests that wait behind it, are again exactly those the drivers have. |
| ChainWake.AwokenOk | drivers/block-vhd.c:2136-2185 | So does the completion of a bitmap read, with any outcome and any requests waiting: each that is a read fails, or is served again, one after another; the driver ends in the state of its step. |
| ChainRun.ActOk | drivers/tapdisk-vbd.c:1077-1218 | Every act of the joint machine keeps the joint invariant. |
| ChainRun.RunOk | drivers/tapdisk-vbd.c:1077-1218 | Every state of every run of a virtual disk over freshly opened images satisfies it. |
| ChainRun.ReadGives | drivers/tapdisk-vbd.c:957-1030 | A steady read that has completed without error has in its buffer, for every sector, the data of the youngest image that has it, or zeros where none has. |
| ChainRun.SteadyStays | drivers/tapdisk-vbd.c:957-1030 | A read issued while no write of its sectors is in flight stays steady until one is requested, and what every image has of its sectors stays the same, whatever else the drivers do. |
| ChainRun.GuestReads | drivers/tapdisk-vbd.c:957-1030 | The guest reads what the chain has. In every run: a read issued while no write of its sectors is in flight, and completed without error before one comes in, gives for every sector the data of the youngest image that has it, or zeros where none has; and that has been the same from the issue on. |
| ChainRun.SomeRead | drivers/tapdisk-vbd.c:957-1168 | There are such runs: on any freshly opened image that holds nothing, a read of a sector within it is issued undisputed and completes without error. |
| ChainStored.SomeStoredRead | drivers/tapdisk-vbd.c:957-1168 | And on any freshly opened image with a free request, a sector that its file holds can be read: some run, through the bitmap if the block is not full, completes a read of it without error, and the guest gets its data. |
| ChainStored.ServeHeld | drivers/block-vhd.c:1755-1761 | The driver keeps a read of a sector that is not known to be missing, unless it refuses it. |
| ChainEnds.RetryLaw | drivers/tapdisk-vbd.c:880-909 | Which failed reads are tried again, in every run: one that has completed with an error has EPERM, ENOSYS, ESTALE or ENOSPC, or at some moment before the request was late or the disk was stopping; one that is to be tried again has an error, none of these, and at some moment was not late on a disk that was not stopping. |
| ChainEnds.ActRules | drivers/tapdisk-vbd.c:900-955 | Every act leaves each request as it is, new or pending, or decided as things stand at that moment. |
| ChainDisk.Issue | drivers/tapdisk-vbd.c:1077-1168 | Over the chain, the object may issue the read: its plans fit, and are honest where that is asked; it goes to the state of the joint machine. |
| ChainDisk.Join | drivers/tapdisk-vbd.c:1301-1310 | A read joins the object as it joins the joint machine. |
| ChainDisk.Disturb | drivers/block-vhd.c:2260-2311 | A step of a driver on its own: of the buffers of the reads whose sectors are to be written nothing more is said; the object goes to the state of the joint machine. |
| ChainDisk.Deal | drivers/tapdisk-vbd.c:1032-1069 | A driver deals with a held piece: the object goes to the state of the joint machine. |
| ChainDisk.FinishRead | drivers/block-vhd.c:2212-2219 | What the completion of a data read tells the object is what `Resume` requires; it goes to the state of the joint machine. |
| ChainDisk.ServeAgain | drivers/block-vhd.c:2160-2175 | So is what serving a waiting read again does with its piece. |
| VhdSafety.StepOk | drivers/block-vhd.c:2260-2311 | Every enabled step keeps the structural invariant: transactions, BAT lock, bitmap cache and pool fit together and no ASSERT fires. |
| VhdSafety.ServeOk | drivers/block-vhd.c:1733-1890 | Serving a whole request, span by span, keeps the structural invariant with any error on the way. |
| VhdSafety.ReadTurnOk | drivers/block-vhd.c:1744-1800 | One turn of the read loop keeps the structural invariant. |
| VhdSafety.WriteTurnOk | drivers/block-vhd.c:1818-1885 | One turn of the write loop keeps the structural invariant, in both allocation protocols. |
| VhdSafety.UpdateBatOk | drivers/block-vhd.c:1401-1432 | Starting an allocation with a zero-bitmap write keeps the structural invariant, and on success the block is cached with the lock held for it. |
| VhdSafety.AllocateBlockOk | drivers/block-vhd.c:1434-1497 | Preallocating a block keeps the structural invariant; if it succeeds the block has its bitmap and the lock. |
| VhdSafety.InstallBitmapOk | drivers/block-vhd.c:1068-1129 | A bitmap is installed by using a free one or evicting an idle one; an in-use bitmap is never evicted and no block gets two. |
| VhdSafety.VictimIdle | drivers/block-vhd.c:1045-1066 | The bitmap that the LRU search picks has no transaction, no queue, no waiting request and no I/O, and is not the block that holds the BAT lock. |
| VhdSafety.BitmapLoadedOk | drivers/block-vhd.c:2136-2160 | A bitmap that has been read becomes valid, with the requests that waited for it taken off its list and still in the pool's count. |
| VhdSafety.ReplayOk | drivers/block-vhd.c:2160-2185 | Serving the waiting requests again keeps the structural invariant and the pool's count, even if each of them starts new reads or is parked again. |
| VhdStructure.FinishDataTxOk | drivers/block-vhd.c:2029-2042 | Closing a completed transaction leads to a pending bitmap write, or through its failure to the next transaction, with no ASSERT firing. |
| VhdStructure.FinishBitmapTxOk | drivers/block-vhd.c:1986-2027 | Ending a transaction, however it ended, leaves the block's bitmap, transaction, queue and the BAT lock consistent. |
| VhdStructure.StartNewTxOk | drivers/block-vhd.c:1919-1958 | The writes queued meanwhile form a consistent new transaction, which may end at once if they have all finished. |
| VhdStructure.TxWriteDoneOk | drivers/block-vhd.c:2221-2258 | Finishing one data write keeps the block consistent, also when it is the last of its transaction. |
| VhdStructure.BitmapWrittenOk | drivers/block-vhd.c:2187-2210 | The completion of a bitmap write finds the transaction closed, and leaves the block consistent. |
| VhdStructure.ZeroWrittenOk | drivers/block-vhd.c:2084-2115 | The completion of the zero-bitmap write, failed or not, leaves the block consistent. |
| VhdStructure.BatWrittenOk | drivers/block-vhd.c:2044-2082 | The completion of the BAT write leaves the block consistent, in both protocols and on failure, when the lock stays until the transaction has drained. |
| VhdAccounting.StepTotal | drivers/block-vhd.c:1892-1917 | Over one step, the number of places of a sector of a request grows only by being requested. |
| VhdAccounting.ServeTotal | drivers/block-vhd.c:1733-1890 | Serving a request puts each of its sectors in exactly one place and leaves all others where they were. |
| VhdAccounting.ReplayTotal | drivers/block-vhd.c:2160-2185 | Serving waiting requests again moves each of their sectors to exactly one place. |
| VhdAccounting.DoneBitmapReadTotal | drivers/block-vhd.c:2136-2185 | A finished bitmap read, also one that failed, loses and duplicates no waiting request. |
| VhdMoves.FinishBitmapTxTracks | drivers/block-vhd.c:1986-2027 | When a transaction ends, the in-memory bitmap is what is on the disk, and writes are signalled with success only if their bits are there. |
| VhdMoves.TxWriteDoneTracks | drivers/block-vhd.c:2221-2258 | Finishing a data write, and what follows from it, keeps the bitmap on the disk the one memory expects. |
| VhdMoves.BitmapWrittenTracks | drivers/block-vhd.c:2187-2210 | After the bitmap write, committed and on-disk bitmap agree, whether it failed or not. |
| VhdMoves.ZeroWrittenTracks | drivers/block-vhd.c:2084-2115 | After the zero-bitmap write, failed or not, the block's bitmap on the disk is the one memory expects: empty, or none; unless a failure leaves writes behind, it has a place wherever it has writes to come. |
| VhdMoves.BatWrittenTracks | drivers/block-vhd.c:2044-2082 | After the BAT write the block's bitmap on the disk is still the expected one; the bitmap may have been written before or after. |
| VhdDurability.DoneTxD | drivers/block-vhd.c:2221-2258 | The completion of a transaction's data write keeps disk, memory and history consistent: what is signalled with success is stored. |
| VhdDurability.DoneQueueD | drivers/block-vhd.c:2235-2258 | The completion of a queued write keeps them consistent: it is only marked. |
| VhdDurability.DoneBitmapWriteD | drivers/block-vhd.c:2187-2210 | The completion of a bitmap write keeps them consistent: the writes it signals are stored. |
| VhdDurability.DoneZeroD | drivers/block-vhd.c:2084-2115 | The completion of the zero-bitmap write keeps them consistent unless it fails with writes left behind. |
| VhdDurability.DoneBatD | drivers/block-vhd.c:2044-2082 | The completion of the BAT write keeps them consistent, and on success the block's entry is in both BATs. |
| VhdDurability.DoneOtherD | drivers/block-vhd.c:2212-2258 | The completion of a read, or of a write outside transactions, keeps them consistent: its sectors' bits were set all along. |
| VhdLanding.LandTxD | drivers/block-vhd.c:1261-1274 | A data write of a transaction may reach the disk at any moment between its submission and its completion. |
| VhdLanding.LandQueueD | drivers/block-vhd.c:1261-1274 | So may a write that waits for the next transaction. |
| VhdLanding.LandRawWriteD | drivers/block-vhd.c:1598-1608 | So may a write to sectors whose bits are already set. |
| VhdLanding.LandReadD | drivers/block-vhd.c:1499-1542 | A data read may reach the disk at any moment: what it finds is current. |
| VhdLanding.LandPadD | drivers/block-vhd.c:1371-1399 | A redundant bitmap write may reach the disk at any moment: it changes no other block's sectors and finds its own bitmap full. |
| VhdLanding.LandBitmapD | drivers/block-vhd.c:1655-1694 | A bitmap write may reach the disk at any moment, before or after the BAT write: every bit it sets has its data in place. |
| VhdLanding.LandZeroD | drivers/block-vhd.c:1329-1351 | The zero-bitmap write may reach the disk at any moment: it changes nothing in use. |
| VhdLanding.LandBatD | drivers/block-vhd.c:1292-1327 | The BAT write may reach the disk at any moment: the entries of its sector are as they were, and the new one's bitmap is initialised. |
| VhdServing.RequestD | drivers/block-vhd.c:1733-1890 | A new guest request keeps disk, memory and history consistent. |
| VhdServing.ReadTurnD | drivers/block-vhd.c:1744-1800 | One turn of the read loop keeps them consistent: a data read goes to sectors whose bits are on the disk. |
| VhdServing.WriteTurnD | drivers/block-vhd.c:1818-1885 | One turn of the write loop keeps them consistent, in both protocols. |
| VhdServing.ReplayD | drivers/block-vhd.c:2160-2185 | Serving waiting requests again keeps them consistent. |
| VhdServing.ReserveD | drivers/block-vhd.c:1276-1290 | Reserving an extent and starting its zero-bitmap write keeps them consistent: the extent lies beyond all extents in use. |
| VhdServing.ExtentTakenD | drivers/block-vhd.c:1434-1497 | The synchronous zeroing of a preallocated extent keeps them consistent: it lies beyond all extents in use. |
| VhdServing.DoneBitmapReadD | drivers/block-vhd.c:2136-2185 | A finished bitmap read keeps them consistent: the bitmap in memory is the one on the disk. |
| VhdLayout.AllocateKeepsLayout | drivers/block-vhd.c:1276-1290 | An extent reserved at the end of the file is page aligned and apart from all others, and the file with it is laid out like before. |
| VhdLayout.AlignKeepsLayout | drivers/block-vhd.c:1450-1460 | Moving next_db to the aligned offset before the allocation is known to succeed is harmless. |
| VhdLayout.NextOffAligned | drivers/block-vhd.c:1276-1290 | The data of the next block starts on a page boundary, at most a page beyond next_db, and computing it twice gives the same. |
| VhdOpen.FindNextFreeBlock | drivers/block-vhd.c:383-405 | The loop over the BAT finds an offset at or beyond the end of every block, which is the end of the last one or of the headers; if the file also has its extents on page boundaries, the layout invariant holds from there. |
| VhdOpen.PadStaysOut | drivers/block-vhd.c:1371-1399 | Wherever the extents of a file are: the redundant bitmap write of one stays out of the extent before it if and only if the gap between them is at least what a page is longer than the bitmap. |
| VhdReads.ReadTurnReads | drivers/block-vhd.c:1733-1805 | Of a sector that no transaction is writing, whatever else is in flight: a turn of a read forwards its span only if the file does not hold the sector, or reads the sector where the file holds it, or parks the span until the bitmap has been read. |
| VhdTurns.ReadRefuses | drivers/block-vhd.c:1733-1805 | Exactly when a turn of vhd_queue_read is refused: with EINVAL just if the block lies beyond max_bat_size; with EBUSY just if the sector is not known to be missing, and either no request is free, or its bitmap has to be read and no bitmap is free or can be taken. Then nothing is answered, submitted or parked. |
| VhdTurns.ReadDoes | drivers/block-vhd.c:1733-1805 | What a turn that is not refused does, with the longest span of one kind: missing sectors are forwarded and take no request; stored ones add just one read, at their place in the file; of the others, the span waits last for the bitmap, which is being read. The bitmap looked at is the one used last, and BAT, lock and file are left alone. |
| VhdTurns.WriteExact | drivers/block-vhd.c:1807-1890 | The same of vhd_queue_write: which error it gives and when; and of a turn that is not refused, with the longest span of one kind, that stored sectors are written straight to their place, with the bitmap page before them just at the start of a full block when a request is left, that others join the open transaction of their block or wait for the next, and that those of which it is not known wait for the bitmap. |
| VhdTurns.AllocationExact | drivers/block-vhd.c:1401-1497 | Why a block cannot be given an extent: an earlier BAT write of it has failed (with preallocation), the synchronous write fails, or no bitmap can be had. Otherwise the lock is its own, for the next aligned place, and the zero bitmap or the BAT entry is on its way with the transaction waiting for it. |
| VhdTurns.InstallExact | drivers/block-vhd.c:1045-1130 | A bitmap cannot be had if and only if none is free and every cached one is locked or the one used last. A free one is taken first; else one goes that can, and than which none that can was used before. |
| VhdLocks.StepNeat | drivers/block-vhd.c:1986-2028 | A bitmap that a step leaves locked is in use. |
| VhdLocks.NoBitmapMeans | drivers/block-vhd.c:1045-1066 | So if no bitmap can be had for a block, all cached ones are in use, but perhaps the one used last. |
| VhdLocks.BatmapMarked | drivers/block-vhd.c:1986-2028 | A transaction that ends without error marks its block in the batmap if all whole bytes of the bitmap are set. |
| VhdLocks.NeverStuck | drivers/block-vhd.c:2260-2311 | As long as a request of the pool is taken, some I/O is on its way whose completion is enabled. |
| VhdErrors.StepEarned | drivers/block-vhd.c:1919-2115 | In every state that a step leads to, the error of a transaction is that of a failed write of its block's bitmap, zero bitmap or BAT entry, and the error of a write its own; the answers that a completion gives have no other errors. |
| VhdErrors.QueueToTxEarned | drivers/block-vhd.c:1919-1958 | The writes that waited behind a transaction become the next one, which starts with error 0 if the block has an entry, and with EIO if not; and then the BAT entry could not be written. |
| VhdErrors.ServeRefused | drivers/block-vhd.c:1799-1804 | A request whose turn is refused is answered, for all that is left of it, with the error of that turn, and no more of it is tried. |
| VhdErrors.ServeRefusals | drivers/block-vhd.c:1733-1890 | While a request is served, parts of it are answered only by refusing them. |
| VhdAnswers.ErrorsExplained | drivers/block-vhd.c:1892-1917 | Errors are never made up. In every run, an answer with an error is a refusal by a turn of a request that has just come in or whose bitmap has just been read, or has the error of the very I/O that completes; or, when a transaction ends, that of an earlier failed I/O of the same write or of the meta-data of its block. |
| VhdAnswers.NoErrorMadeUp | drivers/block-vhd.c:1892-1917 | In every run in which every completion so far and every synchronous write had error 0, an event with an error comes only from a request or a bitmap read, and is EBUSY or EINVAL. |
| VhdAnswers.TxErrorEarned | drivers/block-vhd.c:1919-2042 | In every state of every run, a transaction has an error only if such a write of its block has failed with it, and a write on its lists only if that write itself has. |
| VhdAnswers.RawAnswer | drivers/block-vhd.c:2117-2258 | A data read, and a write outside transactions, is answered with its own outcome; a redundant bitmap write answers nobody. |
| VhdAnswers.WaitersFail | drivers/block-vhd.c:2136-2185 | If a bitmap cannot be read, all that wait for it are answered, in order, with that error. |
| VhdAnswers.LocksExact | drivers/block-vhd.c:1004-1030 | In every state of every run, a cached bitmap is locked if and only if it is in use. |
| VhdAnswers.QuietAnswered | drivers/block-vhd.c:2260-2311 | In every state of every run: if no I/O is left that could complete, the pool is full, every sector asked for has been answered or forwarded exactly once, and no bitmap is locked. |
| VhdReads.MemoryIsDisk | drivers/block-vhd.c:1149-1221 | Of a sector that no transaction is writing, BAT, batmap and bitmap in memory say exactly what the disk says. |
| VhdReads.RangeCheckExact | drivers/block-vhd.c:1161-1165 | The range check lets a block past the end of the BAT through if and only if it is the first one past it; sectors within the disk never are. |
| VhdDriver.Driver.Turn | drivers/block-vhd.c:2260-2311 | One event: the state becomes the one the step function gives; no assertion fires, every request stays accounted for, and the disk stays consistent unless the zero-bitmap write left writes behind. |
| VhdDriver.Driver.Handle | drivers/block-vhd.c:2260-2311 | Dispatching an event to its handler has the effect of the step. |
| VhdDriver.Driver.constructor | drivers/block-vhd.c:520-572 | A driver starts with an empty cache, all bitmaps and requests free, and the BAT unlocked. |
| VhdDriver.Driver.QueueRead | drivers/block-vhd.c:1733-1805 | The read loop consumes spans until the request is served or fails, like the recursive Serve. |
| VhdDriver.Driver.QueueWrite | drivers/block-vhd.c:1807-1890 | The write loop likewise. |
| VhdDriver.Driver.ReadTurn | drivers/block-vhd.c:1744-1800 | The branches of one turn of the read loop. |
| VhdDriver.Driver.WriteTurn | drivers/block-vhd.c:1818-1885 | The branches of one turn of the write loop. |
| VhdDriver.Driver.ReadBitmapCache | drivers/block-vhd.c:1149-1192 | Lookup in the BAT, batmap and cache; touches the bitmap it uses. A bit is found only in a bitmap that is cached and valid, or in a full block. |
| VhdDriver.Driver.Span | drivers/block-vhd.c:1194-1221 | The length of a run of equal bits, within the request and the block; the bitmap is cached and valid, or not needed, wherever it is called. |
| VhdDriver.Driver.QueueRequest | drivers/block-vhd.c:1700-1731 | Parks a request on the waiting list, or EBUSY without a free request. |
| VhdDriver.Driver.ScheduleDataRead | drivers/block-vhd.c:1499-1542 | A data read at the block's place in the file. |
| VhdDriver.Driver.ScheduleDataWrite | drivers/block-vhd.c:1544-1610 | Allocates if needed, takes a request, and joins transaction or queue, or writes straight. |
| VhdDriver.Driver.SubmitWrite | drivers/block-vhd.c:1586-1608 | Where the write goes: transaction, queue, or, with a redundant bitmap write before a block's first sector, straight to the file. |
| VhdDriver.Driver.JoinTransaction | drivers/block-vhd.c:1586-1597 | Joins the open transaction, or the queue if it is closed; locks the bitmap. |
| VhdDriver.Driver.ScheduleRedundantBmWrite | drivers/block-vhd.c:1371-1399 | Writes the page that ends with the bitmap, if a request is free. |
| VhdDriver.Driver.ScheduleBitmapRead | drivers/block-vhd.c:1612-1653 | Installs a bitmap that is being read. |
| VhdDriver.Driver.ScheduleBitmapWrite | drivers/block-vhd.c:1655-1694 | Submits the shadow to the block's extent, or the reserved one. |
| VhdDriver.Driver.UpdateBat | drivers/block-vhd.c:1401-1432 | Allocation with a zero-bitmap write. |
| VhdDriver.Driver.ReserveAndZero | drivers/block-vhd.c:1276-1351 | Takes the lock, reserves the extent and starts the zero-bitmap write as part of the transaction. |
| VhdDriver.Driver.AllocateBlock | drivers/block-vhd.c:1434-1497 | Allocation with a synchronous write. |
| VhdDriver.Driver.ZeroNewExtent | drivers/block-vhd.c:1434-1478 | The synchronous write; next_db, blk and offset are set even if it fails. |
| VhdDriver.Driver.LockAndWriteBat | drivers/block-vhd.c:1479-1497 | Takes the lock and starts the BAT write as part of the transaction. |
| VhdDriver.Driver.ScheduleBatWrite | drivers/block-vhd.c:1292-1327 | Submits the BAT sector with the new entry. |
| VhdDriver.Driver.FindVictim | drivers/block-vhd.c:1045-1066 | Finds the least recently used unlocked bitmap, or that there is none. |
| VhdDriver.Driver.InstallBitmap | drivers/block-vhd.c:1068-1129 | A free bitmap or the victim becomes the block's. |
| VhdDriver.Driver.DropBitmap | drivers/block-vhd.c:1131-1146 | Frees a bitmap that must not be in use. |
| VhdDriver.Driver.Check | drivers/block-vhd.c:929-943 | The ASSERT macro. |
| VhdDriver.Driver.SignalCompletion | drivers/block-vhd.c:1892-1917 | Every request on the list is answered in order, with the list's error or its own, and freed. |
| VhdDriver.MoveQueue | drivers/block-vhd.c:1919-1958 | The queued writes become the new transaction in order; the finished ones are counted, and staged if they had no error. |
| VhdDriver.Driver.StartNewTransaction | drivers/block-vhd.c:1919-1958 | The queue becomes the next transaction, ended at once if complete. |
| VhdDriver.Driver.EndTransaction | drivers/block-vhd.c:1998-2016 | Shadow is committed or dropped, the batmap set if the bitmap is full, the writes signalled. |
| VhdDriver.Driver.FinishBatTransaction | drivers/block-vhd.c:1960-1984 | Gives up the lock, or keeps it and closes the transaction if the BAT write failed. |
| VhdDriver.Driver.FinishBitmapTransaction | drivers/block-vhd.c:1986-2027 | Waits for the BAT write, or ends the transaction and starts the next. |
| VhdDriver.Driver.FinishDataTransaction | drivers/block-vhd.c:2029-2042 | Closes the transaction; starts the bitmap write or fails it. |
| VhdDriver.Driver.FinishBatWrite | drivers/block-vhd.c:2044-2082 | The BAT write is done. |
| VhdDriver.Driver.FinishZeroBmWrite | drivers/block-vhd.c:2084-2115 | The zero-bitmap write is done: the BAT write starts, or the lock is dropped. |
| VhdDriver.Driver.FinishBitmapRead | drivers/block-vhd.c:2135-2185 | The bitmap is installed and the waiting requests served again, or all of them fail. |
| VhdDriver.Driver.ServeAgain | drivers/block-vhd.c:2160-2175 | The waiting requests are served again in order. |
| VhdDriver.Driver.FinishBitmapWrite | drivers/block-vhd.c:2187-2210 | The bitmap write is done. |
| VhdDriver.Driver.FinishTxWrite | drivers/block-vhd.c:2221-2258 | A data write of the transaction is done: counted and, without error, staged. |
| VhdDriver.Driver.FinishQueuedWrite | drivers/block-vhd.c:2235-2258 | A queued data write is done: only marked. |
| VhdDriver.Driver.FinishRaw | drivers/block-vhd.c:2117-2219 | A read, a straight write or a redundant bitmap write is done. |
| VhdDriver.Driver.BitmapFull | drivers/block-vhd.c:1032-1043 | Looks at the whole bytes of the bitmap. |
| TapdiskVbd.DeliverMoves | drivers/tapdisk-vbd.c:901-1012 | However deeply drivers complete, forward and split a piece within one call, `secs_pending` goes down by exactly the sectors that no driver still holds, and the request leaves the pending list exactly once, exactly when nothing is outstanding and no frame is open. |
| TapdiskVbd.ReissueMoves | drivers/tapdisk-vbd.c:957-1012 | The same for a piece forwarded to the parent, cut at the parent's end and zero-filled beyond it or past the last image. |
| TapdiskVbd.IssueMoves | drivers/tapdisk-vbd.c:1077-1168 | An issue takes the request onto the pending list once, and leaves it there exactly if drivers hold some of it. |
| TapdiskVbd.DeliverFills | drivers/tapdisk-vbd.c:957-1030 | If each driver completes only sectors its image holds and forwards only those it does not, every sector of a read is filled from the youngest image that holds it or with zeros, or a driver whose image should give it still has it, or the read has failed. |
| TapdiskVbd.IssueFills | drivers/tapdisk-vbd.c:1077-1168 | The same for all sectors of an issued read. |
| TapdiskVbd.ResumeFills | drivers/tapdisk-vbd.c:1032-1069 | The same when a driver later deals with a piece it held. |
| TapdiskVbd.Cut | drivers/tapdisk-vbd.c:976-997 | The part of a piece that lies within an image: all of it, or up to the end of the image, or nothing if it starts beyond. |
| VirtualDisk.Vbd.ReadReturns | drivers/tapdisk-vbd.c:957-1030 | A read that has completed without error returns, for every sector, the copy of the youngest image that held it when the read was issued, or zeros where none did or the chain is too short. |
| VirtualDisk.AllFilledAfterIssue | drivers/tapdisk-vbd.c:1077-1168 | After an issue, every read that has been issued is filled right, or a driver whose image should fill it still has it, or it has failed. |
| VirtualDisk.AllFilledAfterResume | drivers/tapdisk-vbd.c:1032-1069 | The same after a driver has dealt with a piece it held. |
| VirtualDisk.IssueQuiet | drivers/tapdisk-vbd.c:1077-1168 | After an issue every request waits for exactly the sectors that drivers hold of it. |
| VirtualDisk.ResumeQuiet | drivers/tapdisk-vbd.c:921-955 | After a driver has dealt with a piece every request waits for exactly the sectors that drivers hold of it. |
| VirtualDisk.SamePiecesFilled | drivers/tapdisk-vbd.c:921-955 | What happens to one request leaves the buffers of the others right. |
| VirtualDisk.Vbd.QueueRequest | drivers/tapdisk-vbd.c:1301-1310 | A request joins the disk as new. |
| VirtualDisk.Vbd.CompleteVbd | drivers/tapdisk-vbd.c:900-909 | Of a request of which nothing is outstanding: it is to be tried again if and only if its error is none of 0, EPERM, ENOSYS, ESTALE and ENOSPC, the disk is not stopping and the request is not late; otherwise it is completed. Any other request is left as it is. |
| VirtualDisk.ResumeDecides | drivers/tapdisk-vbd.c:911-955 | A request of which a driver has dealt with the last piece is decided: to be tried again just if its error may pass, the disk goes on and it is not late. |
| TapdiskEnds.DeliverDecides | drivers/tapdisk-vbd.c:911-1012 | So is one that a driver's plan, with all its nested forwards, leaves with nothing to wait for. |
| TapdiskEnds.IssueDecides | drivers/tapdisk-vbd.c:1077-1168 | So is one that an issue leaves with nothing to wait for; any other is pending. |
| TapdiskEnds.DeliverErrs | drivers/tapdisk-vbd.c:911-955 | A request keeps the error it has; if it has none, it gets the first one that the plan comes to, forwards included. |
| TapdiskEnds.IssueErrs | drivers/tapdisk-vbd.c:1077-1168 | The error of an issue: ENOSYS without images, EAGAIN if the queue is not ready, EINVAL past the end of the disk, and else the first one of its pieces, EINVAL for an empty one. |
| VirtualDisk.Vbd.CompleteTd | drivers/tapdisk-vbd.c:921-955 | Sectors are subtracted from request and disk, the first error is kept, and the request moves on if nothing is left and no frame is open. |
| VirtualDisk.Vbd.Deliver | drivers/tapdisk-vbd.c:1014-1069 | A driver's answers to a piece have the effect of the recursive function, and leave it the pieces it keeps. |
| VirtualDisk.Vbd.ForwardTd | drivers/tapdisk-vbd.c:1014-1030 | Forwarding asks the parent, or completes with EBUSY when the queue is not ready. |
| VirtualDisk.Vbd.AskParent | drivers/tapdisk-vbd.c:966-1006 | The parent is asked for what it has; the rest is zero-filled and completed. |
| VirtualDisk.Vbd.Reissue | drivers/tapdisk-vbd.c:957-1012 | Asks the parent within a submission frame of its own. |
| VirtualDisk.Vbd.CloseFrame | drivers/tapdisk-vbd.c:1006-1012 | Closing the last frame moves a request with nothing outstanding on. |
| VirtualDisk.Vbd.QueuePieces | drivers/tapdisk-vbd.c:1112-1150 | The pieces of a request are handed to the first image one after the other. |
| VirtualDisk.Vbd.IssueRequest | drivers/tapdisk-vbd.c:1077-1168 | An issue has the effect of the function and returns its error: ENOSYS, EAGAIN or EINVAL as the checks say, or else the first error that its pieces come to. A request left with nothing to wait for is to be tried again just if its error may pass, the disk goes on and it is not late, and any other is pending. The invariant is kept: the disk's count is the sum over its requests, every request waits for what drivers hold of it, and every read is filled right or being filled. |
| VirtualDisk.Vbd.Resume | drivers/tapdisk-vbd.c:1032-1069 | A driver deals with a piece it holds: it completes, forwards or splits it; the invariant is kept. The plan has to be honest about what the images held at the issue, unless nothing is said of the buffer, as after a write of its sectors; that the VHD drivers' plans are so is `ChainSteps.FinishDeals` and `ChainWake.RouseDeals`. |
| VirtualDisk.Vbd.IssueNewRequests | drivers/tapdisk-vbd.c:1232-1250 | New requests are issued in order, each once, up to the first that fails without being completed; no other request changes. |
| VirtualDisk.Vbd.Retry | drivers/tapdisk-vbd.c:1184-1214 | A failed request is left alone exactly if it waits for sectors or backs off, given up if the disk is being shut down, and else issued again with its error cleared. |
| VirtualDisk.Vbd.ReissueFailedRequests | drivers/tapdisk-vbd.c:1176-1218 | The failed requests are dealt with so, in order, each once, up to the first that fails again without being completed; no other request changes. |
| TapdiskKick.Kick | drivers/tapdisk-vbd.c:1312-1337 | The nested loop ends, with the callbacks that the recursive description gives. |
| TapdiskKick.KickToken | drivers/tapdisk-vbd.c:1318-1336 | One token's requests leave the list and are called back; the rest keeps its order. |
| TapdiskKick.CalledOnce | drivers/tapdisk-vbd.c:1312-1337 | Every completed request is called back exactly once, with its own error. |
| TapdiskKick.OrderKept | drivers/tapdisk-vbd.c:1312-1337 | The requests of one token are called back in the order of their completion. |
| TapdiskKick.FinalIsLast | drivers/tapdisk-vbd.c:1312-1337 | `final` goes to the last callback of each token and to no other. |
| RadixTree.CalculateHeight | drivers/block-cache.c:148-159 | The least height, at least 1, whose tree has a leaf for every sector. |
| RadixTree.DigitAt | drivers/block-cache.c:161-166 | The link index at each height is the sector's digit there. |
| RadixTree.DigitsInjective | drivers/block-cache.c:142-166 | Two sectors below the size of the tree with the same path are the same. |
| RadixTree.OnePage | drivers/block-cache.c:276-294 | At most one page covers a sector. |
| RadixTree.LeafIsSector | drivers/block-cache.c:296-319 | A leaf reached by walking down for a sector is that sector of its page. |
| RadixTree.RemovePageOk | drivers/block-cache.c:257-273 | Removing a page clears exactly its sectors' links; page owners and links stay a bijection and the sizes right. |
| RadixTree.AddChildOk | drivers/block-cache.c:192-205 | A new child node keeps the tree well formed and counted. |
| RadixTree.InsertLeafOk | drivers/block-cache.c:275-294 | The next sector of a page being added gets its link and its owner. |
| RadixTree.NewPageOk | drivers/block-cache.c:223-240 | A new page without links is counted and disturbs nothing. |
| RadixTree.FreeNodeOk | drivers/block-cache.c:207-221 | A node without links may be freed; only its parent's link still names it. |
| RadixPrune.LeafBranch | drivers/block-cache.c:379-399 | Deleting a leaf removes its page whole, also from the leaf nodes next door. |
| RadixPrune.AllDeleted | drivers/block-cache.c:379-399 | Once all links of a node are dealt with, exactly the pages that reached below it and the nodes below it are gone. |
| RadixPrune.PrunedFresh | drivers/block-cache.c:407-450 | A fresh link: pages below it survive just if they are fresh from there on. |
| RadixPrune.PrunedIdle | drivers/block-cache.c:407-450 | An idle link takes every page that reaches below it. |
| RadixPrune.AllPruned | drivers/block-cache.c:407-450 | When all links of a node have been looked at, its branch is pruned; if the node is empty it goes. |
| BlockCache.UsedSurvives | drivers/block-cache.c:411-470 | A page all of whose sectors were found less than the idle time ago survives a prune. |
| BlockCache.ReplacedIsIdle | drivers/block-cache.c:321-351 | A page whose link was taken from another page is idle to the next prune, unless the clock has just started. |
| BlockCache.IdleGoes | drivers/block-cache.c:411-470 | A page goes if one link on the way to one of its sectors, at any height of the tree, was last used IDLETIME or more before now. |
| BlockCache.StaysUsed | drivers/block-cache.c:411-470 | What pruning leaves is what was used recently, sector by sector and link by link. |
| BlockCache.HoldsOne | drivers/block-cache.c:296-319 | The cache holds at most one value for a sector. |
| BlockCache.HoldsAfterAdd | drivers/block-cache.c:353-376 | After add_leaves the cache holds the new data for its sectors and, of the rest, exactly what it held in pages that were not replaced. |
| BlockCache.PrunedWhole | drivers/block-cache.c:411-470 | After a prune from the root exactly the pages all of whose links on all of their paths are fresh are left, unchanged. |
| BlockCache.Cache.constructor | drivers/block-cache.c:472-481 | An empty tree with its root. |
| BlockCache.Cache.FindLeaf | drivers/block-cache.c:296-319 | What the cache holds of the sector, or that no page has it; only link times change, to now, and after a hit those of all links on the way to the sector are. |
| BlockCache.Cache.RemovePage | drivers/block-cache.c:257-273 | The loop over the owners clears the page's links. |
| BlockCache.Cache.AddLeaf | drivers/block-cache.c:321-351 | The page gets the sector's link, stamped now, or with no time if another page had it; that page is gone, all of it; other pages are as they were. |
| BlockCache.Cache.TakeLeaf | drivers/block-cache.c:336-351 | The end of add_leaf, at the leaf link. |
| BlockCache.Cache.AllocateChild | drivers/block-cache.c:192-205 | A child node is linked in. |
| BlockCache.Cache.AddLeaves | drivers/block-cache.c:353-376 | A page with the data is added; exactly the pages that shared a sector with it are gone. |
| BlockCache.Cache.DeleteBranch | drivers/block-cache.c:378-399 | Everything that reaches below the node is gone, and nothing else. |
| BlockCache.Cache.DeleteLinks | drivers/block-cache.c:383-396 | The loop over a node's links, all of which lead nowhere afterwards. |
| BlockCache.Cache.Destroy | drivers/block-cache.c:401-405 | No node and no page is left, and both counts are zero. |
| BlockCache.Cache.PruneBranch | drivers/block-cache.c:407-450 | Of the pages that reach below the node exactly those fresh from there on are left; an empty node other than the root is freed. |
| BlockCache.Cache.PruneLink | drivers/block-cache.c:418-445 | One link of the pruning loop. |
| BlockCache.Cache.Prune | drivers/block-cache.c:455-470 | A page stays, whole, if and only if every link on the way to every one of its sectors was last used less than IDLETIME before now, and not after it. |
| BlockCache.Cache.QueueRead | drivers/block-cache.c:703-725 | A hit returns the parent's data for every sector and stamps the way to each; a miss means a sector is missing or the request is longer than a page. |
| BlockCache.Cache.Populate | drivers/block-cache.c:623-659 | The data of a read that the parent has completed without error enters the cache, which stays faithful to the parent. |
| CacheReads.CreditedOk | drivers/block-cache.c:623-638 | A piece completed by the parent, with any outcome and in any order, takes just its sectors off what the miss still waits for; as long as there is no error, all others are in the buffer as the parent has them. |
| CacheReads.Reader.constructor | drivers/block-cache.c:541-545 | All requests are free. |
| CacheReads.Reader.QueueRead | drivers/block-cache.c:662-725 | A hit is what the parent has. Else a sector is missing or the request is longer than a page, and it goes to the parent: with a request of the pool and a buffer, unless the cache with the new sectors would reach its limit, no request is free, or there is no memory. |
| CacheReads.Reader.Populate | drivers/block-cache.c:623-659 | With the last piece, and not before, the read is answered: with the first error, or with what the parent has for every sector, which then is in the cache; its request is back in the pool. No other read changes. |
| CacheReads.Reader.Enter | drivers/block-cache.c:640-653 | Unless there was an error the whole buffer enters the cache. |
| CacheReads.Reader.Prune | drivers/block-cache.c:487-496 | Pruning meanwhile leaves the reads in flight as they are and the cache faithful to the parent. |
| IoOptimize.GroupsFlatten | drivers/io-optimize.c:244-265 | Grouping a queue loses and reorders nothing. |
| IoOptimize.GroupsMaximal | drivers/io-optimize.c:195-265 | Every group continues in the file and in memory without a gap, and no group could have absorbed the next. |
| IoOptimize.RoundTrip | drivers/io-optimize.c:244-365 | Merging a queue and then splitting the events of the merged iocbs, or expanding them unsubmitted, gives back the queue in order, every iocb as it was prepared, and every record to the pool. |
| IoOptimize.SplitObjs | drivers/io-optimize.c:311-365 | In whatever order and with whatever results the events of merged iocbs come, those that hear of them are the members of their groups in order. |
| IoOptimize.SplitMember | drivers/io-optimize.c:311-365 | Every iocb that hears of an event belongs to a group released by it. |
| IoOptimize.SameOutcome | drivers/io-optimize.c:311-341 | Each member of a group hears its own length if the whole group was transferred, and otherwise the group's error. |
| IoOptimize.GroupHears | drivers/io-optimize.c:310-341 | Each member of a group hears its own length if the sum of the lengths was transferred, the error if there was one, and EIO if the transfer was short. |
| IoOptimize.AnswersAre | drivers/io-optimize.c:310-341 | The same of any list of members. |
| IoOptimize.ContiguousRange | drivers/io-optimize.c:195-240 | The members of a group are of one file and operation, and lie one behind the other in the file and in memory. |
| IoOptimize.MembersOfHeads | drivers/io-optimize.c:286-308 | Expanding the heads gives back the queue that was merged. |
| IoOptimize.AllBack | drivers/io-optimize.c:95-115 | When nothing is merged any more, every iocb is as prepared and the pool is full. |
| IoOptimize.Context.constructor | drivers/io-optimize.c:68-93 | All records are free. |
| IoOptimize.Context.Get | drivers/io-optimize.c:147-173 | The record of an iocb, taken from the pool if it has none; fails only if the pool is empty. |
| IoOptimize.Context.MergeTail | drivers/io-optimize.c:175-193 | The iocb joins the group of the head, whose length grows by its own; fails only if the pool is empty. |
| IoOptimize.Context.TryMerge | drivers/io-optimize.c:195-204 | Merges just if the operation and the file are the same, the iocb starts where the head ends, in the file and in memory, and the pool has a record. |
| IoOptimize.Context.Merge | drivers/io-optimize.c:244-265 | The queue is partitioned into groups in order, one head each; with enough records it is the greedy maximal grouping. |
| IoOptimize.Context.ExpandIocb | drivers/io-optimize.c:267-284 | The members of the group, restored, with their records back. |
| IoOptimize.Context.ExpandIocbs | drivers/io-optimize.c:286-308 | The suffix from idx on becomes the members of its groups in order; groups before it are untouched. |
| IoOptimize.Context.ExpandEvent | drivers/io-optimize.c:310-341 | One event for each member: with its own length if exactly the bytes of the group were transferred, with the error if there was one, and with EIO after a short transfer; all are restored. |
| IoOptimize.Context.Split | drivers/io-optimize.c:343-365 | The events of all members, in order; as many fewer iocbs are pending as there are events. |
| IoOptimize.Context.Prepare | drivers/tapdisk-queue.c:654-670 | An iocb that is not merged is made ready. |
| TapdiskQueue.PoolEnough | drivers/tapdisk-queue.c:654-678 | Free records and pending tiocbs are together never fewer than the size of the pool. |
| TapdiskQueue.TQueue.constructor | drivers/tapdisk-queue.c:587-620 | An empty queue of the given size. |
| TapdiskQueue.TQueue.QueueTiocb | drivers/tapdisk-queue.c:672-678 | A tiocb enters the queue if pending plus queued is below the size, and else is deferred at the end; the capacity is kept. |
| TapdiskQueue.TQueue.QueueFirstDeferred | drivers/tapdisk-queue.c:95-109 | The first deferred tiocb enters at the end of the queue. |
| TapdiskQueue.TQueue.QueueDeferred | drivers/tapdisk-queue.c:111-115 | Deferred tiocbs enter in the order of their deferral until the queue is full or none is left. |
| TapdiskQueue.TQueue.Submit | drivers/tapdisk-queue.c:491-522 | The whole queue is merged, greedily and never short of pool records, and submitted; every tiocb on it is pending. |
| TapdiskQueue.TQueue.TakeEvents | drivers/tapdisk-queue.c:428-445 | The events are split and exactly their tiocbs are no longer pending. |
| TapdiskQueue.TQueue.CompleteOne | drivers/tapdisk-queue.c:117-135 | One callback, with 0 if exactly the bytes of the iocb were transferred, the error if there was one, and EIO otherwise. It may queue more: as many as there is room for join the queue in order, the others are deferred in order. |
| TapdiskQueue.CompletionsAre | drivers/tapdisk-queue.c:117-135 | Each finished iocb is called back with 0 for a full transfer, the error if there was one, and EIO for a short transfer. |
| TapdiskQueue.TQueue.Completed | drivers/tapdisk-queue.c:428-457 | Every tiocb of the finished iocbs is completed once, with 0 for a full transfer, the error, or EIO for a short transfer, while callbacks queue more; the capacity is kept, and then the queue is full or nothing is deferred. What callbacks queue goes, in order, ahead of what was deferred before as far as there is room, and the rest behind it. |
| VhdIndex.OthersUnchanged | vhd/vhd-index.c:170-188 | A store that has only grown leaves every other index resolving as it did. |
| VhdIndex.YoungestStays | vhd/vhd-index.c:450-492 | What the younger images of a chain hold, older ones do not change. |
| VhdIndex.YoungestIs | vhd/vhd-index.c:450-492 | A sector resolves to its place in the first image of the chain that has it, and to nowhere just if none has. |
| VhdIndex.BuiltAgrees | vhd/vhd-index.c:450-492 | When the chain has been walked or every block is full, every sector resolves to the youngest image that holds it. |
| VhdIndex.CloneAgrees | vhd/vhd-index.c:513-591 | Laying the child over a copy of its parent's index gives an index that agrees with the child's chain. |
| VhdIndex.UpdateAgrees | vhd/vhd-index.c:593-653 | Updating an index for an image that has gained sectors makes it agree with the chain again. |
| VhdIndex.Index.GetFileId | vhd/vhd-index.c:151-168 | The file's number, new and unique if it had none. |
| VhdIndex.Index.GetBlock | vhd/vhd-index.c:171-188 | The stored block, or empty entries at location 0. |
| VhdIndex.Index.AppendBlock | vhd/vhd-index.c:225-245 | A location that was not used before. |
| VhdIndex.Index.FillUnder | vhd/vhd-index.c:211-224 | Exactly the empty entries whose bit is set are filled in; the count of filled entries is right. |
| VhdIndex.Index.FillOver | vhd/vhd-index.c:289-309 | Exactly the entries whose bit is set are replaced. |
| VhdIndex.Index.AddBatEntry | vhd/vhd-index.c:190-267 | The image's block is put under what the index has; `finished` means every sector is resolved; only the builder's own location changes. |
| VhdIndex.Index.OverlayBatEntry | vhd/vhd-index.c:269-393 | The image's block is laid over what the index has, in a new location if anything changed; the old location is untouched. |
| VhdIndex.Index.OverlayBat | vhd/vhd-index.c:539-591 | The loop over the blocks, for clone and update: it leaves the table if and only if the image has an allocated block at or past its end; else every block is laid over. |
| VhdIndex.Index.AddBat | vhd/vhd-index.c:395-511 | With its skips of finished blocks and its early stop, the build leaves the table if and only if it comes, with some sector still open, to an image with more blocks than the table; else it gives an index that agrees with walking the chain for every sector, and changes no block that was there before. |
| VhdIndex.BuiltComes | vhd/vhd-index.c:450-492 | After some images, all blocks are finished if and only if no sector is open. |
| VhdIndex.NotTooLong | vhd/vhd-index.c:450-492 | Where the walk has ended it comes to no image beyond, so that none of those can be too long. |
| VhdIndex.Index.AddImage | vhd/vhd-index.c:458-487 | One image of the build: every block agrees with one image more. |
| TokenBucket.RefillExact | drivers/td-rated.c:700-725 | The refill with its overflow-avoiding clamp equals min(cap, cred + rate*dt/10^6). |
| TokenBucket.RefillGain | drivers/td-rated.c:700-725 | A refill never adds more than the elapsed time allows, and falls short by less than a byte unless the bucket is full. |
| TokenBucket.GrantBound | drivers/td-rated.c:727-742 | Over any run of accepts, messages, refills, services and closes, of any connections in any order, whatever becomes of the wait list: credit stays within [-TD_RLB_REQUEST_MAX, cap], and bytes granted since the reset are at most cap + rate*T/10^6 + TD_RLB_REQUEST_MAX. |
| TokenBucket.HappensOk | drivers/td-rated.c:700-742 | No event spoils the account: a service when credit is not negative takes out one request at most, a refill puts in no more than the time allows. |
| TokenBucket.RunSolvent | drivers/td-rated.c:700-742 | The account is right in every state of every such run. |
| TokenBucket.HeardWaits | drivers/td-rated.c:522-585 | A message keeps the wait list right if the connection, in case it is closed for it, waits or its remembered neighbours are still neighbours. |
| TokenBucket.AllHeardWaits | drivers/td-rated.c:1397-1423 | So do all messages of a wakeup, if that holds of each when its turn comes. |
| TokenBucket.WaitingCanHear | drivers/td-rated.c:1397-1423 | It does if every connection that is closed waits when the messages arrive, each on its own connection. |
| TokenBucket.AcceptSums | drivers/td-rated.c:522-585 | An accepted batch adds what it asks for and gives back no more than was granted, and leaves no more than TD_RLB_REQUEST_MAX needed. |
| TokenBucket.AcceptRefuses | drivers/td-rated.c:522-585 | One refused request refuses the whole batch. |
| TokenBucket.AcceptExact | drivers/td-rated.c:522-585 | A batch is accepted if and only if what is needed with it stays within TD_RLB_REQUEST_MAX and no more is given back than was granted. |
| TokenBucket.HeardExact | drivers/td-rated.c:522-585 | What a message does to its connection: a batch that can be accepted adds to what is needed and takes off what was granted, and the connection waits, at the end of the list, as soon as it needs something; any other message closes it. |
| TokenBucket.Limiter.constructor | drivers/td-rated.c:744-831 | A full bucket. |
| TailQueue.InsertChains | drivers/td-rated.c:569-569 | Inserting an element that is not on a linked list at its tail gives the list with it at the end. |
| TailQueue.RemoveChains | drivers/td-rated.c:609-609 | Removing an element of the list through its own pointers gives the list without it. |
| TailQueue.ClearChains | drivers/td-rated.c:620-648 | Clearing an element that is not on the list leaves the list as it is. |
| TailQueue.RemoveStale | drivers/td-rated.c:516-516 | Removing an element that is not on the list leaves the list as it is if and only if the neighbours that its pointers remember are still neighbours. |
| TailQueue.StaleRemoveLosesOthers | drivers/td-rated.c:504-520 | A connection that was served and is closed later takes another one, which waits, off the list; one that never waited would be removed through a null pointer. |
| TokenBucket.RemoveLinks | drivers/td-rated.c:504-520 | Closing a connection keeps the wait list right if and only if it waits or its remembered neighbours are still neighbours. |
| TokenBucket.Limiter.Accept | drivers/td-rated.c:620-648 | A connection that needs nothing, if a slot is free; else ENOMEM. The wait list stays right. |
| TokenBucket.Limiter.Close | drivers/td-rated.c:504-520 | The connection goes and is taken off the wait list, whether it is on it or not; through pointers that were never set, the process crashes. |
| TokenBucket.Limiter.Receive | drivers/td-rated.c:522-585 | The batch is judged as a whole; the connection is closed, waits once at the end of the list, or needs nothing; no other connection changes. |
| TokenBucket.Limiter.ReceiveAll | drivers/td-rated.c:1397-1423 | The messages are received in turn, until one crashes the process. |
| TokenBucket.Limiter.TakeRequests | drivers/td-rated.c:547-575 | The loop over the requests of a batch. |
| TokenBucket.Limiter.Refill | drivers/td-rated.c:700-725 | The bucket fills by exactly what the unclamped formula gives. |
| TokenBucket.Limiter.Respond | drivers/td-rated.c:587-618 | The first waiting connection is granted all it needs, or is lost. |
| TokenBucket.Limiter.ServeFirst | drivers/td-rated.c:727-742 | What the first waiting connection needs is taken out of the bucket; it is granted all of it and waits no more, or the connection is lost. |
| TokenBucket.Limiter.Dispatch | drivers/td-rated.c:727-742 | After the refill waiting connections are served in order, each only while credit is not negative; credit goes down by exactly what they needed, and afterwards none waits or the credit is negative. |
| TokenBucket.Limiter.Iterate | drivers/td-rated.c:1397-1423 | A wakeup refills for exactly the time since the last: what is left plus what was taken out is min(cap, cred + rate*dt/10^6). The account is kept: credit within [-TD_RLB_REQUEST_MAX, cap], no more put in than the time allows, no more granted than taken out. |
| SyslogRing.ReadsBack | drivers/tapdisk-syslog.c:176-202 | A string in the ring is read back whole if and only if it and its NUL fit the packet size; else exactly the packet size is taken. |
| SyslogRing.SlotsDiffer | drivers/tapdisk-syslog.c:68-72 | Free-running indices less than a ring apart have different slots, for any ring size. |
| SyslogRing.WrapExact | drivers/tapdisk-syslog.c:68-72 | With indices that wrap at w, any two indices less than a ring apart keep different slots if and only if w is a multiple of the ring size. |
| SyslogRing.WrapHolds | drivers/tapdisk-syslog.c:68-72 | If it is, the ring holds a text at wrapping indices if and only if it holds it at indices that do not wrap. |
| SyslogRing.Syslog.constructor | drivers/tapdisk-syslog.c:108-142 | An empty ring. |
| SyslogRing.Syslog.CopyStr | drivers/tapdisk-syslog.c:159-172 | The string up to its NUL or its length, and a NUL, follow what the ring held. |
| SyslogRing.Syslog.WriteStr | drivers/tapdisk-syslog.c:144-174 | The string joins the end of the FIFO if it fits; otherwise it is counted as dropped and nothing changes. |
| SyslogRing.Syslog.ReadPkt | drivers/tapdisk-syslog.c:176-202 | The first string of the FIFO, unchanged, or -1. |
| SyslogRing.Syslog.DispatchOne | drivers/tapdisk-syslog.c:204-229 | The first string is sent and leaves the FIFO; it stays only on EAGAIN. |
| SyslogRing.Syslog.DispatchAll | drivers/tapdisk-syslog.c:244-250 | Strings are taken from the front, in order, up to the first EAGAIN or the end; exactly those whose send succeeds are delivered. |
| SyslogRing.Syslog.Dispatch | drivers/tapdisk-syslog.c:244-254 | After the drain the count of dropped messages is cleared if and only if the warning that reports it has been accepted. |
| SyslogRing.Syslog.Vsyslog | drivers/tapdisk-syslog.c:314-369 | The whole outcome: a message is sent at once only when none is buffered, so that deliveries stay in the order of acceptance; it is buffered unchanged if it must wait, there is room and no drop is unreported; else it is dropped and counted; a failed send is counted and gives it up. |
| SyslogRing.Syslog.SendNow | drivers/tapdisk-syslog.c:352-369 | The direct send, over a reconnect: delivered in turn, or the error. |

## Left out

- Durability, LastWriteFound, ReadIsCurrent: stated for orderly runs, for the reason given above; that the condition is exact is `VhdCounterexample.ZeroFailureDecides`. So are the parts of CrashOrdering, AckedIsServed, ReadFindsRecovered and ReadReturnsMoment that speak of data, under `OrderlyTo`.
- DoneZeroD, StepOnDisk: a failure that leaves behind a write that may still reach the disk is excluded, for the same reason; what it keeps all the same is `VhdTracking.StepTracked`.
- ReadTurnReads: about sectors that no transaction is writing at that moment; of a sector that one is writing, memory and disk may differ until the bitmap write completes, and what then holds is `VhdReadback.AckedNeverForwarded`. The honesty of ServeReadOk, AskOk, AskBelowOk, ChainAnswers and WokenServed has the same condition, the rest of them none.
- GuestReads: about reads whose sectors are not being written; of others the chain results say that every sector is accounted for, and what each image's driver gives them is `VhdMoments.ReadReturnsMoment`. Writes come to the drivers as requests of theirs, and the steps of the drivers are orderly.
- RetryLaw: its runs are of reads; that a write is decided in the same way is the contract of `CompleteVbd`, `IssueRequest` and `Resume`, which are about requests of either kind.
- ReceiveAll: says nothing of the table once the process has crashed.
- Iterate: requires that each connection that is closed for a message can be taken off the list without harm when its turn comes, which the code does not see to. It says how the bucket moves over a wakeup; what each message does to its connection is the contract of `Receive`, and whom the bucket serves that of `Dispatch`.
- Partial and torn writes: an I/O reaches the disk whole, in one step, or not at all.
- Footers, headers, checksums, parent locators, open and close of VHD files: done by libvhd, which is not part of this model. Fixed disks, which only add reads and writes at a fixed offset.
- The array of bitmap slots and the wrap of the LRU sequence number: the bitmap cache is a map by block, with sequence numbers that only grow; equal ones are ordered by block.
- 32-bit widths of sector products, and bits of a bitmap beyond its block, which are masked.
- Requests are held by value on their lists, and the requests embedded in the BAT state are flags; what is lost is that a request is one object in memory.
- Memory allocation failure, except for the pools that the code sizes itself; logging, statistics, tracing.
- Secondary images (mirroring and standby), forwarding of writes and the read-only check in drivers/tapdisk-vbd.c; the list a request is on is a tag, because the first insertion at line 1306 does not set it. Clocks of retries are sets of requests that are late or recent.
- Submit: `io_submit` takes everything it is given; the path that cancels the rest is not modelled. Iocbs and events are named by numbers, and whether `data` points into the pool is a tag.
- Populate: an insertion that runs out of memory half-way is not modelled; an entry of the tree has at least one sector. Statistics and locking of memory are left out.
- Errors of the index store, which abort the build.
- The meminfo valve of drivers/td-rated.c, and its list of open connections, which is the domain of a map.
- The 64-bit indices of the syslog ring do not wrap; `SyslogRing.WrapExact` says when it would matter. The loop of send and connect is one outcome.
- control/, lvm/, xenio/, part/, vhd-util, the other drivers and the server loop.
