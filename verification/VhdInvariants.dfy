/** What every reachable state of the VHD driver satisfies in memory: the shape of
    each transaction against the BAT lock, and the counts of the two pools. */
module VhdInvariants {
  import opened Arithmetic
  import opened VhdTypes
  import opened VhdEngine

  /** The BAT lock, as seen by one block. */
  datatype Hold = NoHold | Hold(started: bool, err: int, tx: bool, zero: Io, bat: Io)

  function HoldOf(s: Vhd, b: nat): Hold {
    if s.lock.locked && s.lock.blk == b
    then Hold(s.lock.started, s.lock.err, s.lock.tx, s.meta.zero, s.meta.bat) else NoHold
  }

  /** Requests of a transaction that have not come back yet. */
  function Outstanding(tx: Tx): nat {
    |tx.reqs| - FinishedCount(tx.reqs) + if tx.meta then 1 else 0
  }

  predicate InBlock(c: Config, b: nat, r: Req) {
    0 < r.secs && r.sec / c.spb == b && r.sec % c.spb + r.secs <= c.spb
  }

  predicate WriteOk(c: Config, b: nat, r: Req) {
    r.op == OpWrite && InBlock(c, b, r) &&
    (if r.finished then r.landed <==> r.err == 0 else r.err == 0)
  }

  predicate WaitingOk(c: Config, b: nat, r: Req) {
    r.op != OpPad && InBlock(c, b, r) && !r.finished && !r.landed && r.err == 0
  }

  /** A write of a failed transaction that will not reach the disk any more. */
  predicate Harmless(bm: Bm, r: Req) { bm.tx.error != 0 && r.Spent() }

  /** Nothing of the transaction will reach the disk any more, or be answered with success. */
  ghost predicate Adrift(bm: Bm) { forall r :: r in bm.tx.reqs ==> Harmless(bm, r) }

  ghost predicate ReqsOk(c: Config, b: nat, bm: Bm) {
    (forall r :: r in bm.tx.reqs ==> WriteOk(c, b, r)) &&
    (forall r :: r in bm.queue ==> WriteOk(c, b, r)) &&
    (forall r :: r in bm.waiting ==> WaitingOk(c, b, r))
  }

  /** Holds at every moment at which the bitmap is valid: the staged bitmap is the
      committed one plus the finished writes, and the counters count. */
  ghost predicate Core(c: Config, b: nat, alloc: bool, bm: Bm) {
    && !bm.reading && bm.waiting == []
    && ReqsOk(c, b, bm)
    && bm.bits <= Full(c)
    && (!alloc ==> bm.bits == {})
    && bm.shadow == bm.bits + Staged(c.spb, bm.tx.reqs)
    && bm.tx.started - bm.tx.finished == Outstanding(bm.tx)
    && (bm.queue != [] ==> bm.tx.closed)
    && (bm.tx.closed ==> bm.tx.live)
    && (!bm.tx.live ==> bm.tx == InitTx)
  }

  /** What holding the BAT lock means for the block that holds it. */
  predicate HolderOk(c: Config, h: Hold, bm: Bm)
    requires h.Hold?
  {
    && bm.tx.live && !bm.reading
    && if h.err != 0 then
         // the BAT write failed: the lock stays until the transaction has drained
         h.started && h.zero == Idle && h.bat == Idle && !bm.tx.meta && !bm.tx.updateBat &&
         bm.tx.closed && bm.tx.error != 0
       else if c.prealloc then
         h.started && h.zero == Idle && h.bat != Idle && bm.tx.meta && !bm.tx.updateBat && !bm.tx.closed
       else if !h.started then
         // the bitmap is being zeroed
         h.zero != Idle && h.bat == Idle && bm.tx.meta && bm.tx.updateBat && !bm.tx.closed && !h.tx
       else
         // the BAT entry is being written
         h.zero == Idle && h.bat != Idle && !bm.tx.meta && bm.tx.updateBat &&
         (h.tx ==> bm.tx.closed && Completed(bm.tx) && bm.write == Idle)
  }

  ghost predicate ValidBm(c: Config, b: nat, alloc: bool, h: Hold, bm: Bm) {
    && Core(c, b, alloc, bm)
    && (bm.write != Idle ==> bm.tx.closed && Completed(bm.tx))
    && (bm.tx.live && Completed(bm.tx) ==>
         bm.tx.closed && (bm.write != Idle || (h.Hold? && h.tx && bm.tx.updateBat)))
    && (h.Hold? ==> !alloc && HolderOk(c, h, bm))
    && (h.NoHold? ==> !bm.tx.updateBat && !bm.tx.meta)
    && (h.NoHold? && !alloc ==> !bm.tx.closed && (bm.tx.live ==> bm.tx.error != 0))
  }

  /** A bitmap that is being read: nothing but waiting requests. */
  ghost predicate ReadingBm(c: Config, b: nat, alloc: bool, h: Hold, bm: Bm) {
    bm.reading && alloc && h.NoHold? && bm.tx == InitTx && bm.queue == [] && bm.write == Idle &&
    ReqsOk(c, b, bm)
  }

  ghost predicate BmOk(c: Config, b: nat, alloc: bool, h: Hold, bm: Bm) {
    && (InUse(bm) ==> bm.locked)
    && if bm.reading then ReadingBm(c, b, alloc, h, bm) else ValidBm(c, b, alloc, h, bm)
  }

  ghost predicate BlockOk(c: Config, s: Vhd, b: nat)
    requires b in s.cache
  {
    BmOk(c, b, b in s.bat, HoldOf(s, b), s.cache[b])
  }

  /* ---- the pools ---- */

  function Load(bm: Bm): nat { |bm.tx.reqs| + |bm.queue| + |bm.waiting| }

  ghost function CacheLoad(m: map<nat, Bm>): nat
    decreases |m|
  {
    if m == map[] then 0
    else
      var b :| b in m;
      Load(m[b]) + CacheLoad(m - {b})
  }

  predicate RawShape(c: Config, r: Req) {
    !r.finished && r.err == 0 && (r.op != OpPad ==> InBlock(c, r.sec / c.spb, r))
  }

  ghost predicate Glob(c: Config, s: Vhd, pool: nat) {
    && !s.panicked
    && |s.cache| + s.bmFree == c.cacheSize
    && s.free + |s.raw| + CacheLoad(s.cache) == pool
    && (forall r :: r in s.raw ==> RawShape(c, r))
    && s.batmap <= s.bat.Keys
    && (s.lock.locked ==> s.lock.blk in s.cache)
    && (s.meta.zero != Idle ==> s.meta.zeroBlk == s.lock.blk)
    && (!s.lock.locked ==>
      !s.lock.started && s.lock.err == 0 && !s.lock.tx && s.meta.zero == Idle && s.meta.bat == Idle)
  }

  ghost predicate Others(c: Config, s: Vhd, b: nat) {
    forall x {:trigger BlockOk(c, s, x)} :: x in s.cache && x != b ==> BlockOk(c, s, x)
  }

  /** The invariant; `pool` is the number of pool requests the lists share out. */
  ghost predicate Structure(c: Config, s: Vhd, pool: nat) {
    Glob(c, s, pool) && forall b {:trigger BlockOk(c, s, b)} :: b in s.cache ==> BlockOk(c, s, b)
  }
}
