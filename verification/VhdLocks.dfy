/** No bitmap stays locked for nothing, and the driver never gets stuck: as long as a request
    is not free, some I/O is on its way. */
module VhdLocks {
  import opened VhdTypes
  import opened VhdEngine
  import opened VhdInvariants
  import opened VhdStructure
  import opened VhdTurns
  import opened VhdErrors

  predicate Neat(bm: Bm) { bm.locked ==> InUse(bm) }

  /* ---- one block ---- */

  lemma ReleaseNeat(k: Blk)
    ensures Neat(FinishBatTx(UnlockIfIdle(k)).bm) && (Neat(k.bm) ==> Neat(FinishBatTx(k).bm))
  {
  }

  lemma {:induction false} FinishBitmapTxNeat(c: Config, k: Blk, error: int)
    ensures Neat(FinishBitmapTx(c, k, error).bm)
  {
    hide StartNewTx;
    hide EndTx;
    hide FinishBatTx;
    hide UnlockIfIdle;
    ReleaseNeat(StartNewTx(c, EndTx(c, WithError(k, error))));
  }

  lemma {:induction false} FinishDataTxNeat(c: Config, k: Blk)
    ensures Neat(FinishDataTx(c, k).bm)
  {
    hide FinishBitmapTx;
    FinishBitmapTxNeat(c, k.(bm := k.bm.(tx := k.bm.tx.(closed := true))), 0);
  }

  lemma {:induction false} IfCompletedNeat(c: Config, k: Blk)
    requires !Completed(k.bm.tx) ==> Neat(k.bm)
    ensures Neat(FinishDataTxIfCompleted(c, k).bm)
  {
    hide Neat;
    if Completed(k.bm.tx) { FinishDataTxNeat(c, k); }
  }

  /** A transaction that is not complete has something to wait for. */
  lemma RunningNeat(c: Config, b: nat, alloc: bool, bm: Bm)
    requires Core(c, b, alloc, bm) && !Completed(bm.tx)
    ensures Neat(bm)
  {
  }

  lemma TxWriteNeat(c: Config, k: Blk, i: nat, err: int)
    requires i < |k.bm.tx.reqs|
    ensures Neat(TxWriteDone(c, k, i, err).bm)
  {
    assert InUse(TxWriteMark(c, k, i, err).bm);
    IfCompletedNeat(c, TxWriteMark(c, k, i, err));
  }

  lemma ZeroNeat(c: Config, k: Blk, err: int, zero: Io)
    requires KOk(c, k, zero, Idle) && k.Holds() && zero != Idle
    ensures Neat(ZeroWritten(c, k.(lock := AfterZero(k.lock, err)), err).bm)
  {
    var k1 := ZeroMark(k.(lock := AfterZero(k.lock, err)), err);
    if !Completed(k1.bm.tx) { RunningNeat(c, k.b, k.alloc, k1.bm); }
    IfCompletedNeat(c, k1);
  }

  /** With the BAT entry written, the transaction still waits for its writes or its bitmap. */
  lemma MarkedNeat(c: Config, k: Blk, err: int, bat: Io)
    requires KOk(c, k, Idle, bat) && k.Holds() && bat != Idle
    ensures var bm := BatMark(c, Back(k, err), err).bm;
            (if c.prealloc then !Completed(bm.tx) else !k.lock.tx) ==> Neat(bm)
  {
    var bm := BatMark(c, Back(k, err), err).bm;
    if !Completed(bm.tx) && c.prealloc { assert Outstanding(k.bm.tx) == Outstanding(bm.tx) + 1; }
  }

  lemma BatNeat(c: Config, k: Blk, err: int, bat: Io)
    requires KOk(c, k, Idle, bat) && k.Holds() && bat != Idle
    ensures Neat(BatWritten(c, Back(k, err), err).bm)
  {
    hide FinishDataTxIfCompleted;
    hide FinishBitmapTx;
    hide FinishBatTx;
    hide BatMark;
    hide Neat;
    MarkedNeat(c, k, err, bat);
    hide KOk;
    var k1 := BatMark(c, Back(k, err), err);
    if c.prealloc {
      IfCompletedNeat(c, k1);
      ReleaseNeat(FinishDataTxIfCompleted(c, k1));
    } else if k.lock.tx {
      FinishBitmapTxNeat(c, k1, err);
      ReleaseNeat(FinishBitmapTx(c, k1, err));
    } else {
      ReleaseNeat(k1);
    }
  }

  /* ---- full blocks ---- */

  lemma {:induction false} StartNewTxFull(c: Config, k: Blk)
    ensures k.full ==> StartNewTx(c, k).full
    decreases |k.bm.queue|, 1
  {
    if k.bm.queue != [] && Completed(QueueToTx(c, k).bm.tx) { FinishDataTxFull(c, QueueToTx(c, k)); }
  }

  lemma {:induction false} FinishDataTxFull(c: Config, k: Blk)
    ensures k.full ==> FinishDataTx(c, k).full
    decreases |k.bm.queue|, 3
  {
    if k.bm.tx.error != 0 { BatmapMarked(c, k.(bm := k.bm.(tx := k.bm.tx.(closed := true))), 0); }
  }

  /** The transaction ends, without error, and all whole bytes of its bitmap are set. */
  ghost predicate Fills(c: Config, k: Blk, error: int) {
    c.hasBatmap && (c.prealloc || !k.bm.tx.updateBat) && k.bm.tx.error == 0 && error == 0 &&
    Range(0, 8 * (c.spb / 8)) <= k.bm.shadow
  }

  /** A transaction that ends well marks the block in the batmap if its bitmap is full now. */
  lemma {:induction false} BatmapMarked(c: Config, k: Blk, error: int)
    ensures k.full || Fills(c, k, error) ==> FinishBitmapTx(c, k, error).full
    decreases |k.bm.queue|, 2
  {
    hide StartNewTx;
    hide UnlockIfIdle;
    hide FinishBatTx;
    var k1 := StartNewTx(c, EndTx(c, WithError(k, error)));
    if c.prealloc || !k.bm.tx.updateBat {
      StartNewTxFull(c, EndTx(c, WithError(k, error)));
      ReleaseFull(k1);
    }
  }

  lemma ReleaseFull(k: Blk)
    ensures FinishBatTx(UnlockIfIdle(k)).full == k.full
  {
  }

  /* ---- the whole state, as far as block b is concerned ---- */

  predicate NeatAt(s: Vhd, b: nat) { b in s.cache ==> Neat(s.cache[b]) }

  lemma NeatSame(s: Vhd, t: Vhd, b: nat)
    requires NeatAt(s, b)
    requires b in t.cache ==> Neat(t.cache[b]) ||
                              (b in s.cache && t.cache[b] == s.cache[b].(seqno := t.cache[b].seqno))
    ensures NeatAt(t, b)
  {
  }

  lemma InstallNeat(c: Config, s: Vhd, x: nat, bm: Bm, b: nat)
    requires NeatAt(s, b) && Neat(bm) && x !in s.cache
    ensures NeatAt(InstallBitmap(c, s, x, bm).0, b)
  {
    hide InstallBitmap;
    hide NoBitmap;
    hide Oldest;
    InstallExact(c, s, x, bm);
  }

  lemma EmptyNeat(c: Config, s: Vhd, x: nat, b: nat)
    requires NeatAt(s, b)
    ensures var (t, err) := EmptyBitmap(c, s, x);
            NeatAt(t, b) && (err == 0 ==> NeatAt(ReserveAndZero(c, t, x), b) && NeatAt(LockAndWriteBat(t, x), b))
  {
    hide InstallBitmap;
    hide Gap;
    if x !in s.cache { InstallNeat(c, s, x, InitBm, b); }
  }

  lemma AllocationNeat(c: Config, s: Vhd, x: nat, b: nat)
    requires NeatAt(s, b)
    ensures NeatAt(Allocation(c, s, x).0, b)
  {
    hide EmptyBitmap;
    hide ReserveAndZero;
    hide LockAndWriteBat;
    hide Neat;
    hide Gap;
    var s0 := Check(s, x !in s.bat);
    EmptyNeat(c, s0, x, b);
    EmptyNeat(c, Placed(c, s0, x), x, b);
  }

  lemma DataWriteNeat(c: Config, s: Vhd, r: Req, updBat: bool, updBitmap: bool, b: nat)
    requires NeatAt(s, b)
    ensures NeatAt(ScheduleDataWrite(c, s, r, updBat, updBitmap).0, b)
  {
    hide AllocateBlock;
    hide UpdateBat;
    AllocationNeat(c, s, r.sec / c.spb, b);
  }

  lemma QueueNeat(c: Config, s: Vhd, r: Req, b: nat)
    requires NeatAt(s, b)
    ensures NeatAt(QueueRequest(c, s, r).0, b)
  {
  }

  lemma UnreadNeat(c: Config, s: Vhd, r: Req, b: nat)
    requires NeatAt(s, b) && r.sec / c.spb !in s.cache
    ensures var t := ScheduleBitmapRead(c, s, r.sec / c.spb).0; NeatAt(t, b) && NeatAt(QueueRequest(c, t, r).0, b)
  {
    hide InstallBitmap;
    hide QueueRequest;
    var x := r.sec / c.spb;
    InstallNeat(c, Check(s, x in s.bat && x !in s.cache), x, ReadingBitmap, b);
    QueueNeat(c, ScheduleBitmapRead(c, s, x).0, r, b);
  }

  lemma TurnNeat(c: Config, s: Vhd, write: bool, wid: nat, sec: nat, n: nat, b: nat)
    requires 0 < n && NeatAt(s, b)
    ensures NeatAt(Turn(c, s, write, wid, sec, n).0, b)
  {
    hide ScheduleBitmapRead;
    hide QueueRequest;
    hide ScheduleDataWrite;
    hide InUse;
    var (s1, hit) := ReadBitmapCache(c, s, sec, write);
    assert NeatAt(s1, b) by { if sec / c.spb in s.cache { NeatSame(s, Touch(s, sec / c.spb), b); } }
    var r := Piece(write, wid, sec, ToBlockEnd(c, sec, n));
    match hit
    case NotCached => UnreadNeat(c, s1, r, b);
    case ReadPending => QueueNeat(c, s1, r, b);
    case BatClear => if write { DataWriteNeat(c, s1, r, true, true, b); }
    case BitClear =>
      if write { DataWriteNeat(c, s1, Piece(true, wid, sec, Span(c, s1, sec, n, false)), false, true, b); }
    case BitSet =>
      if write { DataWriteNeat(c, s1, Piece(true, wid, sec, Span(c, s1, sec, n, true)), false, false, b); }
    case _ =>
  }

  lemma {:induction false} ServeNeat(c: Config, s: Vhd, write: bool, wid: nat, sec: nat, n: nat, b: nat)
    requires NeatAt(s, b)
    ensures NeatAt(Serve(c, s, write, wid, sec, n), b)
    decreases n
  {
    hide Turn;
    hide Neat;
    if n > 0 {
      TurnNeat(c, s, write, wid, sec, n, b);
      var (s1, k, err) := Turn(c, s, write, wid, sec, n);
      if err == 0 { ServeNeat(c, s1, write, wid, sec + k, n - k, b); }
    }
  }

  lemma {:induction false} ReplayNeat(c: Config, s: Vhd, rs: seq<Req>, b: nat)
    requires NeatAt(s, b)
    ensures NeatAt(Replay(c, s, rs), b)
    decreases |rs|
  {
    hide Serve;
    hide Neat;
    if rs != [] {
      var (r, s1) := (rs[0], s.(free := s.free + 1));
      ServeNeat(c, s1, r.op == OpWrite, r.wid, r.sec, r.secs, b);
      ReplayNeat(c, Serve(c, s1, r.op == OpWrite, r.wid, r.sec, r.secs), rs[1..], b);
    }
  }

  lemma BitmapReadNeat(c: Config, s: Vhd, x: nat, err: int, b: nat)
    requires NeatAt(s, b) && x in s.cache
    ensures NeatAt(FinishBitmapRead(c, s, x, err), b)
  {
    hide Replay;
    if err == 0 && x != b { ReplayNeat(c, BitmapLoaded(c, s, x), s.cache[x].waiting, b); }
  }

  lemma PutNeat(s: Vhd, s1: Vhd, k: Blk, b: nat)
    requires NeatAt(s, b) && s1.cache == s.cache && Neat(k.bm)
    ensures NeatAt(Put(s1, k), b)
  {
  }

  /* ---- the steps ---- */

  lemma DoneTxNeat(c: Config, s: Vhd, x: nat, i: nat, err: int, b: nat)
    requires Enabled(s, DoneTx(x, i, err)) && NeatAt(s, b)
    ensures NeatAt(FinishTxWrite(c, s, x, i, err), b)
  {
    hide TxWriteDone;
    hide Neat;
    TxWriteNeat(c, At(s, x), i, err);
    PutNeat(s, Sync(s, s.cache[x].tx.reqs[i], err), TxWriteDone(c, At(s, x), i, err), b);
  }

  lemma DoneQueueNeat(c: Config, s: Vhd, x: nat, i: nat, err: int, b: nat)
    requires Enabled(s, DoneQueue(x, i, err)) && NeatAt(s, b)
    ensures NeatAt(FinishQueuedWrite(s, x, i, err), b)
  {
    var k := QueuedWriteDone(At(s, x), i, err);
    assert k.bm.queue != [];
    PutNeat(s, Sync(s, s.cache[x].queue[i], err), k, b);
  }

  lemma DoneBitmapWriteNeat(c: Config, s: Vhd, x: nat, err: int, b: nat)
    requires Enabled(s, DoneBitmapWrite(x, err)) && NeatAt(s, b)
    ensures NeatAt(FinishBitmapWrite(c, s, x, err), b)
  {
    hide FinishBitmapTx;
    hide Neat;
    var k := At(s, x);
    FinishBitmapTxNeat(c,
      Assert(k, k.bm.tx.closed && !k.bm.reading && k.bm.write != Idle).(bm := k.bm.(write := Idle)), err);
    PutNeat(s, s, BitmapWritten(c, k, err), b);
  }

  lemma DoneZeroNeat(c: Config, s: Vhd, err: int, b: nat, pool: nat)
    requires Enabled(s, DoneZero(err)) && NeatAt(s, b)
    requires Structure(c, s, pool)
    ensures NeatAt(FinishZeroBmWrite(c, s, err), b)
  {
    hide Structure;
    hide KOk;
    hide Neat;
    hide ZeroWritten;
    hide AfterZeroWrite;
    ZeroHeld(c, s, pool);
    ZeroState(c, s, err);
    var x := s.lock.blk;
    AtOk(c, s, x, pool);
    ZeroNeat(c, At(s, x), err, s.meta.zero);
    var s1 := AfterZeroWrite(s, err);
    PutNeat(s, s1, ZeroWritten(c, At(s1, x), err), b);
  }

  lemma DoneBatNeat(c: Config, s: Vhd, err: int, b: nat, pool: nat)
    requires Enabled(s, DoneBat(err)) && NeatAt(s, b)
    requires Structure(c, s, pool)
    ensures NeatAt(FinishBatWrite(c, s, err), b)
  {
    hide Structure;
    hide KOk;
    hide Neat;
    hide BatWritten;
    hide AfterBat;
    BatHeld(c, s, pool);
    BatState(c, s, err);
    var (x, s1) := (s.lock.blk, AfterBat(c, s, err));
    var k := At(s, x).(at := At(s1, x).at);
    AtOk(c, s, x, pool);
    OnlyEntry(c, At(s, x), k, s.meta.zero, s.meta.bat);
    BatNeat(c, k, err, s.meta.bat);
    PutNeat(s, s1, BatWritten(c, At(s1, x), err), b);
  }

  lemma LandNeat(c: Config, s: Vhd, step: Step, b: nat)
    requires step.LandTx? || step.LandQueue? || step.LandBitmap?
    requires Enabled(s, step) && NeatAt(s, b)
    ensures NeatAt(Next(c, s, step), b)
  {
    hide WriteSectors;
  }

  lemma QuietNeat(c: Config, s: Vhd, step: Step, b: nat)
    requires Quiet(step) && Enabled(s, step) && NeatAt(s, b)
    ensures NeatAt(Next(c, s, step), b)
  {
    hide WriteSectors;
    hide Neat;
  }

  /** A bitmap that a step leaves locked is in use. */
  lemma StepNeat(c: Config, s: Vhd, step: Step, b: nat, pool: nat)
    requires Enabled(s, step) && NeatAt(s, b)
    requires Structure(c, s, pool)
    ensures NeatAt(Next(c, s, step), b)
  {
    hide Structure;
    hide NeatAt;
    hide Serve;
    hide FinishTxWrite;
    hide FinishQueuedWrite;
    hide FinishBitmapWrite;
    hide FinishBitmapRead;
    hide FinishZeroBmWrite;
    hide FinishBatWrite;
    if Quiet(step) {
      QuietNeat(c, s, step, b);
    } else {
      match step
      case Request(write, sec, n) =>
        EmitNeat(s, Issue(write, sec, n), b);
        ServeNeat(c, Emit(s, Issue(write, sec, n)), write, |s.log|, sec, n, b);
      case DoneTx(x, i, err) => DoneTxNeat(c, s, x, i, err, b);
      case DoneQueue(x, i, err) => DoneQueueNeat(c, s, x, i, err, b);
      case DoneBitmapRead(x, err) => BitmapReadNeat(c, s, x, err, b);
      case DoneBitmapWrite(x, err) => DoneBitmapWriteNeat(c, s, x, err, b);
      case DoneZero(err) => DoneZeroNeat(c, s, err, b, pool);
      case DoneBat(err) => DoneBatNeat(c, s, err, b, pool);
      case _ => LandNeat(c, s, step, b);
    }
  }

  lemma EmitNeat(s: Vhd, e: Ev, b: nat)
    requires NeatAt(s, b)
    ensures NeatAt(Emit(s, e), b)
  {
  }

  /** If no bitmap can be had for a block, all that are cached are in use, but perhaps the one
      that was used last. */
  lemma NoBitmapMeans(c: Config, s: Vhd, b: nat)
    requires NoBitmap(s, b) && forall v :: NeatAt(s, v)
    ensures forall v :: v in s.cache ==> InUse(s.cache[v]) || s.cache[v].seqno >= s.lru
  {
    forall v | v in s.cache ensures InUse(s.cache[v]) || s.cache[v].seqno >= s.lru { assert NeatAt(s, v); }
  }

  /* ---- something is on its way ---- */

  lemma {:induction false} SomeLoad(m: map<nat, Bm>)
    requires CacheLoad(m) > 0
    ensures exists b :: b in m && Load(m[b]) > 0
    decreases |m|
  {
    var b :| b in m && CacheLoad(m) == Load(m[b]) + CacheLoad(m - {b});
    if Load(m[b]) == 0 {
      SomeLoad(m - {b});
      var x :| x in m - {b} && Load((m - {b})[x]) > 0;
    }
  }

  lemma {:induction false} SomeUnfinished(rs: seq<Req>)
    requires FinishedCount(rs) < |rs|
    ensures exists i: nat :: i < |rs| && !rs[i].finished
  {
    if rs[|rs| - 1].finished {
      SomeUnfinished(rs[..|rs| - 1]);
      var i: nat :| i < |rs| - 1 && !rs[..|rs| - 1][i].finished;
    }
  }

  /** The completion of a request in flight, once it has reached the disk. */
  ghost predicate Pends(s: Vhd, step: Step) { !step.Request? && Enabled(s, step) }

  lemma BlockPends(c: Config, s: Vhd, b: nat, pool: nat)
    requires b in s.cache && InUse(s.cache[b])
    requires Structure(c, s, pool)
    ensures exists step :: Pends(s, step)
  {
    var bm := s.cache[b];
    assert BlockOk(c, s, b);
    if bm.reading {
      assert Pends(s, DoneBitmapRead(b, 0));
    } else if bm.write != Idle {
      assert Pends(s, DoneBitmapWrite(b, if bm.write == Landed then 0 else EIO));
    } else if FinishedCount(bm.tx.reqs) < |bm.tx.reqs| {
      SomeUnfinished(bm.tx.reqs);
      var i: nat :| i < |bm.tx.reqs| && !bm.tx.reqs[i].finished;
      assert Pends(s, DoneTx(b, i, if bm.tx.reqs[i].landed then 0 else EIO));
    } else {
      MetaPends(c, s, b, pool);
    }
  }

  /** With all its writes back, the transaction waits for the zero bitmap or the BAT entry. */
  lemma MetaPends(c: Config, s: Vhd, b: nat, pool: nat)
    requires b in s.cache && InUse(s.cache[b]) && !s.cache[b].reading && s.cache[b].write == Idle
    requires FinishedCount(s.cache[b].tx.reqs) == |s.cache[b].tx.reqs|
    requires Structure(c, s, pool)
    ensures exists step :: Pends(s, step)
  {
    assert BlockOk(c, s, b);
    if s.meta.zero != Idle {
      assert Pends(s, DoneZero(if s.meta.zero == Landed then 0 else EIO));
    } else {
      assert s.meta.bat != Idle;
      assert Pends(s, DoneBat(if s.meta.bat == Landed then 0 else EIO));
    }
  }

  /** As long as a request of the pool is taken, some I/O is on its way, and can complete. */
  lemma NeverStuck(c: Config, s: Vhd, pool: nat)
    requires s.free < pool
    requires Structure(c, s, pool)
    ensures exists step :: Pends(s, step)
  {
    if s.raw != [] {
      var r := s.raw[0];
      assert r in s.raw && RawShape(c, r);
      assert Pends(s, DoneOther(0, if r.landed then 0 else EIO));
    } else {
      SomeLoad(s.cache);
      var b :| b in s.cache && Load(s.cache[b]) > 0;
      BlockPends(c, s, b, pool);
    }
  }
}
