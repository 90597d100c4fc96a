/** Sectors that no write is on its way to: what can be recovered of them from the file
    stays the same, whatever else the driver does. */
module VhdStill {
  import opened VhdTypes
  import opened VhdEngine
  import opened VhdInvariants
  import opened VhdStructure
  import opened VhdSafety
  import opened VhdLayout
  import opened VhdDisk
  import opened VhdDurability
  import opened VhdLanding
  import opened VhdServing
  import opened VhdTracking
  import opened VhdTheorems
  import opened VhdReads

  predicate Has(r: Req, l: nat) { r.sec <= l < r.sec + r.secs }

  ghost predicate Spares(rs: seq<Req>, l: nat) { forall r :: r in rs && r.op == OpWrite ==> !Has(r, l) }

  ghost predicate BmSpares(bm: Bm, l: nat) {
    Spares(bm.tx.reqs, l) && Spares(bm.queue, l) && Spares(bm.waiting, l)
  }

  /** No write of sector l is on any list. */
  ghost predicate Still(s: Vhd, l: nat) {
    Spares(s.raw, l) && forall b :: b in s.cache ==> BmSpares(s.cache[b], l)
  }

  lemma StillUnwritten(c: Config, s: Vhd, l: nat, pool: nat)
    requires Still(s, l) && Structure(c, s, pool)
    ensures Unwritten(c, s, l)
  {
    var b := l / c.spb;
    if b in s.cache {
      assert BlockOk(c, s, b) && BmSpares(s.cache[b], l);
    }
  }

  /* ---- the lists ---- */

  /** Ending transactions brings no new write to the block, and wakes nobody. */
  lemma {:induction false} FinishDataTxSpares(c: Config, k: Blk, l: nat)
    ensures (BmSpares(k.bm, l) ==> BmSpares(FinishDataTx(c, k).bm, l)) && FinishDataTx(c, k).bm.waiting == k.bm.waiting
    decreases |k.bm.queue|, 3
  {
    if k.bm.tx.error != 0 { FinishBitmapTxSpares(c, Closed(k), 0, l); }
  }

  lemma {:induction false} FinishBitmapTxSpares(c: Config, k: Blk, error: int, l: nat)
    ensures (BmSpares(k.bm, l) ==> BmSpares(FinishBitmapTx(c, k, error).bm, l)) &&
            FinishBitmapTx(c, k, error).bm.waiting == k.bm.waiting
    decreases |k.bm.queue|, 2
  {
    hide StartNewTx;
    hide FinishBatTx;
    hide Spares;
    if c.prealloc || !k.bm.tx.updateBat {
      EndTxSpares(c, WithError(k, error), l);
      hide EndTx;
      var k1 := EndTx(c, WithError(k, error));
      StartNewTxSpares(c, k1, l);
      ReleaseSpares(StartNewTx(c, k1), l);
    }
  }

  lemma EndTxSpares(c: Config, k: Blk, l: nat)
    ensures (BmSpares(k.bm, l) ==> BmSpares(EndTx(c, k).bm, l)) && EndTx(c, k).bm.queue == k.bm.queue
    ensures EndTx(c, k).bm.waiting == k.bm.waiting
  {
  }

  lemma ReleaseSpares(k: Blk, l: nat)
    ensures BmSpares(k.bm, l) ==> BmSpares(FinishBatTx(k).bm, l) && BmSpares(FinishBatTx(UnlockIfIdle(k)).bm, l)
    ensures FinishBatTx(k).bm.waiting == FinishBatTx(UnlockIfIdle(k)).bm.waiting == k.bm.waiting
  {
  }

  lemma {:induction false} StartNewTxSpares(c: Config, k: Blk, l: nat)
    ensures (BmSpares(k.bm, l) ==> BmSpares(StartNewTx(c, k).bm, l)) && StartNewTx(c, k).bm.waiting == k.bm.waiting
    decreases |k.bm.queue|, 1
  {
    if k.bm.queue != [] && Completed(QueueToTx(c, k).bm.tx) { FinishDataTxSpares(c, QueueToTx(c, k), l); }
  }

  lemma {:induction false} IfCompletedSpares(c: Config, k: Blk, l: nat)
    ensures (BmSpares(k.bm, l) ==> BmSpares(FinishDataTxIfCompleted(c, k).bm, l)) &&
            FinishDataTxIfCompleted(c, k).bm.waiting == k.bm.waiting
  {
    if Completed(k.bm.tx) { FinishDataTxSpares(c, k, l); }
  }

  lemma BatWrittenSpares(c: Config, k: Blk, err: int, l: nat)
    ensures (BmSpares(k.bm, l) ==> BmSpares(BatWritten(c, k, err).bm, l)) &&
            BatWritten(c, k, err).bm.waiting == k.bm.waiting
  {
    hide FinishDataTxIfCompleted;
    hide FinishBitmapTx;
    var k1 := BatMark(c, k, err);
    assert BmSpares(k.bm, l) ==> BmSpares(k1.bm, l);
    assert k1.bm.waiting == k.bm.waiting;
    hide BatMark;
    hide FinishBatTx;
    hide BmSpares;
    IfCompletedSpares(c, k1, l);
    FinishBitmapTxSpares(c, k1, err, l);
    ReleaseSpares(k1, l);
    ReleaseSpares(FinishDataTxIfCompleted(c, k1), l);
    ReleaseSpares(FinishBitmapTx(c, k1, err), l);
  }

  lemma MarkSpares(rs: seq<Req>, i: nat, r: Req, l: nat)
    requires i < |rs| && Spares(rs, l) && r.op == rs[i].op && r.sec == rs[i].sec && r.secs == rs[i].secs
    ensures Spares(rs[i := r], l)
  {
    assert rs[i] in rs;
    forall q | q in rs[i := r] && q.op == OpWrite ensures !Has(q, l) {
      if q !in rs { assert q == r; }
    }
  }

  lemma PutStill(s: Vhd, k: Blk, l: nat)
    requires Still(s, l) && BmSpares(k.bm, l)
    ensures Still(Put(s, k), l)
  {
  }

  /** Bitmaps of t are as in s, or spare sector l anyway. */
  lemma CacheStill(s: Vhd, t: Vhd, l: nat)
    requires Still(s, l) && Spares(t.raw, l)
    requires forall b :: b in t.cache ==> (b in s.cache && t.cache[b] == s.cache[b]) || BmSpares(t.cache[b], l)
    ensures Still(t, l)
  {
  }

  lemma TouchStill(c: Config, s: Vhd, sec: nat, write: bool, l: nat)
    requires Still(s, l)
    ensures Still(ReadBitmapCache(c, s, sec, write).0, l)
  {
    hide Spares;
  }

  lemma InstallStill(c: Config, s: Vhd, b: nat, bm: Bm, l: nat)
    requires Still(s, l) && Blank(bm)
    ensures Still(InstallBitmap(c, s, b, bm).0, l)
  {
    hide Still;
    hide Install;
    if s.bmFree > 0 { PlacedStill(c, s, s.(bmFree := s.bmFree - 1), b, bm, l); }
    forall v | IsVictim(s, v) && v in s.cache
      ensures Still(Install(c, Check(s.(cache := s.cache - {v}), !InUse(s.cache[v])), b, bm), l)
    {
      PlacedStill(c, s, Check(s.(cache := s.cache - {v}), !InUse(s.cache[v])), b, bm, l);
    }
  }

  /** An idle bitmap takes its place among those that are left. */
  lemma PlacedStill(c: Config, s: Vhd, s1: Vhd, b: nat, bm: Bm, l: nat)
    requires Still(s, l) && Blank(bm) && s1.raw == s.raw
    requires forall x :: x in s1.cache ==> x in s.cache && s1.cache[x] == s.cache[x]
    ensures Still(Install(c, s1, b, bm), l)
  {
    assert BmSpares(bm.(seqno := s1.lru + 1), l);
    hide BmSpares;
    hide Spares;
    CacheStill(s, Install(c, s1, b, bm), l);
  }

  lemma QueueStill(c: Config, s: Vhd, r: Req, l: nat)
    requires Still(s, l) && (r.op == OpWrite ==> !Has(r, l))
    ensures Still(QueueRequest(c, s, r).0, l)
  {
    if r.sec / c.spb in s.cache { assert BmSpares(s.cache[r.sec / c.spb], l); }
    CacheStill(s, QueueRequest(c, s, r).0, l);
  }

  lemma AllocationStill(c: Config, s: Vhd, b: nat, l: nat)
    requires Still(s, l)
    ensures Still(AllocateBlock(c, s, b).0, l) && Still(UpdateBat(c, s, b).0, l)
  {
    hide EmptyBitmap;
    hide ReserveAndZero;
    hide LockAndWriteBat;
    hide BmSpares;
    hide Spares;
    var s0 := Check(s, b !in s.bat);
    var s1 := ExtentTaken(c, s0, b);
    SameStill(s, s1, l);
    EmptyStill(c, s0, b, l);
    EmptyStill(c, s1, b, l);
    assert AllocateBlock(c, s, b).0 == if s.lock.locked then Check(s0, s.lock.blk == b)
      else if c.sync(|s.log|) != 0 then s1
      else if EmptyBitmap(c, s1, b).1 != 0 then EmptyBitmap(c, s1, b).0
      else LockAndWriteBat(EmptyBitmap(c, s1, b).0, b);
  }

  /** The bitmap of a block about to be allocated, and the lock taken for it. */
  lemma EmptyStill(c: Config, s: Vhd, b: nat, l: nat)
    requires Still(s, l)
    ensures var (t, err) := EmptyBitmap(c, s, b);
            Still(t, l) && (err == 0 ==> Still(ReserveAndZero(c, t, b), l) && Still(LockAndWriteBat(t, b), l))
  {
    hide InstallBitmap;
    hide Spares;
    InstallStill(c, s, b, InitBm, l);
    var (t, err) := EmptyBitmap(c, s, b);
    if err == 0 { LockStill(c, t, b, l); }
  }

  lemma LockStill(c: Config, s: Vhd, b: nat, l: nat)
    requires Still(s, l) && b in s.cache
    ensures Still(ReserveAndZero(c, s, b), l) && Still(LockAndWriteBat(s, b), l)
  {
    hide Spares;
    assert BmSpares(s.cache[b], l);
    CacheStill(s, ReserveAndZero(c, s, b), l);
    CacheStill(s, LockAndWriteBat(s, b), l);
  }

  lemma DataWriteStill(c: Config, s: Vhd, r: Req, updBat: bool, updBitmap: bool, l: nat)
    requires Still(s, l) && !Has(r, l)
    ensures Still(ScheduleDataWrite(c, s, r, updBat, updBitmap).0, l)
  {
    hide AllocateBlock;
    hide UpdateBat;
    hide JoinTx;
    hide Put;
    hide At;
    hide PlainWrite;
    hide BmSpares;
    hide Spares;
    var b := r.sec / c.spb;
    AllocationStill(c, s, b, l);
    var (s1, err) := if !updBat then (s, 0) else if c.prealloc then AllocateBlock(c, s, b) else UpdateBat(c, s, b);
    if err == 0 && s1.free > 0 {
      var s2 := s1.(free := s1.free - 1);
      var q := r.(op := OpWrite, addr := (if updBat then s1.lock.off else BatEntry(s, b)) + c.bmSecs + r.sec % c.spb);
      PlainStill(c, s2, q, l);
      if b in s2.cache { JoinStill(s2, b, q, l); }
    }
  }

  lemma PlainStill(c: Config, s: Vhd, q: Req, l: nat)
    requires Still(s, l) && !Has(q, l)
    ensures Still(PlainWrite(c, s, q), l)
  {
  }

  lemma JoinStill(s: Vhd, b: nat, q: Req, l: nat)
    requires Still(s, l) && b in s.cache && !Has(q, l)
    ensures Still(Put(s, JoinTx(At(s, b), q)), l)
  {
    assert BmSpares(s.cache[b], l);
    assert BmSpares(JoinTx(At(s, b), q).bm, l);
    PutStill(s, JoinTx(At(s, b), q), l);
  }

  lemma BitmapReadStill(c: Config, s: Vhd, r: Req, l: nat)
    requires Still(s, l) && (r.op == OpWrite ==> !Has(r, l))
    ensures var (t, err) := ScheduleBitmapRead(c, s, r.sec / c.spb);
            Still(t, l) && Still(QueueRequest(c, t, r).0, l)
  {
    hide InstallBitmap;
    hide QueueRequest;
    hide Spares;
    var b := r.sec / c.spb;
    var s0 := Check(s, b in s.bat && b !in s.cache);
    InstallStill(c, s0, b, InitBm.(reading := true, locked := true), l);
    QueueStill(c, ScheduleBitmapRead(c, s, b).0, r, l);
  }

  /** A turn of a read, or of a write that does not reach sector l. */
  lemma TurnStill(c: Config, s: Vhd, write: bool, wid: nat, sec: nat, n: nat, l: nat)
    requires 0 < n && Still(s, l) && (write ==> !(sec <= l < sec + n))
    ensures Still(Turn(c, s, write, wid, sec, n).0, l)
  {
    hide ReadBitmapCache;
    hide ScheduleBitmapRead;
    hide QueueRequest;
    hide ScheduleDataWrite;
    hide BmSpares;
    var (s1, hit) := ReadBitmapCache(c, s, sec, write);
    TouchStill(c, s, sec, write, l);
    var r := Piece(write, wid, sec, ToBlockEnd(c, sec, n));
    match hit
    case NotCached => BitmapReadStill(c, s1, r, l);
    case ReadPending => QueueStill(c, s1, r, l);
    case BatClear => if write { DataWriteStill(c, s1, r, true, true, l); }
    case BitClear =>
      if write { DataWriteStill(c, s1, Piece(true, wid, sec, Span(c, s1, sec, n, false)), false, true, l); }
    case BitSet =>
      if write { DataWriteStill(c, s1, Piece(true, wid, sec, Span(c, s1, sec, n, true)), false, false, l); }
    case _ =>
  }

  lemma {:induction false} ServeStill(c: Config, s: Vhd, write: bool, wid: nat, sec: nat, n: nat, l: nat)
    requires Still(s, l) && (write ==> !(sec <= l < sec + n))
    ensures Still(Serve(c, s, write, wid, sec, n), l)
    decreases n
  {
    hide Turn;
    hide Still;
    if n > 0 {
      TurnStill(c, s, write, wid, sec, n, l);
      var (s1, k, err) := Turn(c, s, write, wid, sec, n);
      if err != 0 {
        SameStill(s1, Emit(s1, Done(write, wid, sec, n, err)), l);
      } else {
        ServeStill(c, s1, write, wid, sec + k, n - k, l);
      }
    }
  }

  lemma SameStill(s: Vhd, t: Vhd, l: nat)
    requires Still(s, l) && t.raw == s.raw && t.cache == s.cache
    ensures Still(t, l)
  {
  }

  lemma {:induction false} ReplayStill(c: Config, s: Vhd, rs: seq<Req>, l: nat)
    requires Still(s, l) && Spares(rs, l)
    ensures Still(Replay(c, s, rs), l)
    decreases |rs|
  {
    hide Serve;
    hide Still;
    if rs != [] {
      var r := rs[0];
      var s1 := s.(free := s.free + 1);
      SameStill(s, s1, l);
      assert r in rs;
      ServeStill(c, s1, r.op == OpWrite, r.wid, r.sec, r.secs, l);
      ReplayStill(c, Serve(c, s1, r.op == OpWrite, r.wid, r.sec, r.secs), rs[1..], l);
    }
  }

  lemma BitmapReadDoneStill(c: Config, s: Vhd, b: nat, err: int, l: nat)
    requires Still(s, l) && b in s.cache
    ensures Still(FinishBitmapRead(c, s, b, err), l)
  {
    hide Replay;
    assert BmSpares(s.cache[b], l);
    if err == 0 {
      var s1 := BitmapLoaded(c, s, b);
      ReplayStill(c, s1, s.cache[b].waiting, l);
      UnlockStill(Replay(c, s1, s.cache[b].waiting), b, l);
    }
  }

  lemma UnlockStill(s: Vhd, b: nat, l: nat)
    requires Still(s, l)
    ensures Still(UnlockCached(s, b), l)
  {
    hide Spares;
    if b in s.cache {
      assert BmSpares(s.cache[b], l);
      PutStill(s, UnlockIfIdle(At(s, b)), l);
    }
  }

  /** The step brings no write of sector l. */
  predicate Spared(step: Step, l: nat) { step.Request? && step.write ==> !(step.sec <= l < step.sec + step.secs) }

  /** A sector stays still until a write of it is requested. */
  lemma StepStill(c: Config, s: Vhd, step: Step, l: nat)
    requires Enabled(s, step) && Still(s, l) && Spared(step, l)
    ensures Still(Next(c, s, step), l)
  {
    hide Serve;
    hide FinishTxWrite;
    hide FinishQueuedWrite;
    hide FinishBitmapWrite;
    hide FinishBitmapRead;
    hide FinishZeroBmWrite;
    hide FinishBatWrite;
    hide LandTxWrite;
    hide LandQueuedWrite;
    match step
    case Request(write, sec, n) =>
      var s1 := Emit(s, Issue(write, sec, n));
      SameStill(s, s1, l);
      ServeStill(c, s1, write, |s.log|, sec, n, l);
    case LandTx(b, i) => LandTxStill(s, b, i, l);
    case LandQueue(b, i) => LandQueueStill(s, b, i, l);
    case LandOther(i) => MarkSpares(s.raw, i, LandRaw(c, s, i).raw[i], l);
    case LandBitmap(b) => LandStill(s, b, l);
    case LandZero =>
    case LandBat =>
    case DoneTx(b, i, err) => TxDoneStill(c, s, b, i, err, l);
    case DoneQueue(b, i, err) => QueueDoneStill(s, b, i, err, l);
    case DoneOther(i, err) =>
    case DoneBitmapRead(b, err) => BitmapReadDoneStill(c, s, b, err, l);
    case DoneBitmapWrite(b, err) => BitmapDoneStill(c, s, b, err, l);
    case DoneZero(err) => ZeroDoneStill(c, s, err, l);
    case DoneBat(err) => BatDoneStill(c, s, err, l);
  }

  lemma LandTxStill(s: Vhd, b: nat, i: nat, l: nat)
    requires Still(s, l) && b in s.cache && i < |s.cache[b].tx.reqs|
    ensures Still(LandTxWrite(s, b, i), l)
  {
    LandStill(s, b, l);
    MarkSpares(s.cache[b].tx.reqs, i, s.cache[b].tx.reqs[i].(landed := true), l);
  }

  lemma LandQueueStill(s: Vhd, b: nat, i: nat, l: nat)
    requires Still(s, l) && b in s.cache && i < |s.cache[b].queue|
    ensures Still(LandQueuedWrite(s, b, i), l)
  {
    LandStill(s, b, l);
    MarkSpares(s.cache[b].queue, i, s.cache[b].queue[i].(landed := true), l);
  }

  lemma LandStill(s: Vhd, b: nat, l: nat)
    requires Still(s, l) && b in s.cache
    ensures BmSpares(s.cache[b], l)
  {
  }

  lemma TxDoneStill(c: Config, s: Vhd, b: nat, i: nat, err: int, l: nat)
    requires Still(s, l) && b in s.cache && i < |s.cache[b].tx.reqs|
    ensures Still(FinishTxWrite(c, s, b, i, err), l)
  {
    hide FinishDataTxIfCompleted;
    hide Spares;
    var (k, r) := (At(s, b), s.cache[b].tx.reqs[i].(finished := true, err := err));
    LandStill(s, b, l);
    MarkSpares(s.cache[b].tx.reqs, i, r, l);
    IfCompletedSpares(c, TxWriteMark(c, k, i, err), l);
    SameStill(s, Sync(s, s.cache[b].tx.reqs[i], err), l);
    PutStill(Sync(s, s.cache[b].tx.reqs[i], err), TxWriteDone(c, k, i, err), l);
  }

  lemma QueueDoneStill(s: Vhd, b: nat, i: nat, err: int, l: nat)
    requires Still(s, l) && b in s.cache && i < |s.cache[b].queue|
    ensures Still(FinishQueuedWrite(s, b, i, err), l)
  {
    hide Spares;
    LandStill(s, b, l);
    MarkSpares(s.cache[b].queue, i, s.cache[b].queue[i].(finished := true, err := err), l);
    SameStill(s, Sync(s, s.cache[b].queue[i], err), l);
    PutStill(Sync(s, s.cache[b].queue[i], err), QueuedWriteDone(At(s, b), i, err), l);
  }

  lemma BitmapDoneStill(c: Config, s: Vhd, b: nat, err: int, l: nat)
    requires Still(s, l) && b in s.cache
    ensures Still(FinishBitmapWrite(c, s, b, err), l)
  {
    hide FinishBitmapTx;
    hide Spares;
    var k := At(s, b);
    LandStill(s, b, l);
    FinishBitmapTxSpares(c,
      Assert(k, k.bm.tx.closed && !k.bm.reading && k.bm.write != Idle).(bm := k.bm.(write := Idle)), err, l);
    PutStill(s, BitmapWritten(c, k, err), l);
  }

  lemma ZeroDoneStill(c: Config, s: Vhd, err: int, l: nat)
    requires Still(s, l)
    ensures Still(FinishZeroBmWrite(c, s, err), l)
  {
    hide FinishDataTxIfCompleted;
    hide Spares;
    var b := s.meta.zeroBlk;
    if b in s.cache {
      assert BmSpares(s.cache[b], l);
      var s0 := Check(s, s.lock.locked && s.lock.blk == b && b in s.cache && !s.cache[b].reading && s.cache[b].locked)
                .(meta := s.meta.(zero := Idle));
      var s1 := if err != 0 then s0.(lock := InitLock) else ScheduleBatWrite(s0);
      IfCompletedSpares(c, ZeroMark(At(s1, b), err), l);
      PutStill(s1, ZeroWritten(c, At(s1, b), err), l);
    }
  }

  lemma BatDoneStill(c: Config, s: Vhd, err: int, l: nat)
    requires Still(s, l)
    ensures Still(FinishBatWrite(c, s, err), l)
  {
    hide BatWritten;
    hide Spares;
    var b := s.lock.blk;
    if b in s.cache {
      assert BmSpares(s.cache[b], l);
      var s0 := Check(s, b in s.cache && !s.cache[b].reading && s.lock.locked && s.lock.started && s.cache[b].tx.live)
                .(meta := s.meta.(bat := Idle), lock := s.lock.(err := err));
      var s1 := if err != 0 then s0
                else s0.(bat := s0.bat[b := s.lock.off], nextDb := s.lock.off + c.spb + c.bmSecs);
      BatWrittenSpares(c, At(s1, b), err, l);
      PutStill(s1, BatWritten(c, At(s1, b), err), l);
    }
  }

  /* ---- the file ---- */

  lemma RecoverSame(c: Config, m: Media, m': Media, l: nat)
    requires var b := l / c.spb;
             && (b in m'.bat <==> b in m.bat)
             && (b in m.bat ==>
                  m'.bat[b] == m.bat[b] &&
                  (l % c.spb in BitsAt(m'.disk, m.bat[b]) <==> l % c.spb in BitsAt(m.disk, m.bat[b])) &&
                  m'.disk(Loc(c, m.bat[b], l)) == m.disk(Loc(c, m.bat[b], l)))
    ensures Recover(c, m', l) == Recover(c, m, l)
  {
  }

  /** The extents that the BAT on the disk names are as they were. */
  ghost predicate SameFiles(c: Config, m: Media, m': Media) {
    m'.bat == m.bat && forall b :: b in m.bat ==> SameOn(m.disk, m'.disk, m.bat[b], End(c, m.bat[b]))
  }

  lemma FilesTrans(c: Config, m: Media, m1: Media, m2: Media)
    requires SameFiles(c, m, m1) && SameFiles(c, m1, m2)
    ensures SameFiles(c, m, m2)
  {
  }

  lemma FilesRecover(c: Config, m: Media, m': Media, l: nat)
    requires SameFiles(c, m, m')
    ensures Recover(c, m', l) == Recover(c, m, l)
  {
    var b := l / c.spb;
    if b in m.bat { assert m.bat[b] <= Loc(c, m.bat[b], l) < End(c, m.bat[b]); }
    RecoverSame(c, m, m', l);
  }

  lemma LockMedia(c: Config, s: Vhd, b: nat)
    requires b in s.cache
    ensures ReserveAndZero(c, s, b).media == s.media && LockAndWriteBat(s, b).media == s.media
  {
  }

  lemma EmptyMedia(c: Config, s: Vhd, b: nat)
    ensures EmptyBitmap(c, s, b).0.media == s.media
    ensures EmptyBitmap(c, s, b).1 == 0 ==>
              ReserveAndZero(c, EmptyBitmap(c, s, b).0, b).media == s.media &&
              LockAndWriteBat(EmptyBitmap(c, s, b).0, b).media == s.media
  {
    hide InstallBitmap;
    InstallMedia(c, s, b, InitBm);
    if EmptyBitmap(c, s, b).1 == 0 { LockMedia(c, EmptyBitmap(c, s, b).0, b); }
  }

  lemma AllocationFiles(c: Config, s: Vhd, b: nat, pool: nat)
    requires Structure(c, s, pool) && Layout(c, s.bat, s.nextDb) && MetaD(c, s)
    ensures SameFiles(c, s.media, AllocateBlock(c, s, b).0.media)
    ensures UpdateBat(c, s, b).0.media == s.media
  {
    hide InstallBitmap;
    hide Structure;
    hide ReserveAndZero;
    hide LockAndWriteBat;
    HolderKnown(c, s, pool);
    if !s.lock.locked {
      forall x | x in s.media.bat
        ensures SameOn(s.media.disk, ExtentTaken(c, s, b).media.disk, s.media.bat[x], End(c, s.media.bat[x]))
      {
        assert InUseExtent(c, s.nextDb, s.bat[x]);
      }
    }
    hide EmptyBitmap;
    EmptyMedia(c, ExtentTaken(c, Check(s, b !in s.bat), b), b);
    EmptyMedia(c, Check(s, b !in s.bat), b);
  }

  lemma InstallMedia(c: Config, s: Vhd, b: nat, bm: Bm)
    ensures InstallBitmap(c, s, b, bm).0.media == s.media
  {
  }

  lemma DataWriteFiles(c: Config, s: Vhd, r: Req, updBat: bool, updBitmap: bool, pool: nat)
    requires Structure(c, s, pool) && Tracked(c, s)
    ensures SameFiles(c, s.media, ScheduleDataWrite(c, s, r, updBat, updBitmap).0.media)
  {
    hide Structure;
    hide Tracked;
    hide Layout;
    hide MetaD;
    hide AllocateBlock;
    hide UpdateBat;
    hide JoinTx;
    hide At;
    hide SameFiles;
    FileTracked(c, s);
    AllocationFiles(c, s, r.sec / c.spb, pool);
    FilesSame(c, s.media);
  }

  lemma FilesSame(c: Config, m: Media)
    ensures SameFiles(c, m, m)
  {
  }

  lemma QueueMedia(c: Config, s: Vhd, r: Req)
    ensures QueueRequest(c, s, r).0.media == s.media && ScheduleDataRead(c, s, r).0.media == s.media
  {
  }

  lemma TouchMedia(c: Config, s: Vhd, sec: nat, write: bool)
    ensures ReadBitmapCache(c, s, sec, write).0.media == s.media
  {
  }

  lemma TurnFiles(c: Config, s: Vhd, write: bool, wid: nat, sec: nat, n: nat, pool: nat)
    requires 0 < n && Structure(c, s, pool) && Tracked(c, s)
    ensures SameFiles(c, s.media, Turn(c, s, write, wid, sec, n).0.media)
  {
    hide Structure;
    hide Tracked;
    hide SameFiles;
    hide InstallBitmap;
    hide ReadBitmapCache;
    hide QueueRequest;
    hide ScheduleDataRead;
    hide ScheduleDataWrite;
    hide Span;
    hide ToBlockEnd;
    var (s1, hit) := ReadBitmapCache(c, s, sec, write);
    ReadBitmapCacheOk(c, s, sec, write, pool);
    TouchTracked(c, s, sec, write);
    TouchMedia(c, s, sec, write);
    var (b, whole) := (sec / c.spb, Piece(write, wid, sec, ToBlockEnd(c, sec, n)));
    InstallMedia(c, Check(s1, b in s1.bat && b !in s1.cache), b, InitBm.(reading := true, locked := true));
    QueueMedia(c, ScheduleBitmapRead(c, s1, b).0, whole);
    QueueMedia(c, s1, whole);
    FilesSame(c, s.media);
    if write {
      if hit == BatClear { DataWriteFiles(c, s1, whole, true, true, pool); }
      if hit == BitClear {
        DataWriteFiles(c, s1, Piece(true, wid, sec, Span(c, s1, sec, n, false)), false, true, pool);
      }
      if hit == BitSet { DataWriteFiles(c, s1, Piece(true, wid, sec, Span(c, s1, sec, n, true)), false, false, pool); }
    } else {
      QueueMedia(c, s1, Piece(false, wid, sec, Span(c, s1, sec, n, true)));
    }
  }

  lemma {:induction false} ServeFiles(c: Config, s: Vhd, write: bool, wid: nat, sec: nat, n: nat, pool: nat)
    requires Structure(c, s, pool) && Tracked(c, s)
    ensures SameFiles(c, s.media, Serve(c, s, write, wid, sec, n).media)
    decreases n
  {
    hide Structure;
    hide Tracked;
    hide WriteTurn;
    hide ReadTurn;
    if n > 0 {
      TurnFiles(c, s, write, wid, sec, n, pool);
      TurnOk(c, s, write, wid, sec, n, pool);
      if write { WriteTurnTracked(c, s, wid, sec, n, pool); } else { ReadTurnTracked(c, s, wid, sec, n, pool); }
      var (s1, k, err) := Turn(c, s, write, wid, sec, n);
      if err == 0 {
        ServeFiles(c, s1, write, wid, sec + k, n - k, pool);
        FilesTrans(c, s.media, s1.media, Serve(c, s, write, wid, sec, n).media);
      }
    }
  }

  lemma {:induction false} ReplayFiles(c: Config, s: Vhd, rs: seq<Req>, pool: nat)
    requires |rs| <= pool && Structure(c, s, pool - |rs|) && Tracked(c, s)
    ensures SameFiles(c, s.media, Replay(c, s, rs).media)
    decreases |rs|
  {
    hide Structure;
    hide Tracked;
    hide Serve;
    if rs != [] {
      var r := rs[0];
      var s1 := s.(free := s.free + 1);
      FreeOk(c, s, pool - |rs|);
      CalmSame(c, s, s1);
      ServeFiles(c, s1, r.op == OpWrite, r.wid, r.sec, r.secs, pool - |rs| + 1);
      ServeTracked(c, s1, r.op == OpWrite, r.wid, r.sec, r.secs, pool - |rs| + 1);
      ServeOk(c, s1, r.op == OpWrite, r.wid, r.sec, r.secs, pool - |rs| + 1);
      var t := Serve(c, s1, r.op == OpWrite, r.wid, r.sec, r.secs);
      ReplayFiles(c, t, rs[1..], pool);
      FilesTrans(c, s.media, t.media, Replay(c, s, rs).media);
    }
  }

  lemma BitmapReadFiles(c: Config, s: Vhd, b: nat, err: int, pool: nat)
    requires b in s.cache && s.cache[b].reading && Structure(c, s, pool) && Tracked(c, s)
    ensures SameFiles(c, s.media, FinishBitmapRead(c, s, b, err).media)
  {
    if err == 0 {
      hide Structure;
      hide Tracked;
      hide Replay;
      LoadedTracked(c, s, b, pool);
      BitmapLoadedOk(c, s, b, pool);
      ReplayFiles(c, BitmapLoaded(c, s, b), s.cache[b].waiting, pool);
    }
  }

  /* ---- landings ---- */

  /** The extent that the BAT on the disk names for the block of sector l. */
  lemma EntryFacts(c: Config, s: Vhd, b: nat, pool: nat)
    requires Structure(c, s, pool) && Tracked(c, s) && b in s.media.bat
    ensures PlaceOf(s, b) == Place(s.media.bat[b], true) && IsExtent(c, s, s.media.bat[b]) && MapOf(c, s, b)
  {
    FileTracked(c, s);
    EntryPlace(c, s, b, pool);
    hide Structure;
    assert MapOf(c, s, b);
    PlaceIsExtent(c, s, b);
  }

  /** A write to the extent of block b lands, which does not reach sector l. */
  lemma LandRecover(c: Config, s: Vhd, b: nat, r: Req, l: nat, pool: nat)
    requires InBlock(c, b, r) && !Has(r, l) && PlaceOf(s, b).Place?
    requires r.addr == PlaceOf(s, b).off + c.bmSecs + r.sec % c.spb
    requires Structure(c, s, pool) && Tracked(c, s)
    ensures Recover(c, s.media.(disk := LandReq(s.media.disk, r)), l) == Recover(c, s.media, l)
  {
    hide Recover;
    var x := l / c.spb;
    var m' := s.media.(disk := LandReq(s.media.disk, r));
    if x in s.media.bat {
      EntryFacts(c, s, x, pool);
      FileTracked(c, s);
      PlaceIsExtent(c, s, b);
      hide Structure;
      hide Tracked;
      var off := s.media.bat[x];
      DataWriteSpares(c, s, b, r, off);
      assert m'.disk(off) == s.media.disk(off);
      if x != b { PlacesApart(c, s, b, x); } else { SameQuotient(c.spb, l, r.sec); }
      hide MetaD;
      assert m'.disk(Loc(c, off, l)) == s.media.disk(Loc(c, off, l));
    }
    RecoverSame(c, s.media, m', l);
  }

  /** Nothing has been staged for sector l: what the bitmap write of its block puts there
      is what is there. */
  lemma BitStays(c: Config, s: Vhd, b: nat, l: nat, pool: nat)
    requires b in s.cache && !s.cache[b].reading && l / c.spb == b && Still(s, l) && Structure(c, s, pool)
    ensures l % c.spb in s.cache[b].shadow <==> l % c.spb in s.cache[b].bits
  {
    StillUnwritten(c, s, l, pool);
    SameBit(c, s, l, pool);
  }

  lemma LandBitmapRecover(c: Config, s: Vhd, b: nat, l: nat, pool: nat)
    requires Structure(c, s, pool) && Tracked(c, s) && Enabled(s, LandBitmap(b)) && Still(s, l)
    ensures Recover(c, LandBitmapWrite(c, s, b).media, l) == Recover(c, s.media, l)
  {
    hide Recover;
    hide Tracked;
    hide Still;
    var x := l / c.spb;
    var t := LandBitmapWrite(c, s, b);
    BitmapGoes(c, s, b, pool);
    if x in s.media.bat {
      EntryFacts(c, s, x, pool);
      var off := s.media.bat[x];
      if x != b {
        FileTracked(c, s);
        hide Structure;
        PlacesApart(c, s, b, x);
      } else {
        BitStays(c, s, b, l, pool);
        FlyingBits(c, s, b, pool);
        hide Structure;
        assert t.media.disk(off) == Bits(s.cache[b].shadow);
      }
    }
    hide Structure;
    RecoverSame(c, s.media, t.media, l);
  }

  lemma FlyingBits(c: Config, s: Vhd, b: nat, pool: nat)
    requires b in s.cache && s.cache[b].write == Flying && PlaceOf(s, b).Place? && PlaceOf(s, b).ready
    requires Structure(c, s, pool) && Tracked(c, s)
    ensures BitsAt(s.media.disk, PlaceOf(s, b).off) == s.cache[b].bits
  {
    assert BlockOk(c, s, b) && MapOf(c, s, b);
    BusyNotReading(c, s, b, pool);
  }

  lemma LandRawRecover(c: Config, s: Vhd, i: nat, l: nat, pool: nat)
    requires Structure(c, s, pool) && Tracked(c, s) && Enabled(s, LandOther(i)) && Still(s, l)
    ensures Recover(c, LandRaw(c, s, i).media, l) == Recover(c, s.media, l)
  {
    hide Recover;
    var r := s.raw[i];
    assert r in s.raw && RawShape(c, r) && RawM(c, s.media.disk, s.bat, s.batmap, r);
    match r.op
    case OpRead =>
    case OpWrite => LandRecover(c, s, r.sec / c.spb, r, l, pool);
    case OpPad => PadRecover(c, s, r, l, pool);
  }

  lemma PadRecover(c: Config, s: Vhd, r: Req, l: nat, pool: nat)
    requires r.op == OpPad && RawM(c, s.media.disk, s.bat, s.batmap, r)
    requires Structure(c, s, pool) && Tracked(c, s)
    ensures Recover(c, s.media.(disk := LandPad(c, s.media.disk, r)), l) == Recover(c, s.media, l)
  {
    hide Recover;
    var x := l / c.spb;
    var m' := s.media.(disk := LandPad(c, s.media.disk, r));
    if x in s.media.bat {
      EntryFacts(c, s, x, pool);
      PadSpares(c, s, r, s.media.bat[x]);
      FileTracked(c, s);
      hide Structure;
      hide Tracked;
      if x != r.sec / c.spb { PlacesApart(c, s, r.sec / c.spb, x); }
      hide MetaD;
      assert m'.disk(s.media.bat[x]) == s.media.disk(s.media.bat[x]);
    }
    RecoverSame(c, s.media, m', l);
  }

  lemma LandZeroRecover(c: Config, s: Vhd, l: nat, pool: nat)
    requires Structure(c, s, pool) && Tracked(c, s) && Enabled(s, LandZero)
    ensures Recover(c, LandZeroBmWrite(c, s).media, l) == Recover(c, s.media, l)
  {
    ZeroHolder(c, s, pool);
    FileTracked(c, s);
    hide Structure;
    hide Tracked;
    var t := LandZeroBmWrite(c, s);
    forall b | b in s.media.bat
      ensures SameOn(s.media.disk, t.media.disk, s.media.bat[b], End(c, s.media.bat[b]))
    {
      assert InUseExtent(c, s.nextDb, s.bat[b]);
    }
    FilesRecover(c, s.media, t.media, l);
  }

  /** A BAT entry lands: no bit of a sector that is still is set in the new extent. */
  lemma LandBatRecover(c: Config, s: Vhd, l: nat, pool: nat)
    requires Structure(c, s, pool) && Tracked(c, s) && Enabled(s, LandBat) && Still(s, l)
    ensures Recover(c, LandBatWrite(s).media, l) == Recover(c, s.media, l)
  {
    hide Recover;
    hide MetaD;
    hide Layout;
    var t := LandBatWrite(s);
    var b := s.lock.blk;
    BatHolder(c, s, pool);
    FileTracked(c, s);
    BatLanded(c, s);
    FlyingEntry(c, s);
    if l / c.spb == b { NewExtentClear(c, s, l, pool); } else { RecoverSame(c, s.media, t.media, l); }
  }

  lemma FlyingEntry(c: Config, s: Vhd)
    requires MetaD(c, s) && s.meta.bat == Flying
    ensures s.media.bat == s.bat
  {
  }

  /** The extent whose BAT entry is being written has no bit of a sector that is still. */
  lemma NewExtentClear(c: Config, s: Vhd, l: nat, pool: nat)
    requires s.meta.bat == Flying && l / c.spb == s.lock.blk && s.lock.blk !in s.media.bat && s.lock.blk !in s.bat
    requires Structure(c, s, pool) && Tracked(c, s) && Still(s, l)
    ensures Recover(c, s.media.(bat := s.bat[s.lock.blk := s.lock.off]), l) == Recover(c, s.media, l)
  {
    var b := s.lock.blk;
    BatHolder(c, s, pool);
    BitStays(c, s, b, l, pool);
    assert MapOf(c, s, b) && BlockOk(c, s, b);
  }

  /* ---- steps ---- */

  /** Whatever the driver does, what can be recovered of a sector that no write is on its
      way to stays the same. */
  lemma StepRecovers(c: Config, s: Vhd, step: Step, l: nat, pool: nat)
    requires Enabled(s, step) && Still(s, l) && Structure(c, s, pool) && Tracked(c, s) && OnDisk(c, s)
    ensures Recover(c, Next(c, s, step).media, l) == Recover(c, s.media, l)
  {
    hide Structure;
    hide Tracked;
    hide OnDisk;
    hide Recover;
    hide Still;
    hide Serve;
    hide FinishTxWrite;
    hide FinishQueuedWrite;
    hide FinishRaw;
    hide FinishBitmapWrite;
    hide FinishZeroBmWrite;
    hide FinishBatWrite;
    hide FinishBitmapRead;
    match step
    case Request(write, sec, n) =>
      var s1 := Emit(s, Issue(write, sec, n));
      EmitTracked(c, s, Issue(write, sec, n));
      MediaIrrelevant(c, s, s1, pool);
      ServeFiles(c, s1, write, |s.log|, sec, n, pool);
      FilesRecover(c, s.media, Next(c, s, step).media, l);
    case LandTx(b, i) => ListRecover(c, s, b, s.cache[b].tx.reqs[i], l, pool);
    case LandQueue(b, i) => ListRecover(c, s, b, s.cache[b].queue[i], l, pool);
    case LandOther(i) => LandRawRecover(c, s, i, l, pool);
    case LandBitmap(b) => LandBitmapRecover(c, s, b, l, pool);
    case LandZero => LandZeroRecover(c, s, l, pool);
    case LandBat => LandBatRecover(c, s, l, pool);
    case DoneBitmapRead(b, err) =>
      BitmapReadFiles(c, s, b, err, pool);
      FilesRecover(c, s.media, Next(c, s, step).media, l);
    case _ =>
      DoneMedia(c, s, step);
      RecoverSame(c, s.media, Next(c, s, step).media, l);
  }

  lemma DoneMedia(c: Config, s: Vhd, step: Step)
    requires Enabled(s, step)
    requires step.DoneTx? || step.DoneQueue? || step.DoneOther? || step.DoneBitmapWrite? || step.DoneZero? ||
             step.DoneBat?
    ensures Next(c, s, step).media.bat == s.media.bat && Next(c, s, step).media.disk == s.media.disk
  {
    hide FinishBitmapWrite;
    hide FinishZeroBmWrite;
    hide FinishBatWrite;
    hide TxWriteDone;
    if step.DoneBitmapWrite? || step.DoneZero? || step.DoneBat? { MetaMedia(c, s, step); }
  }

  lemma MetaMedia(c: Config, s: Vhd, step: Step)
    requires Enabled(s, step) && (step.DoneBitmapWrite? || step.DoneZero? || step.DoneBat?)
    ensures Next(c, s, step).media.bat == s.media.bat && Next(c, s, step).media.disk == s.media.disk
  {
    hide BitmapWritten;
    hide ZeroWritten;
    hide BatWritten;
  }

  lemma ListRecover(c: Config, s: Vhd, b: nat, r: Req, l: nat, pool: nat)
    requires b in s.cache && (r in s.cache[b].tx.reqs || r in s.cache[b].queue) && CanLand(r) && Still(s, l)
    requires Structure(c, s, pool) && Tracked(c, s) && OnDisk(c, s)
    ensures Recover(c, s.media.(disk := LandReq(s.media.disk, r)), l) == Recover(c, s.media, l)
  {
    assert !s.cache[b].reading by { BusyNotReading(c, s, b, pool); }
    ListedHere(c, s, b, r, pool);
    assert BmSpares(s.cache[b], l);
    hide Structure;
    hide Tracked;
    hide OnDisk;
    LandRecover(c, s, b, r, l, pool);
  }
}
