/** Where the errors of answers come from: an I/O that failed, of the write itself or of the
    meta-data of its block, and nothing else. */
module VhdErrors {
  import opened VhdTypes
  import opened VhdEngine
  import opened VhdInvariants
  import opened VhdStructure
  import opened VhdSafety
  import opened VhdTurns

  /** An I/O has failed: a write of the bitmap, of the zero bitmap or of the BAT entry of a block;
      or the write of a request. */
  datatype Fault = OfMeta(err: int) | OfWrite(wid: nat, sec: nat, secs: nat, err: int)

  function OwnFault(r: Req, err: int): set<Fault> {
    if err != 0 then {OfWrite(r.wid, r.sec, r.secs, err)} else {}
  }

  /** What fails, as far as block b is concerned, with a completion. A block whose BAT entry cannot
      be written has no extent: to those that wait for it, that is EIO. */
  function Faults(s: Vhd, step: Step, b: nat): set<Fault>
    requires Enabled(s, step)
  {
    match step
    case DoneTx(b', i, err) => if b' == b then OwnFault(s.cache[b].tx.reqs[i], err) else {}
    case DoneQueue(b', i, err) => if b' == b then OwnFault(s.cache[b].queue[i], err) else {}
    case DoneBitmapWrite(b', err) => if b' == b && err != 0 then {OfMeta(err)} else {}
    case DoneZero(err) => if s.meta.zeroBlk == b && err != 0 then {OfMeta(err)} else {}
    case DoneBat(err) => if s.lock.blk == b && err != 0 then {OfMeta(err), OfMeta(EIO)} else {}
    case _ => {}
  }

  predicate MetaEarned(err: int, w: set<Fault>) { err == 0 || OfMeta(err) in w }

  predicate OwnEarned(r: Req, w: set<Fault>) { r.err == 0 || OfWrite(r.wid, r.sec, r.secs, r.err) in w }

  /** The answer is a success, or one of the faults has its error. */
  predicate EvEarned(c: Config, b: nat, e: Ev, w: set<Fault>) {
    e.Done? && e.sec / c.spb == b && (MetaEarned(e.err, w) || OfWrite(e.wid, e.sec, e.secs, e.err) in w)
  }

  ghost predicate AllOwn(rs: seq<Req>, w: set<Fault>) { forall r :: r in rs ==> OwnEarned(r, w) }

  ghost predicate AllEvs(c: Config, b: nat, es: seq<Ev>, w: set<Fault>) { forall e :: e in es ==> EvEarned(c, b, e, w) }

  ghost predicate BmEarned(bm: Bm, w: set<Fault>) {
    MetaEarned(bm.tx.error, w) && AllOwn(bm.tx.reqs, w) && AllOwn(bm.queue, w)
  }

  ghost predicate InTheBlock(c: Config, b: nat, bm: Bm) {
    (forall r :: r in bm.tx.reqs ==> r.sec / c.spb == b) && (forall r :: r in bm.queue ==> r.sec / c.spb == b)
  }

  /* ---- one block ---- */

  /** The errors kept for block k, and those it has just answered with, come from the faults w. */
  ghost predicate KEarned(c: Config, k: Blk, w: set<Fault>) {
    && BmEarned(k.bm, w) && InTheBlock(c, k.b, k.bm) && AllEvs(c, k.b, k.out, w)
    && (k.Holds() && k.lock.err != 0 ==> OfMeta(EIO) in w)
  }

  /** Writes that wait behind a transaction whose block gets no extent. */
  predicate Stranded(k: Blk, w: set<Fault>) { k.bm.queue != [] && !k.alloc ==> OfMeta(EIO) in w }

  lemma EndTxEarned(c: Config, k: Blk, w: set<Fault>)
    requires KEarned(c, k, w)
    ensures KEarned(c, EndTx(c, k), w) && EndTx(c, k).bm.queue == k.bm.queue && EndTx(c, k).alloc == k.alloc
  {
    var evs := DoneEvs(k.bm.tx.reqs, k.bm.tx.error);
    forall e | e in evs ensures EvEarned(c, k.b, e, w) {
      var i :| 0 <= i < |evs| && evs[i] == e;
      assert k.bm.tx.reqs[i] in k.bm.tx.reqs && OwnEarned(k.bm.tx.reqs[i], w);
    }
  }

  lemma QueueToTxEarned(c: Config, k: Blk, w: set<Fault>)
    requires KEarned(c, k, w) && k.bm.queue != [] && Stranded(k, w)
    ensures var t := QueueToTx(c, k);
            KEarned(c, t, w) && t.bm.queue == [] && t.bm.tx.error == if k.alloc then 0 else EIO
  {
  }

  lemma {:induction false} StartNewTxEarned(c: Config, k: Blk, w: set<Fault>)
    requires KEarned(c, k, w) && Stranded(k, w)
    ensures KEarned(c, StartNewTx(c, k), w)
    decreases |k.bm.queue|, 1
  {
    hide KEarned;
    if k.bm.queue != [] {
      QueueToTxEarned(c, k, w);
      if Completed(QueueToTx(c, k).bm.tx) { FinishDataTxEarned(c, QueueToTx(c, k), w); }
    }
  }

  lemma {:induction false} FinishDataTxEarned(c: Config, k: Blk, w: set<Fault>)
    requires KEarned(c, k, w) && (Stranded(k, w) || (!c.prealloc && k.bm.tx.updateBat))
    ensures KEarned(c, FinishDataTx(c, k), w)
    decreases |k.bm.queue|, 3
  {
    var k1 := k.(bm := k.bm.(tx := k.bm.tx.(closed := true)));
    assert KEarned(c, k1, w);
    if k.bm.tx.error != 0 {
      hide KEarned;
      FinishBitmapTxEarned(c, k1, 0, w);
    }
  }

  lemma {:induction false} FinishBitmapTxEarned(c: Config, k: Blk, error: int, w: set<Fault>)
    requires KEarned(c, k, w) && MetaEarned(error, w) && (Stranded(k, w) || (!c.prealloc && k.bm.tx.updateBat))
    ensures KEarned(c, FinishBitmapTx(c, k, error), w)
    decreases |k.bm.queue|, 2
  {
    hide KEarned;
    hide EndTx;
    hide UnlockIfIdle;
    hide FinishBatTx;
    var k1 := WithError(k, error);
    WithErrorEarned(c, k, error, w);
    if c.prealloc || !k.bm.tx.updateBat {
      EndTxEarned(c, k1, w);
      StartNewTxEarned(c, EndTx(c, k1), w);
      ReleaseEarned(c, StartNewTx(c, EndTx(c, k1)), w);
    } else {
      LockTxEarned(c, k1, w);
    }
  }

  lemma WithErrorEarned(c: Config, k: Blk, error: int, w: set<Fault>)
    requires KEarned(c, k, w) && MetaEarned(error, w)
    ensures KEarned(c, WithError(k, error), w)
  {
  }

  lemma ReleaseEarned(c: Config, k: Blk, w: set<Fault>)
    requires KEarned(c, k, w)
    ensures KEarned(c, FinishBatTx(UnlockIfIdle(k)), w) && KEarned(c, FinishBatTx(k), w)
  {
    hide AllOwn;
    hide AllEvs;
    hide InUse;
  }

  lemma LockTxEarned(c: Config, k: Blk, w: set<Fault>)
    requires KEarned(c, k, w)
    ensures KEarned(c, Assert(k, k.b == k.lock.blk && k.lock.started).(lock := k.lock.(tx := true)), w)
  {
  }

  /** With the lock as a transaction may hold it when it ends. */
  lemma ReadyStranded(c: Config, k: Blk, zero: Io, bat: Io, w: set<Fault>)
    requires Ready(c, k, zero, bat) && KEarned(c, k, w)
    ensures Stranded(k, w) || (!c.prealloc && k.bm.tx.updateBat)
  {
  }

  lemma IfCompletedEarned(c: Config, k: Blk, zero: Io, bat: Io, w: set<Fault>)
    requires Completed(k.bm.tx) ==> Ready(c, k, zero, bat)
    requires KEarned(c, k, w)
    ensures KEarned(c, FinishDataTxIfCompleted(c, k), w)
  {
    hide KEarned;
    if Completed(k.bm.tx) {
      ReadyStranded(c, k, zero, bat, w);
      FinishDataTxEarned(c, k, w);
    }
  }

  /* ---- the completions ---- */

  lemma OwnUpdate(rs: seq<Req>, i: nat, r: Req, w: set<Fault>)
    requires i < |rs| && AllOwn(rs, w) && OwnEarned(r, w)
    ensures AllOwn(rs[i := r], w)
  {
    forall q | q in rs[i := r] ensures OwnEarned(q, w) {
      if q != r { assert q in rs; }
    }
  }

  lemma SameBlockUpdate(c: Config, b: nat, rs: seq<Req>, i: nat, r: Req)
    requires i < |rs| && r.sec == rs[i].sec && forall q :: q in rs ==> q.sec / c.spb == b
    ensures forall q :: q in rs[i := r] ==> q.sec / c.spb == b
  {
    assert rs[i] in rs;
    forall q | q in rs[i := r] ensures q.sec / c.spb == b {
      if q != r { assert q in rs; }
    }
  }

  lemma TxWriteEarned(c: Config, k: Blk, i: nat, err: int, zero: Io, bat: Io, w: set<Fault>)
    requires KOk(c, k, zero, bat) && i < |k.bm.tx.reqs| && CanFinish(k.bm.tx.reqs[i], err)
    requires KEarned(c, k, w) && OwnFault(k.bm.tx.reqs[i], err) <= w
    ensures KEarned(c, TxWriteDone(c, k, i, err), w)
  {
    hide Ready;
    var k1 := TxWriteMark(c, k, i, err);
    TxWriteMarked(c, k, i, err, zero, bat);
    hide KOk;
    var r := k.bm.tx.reqs[i].(finished := true, err := err);
    OwnUpdate(k.bm.tx.reqs, i, r, w);
    SameBlockUpdate(c, k.b, k.bm.tx.reqs, i, r);
    assert KEarned(c, k1, w);
    hide KEarned;
    IfCompletedEarned(c, k1, zero, bat, w);
  }

  lemma QueuedWriteEarned(c: Config, k: Blk, i: nat, err: int, w: set<Fault>)
    requires i < |k.bm.queue|
    requires KEarned(c, k, w) && OwnFault(k.bm.queue[i], err) <= w
    ensures KEarned(c, QueuedWriteDone(k, i, err), w)
  {
    var r := k.bm.queue[i].(finished := true, err := err);
    OwnUpdate(k.bm.queue, i, r, w);
    SameBlockUpdate(c, k.b, k.bm.queue, i, r);
  }

  lemma BitmapWrittenEarned(c: Config, k: Blk, err: int, zero: Io, bat: Io, w: set<Fault>)
    requires KOk(c, k, zero, bat) && k.bm.write != Idle
    requires KEarned(c, k, w) && MetaEarned(err, w)
    ensures KEarned(c, BitmapWritten(c, k, err), w)
  {
    BitmapWriteBack(c, k, zero, bat);
    hide KOk;
    hide Ready;
    var k1 := k.(bm := k.bm.(write := Idle));
    assert KEarned(c, k1, w);
    hide KEarned;
    ReadyStranded(c, k1, zero, bat, w);
    FinishBitmapTxEarned(c, k1, err, w);
    assert BitmapWritten(c, k, err) == FinishBitmapTx(c, k1, err);
  }

  lemma ZeroReady(c: Config, k: Blk, err: int, zero: Io)
    requires KOk(c, k, zero, Idle) && k.Holds() && zero != Idle
    ensures var k1 := ZeroMark(k.(lock := AfterZero(k.lock, err)), err);
            Completed(k1.bm.tx) ==> Ready(c, k1, Idle, if err != 0 then Idle else Flying)
  {
  }

  lemma ZeroWrittenEarned(c: Config, k: Blk, err: int, zero: Io, w: set<Fault>)
    requires KOk(c, k, zero, Idle) && k.Holds() && zero != Idle
    requires KEarned(c, k, w) && MetaEarned(err, w)
    ensures KEarned(c, ZeroWritten(c, k.(lock := AfterZero(k.lock, err)), err), w)
  {
    ZeroReady(c, k, err, zero);
    hide KOk;
    hide Ready;
    var k1 := ZeroMark(k.(lock := AfterZero(k.lock, err)), err);
    assert KEarned(c, k1, w);
    IfCompletedEarned(c, k1, Idle, if err != 0 then Idle else Flying, w);
  }

  /** The block once its BAT write is back. */
  function Back(k: Blk, err: int): Blk { k.(lock := k.lock.(err := err), alloc := err == 0) }

  lemma BatReady(c: Config, k: Blk, err: int, bat: Io)
    requires KOk(c, k, Idle, bat) && k.Holds() && bat != Idle
    ensures var k1 := BatMark(c, Back(k, err), err);
            if c.prealloc then Completed(k1.bm.tx) ==> Ready(c, k1, Idle, Idle)
            else k.lock.tx ==> Ready(c, k1, Idle, Idle) && !k1.bm.tx.updateBat
  {
  }

  lemma BatWrittenEarned(c: Config, k: Blk, err: int, bat: Io, w: set<Fault>)
    requires KOk(c, k, Idle, bat) && k.Holds() && bat != Idle
    requires KEarned(c, k, w) && MetaEarned(err, w) && (err != 0 ==> OfMeta(EIO) in w)
    ensures KEarned(c, BatWritten(c, Back(k, err), err), w)
  {
    BatReady(c, k, err, bat);
    hide KOk;
    hide Ready;
    var k1 := BatMark(c, Back(k, err), err);
    assert KEarned(c, k1, w);
    hide KEarned;
    hide FinishBatTx;
    if c.prealloc {
      IfCompletedEarned(c, k1, Idle, Idle, w);
      ReleaseEarned(c, FinishDataTxIfCompleted(c, k1), w);
    } else if k.lock.tx {
      ReadyStranded(c, k1, Idle, Idle, w);
      FinishBitmapTxEarned(c, k1, err, w);
      ReleaseEarned(c, FinishBitmapTx(c, k1, err), w);
    } else {
      ReleaseEarned(c, k1, w);
    }
  }

  /* ---- the whole state, as far as block b is concerned ---- */

  ghost predicate Earned(c: Config, s: Vhd, b: nat, w: set<Fault>) {
    && (b in s.cache ==> BmEarned(s.cache[b], w) && InTheBlock(c, b, s.cache[b]))
    && (s.lock.locked && s.lock.blk == b && s.lock.err != 0 ==> OfMeta(EIO) in w)
    && (!s.lock.locked ==> s.lock.err == 0)
  }

  /** Block b is as it was, or has a bitmap without errors. */
  lemma EarnedSame(c: Config, s: Vhd, t: Vhd, b: nat, w: set<Fault>)
    requires Earned(c, s, b, w) && t.lock == s.lock
    requires b in t.cache ==> (b in s.cache && t.cache[b] == s.cache[b].(seqno := t.cache[b].seqno)) ||
                              (t.cache[b].tx == InitTx && t.cache[b].queue == [])
    ensures Earned(c, t, b, w)
  {
  }

  lemma InstallEarned(c: Config, s: Vhd, x: nat, bm: Bm, b: nat, w: set<Fault>)
    requires Earned(c, s, b, w) && bm.tx == InitTx && bm.queue == [] && x !in s.cache
    ensures Earned(c, InstallBitmap(c, s, x, bm).0, b, w)
  {
    hide InstallBitmap;
    hide NoBitmap;
    hide Oldest;
    InstallExact(c, s, x, bm);
    EarnedSame(c, s, InstallBitmap(c, s, x, bm).0, b, w);
  }

  lemma QueueEarned(c: Config, s: Vhd, r: Req, b: nat, w: set<Fault>)
    requires Earned(c, s, b, w)
    ensures Earned(c, QueueRequest(c, s, r).0, b, w)
  {
    hide AllOwn;
  }

  lemma EmptyEarned(c: Config, s: Vhd, x: nat, b: nat, w: set<Fault>)
    requires Earned(c, s, b, w) && !s.lock.locked
    ensures var (t, err) := EmptyBitmap(c, s, x);
            && Earned(c, t, b, w) && t.lock == s.lock
            && (err == 0 ==> Earned(c, ReserveAndZero(c, t, x), b, w) && Earned(c, LockAndWriteBat(t, x), b, w))
  {
    hide InstallBitmap;
    hide NoBitmap;
    hide Oldest;
    hide AllOwn;
    if x !in s.cache { InstallEarned(c, s, x, InitBm, b, w); InstallExact(c, s, x, InitBm); }
  }

  lemma AllocationEarned(c: Config, s: Vhd, x: nat, b: nat, w: set<Fault>)
    requires Earned(c, s, b, w)
    ensures Earned(c, Allocation(c, s, x).0, b, w)
  {
    hide EmptyBitmap;
    hide ReserveAndZero;
    hide LockAndWriteBat;
    hide BmEarned;
    hide Gap;
    var s0 := Check(s, x !in s.bat);
    if !s.lock.locked {
      EmptyEarned(c, s0, x, b, w);
      EmptyEarned(c, Placed(c, s0, x), x, b, w);
    }
  }

  lemma JoinEarned(c: Config, s: Vhd, x: nat, q: Req, b: nat, w: set<Fault>)
    requires Earned(c, s, b, w) && x in s.cache && q.err == 0 && q.sec / c.spb == x
    ensures Earned(c, Put(s, JoinTx(At(s, x), q)), b, w)
  {
  }

  lemma PlainEarned(c: Config, s: Vhd, q: Req, b: nat, w: set<Fault>)
    requires Earned(c, s, b, w)
    ensures Earned(c, PlainWrite(c, s, q), b, w)
  {
    hide BmEarned;
    hide InTheBlock;
  }

  lemma DataWriteEarned(c: Config, s: Vhd, r: Req, updBat: bool, updBitmap: bool, b: nat, w: set<Fault>)
    requires Earned(c, s, b, w) && r.err == 0
    ensures Earned(c, ScheduleDataWrite(c, s, r, updBat, updBitmap).0, b, w)
  {
    hide AllocateBlock;
    hide UpdateBat;
    hide JoinTx;
    hide Put;
    hide At;
    hide PlainWrite;
    hide Earned;
    var x := r.sec / c.spb;
    AllocationEarned(c, s, x, b, w);
    var (s1, err) := if updBat then Allocation(c, s, x) else (s, 0);
    if err == 0 && s1.free > 0 {
      var s2 := s1.(free := s1.free - 1);
      var q := r.(op := OpWrite, addr := (if updBat then s1.lock.off else BatEntry(s, x)) + c.bmSecs + r.sec % c.spb);
      EarnedSame(c, s1, s2, b, w);
      PlainEarned(c, s2, q, b, w);
      if x in s2.cache { JoinEarned(c, s2, x, q, b, w); } else { EarnedSame(c, s2, Check(s2, false), b, w); }
    }
  }

  lemma BitmapReadEarned(c: Config, s: Vhd, r: Req, b: nat, w: set<Fault>)
    requires Earned(c, s, b, w) && r.sec / c.spb !in s.cache
    ensures var (t, err) := ScheduleBitmapRead(c, s, r.sec / c.spb);
            Earned(c, t, b, w) && Earned(c, QueueRequest(c, t, r).0, b, w)
  {
    hide InstallBitmap;
    hide QueueRequest;
    hide BmEarned;
    hide InTheBlock;
    var x := r.sec / c.spb;
    InstallEarned(c, Check(s, x in s.bat && x !in s.cache), x, ReadingBitmap, b, w);
    QueueEarned(c, ScheduleBitmapRead(c, s, x).0, r, b, w);
  }

  lemma TurnEarned(c: Config, s: Vhd, write: bool, wid: nat, sec: nat, n: nat, b: nat, w: set<Fault>)
    requires 0 < n && Earned(c, s, b, w)
    ensures Earned(c, Turn(c, s, write, wid, sec, n).0, b, w)
  {
    hide ScheduleBitmapRead;
    hide QueueRequest;
    hide ScheduleDataWrite;
    hide BmEarned;
    hide InTheBlock;
    var (s1, hit) := ReadBitmapCache(c, s, sec, write);
    assert Earned(c, s1, b, w) by { if sec / c.spb in s.cache { EarnedSame(c, s, Touch(s, sec / c.spb), b, w); } }
    var r := Piece(write, wid, sec, ToBlockEnd(c, sec, n));
    match hit
    case NotCached => BitmapReadEarned(c, s1, r, b, w);
    case ReadPending => QueueEarned(c, s1, r, b, w);
    case BatClear => if write { DataWriteEarned(c, s1, r, true, true, b, w); }
    case BitClear =>
      if write { DataWriteEarned(c, s1, Piece(true, wid, sec, Span(c, s1, sec, n, false)), false, true, b, w); }
    case BitSet =>
      if write { DataWriteEarned(c, s1, Piece(true, wid, sec, Span(c, s1, sec, n, true)), false, false, b, w); }
    case _ =>
  }

  lemma {:induction false} ServeEarned(c: Config, s: Vhd, write: bool, wid: nat, sec: nat, n: nat, b: nat,
          w: set<Fault>)
    requires Earned(c, s, b, w)
    ensures Earned(c, Serve(c, s, write, wid, sec, n), b, w)
    decreases n
  {
    hide Turn;
    hide BmEarned;
    hide InTheBlock;
    if n > 0 {
      TurnEarned(c, s, write, wid, sec, n, b, w);
      var (s1, k, err) := Turn(c, s, write, wid, sec, n);
      if err == 0 { ServeEarned(c, s1, write, wid, sec + k, n - k, b, w); }
    }
  }

  lemma {:induction false} ReplayEarned(c: Config, s: Vhd, rs: seq<Req>, b: nat, w: set<Fault>)
    requires Earned(c, s, b, w)
    ensures Earned(c, Replay(c, s, rs), b, w)
    decreases |rs|
  {
    hide Serve;
    hide BmEarned;
    hide InTheBlock;
    if rs != [] {
      var (r, s1) := (rs[0], s.(free := s.free + 1));
      ServeEarned(c, s1, r.op == OpWrite, r.wid, r.sec, r.secs, b, w);
      ReplayEarned(c, Serve(c, s1, r.op == OpWrite, r.wid, r.sec, r.secs), rs[1..], b, w);
    }
  }

  lemma BitmapReadDoneEarned(c: Config, s: Vhd, x: nat, err: int, b: nat, w: set<Fault>)
    requires Earned(c, s, b, w) && x in s.cache
    ensures Earned(c, FinishBitmapRead(c, s, x, err), b, w)
  {
    hide Replay;
    hide AllOwn;
    if err == 0 {
      var s1 := BitmapLoaded(c, s, x);
      ReplayEarned(c, s1, s.cache[x].waiting, b, w);
    }
  }

  /** What the history has gained are answers of block b, with success or the error of a fault. */
  ghost predicate Answers(c: Config, s: Vhd, t: Vhd, b: nat, w: set<Fault>) {
    s.log <= t.log && AllEvs(c, b, t.log[|s.log|..], w)
  }

  lemma AtEarned(c: Config, s: Vhd, b: nat, w: set<Fault>)
    requires Earned(c, s, b, w) && b in s.cache
    ensures KEarned(c, At(s, b), w)
  {
  }

  /** Block k.b has been dealt with, in a state that is s but for BAT, lock and disk. */
  lemma PutEarned(c: Config, s: Vhd, s1: Vhd, k: Blk, b: nat, w: set<Fault>)
    requires Earned(c, s, b, w) && s1.cache == s.cache && s1.log == s.log && (!k.lock.locked ==> k.lock.err == 0)
    requires if k.b == b then KEarned(c, k, w)
             else k.Holds() || !k.lock.locked || k.lock.(tx := s.lock.tx) == s.lock
    ensures Earned(c, Put(s1, k), b, w) && (k.b == b ==> Answers(c, s, Put(s1, k), b, w))
  {
    hide AllEvs;
    hide BmEarned;
    hide InTheBlock;
    assert (s.log + k.out)[|s.log|..] == k.out;
    hide KEarned;
    if k.b == b { KParts(c, k, w); }
  }

  lemma KParts(c: Config, k: Blk, w: set<Fault>)
    requires KEarned(c, k, w)
    ensures BmEarned(k.bm, w) && InTheBlock(c, k.b, k.bm) && AllEvs(c, k.b, k.out, w)
    ensures k.Holds() && k.lock.err != 0 ==> OfMeta(EIO) in w
  {
  }

  lemma KOther(k: Blk, k': Blk, zero: Io, bat: Io)
    requires KFrame(k, k', zero, bat)
    ensures k'.b == k.b && (k'.Holds() || !k'.lock.locked || k'.lock.(tx := k.lock.tx) == k.lock)
  {
  }

  /** The block of which a completion is, and what answers it. */
  predicate Completes(s: Vhd, step: Step, b: nat) {
    match step
    case DoneTx(b', _, _) => b' == b
    case DoneQueue(b', _, _) => b' == b
    case DoneBitmapWrite(b', _) => b' == b
    case DoneZero(_) => s.meta.zeroBlk == b
    case DoneBat(_) => s.lock.blk == b
    case _ => false
  }

  lemma LockCalm(c: Config, s: Vhd, pool: nat)
    requires Structure(c, s, pool)
    ensures !s.lock.locked ==> s.lock.err == 0
  {
  }

  /** A completion of block x leaves block b with the errors of faults, and answers with no others. */
  ghost predicate Deals(c: Config, s: Vhd, t: Vhd, x: nat, b: nat, w: set<Fault>) {
    Earned(c, t, b, w) && (x == b ==> Answers(c, s, t, b, w))
  }

  lemma DoneTxEarned(c: Config, s: Vhd, x: nat, i: nat, err: int, b: nat, w: set<Fault>, pool: nat)
    requires Enabled(s, DoneTx(x, i, err)) && Faults(s, DoneTx(x, i, err), b) <= w
    requires Earned(c, s, b, w) && Structure(c, s, pool)
    ensures Deals(c, s, FinishTxWrite(c, s, x, i, err), x, b, w)
  {
    hide Structure;
    hide Earned;
    hide KEarned;
    hide KOk;
    hide KFrame;
    hide Answers;
    hide TxWriteDone;
    var k := At(s, x);
    var k' := TxWriteDone(c, k, i, err);
    AtOk(c, s, x, pool);
    DoneTxOk(c, s, x, i, err, pool);
    LockCalm(c, FinishTxWrite(c, s, x, i, err), pool);
    TxWriteDoneOk(c, k, i, err, s.meta.zero, s.meta.bat);
    if x == b {
      AtEarned(c, s, b, w);
      TxWriteEarned(c, k, i, err, s.meta.zero, s.meta.bat, w);
    }
    KOther(k, k', s.meta.zero, s.meta.bat);
    PutEarned(c, s, Sync(s, s.cache[x].tx.reqs[i], err), k', b, w);
  }

  lemma DoneQueueEarned(c: Config, s: Vhd, x: nat, i: nat, err: int, b: nat, w: set<Fault>, pool: nat)
    requires Enabled(s, DoneQueue(x, i, err)) && Faults(s, DoneQueue(x, i, err), b) <= w
    requires Earned(c, s, b, w) && Structure(c, s, pool)
    ensures Deals(c, s, FinishQueuedWrite(s, x, i, err), x, b, w)
  {
    hide Structure;
    hide Earned;
    hide KEarned;
    hide Answers;
    var k := At(s, x);
    LockCalm(c, s, pool);
    if x == b {
      AtEarned(c, s, b, w);
      QueuedWriteEarned(c, k, i, err, w);
    }
    PutEarned(c, s, Sync(s, s.cache[x].queue[i], err), QueuedWriteDone(k, i, err), b, w);
  }

  lemma DoneBitmapWriteEarned(c: Config, s: Vhd, x: nat, err: int, b: nat, w: set<Fault>, pool: nat)
    requires Enabled(s, DoneBitmapWrite(x, err)) && Faults(s, DoneBitmapWrite(x, err), b) <= w
    requires Earned(c, s, b, w) && Structure(c, s, pool)
    ensures Deals(c, s, FinishBitmapWrite(c, s, x, err), x, b, w)
  {
    hide Structure;
    hide Earned;
    hide KEarned;
    hide KOk;
    hide KFrame;
    hide Answers;
    hide BitmapWritten;
    var k := At(s, x);
    var k' := BitmapWritten(c, k, err);
    AtOk(c, s, x, pool);
    DoneBitmapWriteOk(c, s, x, err, pool);
    LockCalm(c, FinishBitmapWrite(c, s, x, err), pool);
    BitmapWrittenOk(c, k, err, s.meta.zero, s.meta.bat);
    if x == b {
      AtEarned(c, s, b, w);
      BitmapWrittenEarned(c, k, err, s.meta.zero, s.meta.bat, w);
    }
    KOther(k, k', s.meta.zero, s.meta.bat);
    PutEarned(c, s, s, k', b, w);
  }

  lemma ZeroHeld(c: Config, s: Vhd, pool: nat)
    requires Structure(c, s, pool) && s.meta.zero != Idle
    ensures s.lock.locked && s.lock.blk in s.cache && s.meta.zeroBlk == s.lock.blk && s.meta.bat == Idle
    ensures !s.cache[s.lock.blk].reading && s.cache[s.lock.blk].locked
  {
    assert BlockOk(c, s, s.lock.blk);
  }

  /** The state in which finish_zero_bm_write turns to the transaction. */
  function AfterZeroWrite(s: Vhd, err: int): Vhd {
    var s0 := s.(meta := s.meta.(zero := Idle));
    if err != 0 then s0.(lock := InitLock) else ScheduleBatWrite(s0)
  }

  lemma ZeroState(c: Config, s: Vhd, err: int)
    requires s.lock.locked && s.lock.blk in s.cache && s.meta.zeroBlk == s.lock.blk && s.meta.bat == Idle
    requires !s.cache[s.lock.blk].reading && s.cache[s.lock.blk].locked
    ensures var (b, s1) := (s.lock.blk, AfterZeroWrite(s, err));
            && s1.cache == s.cache && s1.log == s.log
            && At(s1, b) == At(s, b).(lock := AfterZero(s.lock, err))
            && FinishZeroBmWrite(c, s, err) == Put(s1, ZeroWritten(c, At(s1, b), err))
  {
    hide ZeroWritten;
    hide Put;
  }

  lemma DoneZeroEarned(c: Config, s: Vhd, err: int, b: nat, w: set<Fault>, pool: nat)
    requires Enabled(s, DoneZero(err)) && Faults(s, DoneZero(err), b) <= w
    requires Earned(c, s, b, w) && Structure(c, s, pool)
    ensures Deals(c, s, FinishZeroBmWrite(c, s, err), s.meta.zeroBlk, b, w)
  {
    hide Structure;
    hide Earned;
    hide KEarned;
    hide KOk;
    hide KFrame;
    hide Answers;
    hide ZeroWritten;
    hide AfterZeroWrite;
    ZeroHeld(c, s, pool);
    var x := s.lock.blk;
    var k := At(s, x);
    ZeroState(c, s, err);
    var k1 := k.(lock := AfterZero(k.lock, err));
    var k' := ZeroWritten(c, k1, err);
    AtOk(c, s, x, pool);
    DoneZeroOk(c, s, err, pool);
    LockCalm(c, FinishZeroBmWrite(c, s, err), pool);
    ZeroWrittenOk(c, k, err, s.meta.zero);
    if x == b {
      AtEarned(c, s, b, w);
      ZeroWrittenEarned(c, k, err, s.meta.zero, w);
    }
    KOther(k1, k', Idle, if err != 0 then Idle else Flying);
    PutEarned(c, s, AfterZeroWrite(s, err), k', b, w);
  }

  lemma BatState(c: Config, s: Vhd, err: int)
    requires s.lock.locked && s.lock.started && s.lock.blk in s.cache && s.lock.blk !in s.bat
    requires !s.cache[s.lock.blk].reading && s.cache[s.lock.blk].tx.live
    ensures var (b, s1) := (s.lock.blk, AfterBat(c, s, err));
            && s1.cache == s.cache && s1.log == s.log
            && At(s1, b) == Back(At(s, b).(at := At(s1, b).at), err)
            && FinishBatWrite(c, s, err) == Put(s1, BatWritten(c, At(s1, b), err))
  {
    hide BatWritten;
    hide Put;
  }

  lemma AtAnywhere(c: Config, k: Blk, at: nat, w: set<Fault>)
    requires KEarned(c, k, w)
    ensures KEarned(c, k.(at := at), w)
  {
  }

  lemma DoneBatEarned(c: Config, s: Vhd, err: int, b: nat, w: set<Fault>, pool: nat)
    requires Enabled(s, DoneBat(err)) && Faults(s, DoneBat(err), b) <= w
    requires Earned(c, s, b, w) && Structure(c, s, pool)
    ensures Deals(c, s, FinishBatWrite(c, s, err), s.lock.blk, b, w)
  {
    hide Structure;
    hide Earned;
    hide KEarned;
    hide KOk;
    hide KFrame;
    hide Answers;
    hide BatWritten;
    hide AfterBat;
    BatHeld(c, s, pool);
    var (x, s1) := (s.lock.blk, AfterBat(c, s, err));
    BatState(c, s, err);
    var k := At(s, x).(at := At(s1, x).at);
    var k' := BatWritten(c, Back(k, err), err);
    AtOk(c, s, x, pool);
    OnlyEntry(c, At(s, x), k, s.meta.zero, s.meta.bat);
    DoneBatOk(c, s, err, pool);
    LockCalm(c, FinishBatWrite(c, s, err), pool);
    BatWrittenOk(c, k, err, s.meta.bat);
    if x == b {
      AtEarned(c, s, b, w);
      AtAnywhere(c, At(s, x), k.at, w);
      BatWrittenEarned(c, k, err, s.meta.bat, w);
    }
    KOther(Back(k, err), k', Idle, Idle);
    PutEarned(c, s, s1, k', b, w);
  }

  /* ---- every step ---- */

  lemma LandEarned(c: Config, s: Vhd, t: Vhd, x: nat, b: nat, w: set<Fault>)
    requires Earned(c, s, b, w) && x in s.cache && x in t.cache && t.lock == s.lock
    requires var (bm, bm') := (s.cache[x], t.cache[x]);
             && t.cache == s.cache[x := bm'] && bm'.tx.error == bm.tx.error
             && LandsAmong(bm.tx.reqs, bm'.tx.reqs) && LandsAmong(bm.queue, bm'.queue)
    ensures Earned(c, t, b, w)
  {
  }

  /** The same requests, one of them landed. */
  ghost predicate LandsAmong(rs: seq<Req>, rs': seq<Req>) {
    forall r :: r in rs' ==> exists q :: q in rs && r == q.(landed := r.landed)
  }

  lemma LandOne(rs: seq<Req>, i: nat)
    requires i < |rs|
    ensures LandsAmong(rs, rs[i := rs[i].(landed := true)]) && LandsAmong(rs, rs)
  {
    var rs' := rs[i := rs[i].(landed := true)];
    forall r | r in rs ensures r == r.(landed := r.landed) {}
    forall r | r in rs' ensures exists q :: q in rs && r == q.(landed := r.landed) {
      if r !in rs {
        assert rs[i] in rs && r == rs[i].(landed := r.landed);
      } else {
        assert r == r.(landed := r.landed);
      }
    }
  }

  lemma LandSame(rs: seq<Req>)
    ensures LandsAmong(rs, rs)
  {
    forall r | r in rs ensures r == r.(landed := r.landed) {}
  }

  lemma LandTxEarned(c: Config, s: Vhd, x: nat, i: nat, b: nat, w: set<Fault>)
    requires Enabled(s, LandTx(x, i)) && Earned(c, s, b, w)
    ensures Earned(c, LandTxWrite(s, x, i), b, w)
  {
    hide Earned;
    hide LandsAmong;
    hide WriteSectors;
    LandOne(s.cache[x].tx.reqs, i);
    LandSame(s.cache[x].queue);
    LandEarned(c, s, LandTxWrite(s, x, i), x, b, w);
  }

  lemma LandQueueEarned(c: Config, s: Vhd, x: nat, i: nat, b: nat, w: set<Fault>)
    requires Enabled(s, LandQueue(x, i)) && Earned(c, s, b, w)
    ensures Earned(c, LandQueuedWrite(s, x, i), b, w)
  {
    hide Earned;
    hide LandsAmong;
    hide WriteSectors;
    LandOne(s.cache[x].queue, i);
    LandSame(s.cache[x].tx.reqs);
    LandEarned(c, s, LandQueuedWrite(s, x, i), x, b, w);
  }

  lemma LandBitmapEarned(c: Config, s: Vhd, x: nat, b: nat, w: set<Fault>)
    requires Enabled(s, LandBitmap(x)) && Earned(c, s, b, w)
    ensures Earned(c, LandBitmapWrite(c, s, x), b, w)
  {
    hide Earned;
    hide LandsAmong;
    hide WriteSectors;
    LandSame(s.cache[x].queue);
    LandSame(s.cache[x].tx.reqs);
    LandEarned(c, s, LandBitmapWrite(c, s, x), x, b, w);
  }

  predicate Quiet(step: Step) { step.LandOther? || step.LandZero? || step.LandBat? || step.DoneOther? }

  lemma QuietEarned(c: Config, s: Vhd, step: Step, b: nat, w: set<Fault>)
    requires Quiet(step) && Enabled(s, step) && Earned(c, s, b, w)
    ensures Earned(c, Next(c, s, step), b, w)
  {
    hide WriteSectors;
    EarnedSame(c, s, Next(c, s, step), b, w);
  }

  /** In every state that a step leads to, the errors kept for a block come from its faults; and
      so do those that a completion answers with. */
  lemma StepEarned(c: Config, s: Vhd, step: Step, b: nat, w: set<Fault>, pool: nat)
    requires Enabled(s, step) && Faults(s, step, b) <= w
    requires Earned(c, s, b, w) && Structure(c, s, pool)
    ensures Earned(c, Next(c, s, step), b, w)
    ensures Completes(s, step, b) ==> Answers(c, s, Next(c, s, step), b, w)
  {
    hide Structure;
    hide Answers;
    hide Earned;
    if Quiet(step) {
      QuietEarned(c, s, step, b, w);
    } else {
      hide Faults;
      match step
      case Request(write, sec, n) => RequestEarned(c, s, step, b, w);
      case LandTx(x, i) => LandTxEarned(c, s, x, i, b, w);
      case LandQueue(x, i) => LandQueueEarned(c, s, x, i, b, w);
      case LandBitmap(x) => LandBitmapEarned(c, s, x, b, w);
      case DoneTx(x, i, err) => DoneTxEarned(c, s, x, i, err, b, w, pool);
      case DoneQueue(x, i, err) => DoneQueueEarned(c, s, x, i, err, b, w, pool);
      case DoneBitmapRead(x, err) => BitmapReadDoneEarned(c, s, x, err, b, w);
      case DoneBitmapWrite(x, err) => DoneBitmapWriteEarned(c, s, x, err, b, w, pool);
      case DoneZero(err) => DoneZeroEarned(c, s, err, b, w, pool);
      case DoneBat(err) => DoneBatEarned(c, s, err, b, w, pool);
    }
  }

  lemma RequestEarned(c: Config, s: Vhd, step: Step, b: nat, w: set<Fault>)
    requires step.Request? && Earned(c, s, b, w)
    ensures Earned(c, Next(c, s, step), b, w)
  {
    hide Serve;
    var s1 := Emit(s, Issue(step.write, step.sec, step.secs));
    EarnedSame(c, s, s1, b, w);
    hide Earned;
    ServeEarned(c, s1, step.write, |s.log|, step.sec, step.secs, b, w);
  }

  /* ---- answers that need no I/O ---- */

  /** An error that a turn gives when the history has length i. */
  predicate RefusedAt(c: Config, i: nat, err: int) {
    err == EBUSY || err == EINVAL || (c.prealloc && err != 0 && err == c.sync(i))
  }

  /** From place i on, the history answers only with such errors. */
  ghost predicate Refusals(c: Config, log: seq<Ev>, i: nat) {
    forall k :: i <= k < |log| && log[k].Done? ==> RefusedAt(c, k, log[k].err)
  }

  /** When a turn is refused, and with which error. */
  ghost function Refusal(c: Config, s: Vhd, write: bool, sec: nat): int {
    if write then WriteRefusal(c, s, sec) else ReadRefusal(c, s, sec)
  }

  lemma HolderThere(c: Config, s: Vhd, pool: nat)
    requires Structure(c, s, pool)
    ensures s.lock.locked ==> s.lock.blk in s.cache
  {
  }

  lemma EmitOk(c: Config, s: Vhd, e: Ev, pool: nat)
    requires Structure(c, s, pool)
    ensures Structure(c, Emit(s, e), pool)
  {
    hide Structure;
    MediaIrrelevant(c, s, Emit(s, e), pool);
  }

  lemma TurnLogs(c: Config, s: Vhd, write: bool, wid: nat, sec: nat, n: nat, pool: nat)
    requires 0 < n && Structure(c, s, pool)
    ensures var (t, k, err) := Turn(c, s, write, wid, sec, n);
            && err == Refusal(c, s, write, sec) && (err != 0 ==> RefusedAt(c, |s.log|, err))
            && (t.log == s.log || (err == 0 && t.log == s.log + [Forward(wid, sec, k)]))
            && (err != 0 ==> t.raw == s.raw && t.free == s.free)
            && Structure(c, t, pool)
  {
    hide Structure;
    hide ReadTurn;
    hide WriteTurn;
    hide Longest;
    hide NoBitmap;
    hide FileSame;
    if write {
      HolderThere(c, s, pool);
      WriteExact(c, s, wid, sec, n);
      WriteTurnOk(c, s, wid, sec, n, pool);
    } else {
      ReadRefuses(c, s, wid, sec, n);
      if ReadTurn(c, s, wid, sec, n).2 == 0 { ReadDoes(c, s, wid, sec, n); }
      ReadTurnOk(c, s, wid, sec, n, pool);
    }
  }

  /** A request whose turn is refused is answered, for all that is left of it, with that error,
      and no more of it is tried. */
  lemma {:induction false} ServeRefused(c: Config, s: Vhd, write: bool, wid: nat, sec: nat, n: nat, pool: nat)
    requires 0 < n && Refusal(c, s, write, sec) != 0 && Structure(c, s, pool)
    ensures var t := Serve(c, s, write, wid, sec, n);
            && t.log == s.log + [Done(write, wid, sec, n, Refusal(c, s, write, sec))]
            && t.raw == s.raw && t.free == s.free
  {
    hide Structure;
    hide Turn;
    hide Refusal;
    TurnLogs(c, s, write, wid, sec, n, pool);
  }

  /** Serving a request answers parts of it only by refusing them. */
  lemma {:induction false} ServeRefusals(c: Config, s: Vhd, write: bool, wid: nat, sec: nat, n: nat, pool: nat)
    requires Structure(c, s, pool)
    ensures var t := Serve(c, s, write, wid, sec, n); s.log <= t.log && Refusals(c, t.log, |s.log|)
    ensures Structure(c, Serve(c, s, write, wid, sec, n), pool)
    decreases n
  {
    hide Structure;
    hide Turn;
    hide Refusal;
    hide RefusedAt;
    ServeOk(c, s, write, wid, sec, n, pool);
    if n > 0 {
      TurnLogs(c, s, write, wid, sec, n, pool);
      var (s1, k, err) := Turn(c, s, write, wid, sec, n);
      if err == 0 {
        ServeRefusals(c, s1, write, wid, sec + k, n - k, pool);
        var t := Serve(c, s, write, wid, sec, n);
        assert t.log[..|s1.log|] == s1.log && s1.log[..|s.log|] == s.log;
      }
    }
  }

  lemma {:induction false} ReplayRefusals(c: Config, s: Vhd, rs: seq<Req>, pool: nat)
    requires |rs| <= pool && Structure(c, s, pool - |rs|)
    ensures var t := Replay(c, s, rs); s.log <= t.log && Refusals(c, t.log, |s.log|)
    decreases |rs|
  {
    hide Structure;
    hide Serve;
    hide RefusedAt;
    if rs != [] {
      var (r, s1) := (rs[0], s.(free := s.free + 1));
      FreeOk(c, s, pool - |rs|);
      ServeRefusals(c, s1, r.op == OpWrite, r.wid, r.sec, r.secs, pool - |rs| + 1);
      var s2 := Serve(c, s1, r.op == OpWrite, r.wid, r.sec, r.secs);
      ReplayRefusals(c, s2, rs[1..], pool);
      var t := Replay(c, s, rs);
      forall i | |s.log| <= i < |t.log| && t.log[i].Done? ensures RefusedAt(c, i, t.log[i].err) {
        if i < |s2.log| { assert t.log[i] == s2.log[i]; }
      }
    }
  }
}
