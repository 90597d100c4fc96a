/** Every step of the driver keeps `Structure`; in particular no ASSERT fires. */
module VhdStructure {
  import opened Arithmetic
  import opened VhdTypes
  import opened VhdEngine
  import opened VhdInvariants

  /* ---- counting ---- */

  lemma {:induction false} CacheLoadUpdate(m: map<nat, Bm>, b: nat)
    requires b in m
    ensures CacheLoad(m) == Load(m[b]) + CacheLoad(m - {b})
    decreases |m|
  {
    var k :| k in m && CacheLoad(m) == Load(m[k]) + CacheLoad(m - {k});
    if k != b {
      CacheLoadUpdate(m - {k}, b);
      CacheLoadUpdate(m - {b}, k);
      assert m - {k} - {b} == m - {b} - {k};
    }
  }

  lemma CacheLoadPut(m: map<nat, Bm>, b: nat, bm: Bm)
    requires b in m
    ensures CacheLoad(m[b := bm]) + Load(m[b]) == CacheLoad(m) + Load(bm) && |m[b := bm]| == |m|
  {
    CacheLoadUpdate(m[b := bm], b);
    CacheLoadUpdate(m, b);
    assert m[b := bm] - {b} == m - {b};
    assert m[b := bm].Keys == m.Keys;
  }

  lemma CacheLoadAdd(m: map<nat, Bm>, b: nat, bm: Bm)
    requires b !in m
    ensures CacheLoad(m[b := bm]) == CacheLoad(m) + Load(bm) && |m[b := bm]| == |m| + 1
  {
    CacheLoadUpdate(m[b := bm], b);
    assert m[b := bm] - {b} == m;
    assert m[b := bm].Keys == m.Keys + {b};
  }

  lemma {:induction false} FinishedSnoc(rs: seq<Req>, r: Req)
    ensures FinishedCount(rs + [r]) == FinishedCount(rs) + (if r.finished then 1 else 0)
  {
    assert (rs + [r])[..|rs|] == rs;
  }

  lemma {:induction false} FinishedUpdate(rs: seq<Req>, i: nat, r: Req)
    requires i < |rs| && !rs[i].finished
    ensures FinishedCount(rs[i := r]) == FinishedCount(rs) + (if r.finished then 1 else 0)
  {
    var n := |rs| - 1;
    if i == n {
      assert rs[i := r][..n] == rs[..n];
    } else {
      FinishedUpdate(rs[..n], i, r);
      assert rs[i := r][..n] == rs[..n][i := r];
    }
  }

  lemma StagedInBlock(c: Config, b: nat, rs: seq<Req>)
    requires forall r :: r in rs ==> WriteOk(c, b, r)
    ensures Staged(c.spb, rs) <= Full(c)
  {
    forall l | l in Staged(c.spb, rs) ensures l in Full(c) {
      var i: nat :| i < |rs| && rs[i].finished && rs[i].err == 0 && l in ReqBits(c.spb, rs[i]);
      assert WriteOk(c, b, rs[i]);
    }
  }

  lemma StagedUpdate(spb: pos, rs: seq<Req>, i: nat, r: Req)
    requires i < |rs| && !rs[i].finished
    ensures Staged(spb, rs[i := r]) == Staged(spb, rs) + if r.finished && r.err == 0 then ReqBits(spb, r) else {}
  {
    var rs' := rs[i := r];
    forall l | l in Staged(spb, rs) ensures l in Staged(spb, rs') {
      var j: nat :| j < |rs| && rs[j].finished && rs[j].err == 0 && l in ReqBits(spb, rs[j]);
      assert rs'[j] == rs[j];
    }
    forall l | r.finished && r.err == 0 && l in ReqBits(spb, r) ensures l in Staged(spb, rs') {
      assert rs'[i] == r;
    }
    forall l | l in Staged(spb, rs')
      ensures l in Staged(spb, rs) || (r.finished && r.err == 0 && l in ReqBits(spb, r))
    {
      var j: nat :| j < |rs'| && rs'[j].finished && rs'[j].err == 0 && l in ReqBits(spb, rs'[j]);
      assert j != i ==> rs[j] == rs'[j];
    }
  }

  lemma StagedSnoc(spb: pos, rs: seq<Req>, r: Req)
    requires !r.finished
    ensures Staged(spb, rs + [r]) == Staged(spb, rs)
  {
    forall l | l in Staged(spb, rs) ensures l in Staged(spb, rs + [r]) {
      var j: nat :| j < |rs| && rs[j].finished && rs[j].err == 0 && l in ReqBits(spb, rs[j]);
      assert (rs + [r])[j] == rs[j];
    }
  }

  /* ---- one block ---- */

  function HoldK(k: Blk, zero: Io, bat: Io): Hold {
    if k.Holds() then Hold(k.lock.started, k.lock.err, k.lock.tx, zero, bat) else NoHold
  }

  /** Block k is fine, given the state of the two embedded requests of the BAT. */
  ghost predicate KOk(c: Config, k: Blk, zero: Io, bat: Io) {
    BmOk(c, k.b, k.alloc, HoldK(k, zero, bat), k.bm)
  }

  /** The lock as block k may hold it while its transaction ends. */
  predicate Ending(c: Config, k: Blk, zero: Io, bat: Io) {
    var tx := k.bm.tx;
    !tx.meta &&
    if !k.Holds() then !tx.updateBat && (!k.alloc ==> tx.error != 0 && k.bm.queue == [])
    else
      k.lock.started && zero == Idle &&
      if k.alloc then k.lock.err == 0 && bat == Idle && !tx.updateBat
      else if k.lock.err != 0 then bat == Idle && !tx.updateBat && tx.error != 0
      else !c.prealloc && bat != Idle && tx.updateBat && !k.lock.tx
  }

  /** Ready for finish_data_transaction. */
  ghost predicate Ready(c: Config, k: Blk, zero: Io, bat: Io) {
    Core(c, k.b, k.alloc, k.bm) && k.bm.locked && k.bm.write == Idle && Ending(c, k, zero, bat)
  }

  /** A block whose BAT entry is set gives the lock back. */
  function Settle(k: Blk): Blk {
    if k.Holds() && k.alloc then k.(lock := InitLock) else k
  }

  /** What ending transactions leaves alone, and how it moves requests. */
  ghost predicate KFrame(k: Blk, k': Blk, zero: Io, bat: Io) {
    && k'.b == k.b && k'.alloc == k.alloc && k'.at == k.at
    && (k'.lock == k.lock || (k.Holds() && (k'.lock == InitLock || k'.lock.(tx := k.lock.tx) == k.lock)))
    && (k.Holds() && !k'.Holds() ==> zero == Idle && bat == Idle)
    && Load(k'.bm) + k'.freed == Load(k.bm) + k.freed
    && (k'.full ==> k.full || k.alloc)
  }

  /** Ready for start_new_bitmap_transaction. */
  ghost predicate Ended(c: Config, k: Blk, zero: Io, bat: Io) {
    && k.bm.tx == InitTx && !k.bm.reading && k.bm.waiting == [] && ReqsOk(c, k.b, k.bm)
    && k.bm.bits <= Full(c) && (!k.alloc ==> k.bm.bits == {})
    && k.bm.shadow == k.bm.bits && k.bm.locked && k.bm.write == Idle
    && (if !k.Holds() then !k.alloc ==> k.bm.queue == []
        else k.lock.started && zero == Idle && bat == Idle && (k.alloc <==> k.lock.err == 0))
  }

  lemma EndTxOk(c: Config, k: Blk, zero: Io, bat: Io)
    requires Ready(c, k, zero, bat) && (k.bm.tx.error == 0 ==> k.alloc) && !k.bm.tx.updateBat
    ensures Ended(c, EndTx(c, k), zero, bat) && KFrame(k, EndTx(c, k), zero, bat)
    ensures EndTx(c, k).bad == k.bad && EndTx(c, k).bm.queue == k.bm.queue
  {
    StagedInBlock(c, k.b, k.bm.tx.reqs);
  }

  lemma QueueToTxOk(c: Config, k: Blk, zero: Io, bat: Io)
    requires Ended(c, k, zero, bat) && k.bm.queue != []
    ensures var k1 := QueueToTx(c, k);
            Ready(c, k1, zero, bat) && k1.bm.tx.live && KFrame(k, k1, zero, bat) && k1.bad == k.bad &&
              k1.bm.queue == [] &&
            !k1.bm.tx.closed && k1.bm.tx.reqs != [] && k1.lock == k.lock
  {
  }

  lemma NothingQueued(c: Config, k: Blk, zero: Io, bat: Io)
    requires Ended(c, k, zero, bat) && k.bm.queue == []
    ensures var k' := FinishBatTx(UnlockIfIdle(k));
            KOk(c, k', zero, bat) && KFrame(k, k', zero, bat) && k'.bad == k.bad
  {
  }

  lemma QueueRunning(c: Config, k: Blk, zero: Io, bat: Io)
    requires Ready(c, k, zero, bat) && k.bm.tx.live && !k.bm.tx.closed && !Completed(k.bm.tx)
    requires k.bm.tx.reqs != [] && !k.bm.tx.updateBat
    ensures var k' := FinishBatTx(UnlockIfIdle(k));
            KOk(c, k', zero, bat) && KFrame(k, k', zero, bat) && k'.bad == k.bad
  {
  }

  lemma UnlockKeeps(c: Config, k: Blk, zero: Io, bat: Io)
    requires KOk(c, k, zero, bat)
    ensures KOk(c, UnlockIfIdle(k), zero, bat)
  {
  }

  lemma QueueDrained(c: Config, k: Blk, zero: Io, bat: Io)
    requires KOk(c, Settle(k), zero, bat)
    requires k.Holds() ==> (k.alloc <==> k.lock.err == 0)
    requires k.Holds() && k.alloc ==> zero == Idle && bat == Idle
    ensures var k' := FinishBatTx(UnlockIfIdle(k));
            KOk(c, k', zero, bat) && KFrame(k, k', zero, bat) && k'.bad == k.bad
  {
    hide Core;
    var k1 := UnlockIfIdle(k);
    UnlockKeeps(c, Settle(k), zero, bat);
    if !k.Holds() {
      assert FinishBatTx(k1) == k1;
    } else if k.alloc {
      assert FinishBatTx(k1) == k1.(lock := InitLock);
    } else {
      assert k.bm.tx.live && k.bm.tx.closed;
      assert FinishBatTx(k1) == k1;
    }
  }

  /* The three functions call each other once more for the queue, and so do the lemmas. */

  lemma {:induction false} StartNewTxOk(c: Config, k: Blk, zero: Io, bat: Io)
    requires Ended(c, k, zero, bat)
    ensures var k' := FinishBatTx(UnlockIfIdle(StartNewTx(c, k)));
            KOk(c, k', zero, bat) && KFrame(k, k', zero, bat) && k'.bad == k.bad
    decreases |k.bm.queue|, 1
  {
    if k.bm.queue == [] {
      NothingQueued(c, k, zero, bat);
    } else {
      QueueToTxOk(c, k, zero, bat);
      var k1 := QueueToTx(c, k);
      if Completed(k1.bm.tx) {
        FinishDataTxOk(c, k1, zero, bat);
        QueueDrained(c, FinishDataTx(c, k1), zero, bat);
      } else {
        QueueRunning(c, k1, zero, bat);
      }
    }
  }

  lemma {:induction false} BitmapBeforeBat(c: Config, k: Blk, error: int, zero: Io, bat: Io)
    requires Ready(c, k, zero, bat) && k.bm.tx.closed && Completed(k.bm.tx)
    requires !c.prealloc && k.bm.tx.updateBat
    ensures var k' := FinishBitmapTx(c, k, error);
            KOk(c, k', zero, bat) && KFrame(k, k', zero, bat) && k'.bad == k.bad
  {
  }

  ghost function WithError(k: Blk, error: int): Blk {
    k.(bm := k.bm.(tx := k.bm.tx.(error := if k.bm.tx.error != 0 then k.bm.tx.error else error)))
  }

  lemma WithErrorReady(c: Config, k: Blk, error: int, zero: Io, bat: Io)
    requires Ready(c, k, zero, bat) && k.bm.tx.closed
    ensures Ready(c, WithError(k, error), zero, bat)
  {
  }

  lemma ErrorFrames(c: Config, k: Blk, error: int, k1: Blk, k2: Blk, zero: Io, bat: Io)
    requires KFrame(WithError(k, error), k1, zero, bat) && KFrame(k1, k2, zero, bat)
    ensures KFrame(k, k2, zero, bat) && WithError(k, error).bad == k.bad
  {
  }

  lemma {:induction false} FinishBitmapTxOk(c: Config, k: Blk, error: int, zero: Io, bat: Io)
    requires Ready(c, k, zero, bat) && k.bm.tx.closed && Completed(k.bm.tx)
    ensures var k' := FinishBitmapTx(c, k, error);
            KOk(c, k', zero, bat) && KFrame(k, k', zero, bat) && k'.bad == k.bad
    decreases |k.bm.queue|, 2
  {
    hide KOk;
    hide Core;
    hide KFrame;
    hide FinishBatTx;
    hide EndTx;
    hide UnlockIfIdle;
    if !c.prealloc && k.bm.tx.updateBat {
      BitmapBeforeBat(c, k, error, zero, bat);
    } else {
      var k1 := WithError(k, error);
      WithErrorReady(c, k, error, zero, bat);
      EndTxOk(c, k1, zero, bat);
      StartNewTxOk(c, EndTx(c, k1), zero, bat);
      ErrorFrames(c, k, error, EndTx(c, k1), FinishBatTx(UnlockIfIdle(StartNewTx(c, EndTx(c, k1)))), zero, bat);
      assert FinishBitmapTx(c, k, error) == FinishBatTx(UnlockIfIdle(StartNewTx(c, EndTx(c, k1))));
    }
  }

  lemma {:induction false} BitmapWriteStarts(c: Config, k: Blk, zero: Io, bat: Io)
    requires Ready(c, k, zero, bat) && k.bm.tx.live && Completed(k.bm.tx) && k.bm.tx.error == 0
    ensures var k' := FinishDataTx(c, k);
            KOk(c, Settle(k'), zero, bat) && KFrame(k, k', zero, bat) && k'.bad == k.bad && k'.lock == k.lock
  {
  }

  ghost function Closed(k: Blk): Blk { k.(bm := k.bm.(tx := k.bm.tx.(closed := true))) }

  lemma ClosedReady(c: Config, k: Blk, zero: Io, bat: Io)
    requires Ready(c, k, zero, bat) && k.bm.tx.live
    ensures Ready(c, Closed(k), zero, bat)
  {
  }

  lemma SettledFrame(c: Config, k: Blk, k': Blk, zero: Io, bat: Io)
    requires KOk(c, k', zero, bat) && KFrame(Closed(k), k', zero, bat)
    ensures Settle(k') == k' && KFrame(k, k', zero, bat) && (k'.Holds() ==> k.Holds() && k.lock.err == k'.lock.err)
  {
  }

  lemma {:induction false} FinishDataTxOk(c: Config, k: Blk, zero: Io, bat: Io)
    requires Ready(c, k, zero, bat) && k.bm.tx.live && Completed(k.bm.tx)
    ensures var k' := FinishDataTx(c, k);
            KOk(c, Settle(k'), zero, bat) && KFrame(k, k', zero, bat) && k'.bad == k.bad &&
            (k'.Holds() ==> k.Holds() && k.lock.err == k'.lock.err)
    decreases |k.bm.queue|, 3
  {
    if k.bm.tx.error == 0 {
      BitmapWriteStarts(c, k, zero, bat);
    } else {
      ClosedReady(c, k, zero, bat);
      FinishBitmapTxOk(c, Closed(k), 0, zero, bat);
      SettledFrame(c, k, FinishBitmapTx(c, Closed(k), 0), zero, bat);
    }
  }

  lemma SettledOk(c: Config, k: Blk, zero: Io, bat: Io)
    requires KOk(c, Settle(k), zero, bat)
    requires k.Holds() ==> (k.alloc <==> k.lock.err == 0)
    requires k.Holds() && k.alloc ==> zero == Idle && bat == Idle
    ensures KOk(c, FinishBatTx(k), zero, bat) && KFrame(k, FinishBatTx(k), zero, bat) && FinishBatTx(k).bad == k.bad
  {
    if k.Holds() && !k.alloc {
      assert k.bm.tx.live && k.bm.tx.closed;
      assert FinishBatTx(k) == k;
    }
  }

  lemma {:induction false} FinishIfCompletedOk(c: Config, k: Blk, zero: Io, bat: Io)
    requires if Completed(k.bm.tx) then Ready(c, k, zero, bat) && k.bm.tx.live && (k.Holds() ==> !k.alloc)
             else KOk(c, k, zero, bat)
    ensures var k' := FinishDataTxIfCompleted(c, k);
            KOk(c, k', zero, bat) && KFrame(k, k', zero, bat) && k'.bad == k.bad
  {
    if Completed(k.bm.tx) {
      FinishDataTxOk(c, k, zero, bat);
      assert Settle(FinishDataTx(c, k)) == FinishDataTx(c, k);
    }
  }

  lemma WritesUpdate(c: Config, b: nat, rs: seq<Req>, i: nat, r: Req)
    requires i < |rs| && (forall q :: q in rs ==> WriteOk(c, b, q)) && WriteOk(c, b, r)
    ensures forall q :: q in rs[i := r] ==> WriteOk(c, b, q)
  {
    forall q | q in rs[i := r] ensures WriteOk(c, b, q) {
      if q != r { assert q in rs; }
    }
  }

  lemma TxWriteMarked(c: Config, k: Blk, i: nat, err: int, zero: Io, bat: Io)
    requires KOk(c, k, zero, bat) && i < |k.bm.tx.reqs| && CanFinish(k.bm.tx.reqs[i], err)
    ensures var k1 := TxWriteMark(c, k, i, err);
            KFrame(k, k1, zero, bat) && k1.bad == k.bad && k1.lock == k.lock &&
            if Completed(k1.bm.tx) then Ready(c, k1, zero, bat) && k1.bm.tx.live && (k.Holds() ==> !k.alloc)
            else KOk(c, k1, zero, bat)
  {
    var rs := k.bm.tx.reqs;
    var r := rs[i].(finished := true, err := err);
    var k1 := TxWriteMark(c, k, i, err);
    assert Core(c, k1.b, k1.alloc, k1.bm) by {
      FinishedUpdate(rs, i, r);
      StagedUpdate(c.spb, rs, i, r);
      assert rs[i] in rs && WriteOk(c, k.b, rs[i]);
      WritesUpdate(c, k.b, rs, i, r);
    }
  }

  lemma TxWriteDoneOk(c: Config, k: Blk, i: nat, err: int, zero: Io, bat: Io)
    requires KOk(c, k, zero, bat) && i < |k.bm.tx.reqs| && CanFinish(k.bm.tx.reqs[i], err)
    ensures var k' := TxWriteDone(c, k, i, err);
            KOk(c, k', zero, bat) && KFrame(k, k', zero, bat) && k'.bad == k.bad
  {
    TxWriteMarked(c, k, i, err, zero, bat);
    FinishIfCompletedOk(c, TxWriteMark(c, k, i, err), zero, bat);
  }

  lemma QueuedWriteDoneOk(c: Config, k: Blk, i: nat, err: int, zero: Io, bat: Io)
    requires KOk(c, k, zero, bat) && i < |k.bm.queue| && CanFinish(k.bm.queue[i], err)
    ensures var k' := QueuedWriteDone(k, i, err);
            KOk(c, k', zero, bat) && KFrame(k, k', zero, bat) && k'.bad == k.bad
  {
    var rs := k.bm.queue;
    assert rs[i] in rs && WriteOk(c, k.b, rs[i]);
    WritesUpdate(c, k.b, rs, i, rs[i].(finished := true, err := err));
  }

  lemma BitmapWriteBack(c: Config, k: Blk, zero: Io, bat: Io)
    requires KOk(c, k, zero, bat) && k.bm.write != Idle
    ensures Ready(c, k.(bm := k.bm.(write := Idle)), zero, bat)
    ensures k.bm.tx.closed && Completed(k.bm.tx) && !k.bm.reading
  {
  }

  lemma BitmapWrittenOk(c: Config, k: Blk, err: int, zero: Io, bat: Io)
    requires KOk(c, k, zero, bat) && k.bm.write != Idle
    ensures var k' := BitmapWritten(c, k, err);
            KOk(c, k', zero, bat) && KFrame(k, k', zero, bat) && k'.bad == k.bad
  {
    BitmapWriteBack(c, k, zero, bat);
    var k1 := k.(bm := k.bm.(write := Idle));
    FinishBitmapTxOk(c, k1, err, zero, bat);
    assert BitmapWritten(c, k, err) == FinishBitmapTx(c, k1, err);
  }

  /** The lock after the zero-bitmap write came back. */
  function AfterZero(l: Lock, err: int): Lock {
    if err != 0 then InitLock else l.(started := true, err := 0, tx := false)
  }

  lemma ZeroWrittenOk(c: Config, k: Blk, err: int, zero: Io)
    requires KOk(c, k, zero, Idle) && k.Holds() && zero != Idle
    ensures var k1 := k.(lock := AfterZero(k.lock, err));
            var k' := ZeroWritten(c, k1, err);
            KOk(c, k', Idle, if err != 0 then Idle else Flying) &&
            KFrame(k1, k', Idle, if err != 0 then Idle else Flying) && k'.bad == k.bad
    ensures !k.bm.reading && k.bm.locked
  {
    var k1 := k.(lock := AfterZero(k.lock, err));
    FinishIfCompletedOk(c, ZeroMark(k1, err), Idle, if err != 0 then Idle else Flying);
  }

  lemma BatWrittenPrealloc(c: Config, k: Blk, err: int, bat: Io)
    requires KOk(c, k, Idle, bat) && k.Holds() && bat != Idle && c.prealloc
    ensures var k1 := k.(lock := k.lock.(err := err), alloc := err == 0);
            var k' := BatWritten(c, k1, err);
            KOk(c, k', Idle, Idle) && KFrame(k1, k', Idle, Idle) && k'.bad == k.bad
  {
    var k1 := k.(lock := k.lock.(err := err), alloc := err == 0);
    var k2 := BatMark(c, k1, err);
    if Completed(k2.bm.tx) {
      FinishDataTxOk(c, k2, Idle, Idle);
      SettledOk(c, FinishDataTx(c, k2), Idle, Idle);
    }
  }

  lemma BatWrittenAfterBitmap(c: Config, k: Blk, err: int, bat: Io)
    requires KOk(c, k, Idle, bat) && k.Holds() && bat != Idle && !c.prealloc && k.lock.tx
    ensures var k1 := k.(lock := k.lock.(err := err), alloc := err == 0);
            var k' := BatWritten(c, k1, err);
            KOk(c, k', Idle, Idle) && KFrame(k1, k', Idle, Idle) && k'.bad == k.bad
  {
    var k1 := k.(lock := k.lock.(err := err), alloc := err == 0);
    var k2 := BatMark(c, k1, err);
    FinishBitmapTxOk(c, k2, err, Idle, Idle);
    SettledOk(c, FinishBitmapTx(c, k2, err), Idle, Idle);
  }

  lemma BatWrittenBeforeBitmap(c: Config, k: Blk, err: int, bat: Io)
    requires KOk(c, k, Idle, bat) && k.Holds() && bat != Idle && !c.prealloc && !k.lock.tx
    ensures var k1 := k.(lock := k.lock.(err := err), alloc := err == 0);
            var k' := BatWritten(c, k1, err);
            KOk(c, k', Idle, Idle) && KFrame(k1, k', Idle, Idle) && k'.bad == k.bad
  {
  }

  lemma JoinQueueOk(c: Config, k: Blk, r: Req, zero: Io, bat: Io)
    requires KOk(c, k, zero, bat) && !k.bm.reading && k.bm.tx.closed
    requires WriteOk(c, k.b, r)
    ensures KOk(c, AddToQueue(LockBm(k), r), zero, bat)
  {
  }

  lemma JoinTxOk(c: Config, k: Blk, r: Req, zero: Io, bat: Io)
    requires KOk(c, k, zero, bat) && !k.bm.reading && (k.alloc || k.Holds())
    requires WriteOk(c, k.b, r) && !r.finished
    ensures var k' := JoinTx(k, r);
            KOk(c, k', zero, bat) && k' == k.(bm := k'.bm) && Load(k'.bm) == Load(k.bm) + 1
  {
    hide KOk;
    if k.bm.tx.closed { JoinQueueOk(c, k, r, zero, bat); } else { JoinOpenOk(c, k, r, zero, bat); }
  }

  /** What a bitmap must satisfy survives a write that joins the open transaction. */
  lemma JoinCore(c: Config, b: nat, alloc: bool, bm: Bm, r: Req)
    requires Core(c, b, alloc, bm) && !bm.tx.closed && WriteOk(c, b, r) && !r.finished
    ensures var tx := bm.tx.(started := bm.tx.started + 1, live := true, reqs := bm.tx.reqs + [r]);
            Core(c, b, alloc, bm.(locked := true, tx := tx)) && (!Completed(tx))
  {
    FinishedSnoc(bm.tx.reqs, r);
    StagedSnoc(c.spb, bm.tx.reqs, r);
  }

  lemma JoinOpenOk(c: Config, k: Blk, r: Req, zero: Io, bat: Io)
    requires KOk(c, k, zero, bat) && !k.bm.reading && (k.alloc || k.Holds()) && !k.bm.tx.closed
    requires WriteOk(c, k.b, r) && !r.finished
    ensures KOk(c, AddToTx(LockBm(k), r), zero, bat)
  {
    hide Core;
    hide Staged;
    JoinCore(c, k.b, k.alloc, k.bm, r);
    CoreReads(c, k.b, k.alloc, k.bm);
  }

  lemma CoreReads(c: Config, b: nat, alloc: bool, bm: Bm)
    requires Core(c, b, alloc, bm)
    ensures !bm.reading && bm.waiting == [] && (bm.queue != [] ==> bm.tx.closed)
  {
  }

  /* ---- the whole state ---- */

  lemma Frame(c: Config, s: Vhd, t: Vhd, b: nat)
    requires Others(c, s, b)
    requires forall x :: x in t.cache && x != b ==> x in s.cache && t.cache[x] == s.cache[x]
    requires forall x :: x != b ==> (x in s.bat <==> x in t.bat)
    requires forall x :: x != b ==> HoldOf(s, x) == HoldOf(t, x)
    ensures Others(c, t, b)
  {
    forall x | x in t.cache && x != b ensures BlockOk(c, t, x) {
      assert BlockOk(c, s, x);
    }
  }

  /** State s is fine but for block k.b, which k would repair. */
  ghost predicate Fits(c: Config, s: Vhd, k: Blk, pool: nat) {
    && k.b in s.cache && Others(c, s, k.b) && KOk(c, k, s.meta.zero, s.meta.bat)
    && !s.panicked && !k.bad && k.alloc == (k.b in s.bat) && (k.full ==> k.alloc)
    && |s.cache| + s.bmFree == c.cacheSize
    && s.free + k.freed + |s.raw| + CacheLoad(s.cache) + Load(k.bm) == pool + Load(s.cache[k.b])
    && (forall r :: r in s.raw ==> RawShape(c, r))
    && s.batmap <= s.bat.Keys
    && (k.lock == s.lock || ((s.lock.locked ==> s.lock.blk == k.b) && (k.lock.locked ==> k.lock.blk == k.b)))
    && (k.lock.locked ==> k.lock.blk in s.cache)
    && (s.meta.zero != Idle ==> s.meta.zeroBlk == k.lock.blk)
    && (!k.lock.locked ==>
      !k.lock.started && k.lock.err == 0 && !k.lock.tx && s.meta.zero == Idle && s.meta.bat == Idle)
  }

  lemma PutOk(c: Config, s: Vhd, k: Blk, pool: nat)
    requires Fits(c, s, k, pool)
    ensures Structure(c, Put(s, k), pool)
  {
    var t := Put(s, k);
    CacheLoadPut(s.cache, k.b, k.bm);
    Frame(c, s, t, k.b);
    assert HoldOf(t, k.b) == HoldK(k, s.meta.zero, s.meta.bat);
    assert BlockOk(c, t, k.b);
  }

  /** A change of one block that the block lemmas allow fits. */
  lemma KFrameFits(c: Config, s: Vhd, k: Blk, pool: nat)
    requires Structure(c, s, pool) && k.b in s.cache
    requires KOk(c, k, s.meta.zero, s.meta.bat) && KFrame(At(s, k.b), k, s.meta.zero, s.meta.bat) && !k.bad
    ensures Fits(c, s, k, pool)
  {
    assert BlockOk(c, s, k.b);
    assert At(s, k.b).full ==> k.b in s.bat;
  }

  lemma AtOk(c: Config, s: Vhd, b: nat, pool: nat)
    requires Structure(c, s, pool) && b in s.cache
    ensures KOk(c, At(s, b), s.meta.zero, s.meta.bat)
  {
    assert BlockOk(c, s, b);
  }

  lemma DoneTxOk(c: Config, s: Vhd, b: nat, i: nat, err: int, pool: nat)
    requires Structure(c, s, pool) && Enabled(s, DoneTx(b, i, err))
    ensures Structure(c, FinishTxWrite(c, s, b, i, err), pool)
  {
    hide Structure;
    hide TxWriteDone;
    AtOk(c, s, b, pool);
    TxWriteDoneOk(c, At(s, b), i, err, s.meta.zero, s.meta.bat);
    KFrameFits(c, s, TxWriteDone(c, At(s, b), i, err), pool);
    PutOk(c, s, TxWriteDone(c, At(s, b), i, err), pool);
    MediaIrrelevant(c, Put(s, TxWriteDone(c, At(s, b), i, err)), FinishTxWrite(c, s, b, i, err), pool);
  }

  lemma MediaIrrelevant(c: Config, s: Vhd, t: Vhd, pool: nat)
    requires Structure(c, s, pool) && t == s.(media := t.media, log := t.log)
    ensures Structure(c, t, pool)
  {
    forall x | x in t.cache ensures BlockOk(c, t, x) {
      assert BlockOk(c, s, x);
    }
  }

  lemma DoneQueueOk(c: Config, s: Vhd, b: nat, i: nat, err: int, pool: nat)
    requires Structure(c, s, pool) && Enabled(s, DoneQueue(b, i, err))
    ensures Structure(c, FinishQueuedWrite(s, b, i, err), pool)
  {
    AtOk(c, s, b, pool);
    QueuedWriteDoneOk(c, At(s, b), i, err, s.meta.zero, s.meta.bat);
    KFrameFits(c, s, QueuedWriteDone(At(s, b), i, err), pool);
    PutOk(c, s, QueuedWriteDone(At(s, b), i, err), pool);
    MediaIrrelevant(c, Put(s, QueuedWriteDone(At(s, b), i, err)), FinishQueuedWrite(s, b, i, err), pool);
  }

  lemma DoneBitmapWriteOk(c: Config, s: Vhd, b: nat, err: int, pool: nat)
    requires Structure(c, s, pool) && Enabled(s, DoneBitmapWrite(b, err))
    ensures Structure(c, FinishBitmapWrite(c, s, b, err), pool)
  {
    AtOk(c, s, b, pool);
    BitmapWrittenOk(c, At(s, b), err, s.meta.zero, s.meta.bat);
    KFrameFits(c, s, BitmapWritten(c, At(s, b), err), pool);
    PutOk(c, s, BitmapWritten(c, At(s, b), err), pool);
  }

  lemma DoneZeroOk(c: Config, s: Vhd, err: int, pool: nat)
    requires Structure(c, s, pool) && s.meta.zero != Idle
    ensures Structure(c, FinishZeroBmWrite(c, s, err), pool)
  {
    var b := s.lock.blk;
    AtOk(c, s, b, pool);
    var k := At(s, b);
    assert k.Holds() && s.meta.bat == Idle;
    ZeroWrittenOk(c, k, err, s.meta.zero);
    var s0 := s.(meta := s.meta.(zero := Idle));
    var s1 := if err != 0 then s0.(lock := InitLock) else ScheduleBatWrite(s0);
    assert At(s1, b) == k.(lock := AfterZero(k.lock, err));
    var k' := ZeroWritten(c, At(s1, b), err);
    Frame(c, s, s1, b);
    assert Fits(c, s1, k', pool);
    PutOk(c, s1, k', pool);
  }

  lemma BatWrittenOk(c: Config, k: Blk, err: int, bat: Io)
    requires KOk(c, k, Idle, bat) && k.Holds() && bat != Idle
    ensures var k1 := k.(lock := k.lock.(err := err), alloc := err == 0);
            var k' := BatWritten(c, k1, err);
            KOk(c, k', Idle, Idle) && KFrame(k1, k', Idle, Idle) && k'.bad == k.bad
  {
    if c.prealloc { BatWrittenPrealloc(c, k, err, bat); }
    else if k.lock.tx { BatWrittenAfterBitmap(c, k, err, bat); }
    else { BatWrittenBeforeBitmap(c, k, err, bat); }
  }

  /** The state in which finish_bat_write turns to the transaction. */
  function AfterBat(c: Config, s: Vhd, err: int): Vhd {
    var s0 := s.(meta := s.meta.(bat := Idle), lock := s.lock.(err := err));
    if err != 0 then s0
    else s0.(bat := s0.bat[s.lock.blk := s.lock.off], nextDb := s.lock.off + c.spb + c.bmSecs)
  }

  lemma DoneBatOk(c: Config, s: Vhd, err: int, pool: nat)
    requires Structure(c, s, pool) && s.meta.bat != Idle
    ensures Structure(c, FinishBatWrite(c, s, err), pool)
  {
    hide KOk;
    hide KFrame;
    hide BatWritten;
    var b := s.lock.blk;
    BatHeld(c, s, pool);
    AtOk(c, s, b, pool);
    var k := At(s, b);
    var s1 := AfterBat(c, s, err);
    var k1 := At(s1, b);
    OnlyEntry(c, k, k.(at := k1.at, full := k1.full), s.meta.zero, s.meta.bat);
    BatWrittenOk(c, k.(at := k1.at, full := k1.full), err, s.meta.bat);
    assert k1 == k.(at := k1.at, full := k1.full).(lock := k.lock.(err := err), alloc := err == 0);
    var k' := BatWritten(c, k1, err);
    Frame(c, s, s1, b);
    BatFits(c, s, err, k', pool);
    PutOk(c, s1, k', pool);
  }

  lemma OnlyEntry(c: Config, k: Blk, k': Blk, zero: Io, bat: Io)
    requires KOk(c, k, zero, bat) && k' == k.(at := k'.at, full := k'.full)
    ensures KOk(c, k', zero, bat)
  {
  }

  lemma BatHeld(c: Config, s: Vhd, pool: nat)
    requires Structure(c, s, pool) && s.meta.bat != Idle
    ensures s.lock.blk in s.cache && s.lock.locked && s.meta.zero == Idle && s.lock.blk !in s.bat
    ensures !s.cache[s.lock.blk].reading && s.lock.started && s.cache[s.lock.blk].tx.live
  {
    assert BlockOk(c, s, s.lock.blk);
  }

  lemma BatFits(c: Config, s: Vhd, err: int, k: Blk, pool: nat)
    requires s.meta.bat != Idle && s.meta.zero == Idle && s.lock.locked && s.lock.blk in s.cache
    requires KOk(c, k, Idle, Idle) && KFrame(At(AfterBat(c, s, err), s.lock.blk), k, Idle, Idle) && !k.bad
    requires Others(c, AfterBat(c, s, err), s.lock.blk) && s.lock.blk !in s.bat
    requires Structure(c, s, pool)
    ensures Fits(c, AfterBat(c, s, err), k, pool)
  {
    hide KOk;
  }
}
