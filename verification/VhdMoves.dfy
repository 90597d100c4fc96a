/** What ending transactions of one block does to its requests and to the committed
    bitmap: requests only move, the bitmap on the disk stays the one memory
    remembers, and a write is signalled without error only when its sectors are in it. */
module VhdMoves {
  import opened Arithmetic
  import opened VhdTypes
  import opened VhdEngine
  import opened VhdInvariants
  import opened VhdStructure

  /** The extent of block k has an initialised bitmap. */
  predicate HasExtent(k: Blk) { k.alloc || (k.Holds() && k.lock.err == 0 && k.lock.started) }

  /** The bitmap that should be on the disk. */
  function Expected(k: Blk): set<nat> {
    if k.bm.write == Landed || (k.Holds() && k.lock.tx && k.bm.tx.updateBat && k.bm.tx.error == 0)
    then k.bm.shadow else k.bm.bits
  }

  /** Event e signals a write of G; if it signals success, the write finished without
      error and its sectors are among bits S of an allocated block. */
  ghost predicate Justified(c: Config, e: Ev, G: set<Req>, S: set<nat>, alloc: bool) {
    e.Done? && e.write &&
    (e.err == 0 ==> alloc && exists r :: r in G && Signals(c, e, r, S))
  }

  ghost predicate Signals(c: Config, e: Ev, r: Req, S: set<nat>)
    requires e.Done?
  {
    r.wid == e.wid && r.sec == e.sec && r.secs == e.secs && r.finished && r.err == 0 && ReqBits(c.spb, r) <= S
  }

  ghost predicate Within(bm: Bm, G: set<Req>) {
    (forall r :: r in bm.tx.reqs && !Harmless(bm, r) ==> r in G) && (forall r :: r in bm.queue ==> r in G)
  }

  /** The extent of block k. */
  function Home(k: Blk): nat { if k.alloc then k.at else k.lock.off }

  ghost predicate Tracks(c: Config, k: Blk, G: set<Req>, S: set<nat>) {
    && Within(k.bm, G) && c.spb % 8 == 0 && k.bm.waiting == [] && !k.bm.reading
    && (k.full ==> k.alloc && Full(c) <= S)
    && (HasExtent(k) ==> Expected(k) == S && (k.bm.write != Idle ==> k.bm.tx.error == 0))
    && (k.bm.write != Idle ==> (k.alloc || k.Holds()) && k.bm.wAddr == Home(k))
    && (forall e :: e in k.out ==> Justified(c, e, G, S, k.alloc))
  }

  /** A block without extent has no write that still matters. */
  ghost predicate Placed(k: Blk) { k.alloc || k.Holds() || Adrift(k.bm) }

  /** What the bitmap of the extent is when a transaction is about to end. */
  ghost predicate EndTracks(c: Config, k: Blk, G: set<Req>, S: set<nat>) {
    && Within(k.bm, G) && c.spb % 8 == 0 && k.bm.waiting == [] && !k.bm.reading && k.bm.write == Idle
    && (k.full ==> k.alloc && Full(c) <= S)
    && (HasExtent(k) ==> S == if k.bm.tx.error == 0 then k.bm.shadow else k.bm.bits)
    && (forall e :: e in k.out ==> Justified(c, e, G, S, k.alloc))
  }

  lemma StagedHas(spb: pos, rs: seq<Req>, i: nat)
    requires i < |rs| && rs[i].finished && rs[i].err == 0
    ensures ReqBits(spb, rs[i]) <= Staged(spb, rs)
  {
  }

  lemma {:induction false} AllFinished(rs: seq<Req>, i: nat)
    requires FinishedCount(rs) == |rs| && i < |rs|
    ensures rs[i].finished
  {
    if i < |rs| - 1 { AllFinished(rs[..|rs|-1], i); }
  }

  lemma EndTxTracks(c: Config, k: Blk, G: set<Req>, S: set<nat>, zero: Io, bat: Io)
    requires Ready(c, k, zero, bat) && (k.bm.tx.error == 0 ==> k.alloc) && !k.bm.tx.updateBat
    requires Completed(k.bm.tx) && EndTracks(c, k, G, S)
    ensures Tracks(c, EndTx(c, k), G, S)
    ensures HasExtent(k) ==> EndTx(c, k).bm.bits == S
  {
    var tx := k.bm.tx;
    var k' := EndTx(c, k);
    forall e | e in k'.out ensures Justified(c, e, G, S, k.alloc) {
      if e !in k.out {
        assert e in DoneEvs(tx.reqs, tx.error);
        var i :| 0 <= i < |tx.reqs| && e == DoneEv(tx.reqs[i], tx.error);
        var r := tx.reqs[i];
        assert r in tx.reqs && WriteOk(c, k.b, r);
        if e.err == 0 {
          AllFinished(tx.reqs, i);
          StagedHas(c.spb, tx.reqs, i);
          assert r in G && Signals(c, e, r, S);
        }
      }
    }
  }

  lemma QueueToTxTracks(c: Config, k: Blk, G: set<Req>, S: set<nat>, zero: Io, bat: Io)
    requires Ended(c, k, zero, bat) && Tracks(c, k, G, S)
    ensures var k1 := QueueToTx(c, k);
            Tracks(c, k1, G, S) && (HasExtent(k1) ==> k1.bm.bits == S) && (HasExtent(k) <==> HasExtent(k1))
  {
  }

  lemma FinishBatTxTracks(c: Config, k: Blk, G: set<Req>, S: set<nat>)
    requires Tracks(c, k, G, S) && (k.Holds() ==> (k.alloc <==> k.lock.err == 0) && !k.bm.tx.updateBat)
    requires k.Holds() && !k.alloc && !k.bm.tx.live ==> k.bm.write == Idle && k.bm.tx == InitTx
    ensures Tracks(c, FinishBatTx(UnlockIfIdle(k)), G, S) && Tracks(c, FinishBatTx(k), G, S)
    ensures Placed(k) ==> Placed(FinishBatTx(UnlockIfIdle(k))) && Placed(FinishBatTx(k))
  {
  }

  lemma {:induction false} StartNewTxTracks(c: Config, k: Blk, G: set<Req>, S: set<nat>, zero: Io, bat: Io)
    requires Ended(c, k, zero, bat) && Tracks(c, k, G, S)
    ensures var k' := FinishBatTx(UnlockIfIdle(StartNewTx(c, k)));
            Tracks(c, k', G, S) && Placed(k')
    decreases |k.bm.queue|, 1
  {
    if k.bm.queue == [] {
      FinishBatTxTracks(c, k, G, S);
    } else {
      QueueToTxOk(c, k, zero, bat);
      QueueToTxTracks(c, k, G, S, zero, bat);
      var k1 := QueueToTx(c, k);
      if Completed(k1.bm.tx) {
        FinishDataTxTracks(c, k1, G, S, zero, bat);
        FinishDataTxOk(c, k1, zero, bat);
        FinishBatTxTracks(c, FinishDataTx(c, k1), G, S);
      } else {
        FinishBatTxTracks(c, k1, G, S);
      }
    }
  }

  lemma {:induction false} FinishBitmapTxTracks(c: Config, k: Blk, error: int, G: set<Req>, S: set<nat>, zero: Io,
          bat: Io)
    requires Ready(c, k, zero, bat) && k.bm.tx.closed && Completed(k.bm.tx)
    requires EndTracks(c, WithError(k, error), G, S)
    ensures var k' := FinishBitmapTx(c, k, error); Tracks(c, k', G, S) && Placed(k')
    decreases |k.bm.queue|, 2
  {
    var k1 := WithError(k, error);
    WithErrorReady(c, k, error, zero, bat);
    if c.prealloc || !k.bm.tx.updateBat {
      EndTxOk(c, k1, zero, bat);
      EndTxTracks(c, k1, G, S, zero, bat);
      StartNewTxTracks(c, EndTx(c, k1), G, S, zero, bat);
      assert FinishBitmapTx(c, k, error) == FinishBatTx(UnlockIfIdle(StartNewTx(c, EndTx(c, k1))));
    }
  }

  lemma {:induction false} FinishDataTxTracks(c: Config, k: Blk, G: set<Req>, S: set<nat>, zero: Io, bat: Io)
    requires Ready(c, k, zero, bat) && k.bm.tx.live && Completed(k.bm.tx) && Tracks(c, k, G, S)
    ensures var k' := FinishDataTx(c, k); Tracks(c, k', G, S) && Placed(k')
    ensures var k' := FinishDataTx(c, k); k'.Holds() ==> !k'.bm.tx.updateBat || !k'.alloc
    decreases |k.bm.queue|, 3
  {
    if k.bm.tx.error != 0 {
      ClosedReady(c, k, zero, bat);
      FinishBitmapTxTracks(c, Closed(k), 0, G, S, zero, bat);
      FinishBitmapTxOk(c, Closed(k), 0, zero, bat);
    }
  }

  lemma {:induction false} FinishIfCompletedTracks(c: Config, k: Blk, G: set<Req>, S: set<nat>, zero: Io, bat: Io)
    requires Completed(k.bm.tx) ==> Ready(c, k, zero, bat) && k.bm.tx.live
    requires Tracks(c, k, G, S)
    ensures var k' := FinishDataTxIfCompleted(c, k);
            Tracks(c, k', G, S) && (Completed(k.bm.tx) || Placed(k) ==> Placed(k'))
  {
    if Completed(k.bm.tx) { FinishDataTxTracks(c, k, G, S, zero, bat); }
  }

  lemma TxWriteMarkTracks(c: Config, k: Blk, i: nat, err: int, G: set<Req>, S: set<nat>, zero: Io, bat: Io)
    requires KOk(c, k, zero, bat) && i < |k.bm.tx.reqs| && CanFinish(k.bm.tx.reqs[i], err) && Tracks(c, k, G, S)
    requires k.bm.tx.reqs[i].(finished := true, err := err) in G || k.bm.tx.error != 0
    ensures Tracks(c, TxWriteMark(c, k, i, err), G, S)
  {
    var rs := k.bm.tx.reqs;
    var r := rs[i].(finished := true, err := err);
    FinishedUpdate(rs, i, r);
    var k' := TxWriteMark(c, k, i, err);
    forall q | q in rs[i := r] && !Harmless(k'.bm, q) ensures q in G {
      if q != r { assert q in rs; }
    }
  }

  lemma MarkAdrift(c: Config, k: Blk, i: nat, err: int)
    requires i < |k.bm.tx.reqs| && Adrift(k.bm)
    ensures Adrift(TxWriteMark(c, k, i, err).bm)
  {
    var rs := k.bm.tx.reqs;
    assert rs[i] in rs;
    forall q | q in rs[i := rs[i].(finished := true, err := err)] ensures q.Spent() {
      if q !in rs { assert q == rs[i].(finished := true, err := err); }
    }
  }

  lemma TxWriteDoneTracks(c: Config, k: Blk, i: nat, err: int, G: set<Req>, S: set<nat>, zero: Io, bat: Io)
    requires KOk(c, k, zero, bat) && i < |k.bm.tx.reqs| && CanFinish(k.bm.tx.reqs[i], err) && Tracks(c, k, G, S)
    requires k.bm.tx.reqs[i].(finished := true, err := err) in G || k.bm.tx.error != 0
    ensures var k' := TxWriteDone(c, k, i, err); Tracks(c, k', G, S) && (Placed(k) ==> Placed(k'))
  {
    TxWriteMarked(c, k, i, err, zero, bat);
    TxWriteMarkTracks(c, k, i, err, G, S, zero, bat);
    if Placed(k) && !k.alloc && !k.Holds() { MarkAdrift(c, k, i, err); }
    FinishIfCompletedTracks(c, TxWriteMark(c, k, i, err), G, S, zero, bat);
  }

  lemma QueuedWriteDoneTracks(c: Config, k: Blk, i: nat, err: int, G: set<Req>, S: set<nat>)
    requires i < |k.bm.queue| && Tracks(c, k, G, S) && k.bm.queue[i].(finished := true, err := err) in G
    ensures Tracks(c, QueuedWriteDone(k, i, err), G, S)
  {
    var rs := k.bm.queue;
    forall q | q in rs[i := rs[i].(finished := true, err := err)] ensures q in G {
      if q !in rs { assert q == rs[i].(finished := true, err := err); }
    }
  }

  lemma BitmapWrittenTracks(c: Config, k: Blk, err: int, G: set<Req>, S: set<nat>, zero: Io, bat: Io)
    requires KOk(c, k, zero, bat) && IoOutcome(k.bm.write, err) && Tracks(c, k, G, S)
    ensures var k' := BitmapWritten(c, k, err); Tracks(c, k', G, S) && Placed(k')
  {
    BitmapWriteBack(c, k, zero, bat);
    var k1 := k.(bm := k.bm.(write := Idle));
    FinishBitmapTxTracks(c, k1, err, G, S, zero, bat);
    assert BitmapWritten(c, k, err) == FinishBitmapTx(c, k1, err);
  }

  /** The bitmap of a new extent is on the disk, empty; or its write failed. The block is
      without extent then, which matters if another write of the transaction may still
      reach the disk. */
  lemma ZeroWrittenTracks(c: Config, k: Blk, err: int, G: set<Req>, zero: Io)
    requires KOk(c, k, zero, Idle) && k.Holds() && zero != Idle && Within(k.bm, G) && k.out == [] && !k.full &&
             c.spb % 8 == 0
    ensures var k' := ZeroWritten(c, k.(lock := AfterZero(k.lock, err)), err);
            Tracks(c, k', G, {}) &&
            ((err != 0 ==> forall r :: r in k.bm.tx.reqs ==> r.Spent()) ==> Placed(k'))
  {
    var k1 := k.(lock := AfterZero(k.lock, err));
    FinishIfCompletedTracks(c, ZeroMark(k1, err), G, {}, Idle, if err != 0 then Idle else Flying);
  }

  lemma BatMarkReady(c: Config, k: Blk, err: int, bat: Io)
    requires KOk(c, k, Idle, bat) && k.Holds() && bat != Idle
    ensures var k1 := BatMark(c, k.(lock := k.lock.(err := err), alloc := err == 0), err);
            (c.prealloc && Completed(k1.bm.tx) ==> Ready(c, k1, Idle, Idle)) && k1.bm.tx.live &&
            (!c.prealloc && k.lock.tx ==> Ready(c, k1, Idle, Idle) && k1.bm.tx.closed && Completed(k1.bm.tx))
  {
  }

  lemma BatWrittenTracks(c: Config, k: Blk, err: int, G: set<Req>, S: set<nat>, bat: Io)
    requires KOk(c, k, Idle, bat) && k.Holds() && bat != Idle && Tracks(c, k, G, S) && k.out == []
    requires err == 0 ==> k.at == k.lock.off
    ensures var k' := BatWritten(c, k.(lock := k.lock.(err := err), alloc := err == 0), err);
            Tracks(c, k', G, S) && Placed(k')
  {
    BatMarkReady(c, k, err, bat);
    var k1 := k.(lock := k.lock.(err := err), alloc := err == 0);
    var k2 := BatMark(c, k1, err);
    if c.prealloc {
      assert Tracks(c, k2, G, S);
      if Completed(k2.bm.tx) {
        FinishDataTxTracks(c, k2, G, S, Idle, Idle);
        FinishDataTxOk(c, k2, Idle, Idle);
        FinishBatTxTracks(c, FinishDataTx(c, k2), G, S);
      } else {
        FinishBatTxTracks(c, k2, G, S);
      }
    } else if k.lock.tx {
      FinishBitmapTxTracks(c, k2, err, G, S, Idle, Idle);
      FinishBitmapTxOk(c, k2, err, Idle, Idle);
      FinishBatTxTracks(c, FinishBitmapTx(c, k2, err), G, S);
    } else {
      assert Tracks(c, k2, G, S);
      FinishBatTxTracks(c, k2, G, S);
    }
  }
}
