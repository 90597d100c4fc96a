/** Reads in any state of a run, with writes in flight: a sector whose write has been
    acknowledged is never forwarded to the parent; and in an orderly run what a read finds is
    as new as every write that was acknowledged before the read was issued. */
module VhdReadback {
  import opened Arithmetic
  import opened VhdTypes
  import opened VhdEngine
  import opened VhdInvariants
  import opened VhdStructure
  import opened VhdSafety
  import opened VhdAccounting
  import opened VhdMoves
  import opened VhdLayout
  import opened VhdDisk
  import opened VhdDurability
  import opened VhdLanding
  import opened VhdServing
  import opened VhdTracking
  import opened VhdTheorems

  /* ---- between the landing of a bitmap and its completion ---- */

  /** The bitmap of block b is on the disk, but memory still has the one from before. */
  predicate Lags(s: Vhd, b: nat) { b in s.cache && s.cache[b].write == Landed }

  ghost predicate AcksIn(c: Config, s: Vhd, b: nat)
    requires b in s.cache
  {
    forall m, l: nat :: 0 <= m < |s.log| && Acknowledges(s.log[m], l) && l / c.spb == b ==> l % c.spb in s.cache[b].bits
  }

  ghost predicate RawIn(c: Config, s: Vhd, b: nat, r: Req)
    requires b in s.cache
  {
    r.op != OpPad && r.sec / c.spb == b ==> ReqBits(c.spb, r) <= s.cache[b].bits
  }

  /** What memory still has contains all that has been acknowledged, and all that is read
      or written without a bitmap update. */
  ghost predicate Solid(c: Config, s: Vhd) {
    forall b {:trigger Lags(s, b)} :: Lags(s, b) ==>
      AcksIn(c, s, b) && (forall r :: r in s.raw ==> RawIn(c, s, b, r)) &&
        (b in s.batmap ==> Full(c) <= s.cache[b].bits)
  }

  /** No sector is forwarded after a write of it has been acknowledged. */
  ghost predicate Unforwarded(log: seq<Ev>) {
    forall m, f, l: nat :: 0 <= m < f < |log| && Acknowledges(log[m], l) && log[f].Forward? ==>
      !(log[f].sec <= l < log[f].sec + log[f].secs)
  }

  ghost predicate Sees(c: Config, s: Vhd) { Solid(c, s) && Unforwarded(s.log) }

  /** The disk has the bit of an acknowledged sector, and so has memory. */
  lemma AckedInMemory(c: Config, s: Vhd, m: nat, l: nat, pool: nat)
    requires Structure(c, s, pool) && Tracked(c, s) && Solid(c, s) && m < |s.log| && Acknowledges(s.log[m], l)
    ensures l / c.spb in s.bat
    ensures l / c.spb in s.cache && !s.cache[l / c.spb].reading ==> l % c.spb in s.cache[l / c.spb].bits
  {
    var b := l / c.spb;
    assert BitOnDisk(c, s.media.disk, s.bat, l);
    if b in s.cache && !s.cache[b].reading {
      assert MapOf(c, s, b) && BlockOk(c, s, b);
      if Lags(s, b) { assert AcksIn(c, s, b); }
    }
  }

  /** So it is with reads and writes that need no bitmap update, and with full blocks. */
  lemma RawInMemory(c: Config, s: Vhd, b: nat, r: Req, pool: nat)
    requires Structure(c, s, pool) && Tracked(c, s) && b in s.cache && !s.cache[b].reading && s.cache[b].write != Landed
    requires r in s.raw
    ensures RawIn(c, s, b, r)
  {
    assert MapOf(c, s, b) && BlockOk(c, s, b) && RawM(c, s.media.disk, s.bat, s.batmap, r);
  }

  lemma FullInMemory(c: Config, s: Vhd, b: nat, pool: nat)
    requires Structure(c, s, pool) && Tracked(c, s) && b in s.cache && !s.cache[b].reading && s.cache[b].write != Landed
    requires b in s.batmap
    ensures Full(c) <= s.cache[b].bits
  {
    assert MapOf(c, s, b) && BlockOk(c, s, b);
  }

  /* ---- steps that change no bitmap that lags ---- */

  /** Bitmaps that lag in t lagged in s, and are the same. */
  ghost predicate SameLags(s: Vhd, t: Vhd) {
    forall b {:trigger Lags(t, b)} :: Lags(t, b) ==> Lags(s, b) && t.cache[b].bits == s.cache[b].bits
  }

  ghost predicate SameMemory(s: Vhd, t: Vhd) {
    SameLags(s, t) && t.log == s.log && t.raw == s.raw && t.batmap == s.batmap
  }

  lemma SameTrans(r: Vhd, s: Vhd, t: Vhd)
    requires SameMemory(r, s) && SameMemory(s, t)
    ensures SameMemory(r, t)
  {
  }

  ghost predicate NewAcksIn(c: Config, s: Vhd, t: Vhd) {
    |s.log| <= |t.log| && t.log[..|s.log|] == s.log &&
    forall m, l: nat :: |s.log| <= m < |t.log| && Acknowledges(t.log[m], l) && Lags(t, l / c.spb) ==>
      l % c.spb in t.cache[l / c.spb].bits
  }

  lemma SolidFrame(c: Config, s: Vhd, t: Vhd)
    requires Solid(c, s) && SameLags(s, t) && NewAcksIn(c, s, t)
    requires forall b, r :: Lags(t, b) && r in t.raw && r !in s.raw ==> RawIn(c, t, b, r)
    requires forall b :: Lags(t, b) && b in t.batmap ==> b in s.batmap
    ensures Solid(c, t)
  {
    forall b | Lags(t, b)
      ensures AcksIn(c, t, b) && (forall r :: r in t.raw ==> RawIn(c, t, b, r)) &&
              (b in t.batmap ==> Full(c) <= t.cache[b].bits)
    {
      assert Lags(s, b) && AcksIn(c, s, b);
      forall r | r in t.raw ensures RawIn(c, t, b, r) {
        if r in s.raw { assert RawIn(c, s, b, r); }
      }
      forall m, l: nat | 0 <= m < |t.log| && Acknowledges(t.log[m], l) && l / c.spb == b
        ensures l % c.spb in t.cache[b].bits
      {
        if m < |s.log| { assert t.log[m] == s.log[m]; }
      }
    }
  }

  lemma UnforwardedDone(c: Config, s: Vhd, t: Vhd)
    requires Unforwarded(s.log) && |s.log| <= |t.log| && t.log[..|s.log|] == s.log
    requires forall i :: |s.log| <= i < |t.log| ==> !t.log[i].Forward?
    ensures Unforwarded(t.log)
  {
    assert forall i :: 0 <= i < |s.log| ==> t.log[i] == s.log[i];
  }

  /* ---- ending transactions ---- */

  /** Event e is about sectors of block b. */
  predicate About(c: Config, e: Ev, b: nat) {
    e.Done? && (0 < e.secs ==> e.sec / c.spb == b && e.sec % c.spb + e.secs <= c.spb)
  }

  /** Block k does not lag, and all it has to answer and has answered is about it. */
  ghost predicate Mild(c: Config, k: Blk) {
    && k.bm.write != Landed
    && (forall r :: r in k.bm.tx.reqs || r in k.bm.queue ==> InBlock(c, k.b, r))
    && (forall e :: e in k.out ==> About(c, e, k.b))
  }

  lemma EndTxMild(c: Config, k: Blk)
    requires Mild(c, k)
    ensures Mild(c, EndTx(c, k)) && EndTx(c, k).b == k.b && EndTx(c, k).bm.queue == k.bm.queue
  {
    var es := DoneEvs(k.bm.tx.reqs, k.bm.tx.error);
    forall e | e in EndTx(c, k).out ensures About(c, e, k.b) {
      if e !in k.out {
        var i :| 0 <= i < |es| && es[i] == e;
        assert k.bm.tx.reqs[i] in k.bm.tx.reqs;
      }
    }
  }

  lemma {:induction false} FinishDataTxMild(c: Config, k: Blk)
    requires Mild(c, k)
    ensures Mild(c, FinishDataTx(c, k)) && FinishDataTx(c, k).b == k.b
    decreases |k.bm.queue|, 3
  {
    hide FinishBitmapTx;
    if k.bm.tx.error != 0 { FinishBitmapTxMild(c, Closed(k), 0); }
  }

  lemma {:induction false} FinishBitmapTxMild(c: Config, k: Blk, error: int)
    requires Mild(c, k)
    ensures Mild(c, FinishBitmapTx(c, k, error)) && FinishBitmapTx(c, k, error).b == k.b
    decreases |k.bm.queue|, 2
  {
    hide StartNewTx;
    hide EndTx;
    hide FinishBatTx;
    hide UnlockIfIdle;
    hide Mild;
    WithErrorMild(c, k, error);
    if c.prealloc || !k.bm.tx.updateBat {
      var k1 := EndTx(c, WithError(k, error));
      EndTxMild(c, WithError(k, error));
      StartNewTxMild(c, k1);
      ReleaseMild(c, StartNewTx(c, k1));
    } else {
      LockMild(c, WithError(k, error), k.b == k.lock.blk && k.lock.started, k.lock.(tx := true));
    }
  }

  lemma LockMild(c: Config, k: Blk, ok: bool, lock: Lock)
    requires Mild(c, k)
    ensures Mild(c, Assert(k, ok).(lock := lock))
  {
  }

  lemma WithErrorMild(c: Config, k: Blk, error: int)
    requires Mild(c, k)
    ensures var k' := WithError(k, error);
            Mild(c, k') && k'.b == k.b && k'.bm.queue == k.bm.queue && k'.bm.tx.updateBat == k.bm.tx.updateBat
  {
  }

  lemma ReleaseMild(c: Config, k: Blk)
    requires Mild(c, k)
    ensures Mild(c, FinishBatTx(UnlockIfIdle(k))) && FinishBatTx(UnlockIfIdle(k)).b == k.b
  {
    hide FinishBatTx;
    BatTxMild(c, UnlockIfIdle(k));
  }

  lemma {:induction false} StartNewTxMild(c: Config, k: Blk)
    requires Mild(c, k)
    ensures Mild(c, StartNewTx(c, k)) && StartNewTx(c, k).b == k.b
    decreases |k.bm.queue|, 1
  {
    if k.bm.queue != [] {
      assert Mild(c, QueueToTx(c, k));
      if Completed(QueueToTx(c, k).bm.tx) { FinishDataTxMild(c, QueueToTx(c, k)); }
    }
  }

  lemma {:induction false} FinishIfCompletedMild(c: Config, k: Blk)
    requires Mild(c, k)
    ensures Mild(c, FinishDataTxIfCompleted(c, k)) && FinishDataTxIfCompleted(c, k).b == k.b
  {
    if Completed(k.bm.tx) { FinishDataTxMild(c, k); }
  }

  /** Block b has come out of a step mild, or it is as it was but for its transaction. */
  lemma PutSees(c: Config, s: Vhd, s1: Vhd, k: Blk)
    requires Sees(c, s) && k.b in s.cache && Mild(c, k)
    requires s1.cache == s.cache && s1.log == s.log && s1.raw == s.raw && s1.batmap == s.batmap
    ensures Sees(c, Put(s1, k))
  {
    var t := Put(s1, k);
    forall m, l: nat | |s.log| <= m < |t.log| && Acknowledges(t.log[m], l) ensures !Lags(t, l / c.spb) {
      var e := k.out[m - |s.log|];
      assert t.log[m] == e && e in k.out && About(c, e, k.b);
      SameBlock(c.spb, e.sec, l);
    }
    SolidFrame(c, s, t);
    forall i | |s.log| <= i < |t.log| ensures !t.log[i].Forward? {
      assert t.log[i] == k.out[i - |s.log|] && k.out[i - |s.log|] in k.out;
    }
    UnforwardedDone(c, s, t);
  }

  lemma PutSameSees(c: Config, s: Vhd, s1: Vhd, k: Blk)
    requires Sees(c, s) && k.b in s.cache && k.out == [] && k.bm.bits == s.cache[k.b].bits &&
             k.bm.write == s.cache[k.b].write
    requires s1.cache == s.cache && s1.log == s.log && s1.raw == s.raw && s1.batmap == s.batmap
    requires k.full ==> k.b in s.batmap
    ensures Sees(c, Put(s1, k))
  {
    var t := Put(s1, k);
    assert t.log == s.log;
    SolidFrame(c, s, t);
  }

  /** The reqs of a block are its own. */
  lemma OwnReqs(c: Config, s: Vhd, b: nat, pool: nat)
    requires Structure(c, s, pool) && b in s.cache
    ensures forall r :: r in s.cache[b].tx.reqs || r in s.cache[b].queue ==> InBlock(c, b, r)
  {
    assert BlockOk(c, s, b);
  }

  lemma DoneTxSees(c: Config, s: Vhd, b: nat, i: nat, err: int, pool: nat)
    requires Structure(c, s, pool) && Sees(c, s) && Enabled(s, DoneTx(b, i, err))
    ensures Sees(c, FinishTxWrite(c, s, b, i, err))
  {
    OwnReqs(c, s, b, pool);
    var k := At(s, b);
    var rs := k.bm.tx.reqs;
    assert rs[i] in rs;
    assert k.bm.write == Idle by {
      assert BlockOk(c, s, b);
      UnfinishedCounts(rs, rs[i]);
    }
    hide Sees;
    var k1 := TxWriteMark(c, k, i, err);
    assert Mild(c, k1) by {
      forall r | r in k1.bm.tx.reqs ensures InBlock(c, b, r) {
        if r !in rs { assert r == rs[i].(finished := true, err := err); }
      }
    }
    FinishIfCompletedMild(c, k1);
    PutSees(c, s, Sync(s, rs[i], err), TxWriteDone(c, k, i, err));
  }

  lemma DoneBitmapWriteSees(c: Config, s: Vhd, b: nat, err: int, pool: nat)
    requires Structure(c, s, pool) && Sees(c, s) && Enabled(s, DoneBitmapWrite(b, err))
    ensures Sees(c, FinishBitmapWrite(c, s, b, err))
  {
    OwnReqs(c, s, b, pool);
    hide Sees;
    var k := At(s, b);
    var k1 := Assert(k, k.bm.tx.closed && !k.bm.reading && k.bm.write != Idle).(bm := k.bm.(write := Idle));
    assert Mild(c, k1);
    FinishBitmapTxMild(c, k1, err);
    PutSees(c, s, s, BitmapWritten(c, k, err));
  }

  lemma DoneZeroSees(c: Config, s: Vhd, err: int, pool: nat)
    requires Structure(c, s, pool) && Sees(c, s) && Enabled(s, DoneZero(err))
    ensures Sees(c, FinishZeroBmWrite(c, s, err))
  {
    var b := s.lock.blk;
    assert BlockOk(c, s, b);
    OwnReqs(c, s, b, pool);
    assert s.cache[b].write == Idle;
    hide Structure;
    hide Sees;
    hide ZeroWritten;
    var s1 := AfterZeroWrite(s, err);
    var k := At(s1, b);
    assert Mild(c, ZeroWritten(c, k, err)) by {
      assert Mild(c, ZeroMark(k, err));
      FinishIfCompletedMild(c, ZeroMark(k, err));
      ZeroIs(c, k, err);
    }
    assert ZeroWritten(c, k, err).b == b by { FinishIfCompletedMild(c, ZeroMark(k, err)); ZeroIs(c, k, err); }
    var s2 := s1.(panicked := FinishZeroBmWrite(c, s, err).panicked);
    PutSees(c, s, s1, ZeroWritten(c, k, err));
    assert FinishZeroBmWrite(c, s, err) ==
        Put(s1, ZeroWritten(c, k, err)).(panicked := FinishZeroBmWrite(c, s, err).panicked);
    SeesSame(c, Put(s1, ZeroWritten(c, k, err)), FinishZeroBmWrite(c, s, err));
  }

  lemma {:induction false} ZeroIs(c: Config, k: Blk, err: int)
    ensures ZeroWritten(c, k, err) == FinishDataTxIfCompleted(c, ZeroMark(k, err))
  {
  }

  lemma SeesSame(c: Config, s: Vhd, t: Vhd)
    requires Sees(c, s) && SameMemory(s, t)
    ensures Sees(c, t)
  {
    SolidFrame(c, s, t);
  }

  lemma DoneBatSees(c: Config, s: Vhd, err: int, pool: nat)
    requires Structure(c, s, pool) && Sees(c, s) && Enabled(s, DoneBat(err))
    ensures Sees(c, FinishBatWrite(c, s, err))
  {
    hide Structure;
    hide Sees;
    hide BatWritten;
    hide FinishBatTx;
    var b := s.lock.blk;
    HolderMild(c, s, pool);
    var s1 := AfterBat(c, s, err);
    var k := At(s1, b);
    var k1 := BatMark(c, k, err);
    var k' := BatWritten(c, k, err);
    if c.prealloc || k.lock.tx {
      assert Mild(c, k1);
      FinishIfCompletedMild(c, k1);
      FinishBitmapTxMild(c, k1, err);
      BatIs(c, k, err);
      PutSees(c, s, s1, k');
    } else {
      BatReleases(c, k, err);
      PutSameSees(c, s, s1, k');
    }
    BatPuts(c, s, err, pool);
    SeesSame(c, Put(s1, k'), FinishBatWrite(c, s, err));
  }

  /** The block whose BAT entry is written has no bitmap write in flight if its transaction
      is ended by that write. */
  lemma HolderMild(c: Config, s: Vhd, pool: nat)
    requires Structure(c, s, pool) && s.meta.bat != Idle
    ensures var b := s.lock.blk;
            b in s.cache && (c.prealloc || s.lock.tx ==> s.cache[b].write == Idle) &&
            forall r :: r in s.cache[b].tx.reqs || r in s.cache[b].queue ==> InBlock(c, b, r)
  {
    assert BlockOk(c, s, s.lock.blk);
    OwnReqs(c, s, s.lock.blk, pool);
  }

  lemma BatReleases(c: Config, k: Blk, err: int)
    requires !c.prealloc && !k.lock.tx
    ensures var k' := BatWritten(c, k, err);
            k'.b == k.b && k'.out == k.out && k'.bm.bits == k.bm.bits && k'.bm.write == k.bm.write && k'.full == k.full
  {
  }

  lemma BatPuts(c: Config, s: Vhd, err: int, pool: nat)
    requires Structure(c, s, pool) && s.meta.bat != Idle
    ensures s.lock.blk in s.cache
    ensures SameMemory(Put(AfterBat(c, s, err), BatWritten(c, At(AfterBat(c, s, err), s.lock.blk), err)),
              FinishBatWrite(c, s, err))
  {
    hide BatWritten;
  }

  lemma {:induction false} BatIs(c: Config, k: Blk, err: int)
    requires c.prealloc || k.lock.tx
    requires Mild(c, FinishDataTxIfCompleted(c, BatMark(c, k, err))) &&
             Mild(c, FinishBitmapTx(c, BatMark(c, k, err), err))
    requires FinishDataTxIfCompleted(c, BatMark(c, k, err)).b == k.b &&
             FinishBitmapTx(c, BatMark(c, k, err), err).b == k.b
    ensures Mild(c, BatWritten(c, k, err)) && BatWritten(c, k, err).b == k.b
  {
    hide FinishDataTxIfCompleted;
    hide FinishBitmapTx;
    hide BatMark;
    hide FinishBatTx;
    hide Mild;
    var k1 := if c.prealloc then FinishDataTxIfCompleted(c, BatMark(c, k, err))
        else FinishBitmapTx(c, BatMark(c, k, err), err);
    BatTxMild(c, k1);
  }

  lemma BatTxMild(c: Config, k: Blk)
    requires Mild(c, k)
    ensures Mild(c, FinishBatTx(k)) && FinishBatTx(k).b == k.b
  {
  }

  /* ---- landing ---- */

  lemma LandBitmapSees(c: Config, s: Vhd, b: nat, pool: nat)
    requires Structure(c, s, pool) && Tracked(c, s) && Sees(c, s) && Enabled(s, LandBitmap(b))
    ensures Sees(c, LandBitmapWrite(c, s, b))
  {
    var t := LandBitmapWrite(c, s, b);
    BusyNotReading(c, s, b, pool);
    forall x | Lags(t, x)
      ensures AcksIn(c, t, x) && (forall r :: r in t.raw ==> RawIn(c, t, x, r)) &&
              (x in t.batmap ==> Full(c) <= t.cache[x].bits)
    {
      if x == b {
        forall m, l: nat | 0 <= m < |t.log| && Acknowledges(t.log[m], l) && l / c.spb == b
          ensures l % c.spb in t.cache[b].bits
        {
          AckedInMemory(c, s, m, l, pool);
        }
        forall r | r in t.raw ensures RawIn(c, t, b, r) {
          RawInMemory(c, s, b, r, pool);
          assert RawIn(c, s, b, r);
        }
        if b in s.batmap { FullInMemory(c, s, b, pool); }
      } else {
        assert Lags(s, x) && AcksIn(c, s, x);
        forall r | r in t.raw ensures RawIn(c, t, x, r) { assert RawIn(c, s, x, r); }
      }
    }
  }

  lemma LandSees(c: Config, s: Vhd, step: Step)
    requires Sees(c, s) && Enabled(s, step)
    requires step.LandTx? || step.LandQueue? || step.LandOther? || step.LandZero? || step.LandBat?
    ensures Sees(c, Next(c, s, step))
  {
    var t := Next(c, s, step);
    assert t.log == s.log && t.batmap == s.batmap && SameLags(s, t);
    forall b, r | Lags(t, b) && r in t.raw && r !in s.raw ensures RawIn(c, t, b, r) {
      assert Lags(s, b);
      var LandOther(i) := step;
      assert r == t.raw[i] && s.raw[i] in s.raw && RawIn(c, s, b, s.raw[i]);
      assert ReqBits(c.spb, r) == ReqBits(c.spb, s.raw[i]);
    }
    SolidFrame(c, s, t);
  }

  /* ---- other completions ---- */

  lemma DoneOtherSees(c: Config, s: Vhd, i: nat, err: int, pool: nat)
    requires Structure(c, s, pool) && Sees(c, s) && Enabled(s, DoneOther(i, err))
    ensures Sees(c, FinishRaw(s, i, err))
  {
    hide Structure;
    hide RawIn;
    hide AcksIn;
    var (t, r) := (FinishRaw(s, i, err), s.raw[i]);
    RawInBlock(c, s, i, pool);
    forall m, l: nat | |s.log| <= m < |t.log| && Acknowledges(t.log[m], l) && Lags(t, l / c.spb)
      ensures l % c.spb in t.cache[l / c.spb].bits
    {
      assert t.log[m] == DoneEv(r.(err := err), 0);
      assert Lags(s, l / c.spb) && RawIn(c, s, l / c.spb, r);
      BitIn(c, s, r, l);
    }
    SolidFrame(c, s, t);
    UnforwardedDone(c, s, t);
  }

  lemma RawInBlock(c: Config, s: Vhd, i: nat, pool: nat)
    requires Structure(c, s, pool) && i < |s.raw|
    ensures s.raw[i] in s.raw && (s.raw[i].op != OpPad ==> InBlock(c, s.raw[i].sec / c.spb, s.raw[i]))
  {
    assert s.raw[i] in s.raw && RawShape(c, s.raw[i]);
  }

  lemma BitIn(c: Config, s: Vhd, r: Req, l: nat)
    requires r.op != OpPad && InBlock(c, r.sec / c.spb, r) && r.sec <= l < r.sec + r.secs
    requires l / c.spb in s.cache && RawIn(c, s, l / c.spb, r)
    ensures l % c.spb in s.cache[l / c.spb].bits
  {
    BitOf(c, r, l - r.sec);
  }

  lemma LoadFailedSees(c: Config, s: Vhd, b: nat, err: int)
    requires Sees(c, s) && b in s.cache && err != 0
    ensures Sees(c, FinishBitmapRead(c, s, b, err))
  {
    var t := FinishBitmapRead(c, s, b, err);
    SolidFrame(c, s, t);
    UnforwardedDone(c, s, t);
  }

  /* ---- serving ---- */

  lemma TouchSame(c: Config, s: Vhd, sec: nat, write: bool)
    ensures SameMemory(s, ReadBitmapCache(c, s, sec, write).0)
  {
  }

  lemma InstallSame(c: Config, s: Vhd, b: nat, bm: Bm)
    requires bm.write != Landed
    ensures SameMemory(s, InstallBitmap(c, s, b, bm).0)
  {
    hide SameMemory;
    hide Install;
    var t := InstallBitmap(c, s, b, bm).0;
    if s.bmFree > 0 {
      var s1 := s.(bmFree := s.bmFree - 1);
      MetaSame(s, s1);
      InstallOne(c, s1, b, bm);
      SameTrans(s, s1, t);
    } else if exists v :: IsVictim(s, v) {
      var v :| IsVictim(s, v) && t == Install(c, Check(s.(cache := s.cache - {v}), !InUse(s.cache[v])), b, bm);
      var s1 := Check(s.(cache := s.cache - {v}), !InUse(s.cache[v]));
      DropSame(s, v, !InUse(s.cache[v]));
      InstallOne(c, s1, b, bm);
      SameTrans(s, s1, t);
    } else {
      MetaSame(s, s);
    }
  }

  lemma InstallOne(c: Config, s: Vhd, b: nat, bm: Bm)
    requires bm.write != Landed
    ensures SameMemory(s, Install(c, s, b, bm))
  {
  }

  lemma DropSame(s: Vhd, v: nat, ok: bool)
    ensures SameMemory(s, Check(s.(cache := s.cache - {v}), ok))
  {
  }

  lemma AllocationSame(c: Config, s: Vhd, b: nat)
    ensures SameMemory(s, AllocateBlock(c, s, b).0) && SameMemory(s, UpdateBat(c, s, b).0)
  {
    hide EmptyBitmap;
    hide ReserveAndZero;
    hide LockAndWriteBat;
    hide SameMemory;
    var s0 := Check(s, b !in s.bat);
    MetaSame(s, s0);
    if s.lock.locked {
      MetaSame(s, Check(s0, s.lock.blk == b));
    } else {
      var s1 := ExtentTaken(c, s0, b);
      MetaSame(s, s1);
      EmptySame(c, s0, b);
      EmptySame(c, s1, b);
      SameTrans(s, s0, EmptyBitmap(c, s0, b).0);
      SameTrans(s, s1, EmptyBitmap(c, s1, b).0);
      if EmptyBitmap(c, s0, b).1 == 0 {
        ReserveSame(c, EmptyBitmap(c, s0, b).0, b);
        SameTrans(s, EmptyBitmap(c, s0, b).0, ReserveAndZero(c, EmptyBitmap(c, s0, b).0, b));
      }
      if EmptyBitmap(c, s1, b).1 == 0 {
        LockSame(EmptyBitmap(c, s1, b).0, b);
        SameTrans(s, EmptyBitmap(c, s1, b).0, LockAndWriteBat(EmptyBitmap(c, s1, b).0, b));
      }
    }
  }

  lemma MetaSame(s: Vhd, t: Vhd)
    requires t == s.(panicked := t.panicked, lock := t.lock, meta := t.meta, media := t.media, nextDb := t.nextDb,
               free := t.free, bmFree := t.bmFree)
    ensures SameMemory(s, t)
  {
  }

  lemma EmptySame(c: Config, s: Vhd, b: nat)
    ensures SameMemory(s, EmptyBitmap(c, s, b).0)
  {
    hide InstallBitmap;
    InstallSame(c, s, b, InitBm);
  }

  lemma ReserveSame(c: Config, s: Vhd, b: nat)
    requires b in s.cache
    ensures SameMemory(s, ReserveAndZero(c, s, b))
  {
    hide Gap;
    assert s.log + [] == s.log;
    assert b in s.batmap ==> s.batmap + {b} == s.batmap;
  }

  lemma LockSame(s: Vhd, b: nat)
    requires b in s.cache
    ensures SameMemory(s, LockAndWriteBat(s, b))
  {
    assert s.log + [] == s.log;
    assert b in s.batmap ==> s.batmap + {b} == s.batmap;
  }

  lemma JoinSame(s: Vhd, b: nat, q: Req)
    requires b in s.cache
    ensures SameMemory(s, Put(s, JoinTx(At(s, b), q)))
  {
    assert s.log + [] == s.log;
    assert b in s.batmap ==> s.batmap + {b} == s.batmap;
  }

  lemma BitmapWriteSame(c: Config, s: Vhd, r: Req, updBat: bool)
    ensures SameMemory(s, ScheduleDataWrite(c, s, r, updBat, true).0)
  {
    hide AllocateBlock;
    hide UpdateBat;
    hide JoinTx;
    hide Put;
    hide At;
    hide SameMemory;
    var b := r.sec / c.spb;
    AllocationSame(c, s, b);
    var (s1, err) := if !updBat then (s, 0) else if c.prealloc then AllocateBlock(c, s, b) else UpdateBat(c, s, b);
    MetaSame(s, s);
    if err == 0 && s1.free > 0 {
      var s2 := s1.(free := s1.free - 1);
      MetaSame(s1, s2);
      var base := if updBat then s1.lock.off else BatEntry(s, b);
      var q := r.(op := OpWrite, addr := base + c.bmSecs + r.sec % c.spb);
      if b in s2.cache { JoinSame(s2, b, q); } else { MetaSame(s2, Check(s2, false)); }
      SameTrans(s, s1, s2);
      SameTrans(s, s2, if b in s2.cache then Put(s2, JoinTx(At(s2, b), q)) else Check(s2, false));
    }
  }

  lemma QueueSame(c: Config, s: Vhd, r: Req)
    ensures SameMemory(s, QueueRequest(c, s, r).0)
  {
  }

  /** The sectors of a span whose bits are set in memory are so in a bitmap that lags. */
  lemma SpanIn(c: Config, s: Vhd, wid: nat, sec: nat, n: nat, write: bool, b: nat, q: Req)
    requires Solid(c, s) && InMap(c, s, sec) && Lags(s, b)
    requires q.sec == sec && q.secs == Span(c, s, sec, n, true)
    ensures RawIn(c, s, b, q)
  {
    if sec / c.spb == b {
      if b in s.batmap {
        assert ReqBits(c.spb, q) <= Full(c);
      } else {
        forall x | x in ReqBits(c.spb, q) ensures x in s.cache[b].bits {
        }
      }
    }
  }

  lemma PlainSees(c: Config, s: Vhd, t: Vhd, wid: nat, sec: nat, n: nat, q: Req)
    requires Sees(c, s) && InMap(c, s, sec) && q.sec == sec && q.secs == Span(c, s, sec, n, true)
    requires SameLags(s, t) && t.log == s.log && t.batmap == s.batmap
    requires forall r :: r in t.raw ==> r in s.raw || r.op == OpPad || r == q
    ensures Sees(c, t)
  {
    forall b, r | Lags(t, b) && r in t.raw && r !in s.raw ensures RawIn(c, t, b, r) {
      if r == q { SpanIn(c, s, wid, sec, n, true, b, q); assert RawIn(c, s, b, q); }
    }
    SolidFrame(c, s, t);
  }

  lemma ForwardSees(c: Config, s: Vhd, t: Vhd, wid: nat, sec: nat, k: nat, pool: nat)
    requires Sees(c, s) && SameLags(s, t) && t.log == s.log + [Forward(wid, sec, k)] && t.raw == s.raw &&
             t.batmap == s.batmap
    requires forall m, l: nat :: 0 <= m < |s.log| && Acknowledges(s.log[m], l) ==> !(sec <= l < sec + k)
    ensures Sees(c, t)
  {
    SolidFrame(c, s, t);
    assert forall i :: 0 <= i < |s.log| ==> t.log[i] == s.log[i];
  }

  lemma ClearNotAcked(c: Config, s: Vhd, sec: nat, n: nat, m: nat, l: nat, pool: nat)
    requires Structure(c, s, pool) && Tracked(c, s) && Solid(c, s) && m < |s.log| && Acknowledges(s.log[m], l)
    ensures var (s1, hit) := ReadBitmapCache(c, s, sec, false);
            (hit == BatClear ==> !(sec <= l < sec + ToBlockEnd(c, sec, n))) &&
            (hit == BitClear ==> !(sec <= l < sec + Span(c, s1, sec, n, false)))
  {
    var (s1, hit) := ReadBitmapCache(c, s, sec, false);
    AckedInMemory(c, s, m, l, pool);
    if hit == BatClear && sec <= l < sec + ToBlockEnd(c, sec, n) { SameBlock(c.spb, sec, l); }
    if hit == BitClear && sec <= l < sec + Span(c, s1, sec, n, false) {
      SameBlock(c.spb, sec, l);
    }
  }

  lemma ReadTurnSees(c: Config, s: Vhd, wid: nat, sec: nat, n: nat, pool: nat)
    requires Structure(c, s, pool) && Tracked(c, s) && Sees(c, s) && 0 < n
    ensures Sees(c, ReadTurn(c, s, wid, sec, n).0)
  {
    hide Structure;
    hide Tracked;
    hide Sees;
    hide SameMemory;
    hide QueueRequest;
    hide InstallBitmap;
    var (s1, hit) := ReadBitmapCache(c, s, sec, false);
    var t := ReadTurn(c, s, wid, sec, n).0;
    TouchSame(c, s, sec, false);
    SeesSame(c, s, s1);
    match hit
    case OutOfRange =>
    case BatLocked =>
    case BatClear => ForwardTurnSees(c, s, t, wid, sec, n, ToBlockEnd(c, sec, n), pool);
    case BitClear => ForwardTurnSees(c, s, t, wid, sec, n, Span(c, s1, sec, n, false), pool);
    case BitSet =>
      var r := Piece(false, wid, sec, Span(c, s1, sec, n, true));
      var q := r.(op := OpRead, addr := BatEntry(s1, sec / c.spb) + c.bmSecs + sec % c.spb);
      PlainSees(c, s1, t, wid, sec, n, q);
    case NotCached =>
      var s0 := Check(s1, sec / c.spb in s1.bat && sec / c.spb !in s1.cache);
      InstallSame(c, s0, sec / c.spb, InitBm.(reading := true, locked := true));
      var s2 := ScheduleBitmapRead(c, s1, sec / c.spb).0;
      SameFrom(s1, s0, s2);
      SeesSame(c, s1, s2);
      QueueSame(c, s2, Piece(false, wid, sec, ToBlockEnd(c, sec, n)));
      if t != s2 { SeesSame(c, s2, t); }
    case ReadPending =>
      QueueSame(c, s1, Piece(false, wid, sec, ToBlockEnd(c, sec, n)));
      SeesSame(c, s1, t);
  }

  lemma SameFrom(s: Vhd, s0: Vhd, t: Vhd)
    requires s0 == s.(panicked := s0.panicked) && SameMemory(s0, t)
    ensures SameMemory(s, t)
  {
  }

  lemma ForwardTurnSees(c: Config, s: Vhd, t: Vhd, wid: nat, sec: nat, n: nat, k: nat, pool: nat)
    requires Structure(c, s, pool) && Tracked(c, s) && Sees(c, s)
    requires var (s1, hit) := ReadBitmapCache(c, s, sec, false);
             t == Emit(s1, Forward(wid, sec, k)) &&
             ((hit == BatClear && k == ToBlockEnd(c, sec, n)) || (hit == BitClear && k == Span(c, s1, sec, n, false)))
    ensures Sees(c, t)
  {
    hide Structure;
    hide Tracked;
    forall m, l: nat | 0 <= m < |s.log| && Acknowledges(s.log[m], l) ensures !(sec <= l < sec + k) {
      ClearNotAcked(c, s, sec, n, m, l, pool);
    }
    TouchSame(c, s, sec, false);
    ForwardSees(c, s, t, wid, sec, k, pool);
  }

  lemma InMapSet(c: Config, s: Vhd, sec: nat, write: bool)
    ensures var (s1, hit) := ReadBitmapCache(c, s, sec, write); hit == BitSet ==> InMap(c, s1, sec)
  {
  }

  lemma StraightSees(c: Config, s: Vhd, wid: nat, sec: nat, n: nat)
    requires Sees(c, s) && InMap(c, s, sec)
    ensures Sees(c, ScheduleDataWrite(c, s, Piece(true, wid, sec, Span(c, s, sec, n, true)), false, false).0)
  {
    hide AllocateBlock;
    hide UpdateBat;
    hide Sees;
    var r := Piece(true, wid, sec, Span(c, s, sec, n, true));
    var q := r.(op := OpWrite, addr := BatEntry(s, sec / c.spb) + c.bmSecs + sec % c.spb);
    var t := ScheduleDataWrite(c, s, r, false, false).0;
    if t.raw == s.raw { MetaSame(s, t); SeesSame(c, s, t); } else { PlainSees(c, s, t, wid, sec, n, q); }
  }

  lemma WriteTurnSees(c: Config, s: Vhd, wid: nat, sec: nat, n: nat, pool: nat)
    requires Sees(c, s) && 0 < n
    ensures Sees(c, WriteTurn(c, s, wid, sec, n).0)
  {
    hide Sees;
    hide SameMemory;
    hide QueueRequest;
    hide InstallBitmap;
    hide ScheduleDataWrite;
    var (s1, hit) := ReadBitmapCache(c, s, sec, true);
    var t := WriteTurn(c, s, wid, sec, n).0;
    TouchSame(c, s, sec, true);
    SeesSame(c, s, s1);
    match hit
    case OutOfRange =>
    case BatLocked =>
    case BatClear =>
      BitmapWriteSame(c, s1, Piece(true, wid, sec, ToBlockEnd(c, sec, n)), true);
      SeesSame(c, s1, t);
    case BitClear =>
      BitmapWriteSame(c, s1, Piece(true, wid, sec, Span(c, s1, sec, n, false)), false);
      SeesSame(c, s1, t);
    case BitSet =>
      InMapSet(c, s, sec, true);
      StraightSees(c, s1, wid, sec, n);
    case NotCached =>
      var s0 := Check(s1, sec / c.spb in s1.bat && sec / c.spb !in s1.cache);
      InstallSame(c, s0, sec / c.spb, InitBm.(reading := true, locked := true));
      var s2 := ScheduleBitmapRead(c, s1, sec / c.spb).0;
      SameFrom(s1, s0, s2);
      SeesSame(c, s1, s2);
      QueueSame(c, s2, Piece(true, wid, sec, ToBlockEnd(c, sec, n)));
      if t != s2 { SeesSame(c, s2, t); }
    case ReadPending =>
      QueueSame(c, s1, Piece(true, wid, sec, ToBlockEnd(c, sec, n)));
      SeesSame(c, s1, t);
  }

  lemma EmitSees(c: Config, s: Vhd, e: Ev)
    requires Sees(c, s) && !e.Forward? && forall l: nat :: !Acknowledges(e, l)
    ensures Sees(c, Emit(s, e))
  {
    SolidFrame(c, s, Emit(s, e));
    UnforwardedDone(c, s, Emit(s, e));
  }

  lemma {:induction false} ServeSees(c: Config, s: Vhd, write: bool, wid: nat, sec: nat, n: nat, pool: nat)
    requires Structure(c, s, pool) && Tracked(c, s) && Sees(c, s)
    ensures Sees(c, Serve(c, s, write, wid, sec, n))
    decreases n
  {
    hide Structure;
    hide Tracked;
    hide Sees;
    hide WriteTurn;
    hide ReadTurn;
    if n > 0 {
      if write { WriteTurnTracked(c, s, wid, sec, n, pool); WriteTurnSees(c, s, wid, sec, n, pool); }
      else { ReadTurnTracked(c, s, wid, sec, n, pool); ReadTurnSees(c, s, wid, sec, n, pool); }
      TurnOk(c, s, write, wid, sec, n, pool);
      var (s1, k, err) := Turn(c, s, write, wid, sec, n);
      if err != 0 {
        EmitSees(c, s1, Done(write, wid, sec, n, err));
      } else {
        ServeSees(c, s1, write, wid, sec + k, n - k, pool);
      }
    }
  }

  lemma {:induction false} ReplaySees(c: Config, s: Vhd, rs: seq<Req>, pool: nat)
    requires |rs| <= pool && Structure(c, s, pool - |rs|) && Tracked(c, s) && Sees(c, s)
    ensures Sees(c, Replay(c, s, rs))
    decreases |rs|
  {
    hide Structure;
    hide Tracked;
    hide Serve;
    hide Sees;
    if rs != [] {
      var r := rs[0];
      var s1 := s.(free := s.free + 1);
      FreeOk(c, s, pool - |rs|);
      CalmSame(c, s, s1);
      SeesSame(c, s, s1);
      ServeTracked(c, s1, r.op == OpWrite, r.wid, r.sec, r.secs, pool - |rs| + 1);
      ServeSees(c, s1, r.op == OpWrite, r.wid, r.sec, r.secs, pool - |rs| + 1);
      ServeOk(c, s1, r.op == OpWrite, r.wid, r.sec, r.secs, pool - |rs| + 1);
      ReplaySees(c, Serve(c, s1, r.op == OpWrite, r.wid, r.sec, r.secs), rs[1..], pool);
    }
  }

  lemma LoadedSame(c: Config, s: Vhd, b: nat, pool: nat)
    requires Structure(c, s, pool) && b in s.cache && s.cache[b].reading
    ensures SameMemory(s, BitmapLoaded(c, s, b))
  {
    assert BlockOk(c, s, b);
  }

  lemma DoneBitmapReadSees(c: Config, s: Vhd, b: nat, err: int, pool: nat)
    requires Structure(c, s, pool) && Tracked(c, s) && Sees(c, s) && Enabled(s, DoneBitmapRead(b, err))
    ensures Sees(c, FinishBitmapRead(c, s, b, err))
  {
    hide Structure;
    hide Tracked;
    hide Sees;
    hide SameMemory;
    hide BitmapLoaded;
    hide Replay;
    if err != 0 {
      LoadFailedSees(c, s, b, err);
    } else {
      var waiting := s.cache[b].waiting;
      var s1 := BitmapLoaded(c, s, b);
      LoadedSame(c, s, b, pool);
      SeesSame(c, s, s1);
      LoadedTracked(c, s, b, pool);
      BitmapLoadedOk(c, s, b, pool);
      ReplaySees(c, s1, waiting, pool);
      UnlockSame(Replay(c, s1, waiting), b);
      SeesSame(c, Replay(c, s1, waiting), UnlockCached(Replay(c, s1, waiting), b));
    }
  }

  lemma UnlockSame(s: Vhd, b: nat)
    ensures SameMemory(s, UnlockCached(s, b))
  {
    if b in s.cache {
      assert s.log + [] == s.log;
      assert b in s.batmap ==> s.batmap + {b} == s.batmap;
    }
  }

  lemma RequestSees(c: Config, s: Vhd, write: bool, sec: nat, n: nat, pool: nat)
    requires Structure(c, s, pool) && Tracked(c, s) && Sees(c, s)
    ensures Sees(c, Next(c, s, Request(write, sec, n)))
  {
    hide Structure;
    hide Tracked;
    hide Sees;
    hide Serve;
    var s1 := Emit(s, Issue(write, sec, n));
    EmitSees(c, s, Issue(write, sec, n));
    EmitTracked(c, s, Issue(write, sec, n));
    MediaIrrelevant(c, s, s1, pool);
    ServeSees(c, s1, write, |s.log|, sec, n, pool);
  }

  lemma DoneQueueSees(c: Config, s: Vhd, b: nat, i: nat, err: int)
    requires Sees(c, s) && b in s.cache && i < |s.cache[b].queue|
    ensures Sees(c, FinishQueuedWrite(s, b, i, err))
  {
    hide Sees;
    PutSameSees(c, s, Sync(s, s.cache[b].queue[i], err), QueuedWriteDone(At(s, b), i, err));
  }

  lemma StepSees(c: Config, s: Vhd, step: Step, pool: nat)
    requires Structure(c, s, pool) && Tracked(c, s) && Sees(c, s) && Enabled(s, step)
    ensures Sees(c, Next(c, s, step))
  {
    hide Structure;
    hide Tracked;
    hide Sees;
    hide Serve;
    hide FinishTxWrite;
    hide FinishBitmapRead;
    hide FinishBitmapWrite;
    hide FinishZeroBmWrite;
    hide FinishBatWrite;
    match step
    case Request(write, sec, n) => RequestSees(c, s, write, sec, n, pool);
    case LandTx(b, i) => LandSees(c, s, step);
    case LandQueue(b, i) => LandSees(c, s, step);
    case LandOther(i) => LandSees(c, s, step);
    case LandBitmap(b) => LandBitmapSees(c, s, b, pool);
    case LandZero => LandSees(c, s, step);
    case LandBat => LandSees(c, s, step);
    case DoneTx(b, i, err) => DoneTxSees(c, s, b, i, err, pool);
    case DoneQueue(b, i, err) => DoneQueueSees(c, s, b, i, err);
    case DoneOther(i, err) => DoneOtherSees(c, s, i, err, pool);
    case DoneBitmapRead(b, err) => DoneBitmapReadSees(c, s, b, err, pool);
    case DoneBitmapWrite(b, err) => DoneBitmapWriteSees(c, s, b, err, pool);
    case DoneZero(err) => DoneZeroSees(c, s, err, pool);
    case DoneBat(err) => DoneBatSees(c, s, err, pool);
  }

  lemma {:induction false} RunSees(c: Config, states: seq<Vhd>, steps: seq<Step>, pool: nat, i: nat)
    requires Run(c, states, steps) && Opened(c, states[0], pool) && i < |states|
    ensures Sees(c, states[i])
  {
    hide Tracked;
    hide Structure;
    hide Accounts;
    if i > 0 {
      hide Opened;
      hide Sees;
      RunSees(c, states, steps, pool, i - 1);
      RunStructure(c, states, steps, pool, i - 1);
      RunTracked(c, states, steps, pool, i - 1);
      StepSees(c, states[i - 1], steps[i - 1], pool);
    }
  }

  /* ---- main results ---- */

  /** Once a write of a sector has been answered with success, no read of that sector is
      forwarded to the parent, ever. */
  lemma AckedNeverForwarded(c: Config, states: seq<Vhd>, steps: seq<Step>, pool: nat, i: nat, m: nat, f: nat, l: nat)
    requires Run(c, states, steps) && Opened(c, states[0], pool) && i < |states|
    requires m < f < |states[i].log| && Acknowledges(states[i].log[m], l) && states[i].log[f].Forward?
    ensures !(states[i].log[f].sec <= l < states[i].log[f].sec + states[i].log[f].secs)
  {
    RunSees(c, states, steps, pool, i);
  }

  /** In every state of a run, a turn of a read whose span covers an acknowledged sector
      does not forward it: it parks the span, or reads the sector's place in the file. If
      the run has been orderly, the data there is as new as the acknowledged write. */
  lemma AckedIsServed(c: Config, states: seq<Vhd>, steps: seq<Step>, pool: nat, i: nat, wid: nat, sec: nat, n: nat,
          m: nat, l: nat)
    requires Run(c, states, steps) && Opened(c, states[0], pool) && i < |states|
    requires m < |states[i].log| && Acknowledges(states[i].log[m], l) && 0 < n
    requires var (_, k, err) := ReadTurn(c, states[i], wid, sec, n); err == 0 && sec <= l < sec + k
    ensures var s := states[i];
            var (t, k, _) := ReadTurn(c, s, wid, sec, n);
            t.log == s.log && (IsParked(c, s, t, wid, sec, k) || ReadsPlace(c, s, t, wid, sec, k, l))
    ensures OrderlyTo(states, steps, i) ==> var s := states[i];
            l / c.spb in s.bat && Fresh(c, WorldOf(s), s.bat[l / c.spb], l, s.log[m].wid)
  {
    hide Structure;
    hide OnDisk;
    hide Tracked;
    hide Sees;
    RunSees(c, states, steps, pool, i);
    RunStructure(c, states, steps, pool, i);
    RunTracked(c, states, steps, pool, i);
    AckedTurn(c, states[i], wid, sec, n, m, l, pool);
    if OrderlyTo(states, steps, i) {
      RunOnDisk(c, states, steps, pool, i);
      AckedStored(c, states[i], m, l);
    }
  }

  predicate IsParked(c: Config, s: Vhd, t: Vhd, wid: nat, sec: nat, k: nat) {
    var b := sec / c.spb;
    t.raw == s.raw && b in t.cache && t.cache[b].reading && Piece(false, wid, sec, k) in t.cache[b].waiting
  }

  ghost predicate ReadsPlace(c: Config, s: Vhd, t: Vhd, wid: nat, sec: nat, k: nat, l: nat) {
    && |t.raw| == |s.raw| + 1 && t.raw[..|s.raw|] == s.raw && l / c.spb in s.bat
    && var r := t.raw[|s.raw|];
       r.op == OpRead && r.wid == wid && r.sec == sec && r.secs == k &&
       r.addr + (l - sec) == Loc(c, s.bat[l / c.spb], l)
  }

  lemma AckedStored(c: Config, s: Vhd, m: nat, l: nat)
    requires OnDisk(c, s) && m < |s.log| && Acknowledges(s.log[m], l)
    ensures l / c.spb in s.bat && Fresh(c, WorldOf(s), s.bat[l / c.spb], l, s.log[m].wid)
  {
    assert Stored(c, WorldOf(s), s.bat, l, s.log[m].wid);
  }

  lemma AckedTurn(c: Config, s: Vhd, wid: nat, sec: nat, n: nat, m: nat, l: nat, pool: nat)
    requires Structure(c, s, pool) && Tracked(c, s) && Sees(c, s)
    requires m < |s.log| && Acknowledges(s.log[m], l) && 0 < n
    requires var (_, k, err) := ReadTurn(c, s, wid, sec, n); err == 0 && sec <= l < sec + k
    ensures var (t, k, _) := ReadTurn(c, s, wid, sec, n);
            t.log == s.log && (IsParked(c, s, t, wid, sec, k) || ReadsPlace(c, s, t, wid, sec, k, l))
  {
    hide Structure;
    hide Tracked;
    hide InstallBitmap;
    hide Acknowledges;
    hide ScheduleBitmapRead;
    hide Unforwarded;
    AckedInMemory(c, s, m, l, pool);
    ClearNotAcked(c, s, sec, n, m, l, pool);
    hide Solid;
    var (s1, hit) := ReadBitmapCache(c, s, sec, false);
    if hit == NotCached { InstalledRead(c, s1, sec / c.spb); }
    if hit == BitSet { SameBlock(c.spb, sec, l); }
  }

  lemma InstalledRead(c: Config, s: Vhd, b: nat)
    ensures var (t, err) := ScheduleBitmapRead(c, s, b);
            t.log == s.log && t.raw == s.raw && t.free == s.free && (err == 0 ==> b in t.cache && t.cache[b].reading)
  {
  }

  /** A read that reaches the file takes for every sector what the BAT and the bitmap on
      the disk say is that sector's; in an orderly run, what can be recovered there. */
  lemma ReadFindsRecovered(c: Config, states: seq<Vhd>, steps: seq<Step>, pool: nat, i: nat, j: nat, k: nat)
    requires Run(c, states, steps) && Opened(c, states[0], pool) && i < |steps| && steps[i] == LandOther(j)
    requires states[i].raw[j].op == OpRead && k < states[i].raw[j].secs
    ensures var (s, t) := (states[i], states[i + 1]);
            var l := s.raw[j].sec + k;
            && j < |t.raw| && k < |t.raw[j].got| && t.media == s.media && BitOnDisk(c, s.media.disk, s.media.bat, l)
            && t.raw[j].got[k] == s.media.disk(Loc(c, s.media.bat[l / c.spb], l))
            && (OrderlyTo(states, steps, i) ==>
                 Recover(c, s.media, l).Present? && t.raw[j].got[k] == Data(Recover(c, s.media, l).w, l))
  {
    hide Structure;
    hide OnDisk;
    hide Tracked;
    hide Recover;
    hide BitOnDisk;
    RunStructure(c, states, steps, pool, i);
    RunTracked(c, states, steps, pool, i);
    RawReadPlace(c, states[i], j, k, pool);
    if OrderlyTo(states, steps, i) {
      RunOnDisk(c, states, steps, pool, i);
      RawReadAt(c, states[i], j, k, pool);
    }
  }

  /** A data read goes where the file says its sectors are. */
  lemma RawReadPlace(c: Config, s: Vhd, j: nat, k: nat, pool: nat)
    requires j < |s.raw| && s.raw[j].op == OpRead && k < s.raw[j].secs
    requires Structure(c, s, pool) && Tracked(c, s)
    ensures var r := s.raw[j];
            var l := r.sec + k;
            BitOnDisk(c, s.media.disk, s.media.bat, l) && r.addr + k == Loc(c, s.media.bat[l / c.spb], l)
  {
    var r := s.raw[j];
    assert r in s.raw && RawShape(c, r) && RawM(c, s.media.disk, s.bat, s.batmap, r);
    FileTracked(c, s);
    EntryOnDisk(c, s, r.sec / c.spb, pool);
    BitOf(c, r, k);
  }

  /** Where a data read goes, and what it has found if it has been there. */
  lemma RawReadAt(c: Config, s: Vhd, j: nat, k: nat, pool: nat)
    requires j < |s.raw| && s.raw[j].op == OpRead && k < s.raw[j].secs
    requires Structure(c, s, pool) && OnDisk(c, s)
    ensures var r := s.raw[j]; var f := Recover(c, s.media, r.sec + k);
            && f.Present? && s.media.disk(r.addr + k) == Data(f.w, r.sec + k) && r.wid < |s.log|
            && (r.landed ==> |r.got| == r.secs && Current(s.log, r.got[k], r.wid, r.sec + k))
  {
    hide Structure;
    hide OnDisk;
    hide Current;
    hide Layout;
    hide MetaD;
    var r := s.raw[j];
    var b, l := r.sec / c.spb, r.sec + k;
    RawReadFacts(c, s, r, b, pool);
    FileParts(c, s);
    EntryOnDisk(c, s, b, pool);
    InBlockRange(c, b, r, l);
    BitOf(c, r, k);
    assert InPlace(c, WorldOf(s), s.bat[b], l);
    assert Loc(c, s.bat[b], l) == r.addr + k;
  }

  lemma RawReadFacts(c: Config, s: Vhd, r: Req, b: nat, pool: nat)
    requires r in s.raw && r.op == OpRead && b == r.sec / c.spb
    requires Structure(c, s, pool) && OnDisk(c, s)
    ensures InBlock(c, b, r) && b in s.bat && ReadD(c, WorldOf(s), s.bat[b], r)
    ensures ReqBits(c.spb, r) <= BitsAt(s.media.disk, s.bat[b])
    ensures Backed(c, WorldOf(s), s.bat[b], b, BitsAt(s.media.disk, s.bat[b]))
  {
    assert RawShape(c, r) && RawD(c, WorldOf(s), s.bat, s.batmap, r);
    assert BlkD(c, s, b);
  }

  lemma BitOf(c: Config, r: Req, k: nat)
    requires InBlock(c, r.sec / c.spb, r) && k < r.secs
    ensures (r.sec + k) % c.spb in ReqBits(c.spb, r) && (r.sec + k) / c.spb == r.sec / c.spb
    ensures (r.sec + k) % c.spb == r.sec % c.spb + k
  {
    InBlockRange(c, r.sec / c.spb, r, r.sec + k);
    assert InRange((r.sec + k) % c.spb, r.sec % c.spb, r.secs);
  }

  /** A data read that completes with success has found, for every sector, data of that
      sector that is as new as every write acknowledged before the read was issued. */
  lemma ReadIsCurrent(c: Config, states: seq<Vhd>, steps: seq<Step>, pool: nat, i: nat, j: nat, k: nat, m: nat)
    requires Run(c, states, steps) && Opened(c, states[0], pool) && i < |steps| && steps[i] == DoneOther(j, 0)
    requires OrderlyTo(states, steps, i)
    requires states[i].raw[j].op == OpRead && k < states[i].raw[j].secs
    ensures var s := states[i]; var r := s.raw[j]; var l := r.sec + k;
            && |r.got| == r.secs && r.got[k].Data? && r.got[k].l == l && Wrote(s.log, r.got[k].w, l)
            && (m < r.wid < |s.log| && Acknowledges(s.log[m], l) ==>
                 r.got[k].w >= 0 && NotBefore(s.log, r.got[k].w, s.log[m].wid, l))
    ensures var s := states[i]; Recover(c, s.media, s.raw[j].sec + k).Present?
  {
    hide Structure;
    hide OnDisk;
    hide Recover;
    RunStructure(c, states, steps, pool, i);
    RunOnDisk(c, states, steps, pool, i);
    var s := states[i];
    var r := s.raw[j];
    RawReadAt(c, s, j, k, pool);
    if m < r.wid && Acknowledges(s.log[m], r.sec + k) {
      AckedEarlier(c, s, m, r.sec + k);
      assert s.log[..r.wid][..s.log[m].wid] == s.log[..s.log[m].wid];
    }
  }

  /** A request is answered after it has been issued. */
  lemma AckedEarlier(c: Config, s: Vhd, m: nat, l: nat)
    requires OnDisk(c, s) && m < |s.log| && Acknowledges(s.log[m], l)
    ensures s.log[m].wid < m
  {
  }
}
