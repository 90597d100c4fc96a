/** The VHD driver as the program has it: an object whose fields its methods update.
    Each method is proved to do what its function in VhdEngine says. */
module VhdDriver {
  import opened Arithmetic
  import opened VhdTypes
  import E = VhdEngine
  import opened VhdEngine
  import opened VhdInvariants
  import opened VhdSafety
  import opened VhdAccounting
  import opened VhdDisk
  import opened VhdTracking
  import opened VhdTheorems

  /* ---- what the loops build up ---- */

  lemma FinishedTake(q: seq<Req>, i: nat)
    requires i < |q|
    ensures FinishedCount(q[..i + 1]) == FinishedCount(q[..i]) + if q[i].finished then 1 else 0
  {
    assert q[..i + 1][..i] == q[..i];
  }

  lemma StagedTake(spb: pos, q: seq<Req>, i: nat)
    requires i < |q|
    ensures Staged(spb, q[..i + 1]) ==
              Staged(spb, q[..i]) + if q[i].finished && q[i].err == 0 then ReqBits(spb, q[i]) else {}
  {
    var a, z := q[..i], q[..i + 1];
    forall l | l in Staged(spb, a) ensures l in Staged(spb, z) {
      var j: nat :| j < |a| && a[j].finished && a[j].err == 0 && l in ReqBits(spb, a[j]);
      assert z[j] == a[j];
    }
    forall l | q[i].finished && q[i].err == 0 && l in ReqBits(spb, q[i]) ensures l in Staged(spb, z) {
      assert z[i] == q[i];
    }
    forall l | l in Staged(spb, z)
      ensures l in Staged(spb, a) || (q[i].finished && q[i].err == 0 && l in ReqBits(spb, q[i]))
    {
      var j: nat :| j < |z| && z[j].finished && z[j].err == 0 && l in ReqBits(spb, z[j]);
      if j < i { assert a[j] == z[j]; }
    }
  }

  lemma OneVictim(s: Vhd, u: nat, v: nat)
    requires IsVictim(s, u) && IsVictim(s, v)
    ensures u == v
  {
  }

  lemma PutAt(s: Vhd, b: nat)
    requires b in s.cache
    ensures Put(s, At(s, b)) == s
    ensures var k := At(s, b); k.b == b && k.alloc == (b in s.bat) && k.at == BatEntry(s, b)
  {
    assert s.cache[b := s.cache[b]] == s.cache;
    assert s.log + [] == s.log;
    assert b in s.batmap ==> s.batmap + {b} == s.batmap;
  }

  /** Block k once its transaction is resolved, before it is signalled. */
  ghost function Resolved(c: Config, k: Blk): Blk {
    var tx := k.bm.tx;
    k.(bm := if tx.error != 0 then k.bm.(shadow := k.bm.bits) else k.bm.(bits := k.bm.shadow),
       full := k.full || (tx.error == 0 && c.hasBatmap && E.BitmapFull(c, k.bm.shadow)))
  }

  /** vhd_bitmap_set for a run of sectors. */
  method SetBits(m: set<nat>, off: nat, n: nat) returns (r: set<nat>)
    ensures r == m + Range(off, n)
  {
    r := m;
    for i := 0 to n
      invariant r == m + Range(off, i)
    {
      r := r + {off + i};
    }
  }

  ghost function Signalled(k: Blk): Blk {
    k.(freed := k.freed + |k.bm.tx.reqs|, out := k.out + DoneEvs(k.bm.tx.reqs, k.bm.tx.error))
  }

  lemma {:induction false} FinishBitmapTxIs(c: Config, k: Blk, k1: Blk, error: int)
    requires k1 == k.(bm := k.bm.(tx := k.bm.tx.(error := if k.bm.tx.error != 0 then k.bm.tx.error else error)))
    ensures FinishBitmapTx(c, k, error) ==
      if !c.prealloc && k.bm.tx.updateBat
      then Assert(k1, k.b == k.lock.blk && k.lock.started).(lock := k.lock.(tx := true))
      else FinishBatTx(E.UnlockIfIdle(StartNewTx(c, EndTx(c, k1))))
  {
    hide EndTx;
    hide StartNewTx;
    hide FinishBatTx;
    hide E.UnlockIfIdle;
  }

  lemma FinishBatIs(c: Config, s: Vhd, err: int)
    ensures var b := s.lock.blk;
            var s0 := E.Check(s, b in s.cache && !s.cache[b].reading && s.lock.locked && s.lock.started &&
                                 s.cache[b].tx.live)
                       .(meta := s.meta.(bat := Idle), lock := s.lock.(err := err));
            var s1 := if err != 0 then s0
                      else s0.(bat := s0.bat[b := s.lock.off], nextDb := s.lock.off + c.spb + c.bmSecs);
            E.FinishBatWrite(c, s, err) == if b in s1.cache then Put(s1, BatWritten(c, At(s1, b), err)) else s1
  {
    hide BatWritten;
    hide At;
    hide Put;
  }

  lemma MoveNone(spb: pos, q: seq<Req>)
    ensures q[..0] == [] && FinishedCount(q[..0]) == 0 && Staged(spb, q[..0]) == {}
  {
  }

  /** The loop of start_new_bitmap_transaction: the queued writes join the new
      transaction, and those that already finished are counted and staged. */
  method MoveQueue(spb: pos, q: seq<Req>, error: int, shadow0: set<nat>) returns (tx: Tx, shadow: set<nat>)
    ensures tx == Tx(error, false, |q|, FinishedCount(q), q != [], false, false, q)
    ensures shadow == shadow0 + Staged(spb, q)
  {
    hide Staged;
    hide FinishedCount;
    MoveNone(spb, q);
    tx, shadow := InitTx.(error := error), shadow0;
    for i := 0 to |q|
      invariant tx == Tx(error, false, i, FinishedCount(q[..i]), i > 0, false, false, q[..i])
      invariant shadow == shadow0 + Staged(spb, q[..i])
    {
      var r := q[i];
      FinishedTake(q, i);
      StagedTake(spb, q, i);
      assert q[..i + 1] == q[..i] + [r];
      tx := tx.(started := tx.started + 1, live := true, reqs := tx.reqs + [r]);
      if r.finished {
        tx := tx.(finished := tx.finished + 1);
        if r.err == 0 { shadow := SetBits(shadow, r.sec % spb, r.secs); }
      }
    }
    assert q[..|q|] == q;
  }

  /** Steps that the driver itself takes; the others are I/Os reaching the disk. */
  predicate Reaction(step: Step) {
    step.Request? || step.DoneTx? || step.DoneQueue? || step.DoneOther? || step.DoneBitmapRead? ||
    step.DoneBitmapWrite? || step.DoneZero? || step.DoneBat?
  }

  class Driver {
    const c: Config
    var bat: map<nat, nat>
    var batmap: set<nat>
    var nextDb: nat
    var lock: Lock
    var meta: MetaIo
    var cache: map<nat, Bm>
    var bmFree: nat
    var lru: nat
    var free: nat
    var raw: seq<Req>
    var panicked: bool
    var log: seq<Ev>
    ghost var media: Media

    ghost function State(): Vhd
      reads this
    {
      Vhd(bat, batmap, nextDb, lock, meta, cache, bmFree, lru, free, raw, panicked, media, log)
    }

    constructor (c: Config, bat: map<nat, nat>, batmap: set<nat>, nextDb: nat, pool: nat, ghost media: Media)
      ensures this.c == c
      ensures State() == Vhd(bat, batmap, nextDb, InitLock, MetaIo(Idle, 0, 0, 0, Idle, 0, map[]), map[], c.cacheSize,
                0, pool, [], false, media, [])
    {
      this.c := c;
      this.bat, this.batmap, this.nextDb, this.media := bat, batmap, nextDb, media;
      lock, meta := InitLock, MetaIo(Idle, 0, 0, 0, Idle, 0, map[]);
      cache, bmFree, lru, free, raw, panicked, log := map[], c.cacheSize, 0, pool, [], false, [];
    }

    /** The ASSERT macro. */
    method Check(ok: bool)
      modifies this`panicked
      ensures State() == E.Check(old(State()), ok)
    {
      if !ok { panicked := true; }
    }

    /* ---- ending transactions: the state is s0 with block k in it ---- */

    ghost predicate Holds(b: nat, s0: Vhd, k: Blk)
      reads this
    {
      State() == Put(s0, k) && k.b == b && b in s0.cache && k.alloc == (b in s0.bat) && k.at == BatEntry(s0, b)
    }

    lemma HeldBm(b: nat, s0: Vhd, k: Blk)
      requires Holds(b, s0, k)
      ensures b in cache && cache[b] == k.bm && lock == k.lock
    {
    }

    method SetBm(b: nat, bm: Bm, ghost s0: Vhd, ghost k: Blk)
      requires Holds(b, s0, k)
      modifies this`cache
      ensures Holds(b, s0, k.(bm := bm))
    {
      cache := cache[b := bm];
      assert cache == s0.cache[b := bm];
    }

    method CheckBm(b: nat, ok: bool, ghost s0: Vhd, ghost k: Blk)
      requires Holds(b, s0, k)
      modifies this`panicked
      ensures Holds(b, s0, Assert(k, ok))
    {
      Check(ok);
    }

    method SignalCompletion(rs: seq<Req>, error: int)
      modifies this`free, this`log
      ensures State() == E.SignalCompletion(old(State()), rs, error)
    {
      ghost var log0 := log;
      for i := 0 to |rs|
        invariant free == old(free) + i
        invariant log == log0 + DoneEvs(rs, error)[..i]
      {
        log := log + [DoneEv(rs[i], error)];
        free := free + 1;
        assert DoneEvs(rs, error)[..i + 1] == DoneEvs(rs, error)[..i] + [DoneEv(rs[i], error)];
      }
      assert DoneEvs(rs, error)[..|rs|] == DoneEvs(rs, error);
    }

    method BitmapFull(m: set<nat>) returns (full: bool)
      ensures full <==> E.BitmapFull(c, m)
    {
      for i := 0 to c.spb / 8
        invariant Range(0, 8 * i) <= m
      {
        if !(forall j | 8 * i <= j < 8 * i + 8 :: j in m) {
          var j :| 8 * i <= j < 8 * i + 8 && j !in m;
          assert j in Range(0, 8 * (c.spb / 8));
          return false;
        }
      }
      return true;
    }

    method FinishBatTransaction(b: nat, ghost s0: Vhd, ghost k: Blk)
      requires Holds(b, s0, k)
      modifies this`lock, this`cache
      ensures Holds(b, s0, FinishBatTx(k))
    {
      var bm := cache[b];
      if !lock.locked || lock.blk != b { return; }
      if lock.err == 0 || !bm.tx.live {
        lock := InitLock;
      } else {
        SetBm(b, bm.(tx := bm.tx.(closed := true)), s0, k);
      }
    }

    method UnlockIfIdle(b: nat, ghost s0: Vhd, ghost k: Blk)
      requires Holds(b, s0, k)
      modifies this`cache
      ensures Holds(b, s0, E.UnlockIfIdle(k))
    {
      var bm := cache[b];
      if !InUse(bm) { SetBm(b, bm.(locked := false), s0, k); }
    }

    method ScheduleBitmapWrite(b: nat, ghost s0: Vhd, ghost k: Blk)
      requires Holds(b, s0, k)
      modifies this`panicked, this`cache, this`lru
      ensures Holds(b, s0, E.ScheduleBitmapWrite(k))
    {
      var bm := cache[b];
      var ready := !bm.reading && bm.write == Idle && (b in bat || (lock.locked && lock.blk == b));
      CheckBm(b, ready, s0, k);
      lru := lru + 1;
      ghost var k1 := Assert(k, ready).(lru := lru);
      assert Holds(b, s0, k1);
      var wAddr := if b in bat then bat[b] else lock.off;
      assert wAddr == if k.alloc then k.at else k.lock.off;
      SetBm(b, bm.(locked := true, write := Flying, wAddr := wAddr, seqno := lru), s0, k1);
    }

    /** A transaction without error commits its shadow; a failed one drops it. */
    method ResolveShadow(b: nat, ghost s0: Vhd, ghost k: Blk)
      requires Holds(b, s0, k)
      modifies this`cache, this`batmap
      ensures Holds(b, s0, Resolved(c, k))
    {
      var bm := cache[b];
      if bm.tx.error != 0 {
        SetBm(b, bm.(shadow := bm.bits), s0, k);
      } else {
        SetBm(b, bm.(bits := bm.shadow), s0, k);
        if b !in batmap && c.hasBatmap {
          var full := BitmapFull(bm.shadow);
          if full { batmap := batmap + {b}; }
        }
      }
    }

    method SignalTransaction(b: nat, ghost s0: Vhd, ghost k: Blk)
      requires Holds(b, s0, k)
      modifies this`free, this`log
      ensures Holds(b, s0, Signalled(k))
    {
      SignalCompletion(cache[b].tx.reqs, cache[b].tx.error);
      assert s0.log + k.out + DoneEvs(k.bm.tx.reqs, k.bm.tx.error) == s0.log + Signalled(k).out;
    }

    /** The end of a transaction: resolve shadow against map, signal, forget. */
    method EndTransaction(b: nat, ghost s0: Vhd, ghost k: Blk)
      requires Holds(b, s0, k)
      modifies this`cache, this`batmap, this`free, this`log
      ensures Holds(b, s0, EndTx(c, k))
    {
      ResolveShadow(b, s0, k);
      ghost var k1 := Resolved(c, k);
      SignalTransaction(b, s0, k1);
      assert cache[b] == Signalled(k1).bm;
      SetBm(b, cache[b].(tx := InitTx), s0, Signalled(k1));
    }

    method StartNewTransaction(b: nat, ghost s0: Vhd, ghost k: Blk)
      requires Holds(b, s0, k) && k.bm.tx == InitTx
      modifies this
      ensures Holds(b, s0, StartNewTx(c, k))
      decreases |k.bm.queue|, 1
    {
      var bm := cache[b];
      if bm.queue == [] { return; }
      var tx, shadow := MoveQueue(c.spb, bm.queue, if b in bat then 0 else EIO, bm.shadow);
      bm := bm.(queue := [], tx := tx, shadow := shadow);
      SetBm(b, bm, s0, k);
      assert k.(bm := bm) == QueueToTx(c, k);
      hide QueueToTx;
      hide FinishDataTx;
      if Completed(tx) { FinishDataTransaction(b, s0, QueueToTx(c, k)); }
    }

    /** finish_bitmap_transaction, once nothing more is to be waited for. */
    method CloseTransaction(b: nat, ghost s0: Vhd, ghost k: Blk)
      requires Holds(b, s0, k)
      modifies this
      ensures Holds(b, s0, FinishBatTx(E.UnlockIfIdle(StartNewTx(c, EndTx(c, k)))))
      decreases |k.bm.queue|, 2
    {
      ghost var k1 := EndTx(c, k);
      EndTransaction(b, s0, k);
      assert k1.bm.tx == InitTx && k1.b == b && k1.bm.queue == k.bm.queue;
      hide EndTx;
      hide StartNewTx;
      hide FinishBatTx;
      StartNewTransaction(b, s0, k1);
      ghost var k2 := StartNewTx(c, k1);
      UnlockIfIdle(b, s0, k2);
      FinishBatTransaction(b, s0, E.UnlockIfIdle(k2));
    }

    /** The bitmap is on the disk before the BAT entry is. */
    method WaitForBat(b: nat, ghost s0: Vhd, ghost k: Blk)
      requires Holds(b, s0, k)
      modifies this`panicked, this`lock
      ensures Holds(b, s0, Assert(k, b == k.lock.blk && k.lock.started).(lock := k.lock.(tx := true)))
    {
      CheckBm(b, b == lock.blk && lock.started, s0, k);
      lock := lock.(tx := true);
    }

    method FinishBitmapTransaction(b: nat, error: int, ghost s0: Vhd, ghost k: Blk)
      requires Holds(b, s0, k)
      modifies this
      ensures Holds(b, s0, FinishBitmapTx(c, k, error))
      decreases |k.bm.queue|, 3
    {
      hide EndTx;
      hide StartNewTx;
      hide Put;
      hide Holds;
      hide FinishBatTx;
      hide E.UnlockIfIdle;
      HeldBm(b, s0, k);
      var tx := cache[b].tx;
      tx := tx.(error := if tx.error != 0 then tx.error else error);
      ghost var k1 := k.(bm := k.bm.(tx := tx));
      FinishBitmapTxIs(c, k, k1, error);
      hide FinishBitmapTx;
      SetBm(b, cache[b].(tx := tx), s0, k);
      if !c.prealloc && tx.updateBat {
        WaitForBat(b, s0, k1);
      } else {
        CloseTransaction(b, s0, k1);
      }
    }

    method FinishDataTransaction(b: nat, ghost s0: Vhd, ghost k: Blk)
      requires Holds(b, s0, k)
      modifies this
      ensures Holds(b, s0, FinishDataTx(c, k))
      decreases |k.bm.queue|, 4
    {
      var bm := cache[b];
      ghost var k1 := k.(bm := k.bm.(tx := k.bm.tx.(closed := true)));
      SetBm(b, bm.(tx := bm.tx.(closed := true)), s0, k);
      if bm.tx.error == 0 {
        ScheduleBitmapWrite(b, s0, k1);
      } else {
        FinishBitmapTransaction(b, 0, s0, k1);
      }
    }

    method FinishIfCompleted(b: nat, ghost s0: Vhd, ghost k: Blk)
      requires Holds(b, s0, k)
      modifies this
      ensures Holds(b, s0, FinishDataTxIfCompleted(c, k))
    {
      hide FinishDataTx;
      if Completed(cache[b].tx) { FinishDataTransaction(b, s0, k); }
    }

    /* ---- completions ---- */

    /** finish_data_write for a write of the current transaction. */
    method FinishTxWrite(b: nat, i: nat, err: int)
      requires b in cache && i < |cache[b].tx.reqs|
      modifies this
      ensures State() == E.FinishTxWrite(c, old(State()), b, i, err)
    {
      var bm := cache[b];
      ghost var s0 := Sync(State(), bm.tx.reqs[i], err);
      ghost var k := At(s0, b);
      media := s0.media;
      PutAt(s0, b);
      CheckBm(b, !bm.reading && bm.locked, s0, k);
      var r := bm.tx.reqs[i].(finished := true, err := err);
      var shadow := bm.shadow;
      if err == 0 { shadow := SetBits(shadow, r.sec % c.spb, r.secs); }
      SetBm(b, bm.(tx := bm.tx.(finished := bm.tx.finished + 1, reqs := bm.tx.reqs[i := r]), shadow := shadow),
            s0, Assert(k, !bm.reading && bm.locked));
      hide FinishDataTxIfCompleted;
      FinishIfCompleted(b, s0, TxWriteMark(c, k, i, err));
    }

    /** finish_data_write for a write that came after the transaction was closed. */
    method FinishQueuedWrite(b: nat, i: nat, err: int)
      requires b in cache && i < |cache[b].queue|
      modifies this
      ensures State() == E.FinishQueuedWrite(old(State()), b, i, err)
    {
      var bm := cache[b];
      ghost var s0 := Sync(State(), bm.queue[i], err);
      media := s0.media;
      PutAt(s0, b);
      SetBm(b, bm.(queue := bm.queue[i := bm.queue[i].(finished := true, err := err)]), s0, At(s0, b));
    }

    method FinishBitmapWrite(b: nat, err: int)
      requires b in cache
      modifies this
      ensures State() == E.FinishBitmapWrite(c, old(State()), b, err)
    {
      ghost var s0 := State();
      ghost var k := At(s0, b);
      PutAt(s0, b);
      var bm := cache[b];
      var ok := bm.tx.closed && !bm.reading && bm.write != Idle;
      CheckBm(b, ok, s0, k);
      SetBm(b, bm.(write := Idle), s0, Assert(k, ok));
      hide FinishBitmapTx;
      FinishBitmapTransaction(b, err, s0, Assert(k, ok).(bm := bm.(write := Idle)));
    }

    method MarkBat(b: nat, err: int, ghost s0: Vhd, ghost k: Blk)
      requires Holds(b, s0, k)
      modifies this`cache
      ensures Holds(b, s0, BatMark(c, k, err)) && lock == BatMark(c, k, err).lock
    {
      hide Put;
      hide Holds;
      HeldBm(b, s0, k);
      var bm := cache[b];
      var tx := bm.tx.(error := if err == 0 then bm.tx.error else err);
      if c.prealloc {
        SetBm(b, bm.(tx := tx.(finished := tx.finished + 1, meta := false)), s0, k);
      } else {
        SetBm(b, bm.(tx := tx.(updateBat := false)), s0, k);
      }
    }

    /** The block's transaction takes note, as its allocation protocol has it. */
    method MarkBatWritten(b: nat, err: int, ghost s0: Vhd, ghost k: Blk)
      requires Holds(b, s0, k)
      modifies this
      ensures Holds(b, s0, BatWritten(c, k, err))
    {
      ghost var k1 := BatMark(c, k, err);
      assert k1.lock == k.lock;
      hide Put;
      hide BatMark;
      hide FinishDataTxIfCompleted;
      hide FinishBitmapTx;
      hide FinishBatTx;
      MarkBat(b, err, s0, k);
      if c.prealloc {
        FinishIfCompleted(b, s0, k1);
        FinishBatTransaction(b, s0, FinishDataTxIfCompleted(c, k1));
      } else if lock.tx {
        FinishBitmapTransaction(b, err, s0, k1);
        FinishBatTransaction(b, s0, FinishBitmapTx(c, k1, err));
      } else {
        FinishBatTransaction(b, s0, k1);
      }
    }

    method FinishBatWrite(err: int)
      modifies this
      ensures State() == E.FinishBatWrite(c, old(State()), err)
    {
      hide BatWritten;
      hide At;
      hide Put;
      hide E.FinishBatWrite;
      FinishBatIs(c, State(), err);
      var b := lock.blk;
      Check(b in cache && !cache[b].reading && lock.locked && lock.started && cache[b].tx.live);
      meta, lock := meta.(bat := Idle), lock.(err := err);
      if err == 0 {
        bat := bat[b := lock.off];
        nextDb := lock.off + c.spb + c.bmSecs;
      }
      if b in cache {
        ghost var s1 := State();
        PutAt(s1, b);
        MarkBatWritten(b, err, s1, At(s1, b));
      }
    }

    method MarkZeroWritten(b: nat, err: int, ghost s0: Vhd, ghost k: Blk)
      requires Holds(b, s0, k)
      modifies this
      ensures Holds(b, s0, ZeroWritten(c, k, err))
    {
      var tx := cache[b].tx;
      tx := tx.(finished := tx.finished + 1, meta := false);
      if err != 0 { tx := tx.(error := err, updateBat := false); }
      SetBm(b, cache[b].(tx := tx), s0, k);
      hide FinishDataTxIfCompleted;
      FinishIfCompleted(b, s0, ZeroMark(k, err));
    }

    method FinishZeroBmWrite(err: int)
      modifies this
      ensures State() == E.FinishZeroBmWrite(c, old(State()), err)
    {
      hide ZeroWritten;
      hide E.ScheduleBatWrite;
      var b := meta.zeroBlk;
      Check(lock.locked && lock.blk == b && b in cache && !cache[b].reading && cache[b].locked);
      meta := meta.(zero := Idle);
      if err != 0 {
        lock := InitLock;
      } else {
        ScheduleBatWrite();
      }
      if b in cache {
        ghost var s1 := State();
        PutAt(s1, b);
        MarkZeroWritten(b, err, s1, At(s1, b));
      }
    }

    /** finish_data_read, finish_data_write outside transactions and
        finish_redundant_bm_write. */
    method FinishRaw(i: nat, err: int)
      requires i < |raw|
      modifies this
      ensures State() == E.FinishRaw(old(State()), i, err)
    {
      var r := raw[i];
      raw := raw[..i] + raw[i + 1..];
      if r.op == OpPad {
        free := free + 1;
      } else {
        SignalCompletion([r.(err := err)], 0);
      }
    }

    /** finish_bitmap_read; `m` is the bitmap that was read. */
    method FinishBitmapRead(b: nat, err: int, m: set<nat>)
      requires b in cache
      requires err == 0 ==> m == BitsAt(media.disk, BatEntry(State(), b)) * Full(c)
      modifies this
      ensures State() == E.FinishBitmapRead(c, old(State()), b, err)
    {
      var bm := cache[b];
      var rs := bm.waiting;
      Check(bm.reading);
      if err != 0 {
        DropBitmap(b, bm.(reading := false, waiting := [], locked := false));
        SignalCompletion(rs, err);
      } else {
        cache := cache[b := bm.(reading := false, waiting := [], bits := m, shadow := m)];
        ghost var loaded := State();
        assert loaded == BitmapLoaded(c, old(State()), b);
        ServeAgain(rs);
        if b in cache {
          ghost var s1 := State();
          PutAt(s1, b);
          UnlockIfIdle(b, s1, At(s1, b));
        }
      }
    }

    /** free_vhd_bitmap for the bitmap of block b. */
    method DropBitmap(b: nat, idle: Bm)
      modifies this
      ensures State() == E.Check(old(State()), !InUse(idle)).(cache := old(cache) - {b}, bmFree := old(bmFree) + 1)
    {
      Check(!InUse(idle));
      cache, bmFree := cache - {b}, bmFree + 1;
    }

    /** The requests that waited for a bitmap are queued again. */
    method ServeAgain(rs: seq<Req>)
      modifies this
      ensures State() == Replay(c, old(State()), rs)
    {
      hide Serve;
      for i := 0 to |rs|
        invariant Replay(c, State(), rs[i..]) == Replay(c, old(State()), rs)
      {
        var r := rs[i];
        ghost var s1 := State();
        free := free + 1;
        assert State() == s1.(free := s1.free + 1);
        if r.op == OpWrite {
          QueueWrite(r.wid, r.sec, r.secs);
        } else {
          QueueRead(r.wid, r.sec, r.secs);
        }
        assert rs[i..][1..] == rs[i + 1..];
      }
    }

    /* ---- block allocation ---- */

    method ScheduleBatWrite()
      modifies this`panicked, this`meta, this`lock
      ensures State() == E.ScheduleBatWrite(old(State()))
    {
      Check(lock.locked && meta.bat == Idle);
      var base := lock.blk - lock.blk % 128;
      meta := meta.(bat := Flying, batBase := base,
        batBuf := (map b | b in bat && base <= b < base + 128 :: bat[b])[lock.blk := lock.off]);
      lock := lock.(started := true, err := 0, tx := false);
    }

    /** remove_lru_bitmap: the unlocked bitmap that was used longest ago. */
    method FindVictim() returns (found: bool, v: nat)
      ensures found ==> IsVictim(State(), v)
      ensures !found ==> forall u :: !Evictable(State(), u)
    {
      var todo := cache.Keys;
      found, v := false, 0;
      while todo != {}
        invariant todo <= cache.Keys
        invariant found ==> Evictable(State(), v)
        invariant found ==> forall u :: u !in todo && Evictable(State(), u) ==> Older(State(), v, u)
        invariant !found ==> forall u :: u !in todo ==> !Evictable(State(), u)
        decreases |todo|
      {
        var u :| u in todo;
        todo := todo - {u};
        var bm := cache[u];
        if !bm.locked && bm.seqno < lru &&
           (!found || bm.seqno < cache[v].seqno || (bm.seqno == cache[v].seqno && u <= v)) {
          found, v := true, u;
        }
      }
    }

    method Install(b: nat, bm: Bm)
      modifies this`panicked, this`cache, this`lru
      ensures State() == E.Install(c, old(State()), b, bm)
    {
      Check(b !in cache && |cache| < c.cacheSize);
      cache, lru := cache[b := bm.(seqno := lru + 1)], lru + 1;
    }

    /** alloc_vhd_bitmap and install_bitmap. */
    method InstallBitmap(b: nat, bm: Bm) returns (err: int)
      modifies this`panicked, this`cache, this`lru, this`bmFree
      ensures (State(), err) == E.InstallBitmap(c, old(State()), b, bm)
    {
      hide E.Install;
      if bmFree > 0 {
        bmFree := bmFree - 1;
        Install(b, bm);
        return 0;
      }
      var found, v := FindVictim();
      ghost var s0 := State();
      if !found { return EBUSY; }
      forall u | IsVictim(s0, u) ensures u == v { OneVictim(s0, u, v); }
      var victim := cache[v];
      cache := cache - {v};
      Check(!InUse(victim));
      Install(b, bm);
      return 0;
    }

    method EmptyBitmap(b: nat) returns (err: int)
      modifies this`panicked, this`cache, this`lru, this`bmFree
      ensures (State(), err) == E.EmptyBitmap(c, old(State()), b)
    {
      hide E.InstallBitmap;
      if b in cache { return 0; }
      err := InstallBitmap(b, InitBm);
    }

    /** add_to_transaction for a request of the BAT. */
    method JoinMeta(b: nat, ghost s0: Vhd, ghost k: Blk)
      requires Holds(b, s0, k)
      modifies this`panicked, this`cache
      ensures Holds(b, s0, AddMetaToTx(LockBm(k)))
    {
      var bm := cache[b];
      CheckBm(b, !bm.tx.closed, s0, k);
      SetBm(b, bm.(locked := true, tx := bm.tx.(started := bm.tx.started + 1, live := true, meta := true)),
            s0, Assert(k, !bm.tx.closed));
    }

    method MarkUpdateBat(b: nat, ghost s0: Vhd, ghost k: Blk)
      requires Holds(b, s0, k)
      modifies this`cache
      ensures Holds(b, s0, k.(bm := k.bm.(tx := k.bm.tx.(updateBat := true))))
    {
      SetBm(b, cache[b].(tx := cache[b].tx.(updateBat := true)), s0, k);
    }

    method ReserveAndZero(b: nat)
      requires b in cache
      modifies this`panicked, this`cache, this`lock, this`meta
      ensures State() == E.ReserveAndZero(c, old(State()), b)
    {
      hide Put;
      hide At;
      hide AddMetaToTx;
      hide Gap;
      Check(!lock.started && meta.zero == Idle);
      var gap := Gap(c, nextDb);
      lock := lock.(locked := true, blk := b, off := nextDb + gap);
      meta := meta.(zero := Flying, zeroBlk := b, zeroAt := nextDb, zeroLen := gap + c.bmSecs);
      ghost var s1 := State();
      PutAt(s1, b);
      JoinMeta(b, s1, At(s1, b));
      MarkUpdateBat(b, s1, AddMetaToTx(LockBm(At(s1, b))));
    }

    method UpdateBat(b: nat) returns (err: int)
      modifies this
      ensures (State(), err) == E.UpdateBat(c, old(State()), b)
    {
      hide E.EmptyBitmap;
      hide E.ReserveAndZero;
      Check(b !in bat);
      if lock.locked {
        Check(lock.blk == b);
        return 0;
      }
      err := EmptyBitmap(b);
      if err == 0 { ReserveAndZero(b); }
    }

    method LockAndWriteBat(b: nat)
      requires b in cache
      modifies this`panicked, this`cache, this`lock, this`meta
      ensures State() == E.LockAndWriteBat(old(State()), b)
    {
      lock := lock.(locked := true);
      ScheduleBatWrite();
      lock := lock.(tx := true);
      ghost var s2 := State();
      PutAt(s2, b);
      JoinMeta(b, s2, At(s2, b));
    }

    /** The synchronous write of allocate_block. */
    method ZeroNewExtent(b: nat) returns (err: int)
      modifies this`media, this`nextDb, this`lock
      ensures err == c.sync(|log|)
      ensures var s0 := old(State());
              var off := s0.nextDb + Gap(c, s0.nextDb);
              State() == (if err == 0 then ZeroExtent(c, s0) else s0)
                           .(nextDb := off, lock := s0.lock.(blk := b, off := off))
    {
      err := c.sync(|log|);
      if err == 0 { media := ZeroExtent(c, State()).media; }
      nextDb := nextDb + Gap(c, nextDb);
      lock := lock.(blk := b, off := nextDb);
    }

    method AllocateBlock(b: nat) returns (err: int)
      modifies this
      ensures (State(), err) == E.AllocateBlock(c, old(State()), b)
    {
      hide E.EmptyBitmap;
      hide E.LockAndWriteBat;
      hide ZeroExtent;
      Check(b !in bat);
      if lock.locked {
        Check(lock.blk == b);
        return if lock.err != 0 then EBUSY else 0;
      }
      err := ZeroNewExtent(b);
      if err != 0 { return; }
      err := EmptyBitmap(b);
      if err == 0 { LockAndWriteBat(b); }
    }

    /* ---- scheduling ---- */

    method ScheduleDataRead(r: Req) returns (err: int)
      modifies this`panicked, this`free, this`raw
      ensures (State(), err) == E.ScheduleDataRead(c, old(State()), r)
    {
      var b := r.sec / c.spb;
      Check(b in bat && (b in batmap || (b in cache && !cache[b].reading)));
      if free == 0 { return EBUSY; }
      var addr := (if b in bat then bat[b] else DD_BLK_UNUSED) + c.bmSecs + r.sec % c.spb;
      free, raw := free - 1, raw + [r.(op := OpRead, addr := addr)];
      return 0;
    }

    method ScheduleRedundantBmWrite(b: nat)
      modifies this`panicked, this`free, this`raw
      ensures State() == E.ScheduleRedundantBmWrite(c, old(State()), b)
    {
      Check(b in batmap && b in bat);
      if free == 0 { return; }
      var addr := (if b in bat then bat[b] else DD_BLK_UNUSED) + c.bmSecs - c.spp;
      free, raw := free - 1, raw + [Req(OpPad, 0, b * c.spb, c.spp, addr, false, false, 0, [])];
    }

    /** A write that joins the transaction of its block, or waits for the next. */
    method JoinTransaction(b: nat, r: Req)
      requires b in cache
      modifies this`panicked, this`cache
      ensures State() == Put(old(State()), JoinTx(At(old(State()), b), r))
    {
      ghost var s0 := State();
      ghost var k := At(s0, b);
      PutAt(s0, b);
      var bm := cache[b];
      CheckBm(b, !bm.reading, s0, k);
      ghost var k1 := Assert(k, !bm.reading);
      bm := bm.(locked := true);
      if bm.tx.closed {
        SetBm(b, bm.(queue := bm.queue + [r]), s0, k1);
      } else {
        SetBm(b, bm.(tx := bm.tx.(started := bm.tx.started + 1, live := true, reqs := bm.tx.reqs + [r])), s0, k1);
      }
    }

    /** The end of schedule_data_write, for a request with its address. */
    method SubmitWrite(q: Req, updBitmap: bool)
      modifies this
      ensures var s2 := old(State());
              var b := q.sec / c.spb;
              State() == if updBitmap then
                           if b in s2.cache then Put(s2, JoinTx(At(s2, b), q)) else E.Check(s2, false)
                         else PlainWrite(c, s2, q)
    {
      var b := q.sec / c.spb;
      if updBitmap {
        if b in cache { JoinTransaction(b, q); } else { Check(false); }
      } else {
        if q.sec % c.spb == 0 && (if b in bat then bat[b] else DD_BLK_UNUSED) != c.firstDb && b in batmap {
          ScheduleRedundantBmWrite(b);
        }
        raw := raw + [q];
      }
    }

    method ScheduleDataWrite(r: Req, updBat: bool, updBitmap: bool) returns (err: int)
      modifies this
      ensures (State(), err) == E.ScheduleDataWrite(c, old(State()), r, updBat, updBitmap)
    {
      hide E.AllocateBlock;
      hide E.UpdateBat;
      hide JoinTx;
      hide PlainWrite;
      hide At;
      hide Put;
      var b := r.sec / c.spb;
      var base := if b in bat then bat[b] else DD_BLK_UNUSED;
      if updBat {
        if c.prealloc { err := AllocateBlock(b); } else { err := UpdateBat(b); }
        if err != 0 { return; }
        base := lock.off;
      }
      if free == 0 { return EBUSY; }
      free := free - 1;
      SubmitWrite(r.(op := OpWrite, addr := base + c.bmSecs + r.sec % c.spb), updBitmap);
      return 0;
    }

    method ScheduleBitmapRead(b: nat) returns (err: int)
      modifies this
      ensures (State(), err) == E.ScheduleBitmapRead(c, old(State()), b)
    {
      hide E.InstallBitmap;
      Check(b in bat && b !in cache);
      err := InstallBitmap(b, InitBm.(reading := true, locked := true));
    }

    method QueueRequest(r: Req) returns (err: int)
      modifies this
      ensures (State(), err) == E.QueueRequest(c, old(State()), r)
    {
      var b := r.sec / c.spb;
      Check(b in cache && cache[b].reading);
      if free == 0 { return EBUSY; }
      if b in cache {
        var bm := cache[b];
        cache := cache[b := bm.(waiting := bm.waiting + [r], locked := true)];
        free := free - 1;
      }
      return 0;
    }

    /* ---- guest requests ---- */

    method ReadBitmapCache(sec: nat, write: bool) returns (hit: Hit)
      modifies this`cache, this`lru
      ensures (State(), hit) == E.ReadBitmapCache(c, old(State()), sec, write)
      ensures hit == BitSet || hit == BitClear ==>
                sec / c.spb in batmap || (sec / c.spb in cache && !cache[sec / c.spb].reading)
    {
      var b := sec / c.spb;
      if b > c.maxBat { return OutOfRange; }
      if b !in bat { return if write && lock.blk != b && lock.locked then BatLocked else BatClear; }
      if b in batmap { return BitSet; }
      if b !in cache { return NotCached; }
      var bm := cache[b];
      lru := lru + 1;
      cache := cache[b := bm.(seqno := lru)];
      return if bm.reading then ReadPending else if sec % c.spb in bm.bits then BitSet else BitClear;
    }

    /** read_bitmap_cache_span. */
    method Span(sec: nat, n: nat, value: bool) returns (k: nat)
      requires var b := sec / c.spb; b in batmap || (b in cache && !cache[b].reading)
      ensures k == E.Span(c, State(), sec, n, value)
    {
      var b, off := sec / c.spb, sec % c.spb;
      if b in batmap { return Min(n, c.spb - off); }
      k := 0;
      var m := cache[b].bits;
      while k < n && off + k < c.spb && (off + k in m) == value
        invariant k <= n && off + k <= c.spb
        invariant k + RunLength(c.spb, m, off + k, n - k, value) == RunLength(c.spb, m, off, n, value)
      {
        k := k + 1;
      }
    }

    method Emit(e: Ev)
      modifies this`log
      ensures State() == E.Emit(old(State()), e)
    {
      log := log + [e];
    }

    /** A request joins those that wait for the bitmap of its block. */
    method QueuePiece(write: bool, wid: nat, sec: nat, n: nat) returns (k: nat, err: int)
      modifies this
      ensures k == ToBlockEnd(c, sec, n)
      ensures (State(), err) == E.QueueRequest(c, old(State()), Piece(write, wid, sec, k))
    {
      k := ToBlockEnd(c, sec, n);
      err := QueueRequest(Piece(write, wid, sec, k));
    }

    method ReadTurn(wid: nat, sec: nat, n: nat) returns (k: nat, err: int)
      requires 0 < n
      modifies this
      ensures (State(), k, err) == E.ReadTurn(c, old(State()), wid, sec, n)
    {
      hide E.ReadBitmapCache;
      hide E.QueueRequest;
      hide E.ScheduleDataRead;
      hide E.ScheduleBitmapRead;
      hide E.Span;
      var hit := ReadBitmapCache(sec, false);
      match hit
      case OutOfRange => k, err := 0, EINVAL;
      case BatLocked =>
        Check(false);
        k, err := n, 0;
      case BatClear =>
        k, err := ToBlockEnd(c, sec, n), 0;
        Emit(Forward(wid, sec, k));
      case BitClear =>
        k := Span(sec, n, false);
        err := 0;
        Emit(Forward(wid, sec, k));
      case BitSet =>
        k := Span(sec, n, true);
        err := ScheduleDataRead(Piece(false, wid, sec, k));
      case NotCached =>
        k := 0;
        err := ScheduleBitmapRead(sec / c.spb);
        if err == 0 { k, err := QueuePiece(false, wid, sec, n); }
      case ReadPending => k, err := QueuePiece(false, wid, sec, n);
    }

    method WriteTurn(wid: nat, sec: nat, n: nat) returns (k: nat, err: int)
      requires 0 < n
      modifies this
      ensures (State(), k, err) == E.WriteTurn(c, old(State()), wid, sec, n)
    {
      hide E.ReadBitmapCache;
      hide E.QueueRequest;
      hide E.ScheduleDataWrite;
      hide E.ScheduleBitmapRead;
      hide E.Span;
      var hit := ReadBitmapCache(sec, true);
      match hit
      case OutOfRange => k, err := 0, EINVAL;
      case BatLocked => k, err := 0, EBUSY;
      case BatClear =>
        k := ToBlockEnd(c, sec, n);
        err := ScheduleDataWrite(Piece(true, wid, sec, k), true, true);
      case BitClear =>
        k := Span(sec, n, false);
        err := ScheduleDataWrite(Piece(true, wid, sec, k), false, true);
      case BitSet =>
        k := Span(sec, n, true);
        err := ScheduleDataWrite(Piece(true, wid, sec, k), false, false);
      case NotCached =>
        k := 0;
        err := ScheduleBitmapRead(sec / c.spb);
        if err == 0 { k, err := QueuePiece(true, wid, sec, n); }
      case ReadPending => k, err := QueuePiece(true, wid, sec, n);
    }

    method QueueRead(wid: nat, sec: nat, n: nat)
      modifies this
      ensures State() == Serve(c, old(State()), false, wid, sec, n)
    {
      hide E.ReadTurn;
      var at, left := sec, n;
      while left > 0
        invariant Serve(c, State(), false, wid, at, left) == Serve(c, old(State()), false, wid, sec, n)
      {
        var k, err := ReadTurn(wid, at, left);
        if err != 0 {
          Emit(Done(false, wid, at, left, err));
          return;
        }
        at, left := at + k, left - k;
      }
    }

    method QueueWrite(wid: nat, sec: nat, n: nat)
      modifies this
      ensures State() == Serve(c, old(State()), true, wid, sec, n)
    {
      hide E.WriteTurn;
      var at, left := sec, n;
      while left > 0
        invariant Serve(c, State(), true, wid, at, left) == Serve(c, old(State()), true, wid, sec, n)
      {
        var k, err := WriteTurn(wid, at, left);
        if err != 0 {
          Emit(Done(true, wid, at, left, err));
          return;
        }
        at, left := at + k, left - k;
      }
    }

    /* ---- the event loop ---- */

    ghost predicate Sound(pool: nat)
      reads this
    {
      Structure(c, State(), pool) && Accounts(c, State())
    }

    /** What the driver does for a guest request, or when one of its I/Os completes. */
    method Handle(step: Step, m: set<nat>)
      requires Enabled(State(), step) && Reaction(step)
      requires step.DoneBitmapRead? && step.err == 0 ==> m == BitsAt(media.disk, BatEntry(State(), step.b)) * Full(c)
      modifies this
      ensures State() == Next(c, old(State()), step)
    {
      match step
      case Request(write, sec, secs) =>
        var wid := |log|;
        Emit(Issue(write, sec, secs));
        if write { QueueWrite(wid, sec, secs); } else { QueueRead(wid, sec, secs); }
      case DoneTx(b, i, err) => FinishTxWrite(b, i, err);
      case DoneQueue(b, i, err) => FinishQueuedWrite(b, i, err);
      case DoneOther(i, err) => FinishRaw(i, err);
      case DoneBitmapRead(b, err) => FinishBitmapRead(b, err, m);
      case DoneBitmapWrite(b, err) => FinishBitmapWrite(b, err);
      case DoneZero(err) => FinishZeroBmWrite(err);
      case DoneBat(err) => FinishBatWrite(err);
    }

    /** One turn of the event loop: no assertion fires, every request stays accounted
        for, extents stay apart and bitmaps tracked, and, unless a zero-bitmap write left
        writes behind, the disk stays consistent with memory. */
    method Turn(step: Step, m: set<nat>, ghost pool: nat)
      requires Enabled(State(), step) && Reaction(step) && Sound(pool)
      requires step.DoneBitmapRead? && step.err == 0 ==> m == BitsAt(media.disk, BatEntry(State(), step.b)) * Full(c)
      modifies this
      ensures State() == Next(c, old(State()), step)
      ensures Sound(pool) && !panicked
      ensures old(Tracked(c, State())) ==> Tracked(c, State())
      ensures old(OnDisk(c, State())) && Orderly(old(State()), step) ==> OnDisk(c, State())
    {
      hide Accounts;
      hide OnDisk;
      hide Tracked;
      hide Next;
      ghost var s := State();
      Handle(step, m);
      StepOk(c, s, step, pool);
      StepAccounts(c, s, step, pool);
      if Tracked(c, s) { StepTracked(c, s, step, pool); }
      if OnDisk(c, s) && Orderly(s, step) { StepOnDisk(c, s, step, pool); }
    }
  }
}
