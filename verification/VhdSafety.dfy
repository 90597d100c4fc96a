/** Every step of the driver, and so every run, keeps `Structure`. */
module VhdSafety {
  import opened Arithmetic
  import opened VhdTypes
  import opened VhdEngine
  import opened VhdInvariants
  import opened VhdStructure

  /* ---- a write reaches the disk ---- */

  lemma LandInTx(c: Config, k: Blk, i: nat, zero: Io, bat: Io)
    requires KOk(c, k, zero, bat) && i < |k.bm.tx.reqs| && CanLand(k.bm.tx.reqs[i])
    ensures var k' := k.(bm := k.bm.(tx := k.bm.tx.(reqs := k.bm.tx.reqs[i := k.bm.tx.reqs[i].(landed := true)])));
            KOk(c, k', zero, bat) && KFrame(k, k', zero, bat)
  {
    var rs := k.bm.tx.reqs;
    var r := rs[i].(landed := true);
    assert rs[i] in rs && WriteOk(c, k.b, rs[i]);
    FinishedUpdate(rs, i, r);
    StagedUpdate(c.spb, rs, i, r);
    WritesUpdate(c, k.b, rs, i, r);
  }

  lemma LandInQueue(c: Config, k: Blk, i: nat, zero: Io, bat: Io)
    requires KOk(c, k, zero, bat) && i < |k.bm.queue| && CanLand(k.bm.queue[i])
    ensures var k' := k.(bm := k.bm.(queue := k.bm.queue[i := k.bm.queue[i].(landed := true)]));
            KOk(c, k', zero, bat) && KFrame(k, k', zero, bat)
  {
    var rs := k.bm.queue;
    assert rs[i] in rs && WriteOk(c, k.b, rs[i]);
    WritesUpdate(c, k.b, rs, i, rs[i].(landed := true));
  }

  /** Replacing the bitmap of one block by another that fits. */
  lemma PutBmOk(c: Config, s: Vhd, b: nat, bm: Bm, pool: nat)
    requires Structure(c, s, pool) && b in s.cache
    requires BmOk(c, b, b in s.bat, HoldOf(s, b), bm) && Load(bm) == Load(s.cache[b])
    ensures Structure(c, PutBm(s, b, bm), pool)
  {
    var k := At(s, b).(bm := bm);
    assert KOk(c, k, s.meta.zero, s.meta.bat);
    KFrameFits(c, s, k, pool);
    PutOk(c, s, k, pool);
    assert Put(s, k).batmap == s.batmap;
    assert Put(s, k) == PutBm(s, b, bm);
  }

  lemma LandTxOk(c: Config, s: Vhd, b: nat, i: nat, pool: nat)
    requires Structure(c, s, pool) && Enabled(s, LandTx(b, i))
    ensures Structure(c, LandTxWrite(s, b, i), pool)
  {
    AtOk(c, s, b, pool);
    LandInTx(c, At(s, b), i, s.meta.zero, s.meta.bat);
    var bm := s.cache[b];
    var bm' := bm.(tx := bm.tx.(reqs := bm.tx.reqs[i := bm.tx.reqs[i].(landed := true)]));
    PutBmOk(c, s, b, bm', pool);
    MediaIrrelevant(c, PutBm(s, b, bm'), LandTxWrite(s, b, i), pool);
  }

  lemma LandQueueOk(c: Config, s: Vhd, b: nat, i: nat, pool: nat)
    requires Structure(c, s, pool) && Enabled(s, LandQueue(b, i))
    ensures Structure(c, LandQueuedWrite(s, b, i), pool)
  {
    AtOk(c, s, b, pool);
    LandInQueue(c, At(s, b), i, s.meta.zero, s.meta.bat);
    var bm := s.cache[b];
    var bm' := bm.(queue := bm.queue[i := bm.queue[i].(landed := true)]);
    PutBmOk(c, s, b, bm', pool);
    MediaIrrelevant(c, PutBm(s, b, bm'), LandQueuedWrite(s, b, i), pool);
  }

  /** Changes to the list of other requests and to the pool, and to the state of the
      embedded requests, leave the blocks alone. */
  lemma RawOk(c: Config, s: Vhd, t: Vhd, pool: nat, pool': nat)
    requires Structure(c, s, pool)
    requires t == s.(raw := t.raw, free := t.free, media := t.media, log := t.log)
    requires t.free + |t.raw| + pool == s.free + |s.raw| + pool'
    requires forall r :: r in t.raw ==> RawShape(c, r)
    ensures Structure(c, t, pool')
  {
    forall x | x in t.cache ensures BlockOk(c, t, x) {
      assert BlockOk(c, s, x);
    }
  }

  lemma LandOtherOk(c: Config, s: Vhd, i: nat, pool: nat)
    requires Structure(c, s, pool) && Enabled(s, LandOther(i))
    ensures Structure(c, LandRaw(c, s, i), pool)
  {
    var t := LandRaw(c, s, i);
    assert s.raw[i] in s.raw;
    forall r | r in t.raw ensures RawShape(c, r) {
      if r != t.raw[i] { assert r in s.raw; }
    }
    RawOk(c, s, t, pool, pool);
  }

  lemma DoneOtherOk(c: Config, s: Vhd, i: nat, err: int, pool: nat)
    requires Structure(c, s, pool) && Enabled(s, DoneOther(i, err))
    ensures Structure(c, FinishRaw(s, i, err), pool)
  {
    var t := FinishRaw(s, i, err);
    forall r | r in t.raw ensures RawShape(c, r) {
      assert r in s.raw;
    }
    RawOk(c, s, t, pool, pool);
  }

  lemma LandBitmapOk(c: Config, s: Vhd, b: nat, pool: nat)
    requires Structure(c, s, pool) && Enabled(s, LandBitmap(b))
    ensures Structure(c, LandBitmapWrite(c, s, b), pool)
  {
    assert BlockOk(c, s, b);
    PutBmOk(c, s, b, s.cache[b].(write := Landed), pool);
    MediaIrrelevant(c, PutBm(s, b, s.cache[b].(write := Landed)), LandBitmapWrite(c, s, b), pool);
  }

  lemma LandMetaOk(c: Config, s: Vhd, t: Vhd, pool: nat)
    requires Structure(c, s, pool) && t == s.(meta := t.meta, media := t.media) && t.meta.zeroBlk == s.meta.zeroBlk
    requires t.meta.zero == Idle <==> s.meta.zero == Idle
    requires t.meta.bat == Idle <==> s.meta.bat == Idle
    ensures Structure(c, t, pool)
  {
    forall x | x in t.cache ensures BlockOk(c, t, x) {
      assert BlockOk(c, s, x);
    }
  }

  /* ---- installing a bitmap ---- */

  lemma IdleHasNoLoad(bm: Bm)
    requires !InUse(bm)
    ensures Load(bm) == 0
  {
  }

  lemma {:induction false} CacheLoadRemove(m: map<nat, Bm>, b: nat)
    requires b in m
    ensures CacheLoad(m) == Load(m[b]) + CacheLoad(m - {b}) && |m - {b}| == |m| - 1
  {
    CacheLoadUpdate(m, b);
    assert (m - {b}).Keys == m.Keys - {b};
  }

  lemma VictimIdle(c: Config, s: Vhd, v: nat, pool: nat)
    requires Structure(c, s, pool) && IsVictim(s, v)
    ensures !InUse(s.cache[v]) && Load(s.cache[v]) == 0 && HoldOf(s, v).NoHold?
  {
    assert BlockOk(c, s, v);
    IdleHasNoLoad(s.cache[v]);
  }

  /** Dropping an idle bitmap makes room for one. */
  lemma EvictOk(c: Config, s: Vhd, v: nat, pool: nat)
    requires Structure(c, s, pool) && v in s.cache
    requires Load(s.cache[v]) == 0 && HoldOf(s, v).NoHold?
    ensures Structure(c, s.(cache := s.cache - {v}, bmFree := s.bmFree + 1), pool)
  {
    CacheLoadRemove(s.cache, v);
    var t := s.(cache := s.cache - {v}, bmFree := s.bmFree + 1);
    forall x | x in t.cache ensures BlockOk(c, t, x) {
      assert BlockOk(c, s, x);
    }
  }

  lemma InstallOk(c: Config, s: Vhd, b: nat, bm: Bm, pool: nat)
    requires Structure(c, s, pool) && b !in s.cache && s.bmFree > 0
    requires BmOk(c, b, b in s.bat, NoHold, bm) && Load(bm) == 0
    ensures Structure(c, Install(c, s.(bmFree := s.bmFree - 1), b, bm), pool)
  {
    hide CacheLoad;
    hide Outstanding;
    hide Staged;
    var t := Install(c, s.(bmFree := s.bmFree - 1), b, bm);
    CacheLoadAdd(s.cache, b, t.cache[b]);
    forall x | x in t.cache ensures BlockOk(c, t, x) {
      if x != b { assert BlockOk(c, s, x); }
    }
  }

  /** The bitmap that made room, if one had to. */
  lemma Evicted(c: Config, s: Vhd, b: nat, bm: Bm, pool: nat) returns (v: nat)
    requires Structure(c, s, pool) && s.bmFree == 0 && InstallBitmap(c, s, b, bm).1 == 0
    ensures v in s.cache && !InUse(s.cache[v]) && Load(s.cache[v]) == 0 && HoldOf(s, v).NoHold?
    ensures InstallBitmap(c, s, b, bm).0 == Install(c, s.(cache := s.cache - {v}), b, bm)
  {
    var t := InstallBitmap(c, s, b, bm).0;
    v :| IsVictim(s, v) && t == Install(c, Check(s.(cache := s.cache - {v}), !InUse(s.cache[v])), b, bm);
    VictimIdle(c, s, v, pool);
    assert Check(s.(cache := s.cache - {v}), true) == s.(cache := s.cache - {v});
  }

  lemma InstallBitmapOk(c: Config, s: Vhd, b: nat, bm: Bm, pool: nat)
    requires Structure(c, s, pool) && b !in s.cache
    requires BmOk(c, b, b in s.bat, NoHold, bm) && Load(bm) == 0
    ensures var (t, err) := InstallBitmap(c, s, b, bm);
            Structure(c, t, pool) && t == s.(cache := t.cache, bmFree := t.bmFree, lru := t.lru) &&
            (err != 0 ==> t == s) && (err == 0 ==> b in t.cache && t.cache[b] == bm.(seqno := t.lru))
  {
    var (t, err) := InstallBitmap(c, s, b, bm);
    if s.bmFree > 0 {
      InstallOk(c, s, b, bm, pool);
    } else if err == 0 {
      var v := Evicted(c, s, b, bm, pool);
      EvictOk(c, s, v, pool);
      var s1 := s.(cache := s.cache - {v}, bmFree := s.bmFree + 1);
      InstallOk(c, s1, b, bm, pool);
      assert s1.(bmFree := s1.bmFree - 1) == s.(cache := s.cache - {v});
    }
  }

  lemma EmptyBitmapOk(c: Config, s: Vhd, b: nat, pool: nat)
    requires Structure(c, s, pool) && b !in s.bat && !s.lock.locked
    ensures var (t, err) := EmptyBitmap(c, s, b);
            Structure(c, t, pool) && t == s.(cache := t.cache, bmFree := t.bmFree, lru := t.lru)
  {
    if b !in s.cache {
      assert BmOk(c, b, false, NoHold, InitBm) by {
        assert Staged(c.spb, []) == {};
      }
      InstallBitmapOk(c, s, b, InitBm, pool);
    }
  }

  /* ---- allocating a block ---- */

  /** The state with the extent reserved for block b and its zero-bitmap write under way. */
  ghost function Reserved(c: Config, s: Vhd, b: nat): Vhd {
    var gap := Gap(c, s.nextDb);
    s.(lock := s.lock.(locked := true, blk := b, off := s.nextDb + gap),
       meta := s.meta.(zero := Flying, zeroBlk := b, zeroAt := s.nextDb, zeroLen := gap + c.bmSecs))
  }

  ghost function ReservedBlock(c: Config, s: Vhd, b: nat): Blk
    requires b in s.cache
  {
    var k := AddMetaToTx(LockBm(At(Reserved(c, s, b), b)));
    k.(bm := k.bm.(tx := k.bm.tx.(updateBat := true)))
  }

  lemma ReservedOk(c: Config, s: Vhd, b: nat, pool: nat)
    requires Structure(c, s, pool) && b in s.cache && b !in s.bat && !s.lock.locked && !c.prealloc
    ensures KOk(c, ReservedBlock(c, s, b), Flying, Idle) && !ReservedBlock(c, s, b).bad
    ensures !s.lock.started && s.meta.zero == Idle && s.meta.bat == Idle
  {
    AtOk(c, s, b, pool);
  }

  lemma ReservedFits(c: Config, s: Vhd, b: nat, pool: nat)
    requires Structure(c, s, pool) && b in s.cache && b !in s.bat && !s.lock.locked && !c.prealloc
    ensures Fits(c, Reserved(c, s, b), ReservedBlock(c, s, b), pool)
  {
    hide Others;
    hide Gap;
    hide KOk;
    hide BlockOk;
    ReservedOk(c, s, b, pool);
    OthersOk(c, s, b, pool);
    Frame(c, s, Reserved(c, s, b), b);
  }

  lemma OthersOk(c: Config, s: Vhd, b: nat, pool: nat)
    requires Structure(c, s, pool)
    ensures Others(c, s, b)
  {
  }

  lemma ReserveOk(c: Config, s: Vhd, b: nat, pool: nat)
    requires Structure(c, s, pool) && b in s.cache && b !in s.bat && !s.lock.locked && !c.prealloc
    ensures Structure(c, ReserveAndZero(c, s, b), pool)
  {
    hide Structure;
    hide Fits;
    hide KOk;
    ReservedOk(c, s, b, pool);
    ReservedFits(c, s, b, pool);
    PutOk(c, Reserved(c, s, b), ReservedBlock(c, s, b), pool);
  }

  lemma LockAndWriteBatOk(c: Config, s: Vhd, b: nat, pool: nat)
    requires Structure(c, s, pool) && b in s.cache && b !in s.bat && !s.lock.locked && c.prealloc
    requires s.lock.blk == b
    ensures Structure(c, LockAndWriteBat(s, b), pool)
  {
    AtOk(c, s, b, pool);
    var s1 := ScheduleBatWrite(s.(lock := s.lock.(locked := true)));
    var s2 := s1.(lock := s1.lock.(tx := true));
    var k' := AddMetaToTx(LockBm(At(s2, b)));
    assert KOk(c, k', Idle, Flying);
    Frame(c, s, s2, b);
    assert Fits(c, s2, k', pool);
    PutOk(c, s2, k', pool);
  }

  lemma UpdateBatOk(c: Config, s: Vhd, b: nat, pool: nat)
    requires Structure(c, s, pool) && b !in s.bat && !c.prealloc
    requires s.lock.locked ==> s.lock.blk == b
    ensures var (t, err) := UpdateBat(c, s, b);
            Structure(c, t, pool) && t.bat == s.bat && (err == 0 ==> t.lock.locked && t.lock.blk == b && b in t.cache)
  {
    if !s.lock.locked {
      EmptyBitmapOk(c, s, b, pool);
      var (s1, err) := EmptyBitmap(c, s, b);
      if err == 0 { ReserveOk(c, s1, b, pool); }
    }
  }

  /** The state of allocate_block after the synchronous write. */
  ghost function ExtentTaken(c: Config, s: Vhd, b: nat): Vhd {
    var off := s.nextDb + Gap(c, s.nextDb);
    (if c.sync(|s.log|) == 0 then ZeroExtent(c, s) else s).(
      nextDb := off, lock := s.lock.(blk := b, off := off))
  }

  lemma ExtentTakenOk(c: Config, s: Vhd, b: nat, pool: nat)
    requires Structure(c, s, pool) && !s.lock.locked
    ensures Structure(c, ExtentTaken(c, s, b), pool)
  {
    forall x | x in s.cache ensures BlockOk(c, ExtentTaken(c, s, b), x) { assert BlockOk(c, s, x); }
  }

  lemma AllocateBlockOk(c: Config, s: Vhd, b: nat, pool: nat)
    requires Structure(c, s, pool) && b !in s.bat && c.prealloc
    requires s.lock.locked ==> s.lock.blk == b
    ensures var (t, err) := AllocateBlock(c, s, b);
            Structure(c, t, pool) && t.bat == s.bat && (err == 0 ==> t.lock.locked && t.lock.blk == b && b in t.cache)
  {
    if !s.lock.locked {
      var s1 := ExtentTaken(c, s, b);
      ExtentTakenOk(c, s, b, pool);
      if c.sync(|s.log|) == 0 {
        EmptyBitmapOk(c, s1, b, pool);
        var (s2, err') := EmptyBitmap(c, s1, b);
        if err' == 0 { LockAndWriteBatOk(c, s2, b, pool); }
        assert AllocateBlock(c, s, b) == if err' != 0 then (s2, err') else (LockAndWriteBat(s2, b), 0);
      }
    }
  }

  /* ---- scheduling ---- */

  lemma ReadBitmapCacheOk(c: Config, s: Vhd, sec: nat, write: bool, pool: nat)
    requires Structure(c, s, pool)
    ensures var (t, hit) := ReadBitmapCache(c, s, sec, write);
            var b := sec / c.spb;
            && Structure(c, t, pool) && t == s.(cache := t.cache, lru := t.lru) && t.cache.Keys == s.cache.Keys
            && (b !in s.bat <==> hit == BatLocked || hit == BatClear || (hit == OutOfRange && b !in s.bat))
            && (hit == BatClear && write && s.lock.locked ==> s.lock.blk == b)
            && (hit == NotCached ==> b !in t.cache && b !in t.batmap)
            && (hit == ReadPending ==> b in t.cache && t.cache[b].reading)
            && (hit == BitClear ==>
              b in t.cache && !t.cache[b].reading && b !in t.batmap && sec % c.spb !in t.cache[b].bits)
            && (hit == BitSet ==>
              b in t.batmap || (b in t.cache && !t.cache[b].reading && sec % c.spb in t.cache[b].bits))
            && (!write ==> hit != BatLocked)
  {
    var b := sec / c.spb;
    if b <= c.maxBat && b in s.bat && b !in s.batmap && b in s.cache {
      assert BlockOk(c, s, b);
      var bm := s.cache[b].(seqno := s.lru + 1);
      PutBmOk(c, s, b, bm, pool);
      LruIrrelevant(c, PutBm(s, b, bm), Touch(s, b), pool);
    }
  }

  lemma LruIrrelevant(c: Config, s: Vhd, t: Vhd, pool: nat)
    requires Structure(c, s, pool) && t == s.(lru := t.lru)
    ensures Structure(c, t, pool)
  {
    forall x | x in t.cache ensures BlockOk(c, t, x) {
      assert BlockOk(c, s, x);
    }
  }

  lemma RawSnocOk(c: Config, s: Vhd, r: Req, pool: nat)
    requires Structure(c, s, pool) && s.free > 0 && RawShape(c, r)
    ensures Structure(c, s.(free := s.free - 1, raw := s.raw + [r]), pool)
  {
    RawOk(c, s, s.(free := s.free - 1, raw := s.raw + [r]), pool, pool);
  }

  lemma ScheduleDataReadOk(c: Config, s: Vhd, r: Req, pool: nat)
    requires Structure(c, s, pool) && WaitingOk(c, r.sec / c.spb, r) && r.sec / c.spb in s.bat
    requires r.sec / c.spb in s.batmap || (r.sec / c.spb in s.cache && !s.cache[r.sec / c.spb].reading)
    ensures Structure(c, ScheduleDataRead(c, s, r).0, pool)
  {
    if s.free > 0 {
      var addr := BatEntry(s, r.sec / c.spb) + c.bmSecs + r.sec % c.spb;
      RawSnocOk(c, s, r.(op := OpRead, addr := addr), pool);
    }
  }

  lemma ScheduleRedundantOk(c: Config, s: Vhd, b: nat, pool: nat)
    requires Structure(c, s, pool) && b in s.batmap
    ensures Structure(c, ScheduleRedundantBmWrite(c, s, b), pool)
  {
    if s.free > 0 {
      var addr := BatEntry(s, b) + c.bmSecs - c.spp;
      RawSnocOk(c, s, Req(OpPad, 0, b * c.spb, c.spp, addr, false, false, 0, []), pool);
    }
  }

  lemma JoinOk(c: Config, s: Vhd, r: Req, pool: nat)
    requires Structure(c, s, pool) && s.free > 0
    requires var b := r.sec / c.spb;
             b in s.cache && !s.cache[b].reading && (b in s.bat || HoldOf(s, b).Hold?) && WriteOk(c, b, r) &&
               !r.finished
    ensures Structure(c, Put(s.(free := s.free - 1), JoinTx(At(s.(free := s.free - 1), r.sec / c.spb), r)), pool)
  {
    var b := r.sec / c.spb;
    var s1 := s.(free := s.free - 1);
    AtOk(c, s, b, pool);
    assert At(s1, b) == At(s, b);
    JoinTxOk(c, At(s1, b), r, s.meta.zero, s.meta.bat);
    Frame(c, s, s1, b);
    assert Fits(c, s1, JoinTx(At(s1, b), r), pool);
    PutOk(c, s1, JoinTx(At(s1, b), r), pool);
  }

  lemma PlainWriteOk(c: Config, s: Vhd, q: Req, pool: nat)
    requires Structure(c, s, pool) && WriteOk(c, q.sec / c.spb, q) && !q.finished
    ensures Structure(c, PlainWrite(c, s, q), pool + 1)
  {
    var b := q.sec / c.spb;
    var s1 := if q.sec % c.spb == 0 && BatEntry(s, b) != c.firstDb && b in s.batmap
              then ScheduleRedundantBmWrite(c, s, b) else s;
    if s1 != s { ScheduleRedundantOk(c, s, b, pool); }
    RawOk(c, s1, s1.(raw := s1.raw + [q]), pool, pool + 1);
  }

  lemma FullWriteOk(c: Config, s: Vhd, r: Req, pool: nat)
    requires Structure(c, s, pool) && WaitingOk(c, r.sec / c.spb, r)
    ensures Structure(c, ScheduleDataWrite(c, s, r, false, false).0, pool)
  {
    hide Structure;
    hide PlainWrite;
    var b := r.sec / c.spb;
    if s.free > 0 {
      var s2 := s.(free := s.free - 1);
      var q := r.(op := OpWrite, addr := BatEntry(s, b) + c.bmSecs + r.sec % c.spb);
      TakeOk(c, s, pool);
      PlainWriteOk(c, s2, q, pool - 1);
    }
  }

  lemma TakeOk(c: Config, s: Vhd, pool: nat)
    requires Structure(c, s, pool) && s.free > 0
    ensures pool > 0 && Structure(c, s.(free := s.free - 1), pool - 1)
  {
    RawOk(c, s, s.(free := s.free - 1), pool, pool - 1);
  }

  lemma AllocationOk(c: Config, s: Vhd, b: nat, pool: nat)
    requires Structure(c, s, pool) && b !in s.bat && (s.lock.locked ==> s.lock.blk == b)
    ensures var (t, err) := if c.prealloc then AllocateBlock(c, s, b) else UpdateBat(c, s, b);
            Structure(c, t, pool) && (err == 0 ==> b in t.cache && !t.cache[b].reading && HoldOf(t, b).Hold?)
  {
    if c.prealloc { AllocateBlockOk(c, s, b, pool); } else { UpdateBatOk(c, s, b, pool); }
    var (t, err) := if c.prealloc then AllocateBlock(c, s, b) else UpdateBat(c, s, b);
    if err == 0 { assert BlockOk(c, t, b); }
  }

  lemma BitmapWriteOk(c: Config, s: Vhd, r: Req, updBat: bool, pool: nat)
    requires Structure(c, s, pool) && WaitingOk(c, r.sec / c.spb, r)
    requires var b := r.sec / c.spb;
             if updBat then b !in s.bat && (s.lock.locked ==> s.lock.blk == b)
             else b in s.bat && b in s.cache && !s.cache[b].reading
    ensures Structure(c, ScheduleDataWrite(c, s, r, updBat, true).0, pool)
  {
    hide AllocateBlock;
    hide UpdateBat;
    hide Structure;
    hide JoinTx;
    hide At;
    hide Put;
    hide PlainWrite;
    var b := r.sec / c.spb;
    var (s1, err) :=
      if !updBat then (s, 0) else if c.prealloc then AllocateBlock(c, s, b) else UpdateBat(c, s, b);
    if updBat { AllocationOk(c, s, b, pool); }
    if err == 0 && s1.free > 0 {
      var base := if updBat then s1.lock.off else BatEntry(s, b);
      JoinOk(c, s1, r.(op := OpWrite, addr := base + c.bmSecs + r.sec % c.spb), pool);
    }
  }

  lemma QueueRequestOk(c: Config, s: Vhd, r: Req, pool: nat)
    requires Structure(c, s, pool) && WaitingOk(c, r.sec / c.spb, r)
    requires r.sec / c.spb in s.cache && s.cache[r.sec / c.spb].reading
    ensures Structure(c, QueueRequest(c, s, r).0, pool)
  {
    var b := r.sec / c.spb;
    if s.free > 0 {
      AtOk(c, s, b, pool);
      var bm := s.cache[b];
      var s1 := s.(free := s.free - 1);
      var k := At(s1, b).(bm := bm.(waiting := bm.waiting + [r], locked := true));
      Frame(c, s, s1, b);
      assert Fits(c, s1, k, pool);
      PutOk(c, s1, k, pool);
      assert Put(s1, k) == QueueRequest(c, s, r).0;
    }
  }

  lemma ScheduleBitmapReadOk(c: Config, s: Vhd, b: nat, pool: nat)
    requires Structure(c, s, pool) && b in s.bat && b !in s.cache
    ensures var (t, err) := ScheduleBitmapRead(c, s, b);
            Structure(c, t, pool) && t == s.(cache := t.cache, bmFree := t.bmFree, lru := t.lru) &&
            (err == 0 ==> b in t.cache && t.cache[b].reading)
  {
    InstallBitmapOk(c, s, b, InitBm.(reading := true, locked := true), pool);
  }

  /* ---- guest requests ---- */

  lemma PieceOk(c: Config, write: bool, wid: nat, sec: nat, k: nat)
    requires 0 < k && sec % c.spb + k <= c.spb
    ensures WaitingOk(c, sec / c.spb, Piece(write, wid, sec, k))
  {
  }

  lemma ReadTurnOk(c: Config, s: Vhd, wid: nat, sec: nat, n: nat, pool: nat)
    requires Structure(c, s, pool) && 0 < n
    ensures Structure(c, ReadTurn(c, s, wid, sec, n).0, pool)
  {
    var (s1, hit) := ReadBitmapCache(c, s, sec, false);
    ReadBitmapCacheOk(c, s, sec, false, pool);
    var b := sec / c.spb;
    match hit
    case OutOfRange | BatLocked =>
    case BatClear =>
      MediaIrrelevant(c, s1, Emit(s1, Forward(wid, sec, ToBlockEnd(c, sec, n))), pool);
    case BitClear =>
      MediaIrrelevant(c, s1, Emit(s1, Forward(wid, sec, Span(c, s1, sec, n, false))), pool);
    case BitSet =>
      PieceOk(c, false, wid, sec, Span(c, s1, sec, n, true));
      ScheduleDataReadOk(c, s1, Piece(false, wid, sec, Span(c, s1, sec, n, true)), pool);
    case NotCached =>
      ScheduleBitmapReadOk(c, s1, b, pool);
      PieceOk(c, false, wid, sec, ToBlockEnd(c, sec, n));
      if ScheduleBitmapRead(c, s1, b).1 == 0 {
        QueueRequestOk(c, ScheduleBitmapRead(c, s1, b).0, Piece(false, wid, sec, ToBlockEnd(c, sec, n)), pool);
      }
    case ReadPending =>
      PieceOk(c, false, wid, sec, ToBlockEnd(c, sec, n));
      QueueRequestOk(c, s1, Piece(false, wid, sec, ToBlockEnd(c, sec, n)), pool);
  }

  lemma WriteTurnOk(c: Config, s: Vhd, wid: nat, sec: nat, n: nat, pool: nat)
    requires Structure(c, s, pool) && 0 < n
    ensures Structure(c, WriteTurn(c, s, wid, sec, n).0, pool)
  {
    hide Structure;
    hide ScheduleDataWrite;
    var (s1, hit) := ReadBitmapCache(c, s, sec, true);
    ReadBitmapCacheOk(c, s, sec, true, pool);
    var b := sec / c.spb;
    match hit
    case OutOfRange | BatLocked =>
    case BatClear =>
      PieceOk(c, true, wid, sec, ToBlockEnd(c, sec, n));
      BitmapWriteOk(c, s1, Piece(true, wid, sec, ToBlockEnd(c, sec, n)), true, pool);
    case BitClear =>
      PieceOk(c, true, wid, sec, Span(c, s1, sec, n, false));
      BitmapWriteOk(c, s1, Piece(true, wid, sec, Span(c, s1, sec, n, false)), false, pool);
    case BitSet =>
      PieceOk(c, true, wid, sec, Span(c, s1, sec, n, true));
      FullWriteOk(c, s1, Piece(true, wid, sec, Span(c, s1, sec, n, true)), pool);
    case NotCached =>
      ScheduleBitmapReadOk(c, s1, b, pool);
      PieceOk(c, true, wid, sec, ToBlockEnd(c, sec, n));
      if ScheduleBitmapRead(c, s1, b).1 == 0 {
        QueueRequestOk(c, ScheduleBitmapRead(c, s1, b).0, Piece(true, wid, sec, ToBlockEnd(c, sec, n)), pool);
      }
    case ReadPending =>
      PieceOk(c, true, wid, sec, ToBlockEnd(c, sec, n));
      QueueRequestOk(c, s1, Piece(true, wid, sec, ToBlockEnd(c, sec, n)), pool);
  }

  lemma {:induction false} ServeOk(c: Config, s: Vhd, write: bool, wid: nat, sec: nat, n: nat, pool: nat)
    requires Structure(c, s, pool)
    ensures Structure(c, Serve(c, s, write, wid, sec, n), pool)
    decreases n
  {
    hide WriteTurn;
    hide ReadTurn;
    hide Structure;
    if n > 0 {
      if write { WriteTurnOk(c, s, wid, sec, n, pool); } else { ReadTurnOk(c, s, wid, sec, n, pool); }
      var (s1, k, err) := Turn(c, s, write, wid, sec, n);
      if err != 0 { MediaIrrelevant(c, s1, Emit(s1, Done(write, wid, sec, n, err)), pool); }
      else { ServeOk(c, s1, write, wid, sec + k, n - k, pool); }
    }
  }

  /* ---- a bitmap has been read ---- */

  lemma FreeOk(c: Config, s: Vhd, pool: nat)
    requires Structure(c, s, pool)
    ensures Structure(c, s.(free := s.free + 1), pool + 1)
  {
    RawOk(c, s, s.(free := s.free + 1), pool, pool + 1);
  }

  /** While requests are replayed they are on no list: the lists share out fewer. */
  lemma {:induction false} ReplayOk(c: Config, s: Vhd, rs: seq<Req>, pool: nat)
    requires |rs| <= pool && Structure(c, s, pool - |rs|)
    ensures Structure(c, Replay(c, s, rs), pool)
    decreases |rs|
  {
    hide Serve;
    hide Glob;
    if rs != [] {
      var r := rs[0];
      var s1 := s.(free := s.free + 1);
      FreeOk(c, s, pool - |rs|);
      ServeOk(c, s1, r.op == OpWrite, r.wid, r.sec, r.secs, pool - |rs| + 1);
      ReplayOk(c, Serve(c, s1, r.op == OpWrite, r.wid, r.sec, r.secs), rs[1..], pool);
    }
  }

  lemma LoadedBmOk(c: Config, k: Blk, m: set<nat>, zero: Io, bat: Io)
    requires KOk(c, k, zero, bat) && k.bm.reading && m <= Full(c)
    ensures KOk(c, k.(bm := k.bm.(reading := false, waiting := [], bits := m, shadow := m)), zero, bat)
    ensures Load(k.bm) == |k.bm.waiting|
  {
    assert Staged(c.spb, []) == {};
  }

  /** The block whose bitmap has been read, with nobody waiting for it any more. */
  ghost function LoadedBlock(c: Config, s: Vhd, b: nat): Blk
    requires b in s.cache
  {
    var m := BitsAt(s.media.disk, BatEntry(s, b)) * Full(c);
    At(s, b).(bm := s.cache[b].(reading := false, waiting := [], bits := m, shadow := m))
  }

  lemma LoadedFits(c: Config, s: Vhd, b: nat, pool: nat)
    requires b in s.cache && s.cache[b].reading && Structure(c, s, pool)
    ensures |s.cache[b].waiting| <= pool && Fits(c, s, LoadedBlock(c, s, b), pool - |s.cache[b].waiting|)
  {
    hide KOk;
    hide BlockOk;
    hide BmOk;
    AtOk(c, s, b, pool);
    var m := BitsAt(s.media.disk, BatEntry(s, b)) * Full(c);
    LoadedBmOk(c, At(s, b), m, s.meta.zero, s.meta.bat);
    CacheLoadRemove(s.cache, b);
  }

  lemma BitmapLoadedOk(c: Config, s: Vhd, b: nat, pool: nat)
    requires b in s.cache && s.cache[b].reading && Structure(c, s, pool)
    ensures |s.cache[b].waiting| <= pool && Structure(c, BitmapLoaded(c, s, b), pool - |s.cache[b].waiting|)
  {
    hide Structure;
    hide Fits;
    LoadedFits(c, s, b, pool);
    PutOk(c, s, LoadedBlock(c, s, b), pool - |s.cache[b].waiting|);
    assert Put(s, LoadedBlock(c, s, b)).batmap == s.batmap;
    assert Put(s, LoadedBlock(c, s, b)) == BitmapLoaded(c, s, b);
  }

  lemma UnlockCachedOk(c: Config, s: Vhd, b: nat, pool: nat)
    requires Structure(c, s, pool)
    ensures Structure(c, UnlockCached(s, b), pool)
  {
    if b in s.cache {
      AtOk(c, s, b, pool);
      var k := UnlockIfIdle(At(s, b));
      assert KOk(c, k, s.meta.zero, s.meta.bat);
      KFrameFits(c, s, k, pool);
      PutOk(c, s, k, pool);
    }
  }

  lemma BitmapLoadFailedOk(c: Config, s: Vhd, b: nat, err: int, pool: nat)
    requires Structure(c, s, pool) && b in s.cache && s.cache[b].reading && err != 0
    ensures Structure(c, FinishBitmapRead(c, s, b, err), pool)
  {
    assert BlockOk(c, s, b);
    CacheLoadRemove(s.cache, b);
    var t := FinishBitmapRead(c, s, b, err);
    forall x | x in t.cache ensures BlockOk(c, t, x) {
      assert BlockOk(c, s, x);
    }
  }

  lemma DoneBitmapReadOk(c: Config, s: Vhd, b: nat, err: int, pool: nat)
    requires Structure(c, s, pool) && Enabled(s, DoneBitmapRead(b, err))
    ensures Structure(c, FinishBitmapRead(c, s, b, err), pool)
  {
    if err != 0 {
      BitmapLoadFailedOk(c, s, b, err, pool);
    } else {
      hide Structure;
      BitmapLoadedOk(c, s, b, pool);
      ReplayOk(c, BitmapLoaded(c, s, b), s.cache[b].waiting, pool);
      UnlockCachedOk(c, Replay(c, BitmapLoaded(c, s, b), s.cache[b].waiting), b, pool);
    }
  }

  /* ---- runs ---- */

  lemma StepOk(c: Config, s: Vhd, step: Step, pool: nat)
    requires Structure(c, s, pool) && Enabled(s, step)
    ensures Structure(c, Next(c, s, step), pool)
  {
    hide Structure;
    match step
    case Request(write, sec, n) =>
      var s1 := Emit(s, Issue(write, sec, n));
      MediaIrrelevant(c, s, s1, pool);
      ServeOk(c, s1, write, |s.log|, sec, n, pool);
    case LandTx(b, i) => LandTxOk(c, s, b, i, pool);
    case LandQueue(b, i) => LandQueueOk(c, s, b, i, pool);
    case LandOther(i) => LandOtherOk(c, s, i, pool);
    case LandBitmap(b) => LandBitmapOk(c, s, b, pool);
    case LandZero => LandMetaOk(c, s, LandZeroBmWrite(c, s), pool);
    case LandBat => LandMetaOk(c, s, LandBatWrite(s), pool);
    case DoneTx(b, i, err) => DoneTxOk(c, s, b, i, err, pool);
    case DoneQueue(b, i, err) => DoneQueueOk(c, s, b, i, err, pool);
    case DoneOther(i, err) => DoneOtherOk(c, s, i, err, pool);
    case DoneBitmapRead(b, err) => DoneBitmapReadOk(c, s, b, err, pool);
    case DoneBitmapWrite(b, err) => DoneBitmapWriteOk(c, s, b, err, pool);
    case DoneZero(err) => DoneZeroOk(c, s, err, pool);
    case DoneBat(err) => DoneBatOk(c, s, err, pool);
  }
}
