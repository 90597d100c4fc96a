/** Serving guest requests keeps `OnDisk`. */
module VhdServing {
  import opened Arithmetic
  import opened VhdTypes
  import opened VhdEngine
  import opened VhdInvariants
  import opened VhdStructure
  import opened VhdSafety
  import opened VhdAccounting
  import opened VhdMoves
  import opened VhdLayout
  import opened VhdDisk
  import opened VhdDurability
  import opened VhdLanding

  /* ---- bitmaps ---- */

  /** The bitmap of one block is replaced. */
  lemma PutBmD(c: Config, s: Vhd, b: nat, bm: Bm)
    requires OnDisk(c, s) && b in s.cache && WaitD(s.log, bm)
    requires BlockD(c, WorldOf(s), b, PlaceOf(s, b), HoldOf(s, b), InCache(bm), b in s.batmap)
    ensures OnDisk(c, PutBm(s, b, bm))
  {
    var t := PutBm(s, b, bm);
    forall x ensures BlkD(c, t, x) {
      assert BlkD(c, s, x);
      assert PlaceOf(t, x) == PlaceOf(s, x) && HoldOf(t, x) == HoldOf(s, x);
      assert x != b ==> CachedOf(t, x) == CachedOf(s, x);
    }
    forall x | x in t.cache ensures WaitD(t.log, t.cache[x]) {
      if x != b { assert WaitD(s.log, s.cache[x]); }
    }
    Reassemble(c, s, t);
  }

  lemma TouchBlk(c: Config, s: Vhd, b: nat)
    requires OnDisk(c, s) && b in s.cache
    ensures var bm := s.cache[b].(seqno := s.lru + 1);
            WaitD(s.log, bm) &&
            BlockD(c, WorldOf(s), b, PlaceOf(s, b), HoldOf(s, b), InCache(bm), b in s.batmap)
  {
    assert BlkD(c, s, b) && WaitD(s.log, s.cache[b]);
  }

  lemma TouchD(c: Config, s: Vhd, sec: nat, write: bool)
    requires OnDisk(c, s)
    ensures OnDisk(c, ReadBitmapCache(c, s, sec, write).0)
  {
    var b := sec / c.spb;
    hide OnDisk;
    if b <= c.maxBat && b in s.bat && b !in s.batmap && b in s.cache {
      var bm := s.cache[b].(seqno := s.lru + 1);
      TouchBlk(c, s, b);
      PutBmD(c, s, b, bm);
      PoolsD(c, PutBm(s, b, bm), Touch(s, b));
    }
  }

  lemma CheckD(c: Config, s: Vhd, ok: bool)
    requires OnDisk(c, s)
    ensures OnDisk(c, Check(s, ok))
  {
    PoolsD(c, s, Check(s, ok));
  }

  lemma EmitD(c: Config, s: Vhd, e: Ev)
    requires OnDisk(c, s) && AtMost(c, s) && forall l: nat :: !Acknowledges(e, l)
    ensures OnDisk(c, Emit(s, e))
  {
    LogOnDisk(c, s, Emit(s, e));
  }

  /* ---- bitmaps coming and going ---- */

  lemma UncachedD(c: Config, v: World, b: nat, p: Place, h: Hold, k: Cached, full: bool)
    requires BlockD(c, v, b, p, h, k, full)
    ensures BlockD(c, v, b, p, h, NotInCache, full)
  {
  }

  lemma DropD(c: Config, s: Vhd, t: Vhd, b: nat)
    requires OnDisk(c, s) && t == s.(cache := s.cache - {b}, bmFree := t.bmFree, free := t.free)
    ensures OnDisk(c, t)
  {
    forall x ensures BlkD(c, t, x) {
      assert BlkD(c, s, x);
      assert PlaceOf(t, x) == PlaceOf(s, x) && HoldOf(t, x) == HoldOf(s, x);
      if x == b {
        UncachedD(c, WorldOf(s), x, PlaceOf(s, x), HoldOf(s, x), CachedOf(s, x), x in s.batmap);
      } else {
        assert CachedOf(t, x) == CachedOf(s, x);
      }
    }
    Reassemble(c, s, t);
  }

  lemma AddD(c: Config, s: Vhd, t: Vhd, b: nat)
    requires OnDisk(c, s) && b in t.cache &&
             t == s.(cache := s.cache[b := t.cache[b]], bmFree := t.bmFree, lru := t.lru, panicked := t.panicked)
    requires BlockD(c, WorldOf(s), b, PlaceOf(s, b), HoldOf(s, b), InCache(t.cache[b]), b in s.batmap)
    requires WaitD(s.log, t.cache[b])
    ensures OnDisk(c, t)
  {
    forall x ensures BlkD(c, t, x) {
      assert BlkD(c, s, x);
      assert PlaceOf(t, x) == PlaceOf(s, x) && HoldOf(t, x) == HoldOf(s, x);
      assert x != b ==> CachedOf(t, x) == CachedOf(s, x);
    }
    forall x | x in t.cache ensures WaitD(t.log, t.cache[x]) {
      if x != b { assert WaitD(s.log, s.cache[x]); }
    }
    Reassemble(c, s, t);
  }

  /** A bitmap with no requests and no write, as it is installed. */
  predicate Blank(bm: Bm) {
    bm.tx == InitTx && bm.queue == [] && bm.waiting == [] && bm.write == Idle
  }

  lemma BlankD(c: Config, s: Vhd, b: nat, bm: Bm)
    requires OnDisk(c, s) && Blank(bm) && b !in s.cache
    requires PlaceOf(s, b).NoPlace? || bm.reading
    ensures BlockD(c, WorldOf(s), b, PlaceOf(s, b), HoldOf(s, b), InCache(bm), b in s.batmap)
  {
    assert BlkD(c, s, b);
  }

  lemma InstallD(c: Config, s: Vhd, b: nat, bm: Bm, pool: nat)
    requires Structure(c, s, pool) && OnDisk(c, s) && b !in s.cache && Blank(bm)
    requires PlaceOf(s, b).NoPlace? || bm.reading
    ensures OnDisk(c, InstallBitmap(c, s, b, bm).0)
  {
    var (t, err) := InstallBitmap(c, s, b, bm);
    if s.bmFree > 0 {
      BlankD(c, s, b, bm.(seqno := s.lru + 1));
      AddD(c, s, t, b);
    } else if err == 0 {
      var v := Evicted(c, s, b, bm, pool);
      var s1 := s.(cache := s.cache - {v});
      DropD(c, s, s1, v);
      BlankD(c, s1, b, bm.(seqno := s.lru + 1));
      AddD(c, s1, t, b);
    }
  }

  lemma EmptyBitmapD(c: Config, s: Vhd, b: nat, pool: nat)
    requires Structure(c, s, pool) && OnDisk(c, s) && b !in s.bat && !s.lock.locked
    ensures OnDisk(c, EmptyBitmap(c, s, b).0)
  {
    if b !in s.cache { InstallD(c, s, b, InitBm, pool); }
  }

  /* ---- allocation ---- */

  /** A block that is nowhere yet has an empty bitmap, and nothing to do with it matters. */
  lemma Unplaced(c: Config, s: Vhd, b: nat, pool: nat)
    requires Structure(c, s, pool) && OnDisk(c, s) && b in s.cache && b !in s.bat && !s.lock.locked
    ensures var bm := s.cache[b];
            Adrift(bm) && bm.queue == [] && bm.waiting == [] && bm.write == Idle && !bm.reading && bm.bits == {} &&
              !bm.tx.updateBat
    ensures b !in s.batmap
    ensures s.meta.zero == Idle && s.meta.bat == Idle && s.lock.err == 0 && !s.lock.tx && !s.lock.started
  {
    assert BlkD(c, s, b);
    assert BlockOk(c, s, b);
  }

  /** The lock is taken for block b, whose transaction holds no data write that matters. */
  lemma LockedD(c: Config, s: Vhd, t: Vhd, b: nat, pool: nat)
    requires Structure(c, s, pool) && OnDisk(c, s) && b in s.cache && b !in s.bat && !s.lock.locked
    requires t.bat == s.bat && t.batmap == s.batmap && t.nextDb == s.nextDb && t.media == s.media && t.log == s.log &&
             t.raw == s.raw
    requires t.lock.locked && t.lock.blk == b && MetaD(c, t) && b in t.cache
    requires t.cache == s.cache[b := s.cache[b].(locked := true, tx := t.cache[b].tx)] && Adrift(t.cache[b])
    requires PlaceOf(t, b).ready ==>
      BitmapAt(c, s.media.disk, t.lock.off, {}) && (t.cache[b].tx.updateBat ==> !t.lock.tx)
    ensures OnDisk(c, t)
  {
    Unplaced(c, s, b, pool);
    forall x ensures BlkD(c, t, x) {
      if x == b {
        if PlaceOf(t, b).ready { assert t.media.disk(t.lock.off) == Bits({}); }
      } else {
        assert BlkD(c, s, x);
        assert PlaceOf(t, x) == PlaceOf(s, x) && HoldOf(t, x) == HoldOf(s, x) && CachedOf(t, x) == CachedOf(s, x);
      }
    }
    forall x | x in t.cache ensures WaitD(t.log, t.cache[x]) {
      assert WaitD(s.log, s.cache[x]);
    }
    Reassemble(c, s, t);
  }

  lemma ReserveD(c: Config, s: Vhd, b: nat, pool: nat)
    requires Structure(c, s, pool) && OnDisk(c, s) && b in s.cache && b !in s.bat && !s.lock.locked
    ensures OnDisk(c, ReserveAndZero(c, s, b))
  {
    Unplaced(c, s, b, pool);
    var t := ReserveAndZero(c, s, b);
    assert s.log + [] == s.log;
    assert MetaD(c, t);
    LockedD(c, s, t, b, pool);
  }

  /** The new extent is zeroed, its bitmap included, beyond all extents in use. */
  lemma ExtentTakenD(c: Config, s: Vhd, b: nat, pool: nat)
    requires Structure(c, s, pool) && OnDisk(c, s) && AtMost(c, s) && !s.lock.locked
    ensures var t := ExtentTaken(c, s, b);
            OnDisk(c, t) && t.lock.off == t.nextDb == NextOff(c, t.nextDb) && !t.lock.locked && t.lock.blk == b &&
            (c.sync(|s.log|) == 0 ==> BitmapAt(c, t.media.disk, t.nextDb, {}))
  {
    var t := ExtentTaken(c, s, b);
    NextOffAligned(c, s.nextDb);
    AlignKeepsLayout(c, s.bat, s.nextDb);
    forall a | a < s.nextDb ensures t.media.disk(a) == s.media.disk(a) {
    }
    forall x | x in s.bat ensures Later(WorldOf(s), WorldOf(t), s.bat[x], End(c, s.bat[x])) {
      assert InUseExtent(c, s.nextDb, s.bat[x]);
    }
    forall x ensures BlkD(c, t, x) {
      assert BlkD(c, s, x);
      assert PlaceOf(t, x) == PlaceOf(s, x) && HoldOf(t, x) == HoldOf(s, x) && CachedOf(t, x) == CachedOf(s, x);
      BlockLater(c, WorldOf(s), WorldOf(t), x, PlaceOf(s, x), HoldOf(s, x), CachedOf(s, x), x in s.batmap);
    }
    ExtentTakenRest(c, s, t);
  }

  lemma ExtentTakenRest(c: Config, s: Vhd, t: Vhd)
    requires OnDisk(c, s) && AtMost(c, s)
    requires t.bat == s.bat && t.batmap == s.batmap && t.log == s.log && t.raw == s.raw && t.cache == s.cache
    requires forall x :: x in s.bat ==> Later(WorldOf(s), WorldOf(t), s.bat[x], End(c, s.bat[x]))
    ensures AckD(c, WorldOf(t), t.bat)
    ensures forall r :: r in t.raw ==> RawD(c, WorldOf(t), t.bat, t.batmap, r)
    ensures forall b :: b in t.cache ==> WaitD(t.log, t.cache[b])
  {
    forall i, l: nat | 0 <= i < |t.log| && Acknowledges(t.log[i], l)
      ensures Stored(c, WorldOf(t), t.bat, l, t.log[i].wid)
    {
      AnsweredOnce(c, s, i, l);
      StoredLater(c, WorldOf(s), WorldOf(t), s.bat, t.bat, l, t.log[i].wid);
    }
    forall r | r in t.raw ensures RawD(c, WorldOf(t), t.bat, t.batmap, r) {
      RawLater(c, WorldOf(s), WorldOf(t), s.bat, t.bat, s.batmap, t.batmap, r);
    }
    forall b | b in t.cache ensures WaitD(t.log, t.cache[b]) { assert WaitD(s.log, s.cache[b]); }
  }

  lemma LockAndWriteBatD(c: Config, s: Vhd, b: nat, pool: nat)
    requires Structure(c, s, pool) && OnDisk(c, s) && b in s.cache && b !in s.bat && !s.lock.locked && s.lock.blk == b
    requires s.lock.off == NextOff(c, s.nextDb) && BitmapAt(c, s.media.disk, s.lock.off, {})
    ensures OnDisk(c, LockAndWriteBat(s, b))
  {
    Unplaced(c, s, b, pool);
    var t := LockAndWriteBat(s, b);
    assert s.log + [] == s.log;
    assert BatSector(t.bat, t.lock, t.meta);
    assert MetaD(c, t);
    LockedD(c, s, t, b, pool);
  }

  lemma AllocationD(c: Config, s: Vhd, b: nat, pool: nat)
    requires Structure(c, s, pool) && OnDisk(c, s) && AtMost(c, s) && b !in s.bat && (s.lock.locked ==> s.lock.blk == b)
    ensures var (t, err) := if c.prealloc then AllocateBlock(c, s, b) else UpdateBat(c, s, b);
            OnDisk(c, t)
  {
    hide OnDisk;
    hide Structure;
    hide ReserveAndZero;
    hide LockAndWriteBat;
    assert Check(s, true) == s;
    if s.lock.locked {
      CheckD(c, s, true);
    } else {
      var s1 := if c.prealloc then ExtentTaken(c, s, b) else s;
      if c.prealloc {
        ExtentTakenD(c, s, b, pool);
        ExtentTakenOk(c, s, b, pool);
      }
      EmptyBitmapD(c, s1, b, pool);
      EmptyBitmapOk(c, s1, b, pool);
      var (s2, err) := EmptyBitmap(c, s1, b);
      if err == 0 && (c.prealloc ==> c.sync(|s.log|) == 0) {
        if c.prealloc { LockAndWriteBatD(c, s2, b, pool); } else { ReserveD(c, s2, b, pool); }
      }
    }
  }

  /* ---- new requests ---- */

  lemma JoinBlock(c: Config, v: World, p: Place, h: Hold, k: Blk, r: Req)
    requires BlockD(c, v, k.b, p, h, InCache(k.bm), k.full) && p.Place? && WriteD(c, v, p.off, r)
    ensures BlockD(c, v, k.b, p, h, InCache(JoinTx(k, r).bm), k.full)
  {
  }

  lemma JoinPut(s: Vhd, b: nat, r: Req)
    requires b in s.cache && s.free > 0
    ensures var s2 := s.(free := s.free - 1); var k := JoinTx(At(s, b), r);
            Put(s2, JoinTx(At(s2, b), r)) == PutBm(s, b, k.bm).(free := s.free - 1, panicked := s.panicked || k.bad)
  {
    hide JoinTx;
    hide Put;
    var s2 := s.(free := s.free - 1);
    JoinFrame(At(s, b), r);
    assert At(s2, b) == At(s, b);
    PutSame(s2, b, JoinTx(At(s, b), r));
  }

  lemma JoinFrame(k: Blk, r: Req)
    ensures JoinTx(k, r) == k.(bm := JoinTx(k, r).bm, bad := JoinTx(k, r).bad)
  {
  }

  /** Putting back a block of which only the bitmap has changed. */
  lemma PutSame(s: Vhd, b: nat, k: Blk)
    requires b in s.cache && k == At(s, b).(bm := k.bm, bad := k.bad)
    ensures Put(s, k) == PutBm(s, b, k.bm).(panicked := s.panicked || k.bad)
  {
    assert s.log + [] == s.log;
    assert b in s.batmap ==> s.batmap + {b} == s.batmap;
  }

  lemma JoinD(c: Config, s: Vhd, r: Req)
    requires OnDisk(c, s) && s.free > 0 && r.sec / c.spb in s.cache && !r.landed && !r.finished &&
             Wid(s.log, r.wid, true)
    requires var p := PlaceOf(s, r.sec / c.spb); p.Place? && r.addr == p.off + c.bmSecs + r.sec % c.spb
    ensures var s2 := s.(free := s.free - 1); OnDisk(c, Put(s2, JoinTx(At(s2, r.sec / c.spb), r)))
  {
    var b := r.sec / c.spb;
    var k := JoinTx(At(s, b), r);
    assert BlkD(c, s, b) && WaitD(s.log, s.cache[b]);
    JoinBlock(c, WorldOf(s), PlaceOf(s, b), HoldOf(s, b), At(s, b), r);
    hide OnDisk;
    PutBmD(c, s, b, k.bm);
    JoinPut(s, b, r);
    PoolsD(c, PutBm(s, b, k.bm), PutBm(s, b, k.bm).(free := s.free - 1, panicked := s.panicked || k.bad));
  }

  lemma PlainWriteD(c: Config, s: Vhd, q: Req)
    requires OnDisk(c, s) && q.op == OpWrite && RawD(c, WorldOf(s), s.bat, s.batmap, q)
    ensures OnDisk(c, PlainWrite(c, s, q))
  {
    var t := PlainWrite(c, s, q);
    var b := q.sec / c.spb;
    assert b * c.spb / c.spb == b by { DivUnique(c.spb, b, 0); }
    PoolsD(c, s, t);
  }

  /** Memory says that sector sec is in the file. */
  predicate InMap(c: Config, s: Vhd, sec: nat) {
    var b := sec / c.spb;
    b in s.batmap || (b in s.cache && !s.cache[b].reading && b in s.bat && sec % c.spb in s.cache[b].bits)
  }

  /** The sectors of a piece whose bits are set are on the disk. */
  lemma SetSpan(c: Config, s: Vhd, wid: nat, sec: nat, n: nat, pool: nat)
    requires Structure(c, s, pool) && OnDisk(c, s)
    requires InMap(c, s, sec)
    ensures var b := sec / c.spb;
            b in s.bat && 
            ReqBits(c.spb, Piece(true, wid, sec, Span(c, s, sec, n, true))) <= BitsAt(s.media.disk, s.bat[b])
  {
    var b := sec / c.spb;
    assert BlkD(c, s, b);
    if b !in s.batmap {
      assert BlockOk(c, s, b);
      assert s.cache[b].bits <= ExpectedBits(s.cache[b], HoldOf(s, b));
    }
  }

  /** A write whose sectors have their bits set on the disk. */
  lemma SetWriteD(c: Config, s: Vhd, q: Req)
    requires var b := q.sec / c.spb;
             q.op == OpWrite && !q.landed && !q.finished && b in s.bat &&
               ReqBits(c.spb, q) <= BitsAt(s.media.disk, s.bat[b]) &&
             q.addr == s.bat[b] + c.bmSecs + q.sec % c.spb && Wid(s.log, q.wid, true)
    ensures RawD(c, WorldOf(s), s.bat, s.batmap, q)
  {
  }

  lemma FullWriteD(c: Config, s: Vhd, wid: nat, sec: nat, n: nat, pool: nat)
    requires Structure(c, s, pool) && OnDisk(c, s) && Wid(s.log, wid, true)
    requires InMap(c, s, sec)
    ensures OnDisk(c, ScheduleDataWrite(c, s, Piece(true, wid, sec, Span(c, s, sec, n, true)), false, false).0)
  {
    hide Structure;
    hide OnDisk;
    hide RawD;
    hide BlkD;
    if s.free > 0 {
      SetSpan(c, s, wid, sec, n, pool);
      var r := Piece(true, wid, sec, Span(c, s, sec, n, true));
      var q := r.(op := OpWrite, addr := BatEntry(s, sec / c.spb) + c.bmSecs + sec % c.spb);
      var s2 := s.(free := s.free - 1);
      assert RawD(c, WorldOf(s), s.bat, s.batmap, q) by { SetWriteD(c, s, q); }
      PoolsD(c, s, s2);
      PlainWriteD(c, s2, q);
    }
  }

  predicate Joinable(s: Vhd, b: nat, updBat: bool) {
    if updBat then b !in s.bat && (s.lock.locked ==> s.lock.blk == b)
    else b in s.bat && b in s.cache && !s.cache[b].reading
  }

  lemma BitmapWriteD(c: Config, s: Vhd, r: Req, updBat: bool, pool: nat)
    requires Joinable(s, r.sec / c.spb, updBat) && WaitingOk(c, r.sec / c.spb, r) && Wid(s.log, r.wid, true)
    requires Structure(c, s, pool) && OnDisk(c, s) && AtMost(c, s)
    ensures OnDisk(c, ScheduleDataWrite(c, s, r, updBat, true).0)
  {
    hide AllocateBlock;
    hide UpdateBat;
    hide Structure;
    hide OnDisk;
    hide JoinTx;
    var b := r.sec / c.spb;
    var (s1, err) :=
      if !updBat then (s, 0) else if c.prealloc then AllocateBlock(c, s, b) else UpdateBat(c, s, b);
    if updBat {
      AllocationOk(c, s, b, pool);
      AllocationD(c, s, b, pool);
      AllocationLog(c, s, b, pool);
    }
    if err == 0 && s1.free > 0 {
      var base := if updBat then s1.lock.off else BatEntry(s, b);
      JoinD(c, s1, r.(op := OpWrite, addr := base + c.bmSecs + r.sec % c.spb));
    }
  }

  lemma AllocationLog(c: Config, s: Vhd, b: nat, pool: nat)
    requires Structure(c, s, pool) && b !in s.bat && (s.lock.locked ==> s.lock.blk == b)
    ensures var (t, err) := if c.prealloc then AllocateBlock(c, s, b) else UpdateBat(c, s, b);
            t.log == s.log && t.bat == s.bat
  {
    if !s.lock.locked {
      var s1 := if c.prealloc then ExtentTaken(c, s, b) else s;
      if c.prealloc { ExtentTakenOk(c, s, b, pool); }
      EmptyBitmapOk(c, s1, b, pool);
      assert s.log + [] == s.log;
    }
  }

  lemma QueueRequestD(c: Config, s: Vhd, r: Req)
    requires OnDisk(c, s) && r.sec / c.spb in s.cache && Wid(s.log, r.wid, r.op == OpWrite)
    ensures OnDisk(c, QueueRequest(c, s, r).0)
  {
    hide Layout;
    hide MetaD;
    hide AckD;
    var b := r.sec / c.spb;
    CheckD(c, s, b in s.cache && s.cache[b].reading);
    if s.free > 0 {
      var s0 := Check(s, b in s.cache && s.cache[b].reading);
      var bm := s.cache[b].(waiting := s.cache[b].waiting + [r], locked := true);
      assert BlkD(c, s, b);
      assert WaitD(s.log, s.cache[b]);
      PutBmD(c, s0, b, bm);
      PoolsD(c, PutBm(s0, b, bm), QueueRequest(c, s, r).0);
    }
  }

  /** A read whose sectors have their bits set on the disk. */
  lemma SetReadD(c: Config, s: Vhd, q: Req)
    requires var b := q.sec / c.spb;
             q.op == OpRead && !q.landed && b in s.bat && ReqBits(c.spb, q) <= BitsAt(s.media.disk, s.bat[b]) &&
             q.addr == s.bat[b] + c.bmSecs + q.sec % c.spb && Wid(s.log, q.wid, false)
    ensures RawD(c, WorldOf(s), s.bat, s.batmap, q)
  {
  }

  lemma DataReadD(c: Config, s: Vhd, wid: nat, sec: nat, n: nat, pool: nat)
    requires Structure(c, s, pool) && OnDisk(c, s) && Wid(s.log, wid, false)
    requires InMap(c, s, sec)
    ensures OnDisk(c, ScheduleDataRead(c, s, Piece(false, wid, sec, Span(c, s, sec, n, true))).0)
  {
    hide Structure;
    hide OnDisk;
    hide RawD;
    hide BlkD;
    if s.free > 0 {
      SetSpan(c, s, wid, sec, n, pool);
      var r := Piece(false, wid, sec, Span(c, s, sec, n, true));
      var q := r.(op := OpRead, addr := BatEntry(s, sec / c.spb) + c.bmSecs + sec % c.spb);
      assert RawD(c, WorldOf(s), s.bat, s.batmap, q) by { SetReadD(c, s, q); }
      PoolsD(c, s, ScheduleDataRead(c, s, r).0);
    } else {
      PoolsD(c, s, ScheduleDataRead(c, s, Piece(false, wid, sec, Span(c, s, sec, n, true))).0);
    }
  }

  lemma BitmapReadD(c: Config, s: Vhd, b: nat, pool: nat)
    requires Structure(c, s, pool) && OnDisk(c, s) && b in s.bat && b !in s.cache
    ensures OnDisk(c, ScheduleBitmapRead(c, s, b).0)
  {
    assert Check(s, true) == s;
    InstallD(c, s, b, InitBm.(reading := true, locked := true), pool);
  }

  /* ---- guest requests ---- */

  lemma ReadTurnD(c: Config, s: Vhd, wid: nat, sec: nat, n: nat, pool: nat)
    requires Structure(c, s, pool) && OnDisk(c, s) && AtMost(c, s) && 0 < n && Wid(s.log, wid, false)
    ensures OnDisk(c, ReadTurn(c, s, wid, sec, n).0)
  {
    hide Structure;
    hide OnDisk;
    hide QueueRequest;
    hide ScheduleDataRead;
    var (s1, hit) := ReadBitmapCache(c, s, sec, false);
    ReadBitmapCacheOk(c, s, sec, false, pool);
    TouchD(c, s, sec, false);
    TouchAtMost(c, s, sec, false);
    match hit
    case OutOfRange =>
    case BatLocked =>
    case BatClear => EmitD(c, s1, Forward(wid, sec, ToBlockEnd(c, sec, n)));
    case BitClear => EmitD(c, s1, Forward(wid, sec, Span(c, s1, sec, n, false)));
    case BitSet => DataReadD(c, s1, wid, sec, n, pool);
    case NotCached =>
      ScheduleBitmapReadOk(c, s1, sec / c.spb, pool);
      BitmapReadD(c, s1, sec / c.spb, pool);
      if ScheduleBitmapRead(c, s1, sec / c.spb).1 == 0 {
        QueueRequestD(c, ScheduleBitmapRead(c, s1, sec / c.spb).0, Piece(false, wid, sec, ToBlockEnd(c, sec, n)));
      }
    case ReadPending => QueueRequestD(c, s1, Piece(false, wid, sec, ToBlockEnd(c, sec, n)));
  }

  lemma TouchAtMost(c: Config, s: Vhd, sec: nat, write: bool)
    requires AtMost(c, s)
    ensures AtMost(c, ReadBitmapCache(c, s, sec, write).0)
  {
    var t := ReadBitmapCache(c, s, sec, write).0;
    forall w: nat, l: nat ensures Total(c, t, w, l) <= if Issued(t.log, w, l) then 1 else 0 {
      TouchTotal(c, s, sec, write, w, l);
    }
  }

  lemma WriteTurnD(c: Config, s: Vhd, wid: nat, sec: nat, n: nat, pool: nat)
    requires Structure(c, s, pool) && OnDisk(c, s) && AtMost(c, s) && 0 < n && Wid(s.log, wid, true)
    ensures OnDisk(c, WriteTurn(c, s, wid, sec, n).0)
  {
    hide Structure;
    hide OnDisk;
    hide QueueRequest;
    hide ScheduleDataWrite;
    var (s1, hit) := ReadBitmapCache(c, s, sec, true);
    ReadBitmapCacheOk(c, s, sec, true, pool);
    TouchD(c, s, sec, true);
    TouchAtMost(c, s, sec, true);
    match hit
    case OutOfRange =>
    case BatLocked =>
    case BatClear =>
      PieceOk(c, true, wid, sec, ToBlockEnd(c, sec, n));
      BitmapWriteD(c, s1, Piece(true, wid, sec, ToBlockEnd(c, sec, n)), true, pool);
    case BitClear =>
      PieceOk(c, true, wid, sec, Span(c, s1, sec, n, false));
      BitmapWriteD(c, s1, Piece(true, wid, sec, Span(c, s1, sec, n, false)), false, pool);
    case BitSet => FullWriteD(c, s1, wid, sec, n, pool);
    case NotCached =>
      ScheduleBitmapReadOk(c, s1, sec / c.spb, pool);
      BitmapReadD(c, s1, sec / c.spb, pool);
      if ScheduleBitmapRead(c, s1, sec / c.spb).1 == 0 {
        QueueRequestD(c, ScheduleBitmapRead(c, s1, sec / c.spb).0, Piece(true, wid, sec, ToBlockEnd(c, sec, n)));
      }
    case ReadPending => QueueRequestD(c, s1, Piece(true, wid, sec, ToBlockEnd(c, sec, n)));
  }

  /* ---- the whole request ---- */

  /** Besides what is in some place, sectors [sec, sec + n) of request wid and the
      requests rs are still in hand. */
  ghost predicate InHand(c: Config, s: Vhd, wid: nat, sec: nat, n: nat, rs: seq<Req>) {
    forall w: nat, l: nat :: Total(c, s, w, l) + (if Taken(w, l, wid, sec, n) then 1 else 0) + CountReqs(rs, w, l)
      <= if Issued(s.log, w, l) then 1 else 0
  }

  lemma InHandAtMost(c: Config, s: Vhd, wid: nat, sec: nat, n: nat, rs: seq<Req>)
    requires InHand(c, s, wid, sec, n, rs)
    ensures AtMost(c, s)
  {
    forall w: nat, l: nat ensures Total(c, s, w, l) <= if Issued(s.log, w, l) then 1 else 0 {
      assert Total(c, s, w, l) + (if Taken(w, l, wid, sec, n) then 1 else 0) + CountReqs(rs, w, l)
        <= if Issued(s.log, w, l) then 1 else 0;
    }
  }

  /** The history of t is that of s and answers. */
  ghost predicate Goes(s: Vhd, t: Vhd) {
    |s.log| <= |t.log| && t.log[..|s.log|] == s.log && forall i :: |s.log| <= i < |t.log| ==> !t.log[i].Issue?
  }

  lemma GoesTrans(r: Vhd, s: Vhd, t: Vhd)
    requires Goes(r, s) && Goes(s, t)
    ensures Goes(r, t)
  {
    assert t.log[..|r.log|] == s.log[..|r.log|];
    forall i | |r.log| <= i < |t.log| ensures !t.log[i].Issue? {
      if i < |s.log| { assert t.log[i] == s.log[i]; }
    }
  }

  lemma GoesIssued(s: Vhd, t: Vhd, w: nat, l: nat)
    requires Goes(s, t)
    ensures Issued(t.log, w, l) <==> Issued(s.log, w, l)
  {
    if w < |s.log| { assert t.log[w] == s.log[w]; }
  }

  lemma TurnGoes(c: Config, s: Vhd, write: bool, wid: nat, sec: nat, n: nat, pool: nat)
    requires Structure(c, s, pool) && 0 < n
    ensures Goes(s, Turn(c, s, write, wid, sec, n).0)
  {
    if write { WriteTurnLog(c, s, wid, sec, n, pool); } else { ReadTurnLog(c, s, wid, sec, n, pool); }
  }

  lemma InstallLog(c: Config, s: Vhd, b: nat, bm: Bm)
    ensures InstallBitmap(c, s, b, bm).0.log == s.log
  {
  }

  lemma QueueLog(c: Config, s: Vhd, r: Req)
    ensures QueueRequest(c, s, r).0.log == s.log && ScheduleDataRead(c, s, r).0.log == s.log
  {
  }

  lemma CacheLog(c: Config, s: Vhd, sec: nat, write: bool)
    ensures ReadBitmapCache(c, s, sec, write).0.log == s.log
  {
  }

  lemma ReadTurnLog(c: Config, s: Vhd, wid: nat, sec: nat, n: nat, pool: nat)
    requires Structure(c, s, pool) && 0 < n
    ensures Goes(s, ReadTurn(c, s, wid, sec, n).0)
  {
    hide Structure;
    hide InstallBitmap;
    hide QueueRequest;
    hide ScheduleDataRead;
    hide ReadBitmapCache;
    hide Span;
    hide ToBlockEnd;
    var (s1, hit) := ReadBitmapCache(c, s, sec, false);
    CacheLog(c, s, sec, false);
    InstallLog(c, Check(s1, sec / c.spb in s1.bat && sec / c.spb !in s1.cache), sec / c.spb,
        InitBm.(reading := true, locked := true));
    var r := Piece(false, wid, sec, ToBlockEnd(c, sec, n));
    QueueLog(c, s1, r);
    QueueLog(c, ScheduleBitmapRead(c, s1, sec / c.spb).0, r);
    QueueLog(c, s1, Piece(false, wid, sec, Span(c, s1, sec, n, true)));
  }

  lemma BitmapWriteLog(c: Config, s: Vhd, r: Req, updBat: bool, pool: nat)
    requires updBat ==> r.sec / c.spb !in s.bat && (s.lock.locked ==> s.lock.blk == r.sec / c.spb)
    requires Structure(c, s, pool)
    ensures ScheduleDataWrite(c, s, r, updBat, true).0.log == s.log
  {
    hide Structure;
    hide AllocateBlock;
    hide UpdateBat;
    assert s.log + [] == s.log;
    if updBat { AllocationLog(c, s, r.sec / c.spb, pool); }
  }

  lemma WriteTurnLog(c: Config, s: Vhd, wid: nat, sec: nat, n: nat, pool: nat)
    requires Structure(c, s, pool) && 0 < n
    ensures Goes(s, WriteTurn(c, s, wid, sec, n).0)
  {
    hide Structure;
    hide InstallBitmap;
    var (s1, hit) := ReadBitmapCache(c, s, sec, true);
    ReadBitmapCacheOk(c, s, sec, true, pool);
    InstallLog(c, Check(s1, sec / c.spb in s1.bat && sec / c.spb !in s1.cache), sec / c.spb,
        InitBm.(reading := true, locked := true));
    if hit == BatClear {
      hide ScheduleDataWrite;
      BitmapWriteLog(c, s1, Piece(true, wid, sec, ToBlockEnd(c, sec, n)), true, pool);
    } else if hit == BitClear {
      hide ScheduleDataWrite;
      BitmapWriteLog(c, s1, Piece(true, wid, sec, Span(c, s1, sec, n, false)), false, pool);
    }
  }

  lemma {:induction false} ServeGoes(c: Config, s: Vhd, write: bool, wid: nat, sec: nat, n: nat, pool: nat)
    requires Structure(c, s, pool)
    ensures Goes(s, Serve(c, s, write, wid, sec, n))
    decreases n
  {
    hide Turn;
    hide Structure;
    if n > 0 {
      TurnGoes(c, s, write, wid, sec, n, pool);
      var (s1, k, err) := Turn(c, s, write, wid, sec, n);
      if err == 0 {
        TurnOk(c, s, write, wid, sec, n, pool);
        ServeGoes(c, s1, write, wid, sec + k, n - k, pool);
        GoesTrans(s, s1, Serve(c, s1, write, wid, sec + k, n - k));
      } else {
        GoesTrans(s, s1, Emit(s1, Done(write, wid, sec, n, err)));
      }
    }
  }

  lemma TurnOk(c: Config, s: Vhd, write: bool, wid: nat, sec: nat, n: nat, pool: nat)
    requires Structure(c, s, pool) && 0 < n
    ensures Structure(c, Turn(c, s, write, wid, sec, n).0, pool)
  {
    hide Structure;
    hide WriteTurn;
    hide ReadTurn;
    if write { WriteTurnOk(c, s, wid, sec, n, pool); } else { ReadTurnOk(c, s, wid, sec, n, pool); }
  }

  lemma TurnTotal(c: Config, s: Vhd, write: bool, wid: nat, sec: nat, n: nat, pool: nat, w: nat, l: nat)
    requires Structure(c, s, pool) && 0 < n
    ensures var (t, k, err) := Turn(c, s, write, wid, sec, n);
            Total(c, t, w, l) == Total(c, s, w, l) + if err == 0 && Taken(w, l, wid, sec, k) then 1 else 0
  {
    hide Structure;
    hide Total;
    hide WriteTurn;
    hide ReadTurn;
    if write { WriteTurnTotal(c, s, wid, sec, n, pool, w, l); } else { ReadTurnTotal(c, s, wid, sec, n, pool, w, l); }
  }

  lemma TurnInHand(c: Config, s: Vhd, write: bool, wid: nat, sec: nat, n: nat, rs: seq<Req>, pool: nat)
    requires Structure(c, s, pool) && InHand(c, s, wid, sec, n, rs) && 0 < n
    ensures var (t, k, err) := Turn(c, s, write, wid, sec, n);
            if err == 0 then InHand(c, t, wid, sec + k, n - k, rs) else InHand(c, t, wid, sec, n, rs)
  {
    hide Structure;
    hide Total;
    hide Turn;
    var (t, k, err) := Turn(c, s, write, wid, sec, n);
    TurnGoes(c, s, write, wid, sec, n, pool);
    forall w: nat, l: nat
      ensures Total(c, t, w, l) +
                (if err == 0 then if Taken(w, l, wid, sec + k, n - k) then 1 else 0
                 else if Taken(w, l, wid, sec, n) then 1 else 0)
              + CountReqs(rs, w, l) <= if Issued(t.log, w, l) then 1 else 0
    {
      TurnTotal(c, s, write, wid, sec, n, pool, w, l);
      GoesIssued(s, t, w, l);
    }
  }

  lemma {:induction false} ServeD(c: Config, s: Vhd, write: bool, wid: nat, sec: nat, n: nat, rs: seq<Req>, pool: nat)
    requires Structure(c, s, pool) && OnDisk(c, s) && InHand(c, s, wid, sec, n, rs) && Wid(s.log, wid, write)
    ensures OnDisk(c, Serve(c, s, write, wid, sec, n))
    decreases n
  {
    hide Structure;
    hide OnDisk;
    hide InHand;
    hide WriteTurn;
    hide ReadTurn;
    if n > 0 {
      InHandAtMost(c, s, wid, sec, n, rs);
      if write { WriteTurnD(c, s, wid, sec, n, pool); } else { ReadTurnD(c, s, wid, sec, n, pool); }
      TurnOk(c, s, write, wid, sec, n, pool);
      TurnGoes(c, s, write, wid, sec, n, pool);
      TurnInHand(c, s, write, wid, sec, n, rs, pool);
      var (s1, k, err) := Turn(c, s, write, wid, sec, n);
      if err != 0 {
        InHandAtMost(c, s1, wid, sec, n, rs);
        EmitD(c, s1, Done(write, wid, sec, n, err));
      } else {
        assert s1.log[wid] == s.log[wid];
        ServeD(c, s1, write, wid, sec + k, n - k, rs, pool);
      }
    }
  }

  lemma {:induction false} ServeInHand(c: Config, s: Vhd, write: bool, wid: nat, sec: nat, n: nat, rs: seq<Req>,
          pool: nat)
    requires Structure(c, s, pool) && InHand(c, s, wid, sec, n, rs)
    ensures forall w: nat, l: nat :: Total(c, Serve(c, s, write, wid, sec, n), w, l) + CountReqs(rs, w, l)
              <= if Issued(Serve(c, s, write, wid, sec, n).log, w, l) then 1 else 0
  {
    hide Structure;
    hide Total;
    hide Serve;
    var t := Serve(c, s, write, wid, sec, n);
    ServeGoes(c, s, write, wid, sec, n, pool);
    forall w: nat, l: nat ensures Total(c, t, w, l) + CountReqs(rs, w, l) <= if Issued(t.log, w, l) then 1 else 0 {
      ServeTotal(c, s, write, wid, sec, n, pool, w, l);
      GoesIssued(s, t, w, l);
    }
  }

  /* ---- a bitmap has been read ---- */

  ghost predicate Pending(c: Config, s: Vhd, rs: seq<Req>) {
    forall w: nat, l: nat :: Total(c, s, w, l) + CountReqs(rs, w, l) <= if Issued(s.log, w, l) then 1 else 0
  }

  lemma FirstInHand(c: Config, s: Vhd, rs: seq<Req>)
    requires rs != [] && Pending(c, s, rs)
    ensures InHand(c, s.(free := s.free + 1), rs[0].wid, rs[0].sec, rs[0].secs, rs[1..])
  {
    var t := s.(free := s.free + 1);
    forall w: nat, l: nat
      ensures Total(c, t, w, l) + (if Taken(w, l, rs[0].wid, rs[0].sec, rs[0].secs) then 1 else 0) +
                CountReqs(rs[1..], w, l)
        <= if Issued(t.log, w, l) then 1 else 0
    {
      FreeTotal(c, s, w, l);
      CountReqsConcat([rs[0]], rs[1..], w, l);
      CountRawOne(rs[0], w, l);
      assert rs == [rs[0]] + rs[1..];
    }
  }

  lemma {:induction false} ReplayD(c: Config, s: Vhd, rs: seq<Req>, pool: nat)
    requires |rs| <= pool && Structure(c, s, pool - |rs|) && OnDisk(c, s) && Pending(c, s, rs)
    requires forall r :: r in rs ==> Wid(s.log, r.wid, r.op == OpWrite)
    ensures OnDisk(c, Replay(c, s, rs))
    decreases |rs|
  {
    hide Structure;
    hide OnDisk;
    hide Serve;
    hide InHand;
    hide Total;
    if rs != [] {
      var r := rs[0];
      var s1 := s.(free := s.free + 1);
      FreeOk(c, s, pool - |rs|);
      PoolsD(c, s, s1);
      FirstInHand(c, s, rs);
      ServeD(c, s1, r.op == OpWrite, r.wid, r.sec, r.secs, rs[1..], pool - |rs| + 1);
      ServeOk(c, s1, r.op == OpWrite, r.wid, r.sec, r.secs, pool - |rs| + 1);
      ServeGoes(c, s1, r.op == OpWrite, r.wid, r.sec, r.secs, pool - |rs| + 1);
      ServeInHand(c, s1, r.op == OpWrite, r.wid, r.sec, r.secs, rs[1..], pool - |rs| + 1);
      var t := Serve(c, s1, r.op == OpWrite, r.wid, r.sec, r.secs);
      forall q | q in rs[1..] ensures Wid(t.log, q.wid, q.op == OpWrite) {
        assert q in rs && t.log[q.wid] == s.log[q.wid];
      }
      ReplayD(c, t, rs[1..], pool);
    }
  }

  lemma LoadedD(c: Config, s: Vhd, b: nat, pool: nat)
    requires Structure(c, s, pool) && OnDisk(c, s) && b in s.cache && s.cache[b].reading
    ensures OnDisk(c, BitmapLoaded(c, s, b))
  {
    assert BlockOk(c, s, b);
    assert BlkD(c, s, b);
    var m := BitsAt(s.media.disk, BatEntry(s, b)) * Full(c);
    assert m == BitsAt(s.media.disk, s.bat[b]);
    var bm := s.cache[b].(reading := false, waiting := [], bits := m, shadow := m);
    var s0 := Check(s, s.cache[b].reading);
    assert s0 == s;
    PutBmD(c, s, b, bm);
  }

  lemma LoadedPending(c: Config, s: Vhd, b: nat, pool: nat)
    requires Structure(c, s, pool) && AtMost(c, s) && b in s.cache && s.cache[b].reading
    ensures Pending(c, BitmapLoaded(c, s, b), s.cache[b].waiting)
  {
    var t := BitmapLoaded(c, s, b);
    var bm := s.cache[b];
    ReqsOkOf(c, s, b, pool);
    forall w: nat, l: nat
      ensures Total(c, t, w, l) + CountReqs(bm.waiting, w, l) <= if Issued(t.log, w, l) then 1 else 0
    {
      BitmapLoadedTotal(c, s, b, w, l);
      if l / c.spb != b { NotInBlock(c, b, bm, w, l); }
    }
  }

  lemma UnlockD(c: Config, s: Vhd, b: nat)
    requires OnDisk(c, s)
    ensures OnDisk(c, UnlockCached(s, b))
  {
    if b in s.cache {
      assert BlkD(c, s, b) && WaitD(s.log, s.cache[b]);
      hide OnDisk;
      hide Put;
      var k := UnlockIfIdle(At(s, b));
      PutBmD(c, s, b, k.bm);
      PutSame(s, b, k);
    }
  }

  lemma LoadFailedD(c: Config, s: Vhd, b: nat, err: int, pool: nat)
    requires Structure(c, s, pool) && OnDisk(c, s) && AtMost(c, s) && b in s.cache && s.cache[b].reading && err != 0
    ensures OnDisk(c, FinishBitmapRead(c, s, b, err))
  {
    assert BlockOk(c, s, b);
    var t := FinishBitmapRead(c, s, b, err);
    var s1 := s.(free := t.free, log := t.log);
    LogOnDisk(c, s, s1);
    DropD(c, s1, t, b);
  }

  lemma DoneBitmapReadD(c: Config, s: Vhd, b: nat, err: int, pool: nat)
    requires Structure(c, s, pool) && OnDisk(c, s) && AtMost(c, s) && Enabled(s, DoneBitmapRead(b, err))
    ensures OnDisk(c, FinishBitmapRead(c, s, b, err))
  {
    if err != 0 {
      LoadFailedD(c, s, b, err, pool);
    } else {
      var waiting := s.cache[b].waiting;
      forall r | r in waiting ensures Wid(s.log, r.wid, r.op == OpWrite) { assert WaitD(s.log, s.cache[b]); }
      hide Structure;
      hide OnDisk;
      LoadedD(c, s, b, pool);
      LoadedPending(c, s, b, pool);
      BitmapLoadedOk(c, s, b, pool);
      ReplayD(c, BitmapLoaded(c, s, b), waiting, pool);
      UnlockD(c, Replay(c, BitmapLoaded(c, s, b), waiting), b);
    }
  }

  /** A new request has all of its sectors in hand. */
  lemma RequestInHand(c: Config, s: Vhd, write: bool, sec: nat, n: nat, pool: nat)
    requires Structure(c, s, pool) && OnDisk(c, s) && Accounts(c, s)
    ensures var s1 := Emit(s, Issue(write, sec, n));
            Structure(c, s1, pool) && OnDisk(c, s1) && InHand(c, s1, |s.log|, sec, n, []) && Wid(s1.log, |s.log|, write)
  {
    var e := Issue(write, sec, n);
    var s1 := Emit(s, e);
    assert AtMost(c, s);
    EmitD(c, s, e);
    MediaIrrelevant(c, s, s1, pool);
    forall w: nat, l: nat
      ensures Total(c, s1, w, l) + (if Taken(w, l, |s.log|, sec, n) then 1 else 0) + CountReqs([], w, l)
        <= if Issued(s1.log, w, l) then 1 else 0
    {
      EmitTotal(c, s, e, w, l);
      assert Total(c, s, w, l) == if Issued(s.log, w, l) then 1 else 0;
      if w < |s.log| { assert s1.log[w] == s.log[w]; }
    }
  }

  lemma RequestD(c: Config, s: Vhd, write: bool, sec: nat, n: nat, pool: nat)
    requires Structure(c, s, pool) && OnDisk(c, s) && Accounts(c, s)
    ensures OnDisk(c, Next(c, s, Request(write, sec, n)))
  {
    hide Structure;
    hide OnDisk;
    hide Serve;
    hide InHand;
    hide Accounts;
    RequestInHand(c, s, write, sec, n, pool);
    ServeD(c, Emit(s, Issue(write, sec, n)), write, |s.log|, sec, n, [], pool);
  }
}
