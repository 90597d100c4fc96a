/** Completions keep `OnDisk`: the file stays consistent with memory, and every write
    signalled with success can be read back. */
module VhdDurability {
  import opened Arithmetic
  import opened VhdTypes
  import opened VhdEngine
  import opened VhdInvariants
  import opened VhdStructure
  import opened VhdSafety
  import opened VhdAccounting
  import opened VhdMoves
  import opened VhdLayout
  import opened VhdDisk

  /** v2 is a later world with the same disk. */
  ghost predicate SameDisk(v: World, v2: World) {
    && |v.log| <= |v2.log| && v2.log[..|v.log|] == v.log
    && (forall l, a :: v.synced(l, a) ==> v2.synced(l, a))
    && (forall a :: v2.disk(a) == v.disk(a))
  }

  function PlaceOfBlk(k: Blk): Place {
    if k.alloc then Place(k.at, true)
    else if k.Holds() then Place(k.lock.off, k.lock.err == 0 && k.lock.started)
    else NoPlace
  }

  /** The requests of G are writes of block b with their extent at `off`. */
  ghost predicate AllWriteD(c: Config, v: World, off: int, b: nat, G: set<Req>) {
    forall r :: r in G ==> WriteOk(c, b, r) && WriteD(c, v, off, r)
  }

  /** The bitmap on the disk is S, with data behind every bit. */
  ghost predicate DiskBitmap(c: Config, v: World, off: int, b: nat, S: set<nat>) {
    S == BitsAt(v.disk, off) && BitmapAt(c, v.disk, off, S) && S <= Full(c) && Backed(c, v, off, b, S)
  }

  /** Block k in world v: it tracks the disk. */
  ghost predicate KD(c: Config, v: World, k: Blk, G: set<Req>, S: set<nat>) {
    && Tracks(c, k, G, S) && VhdMoves.Placed(k)
    && (PlaceOfBlk(k).Place? ==> AllWriteD(c, v, Home(k), k.b, G))
    && (HasExtent(k) ==> DiskBitmap(c, v, Home(k), k.b, S))
  }

  lemma BlockFromTracks(c: Config, v: World, k: Blk, zero: Io, bat: Io, G: set<Req>, S: set<nat>)
    requires KD(c, v, k, G, S)
    ensures BlockD(c, v, k.b, PlaceOfBlk(k), HoldK(k, zero, bat), InCache(k.bm), k.full)
  {
  }

  lemma AllWriteLater(c: Config, v: World, v2: World, off: int, b: nat, G: set<Req>)
    requires AllWriteD(c, v, off, b, G) && SameDisk(v, v2)
    ensures AllWriteD(c, v2, off, b, G)
  {
    forall r | r in G ensures WriteD(c, v2, off, r) { WriteLater(c, v, v2, off, r); }
  }

  lemma KDLater(c: Config, v: World, v2: World, k: Blk, G: set<Req>, S: set<nat>)
    requires KD(c, v, k, G, S) && SameDisk(v, v2)
    ensures KD(c, v2, k, G, S)
  {
    if PlaceOfBlk(k).Place? { AllWriteLater(c, v, v2, Home(k), k.b, G); }
    if HasExtent(k) { BackedLater(c, v, v2, Home(k), k.b, S); }
  }

  /* ---- from the state to a block and back ---- */

  /** All writes of a block that matter. */
  ghost function WritesOf(bm: Bm): set<Req> {
    (set r | r in bm.tx.reqs && !Harmless(bm, r)) + (set r | r in bm.queue)
  }

  /** The same with write r, if it matters, replaced by r'. */
  ghost function WritesWith(bm: Bm, r: Req, r': Req): set<Req> {
    WritesOf(bm) + if r in WritesOf(bm) then {r'} else {}
  }

  /** What OnDisk says of a cached bitmap that is not being read. */
  lemma KDOf(c: Config, s: Vhd, b: nat, pool: nat)
    requires Structure(c, s, pool) && OnDisk(c, s) && b in s.cache && !s.cache[b].reading
    ensures var k := At(s, b);
            var S := if HasExtent(k) then BitsAt(s.media.disk, Home(k)) else {};
            KD(c, WorldOf(s), k, WritesOf(k.bm), S)
  {
    assert BlockOk(c, s, b);
    assert BlkD(c, s, b);
  }

  lemma FileParts(c: Config, s: Vhd)
    requires OnDisk(c, s)
    ensures Layout(c, s.bat, s.nextDb) && MetaD(c, s)
  {
  }

  /** The extents of all other blocks, and everything else, as Put leaves them. */
  ghost predicate PutContext(c: Config, s: Vhd, s1: Vhd, k: Blk) {
    && k.b in s.cache
    && s1.cache == s.cache && s1.raw == s.raw && s1.batmap == s.batmap && s1.log == s.log
    && SameDisk(WorldOf(s), WorldOf(s1))
    && (s1.bat == s.bat || (k.b !in s.bat && s1.bat == s.bat[k.b := Home(k)]))
    && k.alloc == (k.b in s1.bat) && k.at == BatEntry(s1, k.b)
    && (forall x :: x != k.b ==> HoldOf(s, x) == HoldOf(Put(s1, k), x))
    && (s.lock.locked && s.lock.blk != k.b ==> k.lock == s.lock)
    && (k.lock.locked && k.lock.blk != k.b ==> k.lock == s.lock)
    && Layout(c, s1.bat, s1.nextDb) && MetaD(c, Put(s1, k))
    && (k.b in s.batmap ==> k.full)
  }

  lemma PutWorld(s1: Vhd, k: Blk)
    requires k.b in s1.cache
    ensures SameDisk(WorldOf(s1), WorldOf(Put(s1, k)))
  {
  }

  lemma SameDiskTrans(u: World, v: World, w: World)
    requires SameDisk(u, v) && SameDisk(v, w)
    ensures SameDisk(u, w)
  {
    assert w.log[..|u.log|] == v.log[..|u.log|];
  }

  lemma PutBlocks(c: Config, s: Vhd, s1: Vhd, k: Blk, G: set<Req>, S: set<nat>, x: nat)
    requires OnDisk(c, s) && PutContext(c, s, s1, k) && KD(c, WorldOf(s1), k, G, S)
    ensures BlkD(c, Put(s1, k), x)
  {
    var t := Put(s1, k);
    PutWorld(s1, k);
    if x == k.b {
      KDLater(c, WorldOf(s1), WorldOf(t), k, G, S);
      BlockFromTracks(c, WorldOf(t), k, s1.meta.zero, s1.meta.bat, G, S);
      assert PlaceOf(t, x) == PlaceOfBlk(k);
    } else {
      SameDiskTrans(WorldOf(s), WorldOf(s1), WorldOf(t));
      assert BlkD(c, s, x);
      assert PlaceOf(t, x) == PlaceOf(s, x) && CachedOf(t, x) == CachedOf(s, x);
      BlockLater(c, WorldOf(s), WorldOf(t), x, PlaceOf(s, x), HoldOf(s, x), CachedOf(s, x), x in s.batmap);
    }
  }

  /** A newly signalled success is stored. */
  lemma SignalledStored(c: Config, v: World, k: Blk, G: set<Req>, S: set<nat>, bat: map<nat, nat>, e: Ev, l: nat)
    requires KD(c, v, k, G, S) && e in k.out && Acknowledges(e, l) && k.b in bat && bat[k.b] == k.at
    ensures Stored(c, v, bat, l, e.wid) && e.wid < |v.log|
  {
    assert Justified(c, e, G, S, k.alloc);
    var r :| r in G && Signals(c, e, r, S);
    assert WriteOk(c, k.b, r) && WriteD(c, v, Home(k), r);
    InBlockRange(c, k.b, r, l);
    assert l % c.spb in ReqBits(c.spb, r);
  }

  lemma AnsweredOnce(c: Config, s: Vhd, i: nat, l: nat)
    requires AtMost(c, s) && i < |s.log| && Acknowledges(s.log[i], l)
    ensures s.log[i].wid < |s.log|
  {
    OneSettles(s.log, i, s.log[i].wid, l);
    assert Total(c, s, s.log[i].wid, l) > 0;
  }

  lemma PutAcks(c: Config, s: Vhd, s1: Vhd, k: Blk, G: set<Req>, S: set<nat>)
    requires OnDisk(c, s) && PutContext(c, s, s1, k) && KD(c, WorldOf(s1), k, G, S)
    requires AtMost(c, s)
    ensures AckD(c, WorldOf(Put(s1, k)), s1.bat)
  {
    var t := Put(s1, k);
    var v, v1, v2 := WorldOf(s), WorldOf(s1), WorldOf(t);
    PutWorld(s1, k);
    SameDiskTrans(v, v1, v2);
    forall i, l: nat | 0 <= i < |v2.log| && Acknowledges(v2.log[i], l)
      ensures v2.log[i].wid < i && Stored(c, v2, s1.bat, l, v2.log[i].wid)
    {
      var e := v2.log[i];
      if i < |v.log| {
        assert e == v.log[i];
        StoredLater(c, v, v2, s.bat, s1.bat, l, e.wid);
      } else {
        assert e == k.out[i - |v.log|];
        assert Justified(c, e, G, S, k.alloc);
        SignalledStored(c, v1, k, G, S, s1.bat, e, l);
        StoredLater(c, v1, v2, s1.bat, s1.bat, l, e.wid);
      }
    }
  }

  lemma PutRaw(c: Config, s: Vhd, s1: Vhd, k: Blk)
    requires OnDisk(c, s) && PutContext(c, s, s1, k)
    ensures var t := Put(s1, k); forall r :: r in t.raw ==> RawD(c, WorldOf(t), t.bat, t.batmap, r)
  {
    var t := Put(s1, k);
    PutWorld(s1, k);
    SameDiskTrans(WorldOf(s), WorldOf(s1), WorldOf(t));
    forall r | r in t.raw ensures RawD(c, WorldOf(t), t.bat, t.batmap, r) {
      RawLater(c, WorldOf(s), WorldOf(t), s.bat, t.bat, s.batmap, t.batmap, r);
    }
  }

  lemma PutOnDisk(c: Config, s: Vhd, s1: Vhd, k: Blk, G: set<Req>, S: set<nat>)
    requires OnDisk(c, s) && PutContext(c, s, s1, k) && KD(c, WorldOf(s1), k, G, S) && AtMost(c, s)
    ensures OnDisk(c, Put(s1, k))
  {
    var t := Put(s1, k);
    forall x ensures BlkD(c, t, x) { PutBlocks(c, s, s1, k, G, S, x); }
    PutAcks(c, s, s1, k, G, S);
    PutRaw(c, s, s1, k);
    forall x | x in t.cache ensures WaitD(t.log, t.cache[x]) {
      if x != k.b { assert WaitD(s.log, s.cache[x]); }
    }
  }

  /* ---- completions ---- */

  lemma TracksMore(c: Config, k: Blk, G: set<Req>, G': set<Req>, S: set<nat>)
    requires Tracks(c, k, G, S) && G <= G'
    ensures Tracks(c, k, G', S)
  {
    forall e | e in k.out ensures Justified(c, e, G', S, k.alloc) {
      assert Justified(c, e, G, S, k.alloc);
      if e.err == 0 {
        var r :| r in G && Signals(c, e, r, S);
        assert r in G' && Signals(c, e, r, S);
      }
    }
  }

  /** What ending transactions does to the lock suits the embedded requests. */
  lemma MetaAfter(c: Config, s: Vhd, s1: Vhd, k: Blk, pool: nat)
    requires Structure(c, s, pool) && MetaD(c, s) && k.b in s.cache
    requires s1 == s.(media := s1.media) && s1.media.bat == s.media.bat && s1.media.disk == s.media.disk
    requires KFrame(At(s, k.b), k, s.meta.zero, s.meta.bat)
    ensures MetaD(c, Put(s1, k))
    ensures forall x :: x != k.b ==> HoldOf(s, x) == HoldOf(Put(s1, k), x)
    ensures s.lock.locked && s.lock.blk != k.b ==> k.lock == s.lock
    ensures k.lock.locked && k.lock.blk != k.b ==> k.lock == s.lock
  {
  }

  lemma EndContext(c: Config, s: Vhd, s1: Vhd, k: Blk, pool: nat)
    requires Structure(c, s, pool) && Layout(c, s.bat, s.nextDb) && MetaD(c, s) && k.b in s.cache
    requires s1 == s.(media := s1.media) && s1.media.bat == s.media.bat && SameDisk(WorldOf(s), WorldOf(s1))
    requires s1.media.disk == s.media.disk
    requires KFrame(At(s, k.b), k, s.meta.zero, s.meta.bat) && (k.b in s.batmap ==> k.full)
    ensures PutContext(c, s, s1, k)
  {
    MetaAfter(c, s, s1, k, pool);
  }

  lemma FinishedWriteD(c: Config, s: Vhd, off: int, b: nat, r: Req, err: int)
    requires WriteD(c, WorldOf(s), off, r) && WriteOk(c, b, r) && CanFinish(r, err)
    ensures WriteD(c, WorldOf(Sync(s, r, err)), off, r.(finished := true, err := err))
  {
    var v1 := WorldOf(Sync(s, r, err));
    var r' := r.(finished := true, err := err);
    WriteLater(c, WorldOf(s), v1, off, r);
    forall l: nat | r.sec <= l < r.sec + r.secs ensures err == 0 ==> Synced(c, v1, off, l) {
      InBlockRange(c, b, r, l);
    }
  }

  lemma SyncSameDisk(s: Vhd, r: Req, err: int)
    ensures SameDisk(WorldOf(s), WorldOf(Sync(s, r, err)))
  {
  }

  /** A full block stays full, and only completions are added to the history. */
  ghost predicate Stays(k: Blk, k': Blk) {
    && k'.b == k.b && (k.full ==> k'.full)
    && ((forall e :: e in k.out ==> e.Done?) ==> (forall e :: e in k'.out ==> e.Done?))
  }

  lemma {:induction false} FinishDataTxStays(c: Config, k: Blk)
    ensures Stays(k, FinishDataTx(c, k))
    decreases |k.bm.queue|, 3
  {
    if k.bm.tx.error != 0 { FinishBitmapTxStays(c, Closed(k), 0); }
  }

  lemma {:induction false} FinishBitmapTxStays(c: Config, k: Blk, error: int)
    ensures Stays(k, FinishBitmapTx(c, k, error))
    decreases |k.bm.queue|, 2
  {
    hide StartNewTx;
    if c.prealloc || !k.bm.tx.updateBat {
      var k1 := EndTx(c, WithError(k, error));
      assert Stays(k, k1);
      StartNewTxStays(c, k1);
      assert FinishBitmapTx(c, k, error) == FinishBatTx(UnlockIfIdle(StartNewTx(c, k1))) by { hide EndTx; }
    }
  }

  lemma {:induction false} StartNewTxStays(c: Config, k: Blk)
    ensures Stays(k, StartNewTx(c, k))
    decreases |k.bm.queue|, 1
  {
    if k.bm.queue != [] && Completed(QueueToTx(c, k).bm.tx) { FinishDataTxStays(c, QueueToTx(c, k)); }
  }

  lemma TxWriteDoneStays(c: Config, k: Blk, i: nat, err: int)
    requires i < |k.bm.tx.reqs|
    ensures Stays(k, TxWriteDone(c, k, i, err))
  {
    FinishDataTxStays(c, TxWriteMark(c, k, i, err));
  }

  lemma ZeroWrittenStays(c: Config, k: Blk, err: int)
    ensures Stays(k, ZeroWritten(c, k, err))
  {
    FinishDataTxStays(c, ZeroMark(k, err));
  }

  lemma BatWrittenStays(c: Config, k: Blk, err: int)
    ensures Stays(k, BatWritten(c, k, err))
  {
    hide FinishDataTx;
    hide FinishBitmapTx;
    FinishDataTxStays(c, BatMark(c, k, err));
    FinishBitmapTxStays(c, BatMark(c, k, err), err);
  }

  lemma BitmapWrittenStays(c: Config, k: Blk, err: int)
    ensures Stays(k, BitmapWritten(c, k, err))
  {
    FinishBitmapTxStays(c,
      Assert(k, k.bm.tx.closed && !k.bm.reading && k.bm.write != Idle).(bm := k.bm.(write := Idle)), err);
  }

  /** Write r has finished and is marked. */
  lemma MarkedAll(c: Config, s: Vhd, b: nat, r: Req, err: int, pool: nat)
    requires Structure(c, s, pool) && OnDisk(c, s) && b in s.cache && !s.cache[b].reading
    requires CanFinish(r, err)
    ensures var k := At(s, b);
            PlaceOfBlk(k).Place? ==>
              AllWriteD(c, WorldOf(Sync(s, r, err)), Home(k), b, WritesWith(k.bm, r, r.(finished := true, err := err)))
  {
    var k := At(s, b);
    KDOf(c, s, b, pool);
    if PlaceOfBlk(k).Place? {
      SyncSameDisk(s, r, err);
      AllWriteLater(c, WorldOf(s), WorldOf(Sync(s, r, err)), Home(k), b, WritesOf(k.bm));
      if r in WritesOf(k.bm) { FinishedWriteD(c, s, Home(k), b, r, err); }
    }
  }

  /** Ending transactions of block k.b keeps the disk consistent with memory. */
  lemma EndOnDisk(c: Config, s: Vhd, s1: Vhd, k': Blk, G: set<Req>, S: set<nat>, pool: nat)
    requires Structure(c, s, pool) && AtMost(c, s) && OnDisk(c, s) && k'.b in s.cache && !s.cache[k'.b].reading
    requires s1 == s.(media := s1.media) && s1.media.bat == s.media.bat && SameDisk(WorldOf(s), WorldOf(s1))
    requires s1.media.disk == s.media.disk
    requires KFrame(At(s, k'.b), k', s.meta.zero, s.meta.bat) && (k'.b in s.batmap ==> k'.full)
    requires Tracks(c, k', G, S) && VhdMoves.Placed(k')
    requires var k := At(s, k'.b);
             (HasExtent(k) ==> S == BitsAt(s.media.disk, Home(k))) &&
             (PlaceOfBlk(k).Place? ==> AllWriteD(c, WorldOf(s1), Home(k), k.b, G))
    ensures OnDisk(c, Put(s1, k'))
  {
    hide OnDisk;
    hide Structure;
    var k := At(s, k'.b);
    var S0 := if HasExtent(k) then BitsAt(s.media.disk, Home(k)) else {};
    KDOf(c, s, k'.b, pool);
    assert KD(c, WorldOf(s1), k', G, S) by {
      if HasExtent(k') {
        assert HasExtent(k) && Home(k') == Home(k);
        BackedLater(c, WorldOf(s), WorldOf(s1), Home(k), k.b, S);
      }
    }
    FileParts(c, s);
    EndContext(c, s, s1, k', pool);
    PutOnDisk(c, s, s1, k', G, S);
  }

  /** The bitmap of block b on the disk, as far as it is initialised. */
  function DiskBits(s: Vhd, b: nat): set<nat>
    requires b in s.cache
  {
    if HasExtent(At(s, b)) then BitsAt(s.media.disk, Home(At(s, b))) else {}
  }

  lemma TracksOf(c: Config, s: Vhd, b: nat, G: set<Req>, pool: nat)
    requires Structure(c, s, pool) && OnDisk(c, s) && b in s.cache && !s.cache[b].reading
    requires WritesOf(s.cache[b]) <= G
    ensures Tracks(c, At(s, b), G, DiskBits(s, b)) && VhdMoves.Placed(At(s, b))
    ensures PlaceOfBlk(At(s, b)).Place? ==> AllWriteD(c, WorldOf(s), Home(At(s, b)), b, WritesOf(s.cache[b]))
    ensures b in s.batmap <==> At(s, b).full
  {
    KDOf(c, s, b, pool);
    TracksMore(c, At(s, b), WritesOf(s.cache[b]), G, DiskBits(s, b));
  }

  lemma BusyNotReading(c: Config, s: Vhd, b: nat, pool: nat)
    requires Structure(c, s, pool) && b in s.cache
    requires s.cache[b].tx.reqs != [] || s.cache[b].queue != [] || s.cache[b].write != Idle
    ensures !s.cache[b].reading
  {
    assert BlockOk(c, s, b);
  }

  lemma DoneTxD(c: Config, s: Vhd, b: nat, i: nat, err: int, pool: nat)
    requires Structure(c, s, pool) && AtMost(c, s) && OnDisk(c, s) && Enabled(s, DoneTx(b, i, err))
    ensures OnDisk(c, FinishTxWrite(c, s, b, i, err))
  {
    hide Structure;
    hide OnDisk;
    hide TxWriteDone;
    hide Tracks;
    hide AllWriteD;
    AtOk(c, s, b, pool);
    var k := At(s, b);
    var r := k.bm.tx.reqs[i];
    assert r in k.bm.tx.reqs;
    BusyNotReading(c, s, b, pool);
    var G := WritesWith(k.bm, r, r.(finished := true, err := err));
    TracksOf(c, s, b, G, pool);
    MarkedAll(c, s, b, r, err, pool);
    var k' := TxWriteDone(c, k, i, err);
    TxWriteDoneTracks(c, k, i, err, G, DiskBits(s, b), s.meta.zero, s.meta.bat);
    TxWriteDoneOk(c, k, i, err, s.meta.zero, s.meta.bat);
    SyncSameDisk(s, r, err);
    TxWriteDoneStays(c, k, i, err);
    EndOnDisk(c, s, Sync(s, r, err), k', G, DiskBits(s, b), pool);
  }

  lemma DoneQueueD(c: Config, s: Vhd, b: nat, i: nat, err: int, pool: nat)
    requires Structure(c, s, pool) && AtMost(c, s) && OnDisk(c, s) && Enabled(s, DoneQueue(b, i, err))
    ensures OnDisk(c, FinishQueuedWrite(s, b, i, err))
  {
    hide Structure;
    hide OnDisk;
    hide Tracks;
    hide AllWriteD;
    AtOk(c, s, b, pool);
    var k := At(s, b);
    var r := k.bm.queue[i];
    assert r in k.bm.queue;
    BusyNotReading(c, s, b, pool);
    var G := WritesWith(k.bm, r, r.(finished := true, err := err));
    TracksOf(c, s, b, G, pool);
    MarkedAll(c, s, b, r, err, pool);
    QueuedWriteDoneTracks(c, k, i, err, G, DiskBits(s, b));
    QueuedWriteDoneOk(c, k, i, err, s.meta.zero, s.meta.bat);
    SyncSameDisk(s, r, err);
    EndOnDisk(c, s, Sync(s, r, err), QueuedWriteDone(k, i, err), G, DiskBits(s, b), pool);
  }

  lemma DoneBitmapWriteD(c: Config, s: Vhd, b: nat, err: int, pool: nat)
    requires Structure(c, s, pool) && AtMost(c, s) && OnDisk(c, s) && Enabled(s, DoneBitmapWrite(b, err))
    ensures OnDisk(c, FinishBitmapWrite(c, s, b, err))
  {
    hide Structure;
    hide OnDisk;
    hide Tracks;
    hide AllWriteD;
    hide BitmapWritten;
    AtOk(c, s, b, pool);
    var k := At(s, b);
    BusyNotReading(c, s, b, pool);
    var G := WritesOf(k.bm);
    TracksOf(c, s, b, G, pool);
    BitmapWrittenTracks(c, k, err, G, DiskBits(s, b), s.meta.zero, s.meta.bat);
    BitmapWrittenOk(c, k, err, s.meta.zero, s.meta.bat);
    BitmapWrittenStays(c, k, err);
    EndOnDisk(c, s, s, BitmapWritten(c, k, err), G, DiskBits(s, b), pool);
  }

  /** The zero-bitmap write failed, and a write of the same transaction may still reach
      the disk. */
  ghost predicate LeavesWritesBehind(s: Vhd, err: int) {
    err != 0 && s.lock.blk in s.cache && exists r :: r in s.cache[s.lock.blk].tx.reqs && !r.Spent()
  }

  /** The state in which finish_zero_bm_write turns to the transaction. */
  function AfterZeroWrite(s: Vhd, err: int): Vhd {
    var s0 := s.(meta := s.meta.(zero := Idle));
    if err != 0 then s0.(lock := InitLock) else ScheduleBatWrite(s0)
  }

  lemma ZeroMeta(c: Config, s: Vhd, err: int, k': Blk)
    requires MetaD(c, s) && s.meta.zero != Idle && s.meta.bat == Idle && s.lock.locked && s.lock.blk == k'.b
    requires k'.lock == AfterZero(s.lock, err) || (k'.lock == InitLock && err != 0) ||
             (err == 0 && k'.lock.(tx := false) == AfterZero(s.lock, err))
    ensures MetaD(c, Put(AfterZeroWrite(s, err), k'))
  {
    if err == 0 {
      var t := Put(AfterZeroWrite(s, err), k');
      assert BatSector(t.bat, t.lock, t.meta);
    }
  }

  /** The block that holds the BAT lock is not on the disk yet. */
  lemma HolderFacts(c: Config, s: Vhd, pool: nat)
    requires s.lock.locked && Structure(c, s, pool)
    ensures s.lock.blk in s.cache && s.lock.blk !in s.bat && s.lock.blk !in s.batmap
    ensures s.meta.zero != Idle ==> s.meta.bat == Idle && s.lock.err == 0
  {
    assert BlockOk(c, s, s.lock.blk);
  }

  lemma HolderKnown(c: Config, s: Vhd, pool: nat)
    requires Structure(c, s, pool)
    ensures s.meta.zero != Idle || s.meta.bat != Idle ==> s.lock.locked
  {
    hide BlockOk;
  }

  lemma ZeroContext(c: Config, s: Vhd, err: int, k': Blk, pool: nat)
    requires s.meta.zero != Idle && k'.b == s.lock.blk
    requires var s1 := AfterZeroWrite(s, err);
             k'.b in s1.cache && KFrame(At(s1, k'.b), k', Idle, s1.meta.bat)
    requires Structure(c, s, pool) && Layout(c, s.bat, s.nextDb) && MetaD(c, s)
    ensures PutContext(c, s, AfterZeroWrite(s, err), k')
  {
    hide Structure;
    hide Layout;
    HolderKnown(c, s, pool);
    HolderFacts(c, s, pool);
    ZeroMeta(c, s, err, k');
  }

  lemma DoneZeroD(c: Config, s: Vhd, err: int, pool: nat)
    requires Structure(c, s, pool) && AtMost(c, s) && OnDisk(c, s)
    requires Enabled(s, DoneZero(err)) && !LeavesWritesBehind(s, err)
    ensures OnDisk(c, FinishZeroBmWrite(c, s, err))
  {
    hide ZeroWritten;
    var b := s.lock.blk;
    AtOk(c, s, b, pool);
    var k := At(s, b);
    assert k.Holds() && s.meta.bat == Idle && !k.alloc && !k.bm.reading && k.bm.locked;
    var s1 := AfterZeroWrite(s, err);
    assert At(s1, b) == k.(lock := AfterZero(k.lock, err));
    var k' := ZeroWritten(c, At(s1, b), err);
    var G := WritesOf(k.bm);
    KDOf(c, s, b, pool);
    ZeroWrittenOk(c, k, err, s.meta.zero);
    ZeroWrittenTracks(c, k, err, G, s.meta.zero);
    ZeroContext(c, s, err, k', pool);
    assert KD(c, WorldOf(s1), k', G, {}) by { hide OnDisk; hide Structure; ZeroKD(c, s, s1, k', G, err); }
    hide OnDisk;
    PutOnDisk(c, s, s1, k', G, {});
  }

  lemma ZeroKD(c: Config, s: Vhd, s1: Vhd, k': Blk, G: set<Req>, err: int)
    requires MetaD(c, s) && s.lock.locked && s.lock.blk == k'.b && s.lock.err == 0 && k'.b !in s.bat && k'.b in s.cache
    requires IoOutcome(s.meta.zero, err)
    requires s1.media == s.media && s1.log == s.log && s1.cache == s.cache && s1.lock == AfterZero(s.lock, err)
    requires Tracks(c, k', G, {}) && VhdMoves.Placed(k') && !k'.alloc
    requires k'.lock == s1.lock || k'.lock == InitLock || k'.lock.(tx := s1.lock.tx) == s1.lock
    requires AllWriteD(c, WorldOf(s), s.lock.off, k'.b, G)
    ensures KD(c, WorldOf(s1), k', G, {})
  {
    if HasExtent(k') {
      assert err == 0 && BitmapAt(c, s.media.disk, s.lock.off, {});
      assert s.media.disk(s.lock.off) == Bits({});
    }
  }

  lemma {:induction false} UnfinishedCounts(rs: seq<Req>, r: Req)
    requires r in rs && !r.finished
    ensures FinishedCount(rs) < |rs|
  {
    var i :| 0 <= i < |rs| && rs[i] == r;
    if FinishedCount(rs) == |rs| { AllFinished(rs, i); }
  }

  lemma BatContext(c: Config, s: Vhd, err: int, k': Blk, pool: nat)
    requires s.meta.bat != Idle && k'.b == s.lock.blk && IoOutcome(s.meta.bat, err)
    requires var s1 := AfterBat(c, s, err);
             k'.b in s1.cache && KFrame(At(s1, k'.b), k', Idle, Idle) && !(k'.Holds() && k'.alloc)
    requires Structure(c, s, pool) && Layout(c, s.bat, s.nextDb) && MetaD(c, s)
    ensures PutContext(c, s, AfterBat(c, s, err), k')
  {
    hide Structure;
    HolderKnown(c, s, pool);
    HolderFacts(c, s, pool);
    AllocateKeepsLayout(c, s.bat, s.nextDb, k'.b);
    if err == 0 { BatMeta(c, s, k'); }
  }

  lemma BatMeta(c: Config, s: Vhd, k': Blk)
    requires MetaD(c, s) && s.meta.bat == Landed && s.meta.zero == Idle && !k'.lock.locked
    ensures MetaD(c, Put(AfterBat(c, s, 0), k'))
  {
  }

  lemma BatReleases(c: Config, k: Blk, zero: Io, bat: Io)
    requires KOk(c, k, zero, bat)
    ensures !(k.Holds() && k.alloc)
  {
  }

  /** While the BAT entry is being written, the block that holds the lock has its
      transaction open and nothing on the disk yet. */
  lemma BatHolder(c: Config, s: Vhd, pool: nat)
    requires s.meta.bat != Idle && Structure(c, s, pool)
    ensures s.lock.locked && s.lock.blk in s.cache
    ensures var k := At(s, s.lock.blk);
            k.Holds() && s.meta.zero == Idle && !k.alloc && !k.full && !k.bm.reading && k.bm.tx.live &&
            s.lock.started && s.lock.err == 0
  {
    HolderKnown(c, s, pool);
    HolderFacts(c, s, pool);
    assert BlockOk(c, s, s.lock.blk);
  }

  lemma EntryTracks(c: Config, k: Blk, k0: Blk, bat: Io, G: set<Req>, S: set<nat>)
    requires KOk(c, k, Idle, bat) && Tracks(c, k, G, S) && !k.alloc && k0 == k.(at := k0.at)
    ensures KOk(c, k0, Idle, bat) && Tracks(c, k0, G, S)
  {
    hide Within;
    hide Justified;
  }

  /** The block goes on from where the BAT write has put its extent. */
  lemma BatKD(c: Config, s: Vhd, err: int, k': Blk, G: set<Req>, S: set<nat>)
    requires s.lock.blk in s.cache && s.lock.blk !in s.bat && s.lock.locked && s.lock.started && s.lock.err == 0
    requires KD(c, WorldOf(s), At(s, s.lock.blk), G, S) && Tracks(c, k', G, S) && VhdMoves.Placed(k')
    requires KFrame(At(AfterBat(c, s, err), s.lock.blk), k', Idle, Idle)
    ensures KD(c, WorldOf(AfterBat(c, s, err)), k', G, S)
  {
    hide Tracks;
    hide AllWriteD;
    hide DiskBitmap;
  }

  lemma FinishBatPut(c: Config, s: Vhd, err: int)
    requires s.lock.locked && s.lock.started && s.lock.blk in s.cache
    requires !s.cache[s.lock.blk].reading && s.cache[s.lock.blk].tx.live
    ensures var s1 := AfterBat(c, s, err);
            FinishBatWrite(c, s, err) == Put(s1, BatWritten(c, At(s1, s.lock.blk), err))
  {
    hide BatWritten;
  }

  lemma DoneBatD(c: Config, s: Vhd, err: int, pool: nat)
    requires Enabled(s, DoneBat(err)) && Structure(c, s, pool) && AtMost(c, s) && OnDisk(c, s)
    ensures OnDisk(c, FinishBatWrite(c, s, err))
  {
    hide BatWritten;
    hide Structure;
    hide OnDisk;
    hide AllWriteD;
    hide KOk;
    hide Tracks;
    hide KFrame;
    hide KD;
    hide DiskBitmap;
    hide FinishBatWrite;
    BatHolder(c, s, pool);
    FinishBatPut(c, s, err);
    var b := s.lock.blk;
    AtOk(c, s, b, pool);
    var k := At(s, b);
    var s1 := AfterBat(c, s, err);
    var k0 := k.(at := BatEntry(s1, b));
    var k1 := At(s1, b);
    assert k1 == k0.(lock := k.lock.(err := err), alloc := err == 0);
    var k' := BatWritten(c, k1, err);
    var G := WritesOf(k.bm);
    var S := DiskBits(s, b);
    TracksOf(c, s, b, G, pool);
    EntryTracks(c, k, k0, s.meta.bat, G, S);
    BatWrittenOk(c, k0, err, s.meta.bat);
    BatWrittenTracks(c, k0, err, G, S, s.meta.bat);
    BatReleases(c, k', Idle, Idle);
    FileParts(c, s);
    BatContext(c, s, err, k', pool);
    KDOf(c, s, b, pool);
    BatKD(c, s, err, k', G, S);
    PutOnDisk(c, s, s1, k', G, S);
  }

  /* ---- completions that end no transaction ---- */

  lemma DoneOtherD(c: Config, s: Vhd, i: nat, err: int, pool: nat)
    requires Structure(c, s, pool) && AtMost(c, s) && OnDisk(c, s) && Enabled(s, DoneOther(i, err))
    ensures OnDisk(c, FinishRaw(s, i, err))
  {
    hide BlockOk;
    hide BlkD;
    var t := FinishRaw(s, i, err);
    var r := s.raw[i];
    assert r in s.raw;
    forall l: nat | r.op == OpWrite && err == 0 && r.sec <= l < r.sec + r.secs
      ensures Stored(c, WorldOf(s), s.bat, l, r.wid)
    {
      InBlockRange(c, r.sec / c.spb, r, l);
      assert l % c.spb in ReqBits(c.spb, r);
    }
    LogOnDisk(c, s, t);
  }

  /** Removing requests and answering some, each success for a stored write. */
  lemma LogOnDisk(c: Config, s: Vhd, t: Vhd)
    requires OnDisk(c, s) && AtMost(c, s)
    requires t == s.(raw := t.raw, free := t.free, log := t.log) && SameDisk(WorldOf(s), WorldOf(t))
    requires forall r :: r in t.raw ==> r in s.raw
    requires forall i, l: nat :: |s.log| <= i < |t.log| && Acknowledges(t.log[i], l) ==>
      t.log[i].wid < |s.log| && Stored(c, WorldOf(s), s.bat, l, t.log[i].wid)
    ensures OnDisk(c, t)
  {
    forall x ensures BlkD(c, t, x) {
      assert BlkD(c, s, x);
      BlockLater(c, WorldOf(s), WorldOf(t), x, PlaceOf(s, x), HoldOf(s, x), CachedOf(s, x), x in s.batmap);
    }
    forall r | r in t.raw ensures RawD(c, WorldOf(t), t.bat, t.batmap, r) {
      RawLater(c, WorldOf(s), WorldOf(t), s.bat, t.bat, s.batmap, t.batmap, r);
    }
    forall x | x in t.cache ensures WaitD(t.log, t.cache[x]) { assert WaitD(s.log, s.cache[x]); }
    LogAcks(c, s, t);
  }

  lemma LogAcks(c: Config, s: Vhd, t: Vhd)
    requires AckD(c, WorldOf(s), s.bat) && AtMost(c, s) && t.bat == s.bat && SameDisk(WorldOf(s), WorldOf(t))
    requires forall i, l: nat :: |s.log| <= i < |t.log| && Acknowledges(t.log[i], l) ==>
      t.log[i].wid < |s.log| && Stored(c, WorldOf(s), s.bat, l, t.log[i].wid)
    ensures AckD(c, WorldOf(t), t.bat)
  {
    forall i, l: nat | 0 <= i < |t.log| && Acknowledges(t.log[i], l)
      ensures Stored(c, WorldOf(t), t.bat, l, t.log[i].wid)
    {
      if i < |s.log| {
        assert t.log[i] == s.log[i];
        AnsweredOnce(c, s, i, l);
      }
      StoredLater(c, WorldOf(s), WorldOf(t), s.bat, t.bat, l, t.log[i].wid);
    }
  }
}
