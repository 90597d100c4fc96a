/** What no I/O error can spoil, in any run: extents lie apart, and the bitmaps on the disk
    are the ones that memory takes them for. A zero-bitmap write that fails while other
    writes of its transaction are in flight leaves writes behind, but they go to the data
    of the extent that is given out next, never to a bitmap. */
module VhdTracking {
  import opened Arithmetic
  import opened VhdTypes
  import opened VhdEngine
  import opened VhdInvariants
  import opened VhdStructure
  import opened VhdSafety
  import opened VhdAccounting
  import opened VhdMoves
  import opened VhdLayout
  import opened VhdDisk
  import opened VhdDurability
  import opened VhdLanding
  import opened VhdServing

  /** The extent of a block, or the one that is given out next. */
  ghost predicate IsExtent(c: Config, s: Vhd, off: int) {
    off == NextOff(c, s.nextDb) || exists b :: b in s.bat && s.bat[b] == off
  }

  /** Request r will not reach the disk any more, or goes to the data of some extent. */
  ghost predicate Writable(c: Config, s: Vhd, r: Req) {
    r.Spent() || IsExtent(c, s, r.addr - c.bmSecs - r.sec % c.spb)
  }

  ghost predicate Writables(c: Config, s: Vhd, bm: Bm) {
    forall r :: r in bm.tx.reqs || r in bm.queue ==> Writable(c, s, r)
  }

  ghost predicate MapOf(c: Config, s: Vhd, b: nat) {
    MapD(c, s.media.disk, PlaceOf(s, b), HoldOf(s, b), CachedOf(s, b), b in s.batmap)
  }

  ghost predicate AckM(c: Config, s: Vhd) {
    forall i, l: nat :: 0 <= i < |s.log| && Acknowledges(s.log[i], l) ==> BitOnDisk(c, s.media.disk, s.bat, l)
  }

  ghost predicate Tracked(c: Config, s: Vhd) {
    && Layout(c, s.bat, s.nextDb) && MetaD(c, s)
    && (forall b {:trigger MapOf(c, s, b)} :: MapOf(c, s, b))
    && (forall b :: b in s.cache ==> Writables(c, s, s.cache[b]))
    && (forall r :: r in s.raw ==> RawM(c, s.media.disk, s.bat, s.batmap, r))
    && AckM(c, s)
  }

  /** As long as no failure leaves writes behind, more is known. */
  lemma OnDiskTracked(c: Config, s: Vhd, pool: nat)
    requires Structure(c, s, pool) && OnDisk(c, s)
    ensures Tracked(c, s)
  {
    forall b ensures MapOf(c, s, b) { assert BlkD(c, s, b); }
    forall b | b in s.cache ensures Writables(c, s, s.cache[b]) { OnDiskWritable(c, s, b, pool); }
    forall i, l: nat | 0 <= i < |s.log| && Acknowledges(s.log[i], l) ensures BitOnDisk(c, s.media.disk, s.bat, l) {
      assert Stored(c, WorldOf(s), s.bat, l, s.log[i].wid);
    }
  }

  lemma OnDiskWritable(c: Config, s: Vhd, b: nat, pool: nat)
    requires b in s.cache && Structure(c, s, pool) && OnDisk(c, s)
    ensures Writables(c, s, s.cache[b])
  {
    assert BlockOk(c, s, b) && BlkD(c, s, b);
    var bm := s.cache[b];
    forall r | r in bm.tx.reqs || r in bm.queue ensures Writable(c, s, r) {
      if !(r in bm.tx.reqs && Harmless(bm, r)) { assert WriteD(c, WorldOf(s), PlaceOf(s, b).off, r); }
    }
  }

  lemma OwnWritables(c: Config, s: Vhd, b: nat)
    requires Tracked(c, s) && b in s.cache
    ensures Writables(c, s, s.cache[b])
  {
  }

  lemma SameWritables(c: Config, s: Vhd, bm: Bm, bm2: Bm)
    requires Writables(c, s, bm) && bm2.tx.reqs == bm.tx.reqs && bm2.queue == bm.queue
    ensures Writables(c, s, bm2)
  {
  }

  /* ---- extents ---- */

  lemma ExtentsDiffer(c: Config, s: Vhd, x: int, y: int)
    requires Layout(c, s.bat, s.nextDb) && IsExtent(c, s, x) && IsExtent(c, s, y) && x != y
    ensures Apart(c, x, y)
  {
    if x == NextOff(c, s.nextDb) || y == NextOff(c, s.nextDb) {
    } else {
      var b1 :| b1 in s.bat && s.bat[b1] == x;
      var b2 :| b2 in s.bat && s.bat[b2] == y;
      assert b1 != b2;
    }
  }

  lemma PlaceIsExtent(c: Config, s: Vhd, b: nat)
    requires MetaD(c, s) && PlaceOf(s, b).Place?
    ensures IsExtent(c, s, PlaceOf(s, b).off)
  {
  }

  /** A write to the data of one extent changes no bitmap. */
  lemma DataWriteSpares(c: Config, s: Vhd, b: nat, r: Req, x: int)
    requires Layout(c, s.bat, s.nextDb) && IsExtent(c, s, x)
    requires InBlock(c, b, r) && IsExtent(c, s, r.addr - c.bmSecs - r.sec % c.spb)
    ensures SameOn(s.media.disk, LandReq(s.media.disk, r), x, x + c.bmSecs)
  {
    var off := r.addr - c.bmSecs - r.sec % c.spb;
    if off != x { ExtentsDiffer(c, s, off, x); }
  }

  /* ---- one block ---- */

  /** Bitmap k2 is k, as far as the disk is concerned, or says nothing about it. */
  predicate Follows(p: Place, k: Cached, k2: Cached) {
    k2.InCache? ==>
      (k2.bm.write == Idle && (k2.bm.reading || p.NoPlace?)) || (k.InCache? && SameMap(k.bm, k2.bm))
  }

  predicate SameMap(bm: Bm, bm2: Bm) {
    bm2.bits == bm.bits && bm2.shadow == bm.shadow && bm2.reading == bm.reading && bm2.write == bm.write &&
    bm2.wAddr == bm.wAddr && bm2.tx.error == bm.tx.error && bm2.tx.updateBat == bm.tx.updateBat
  }

  predicate SameHold(h: Hold, h2: Hold) { (h.Hold? <==> h2.Hold?) && (h.Hold? ==> h2.tx == h.tx) }

  lemma MapFollows(c: Config, d: Disk, d2: Disk, p: Place, h: Hold, h2: Hold, k: Cached, k2: Cached, full: bool)
    requires MapD(c, d, p, h, k, full) && Follows(p, k, k2) && SameHold(h, h2)
    requires p.Place? && p.ready ==> SameOn(d, d2, p.off, p.off + c.bmSecs)
    ensures MapD(c, d2, p, h2, k2, full)
  {
  }

  /* ---- putting it together ---- */

  /** Extents, entries, set bits and full blocks of s are so in t. */
  ghost predicate Grows(c: Config, s: Vhd, t: Vhd) {
    && s.batmap <= t.batmap && IsExtent(c, t, NextOff(c, s.nextDb))
    && (forall b :: b in s.bat ==>
         b in t.bat && t.bat[b] == s.bat[b] &&
         BitsAt(s.media.disk, s.bat[b]) <= BitsAt(t.media.disk, s.bat[b]))
  }

  /** The history of t is that of s, and what it acknowledges besides is mapped. */
  ghost predicate LogM(c: Config, s: Vhd, t: Vhd) {
    |s.log| <= |t.log| && t.log[..|s.log|] == s.log &&
    forall i, l: nat :: |s.log| <= i < |t.log| && Acknowledges(t.log[i], l) ==> BitOnDisk(c, t.media.disk, t.bat, l)
  }

  lemma WritableGrows(c: Config, s: Vhd, t: Vhd, r: Req)
    requires Grows(c, s, t) && Writable(c, s, r)
    ensures Writable(c, t, r)
  {
    if !r.Spent() && r.addr - c.bmSecs - r.sec % c.spb != NextOff(c, s.nextDb) {
      var b :| b in s.bat && s.bat[b] == r.addr - c.bmSecs - r.sec % c.spb;
      assert b in t.bat && t.bat[b] == s.bat[b];
    }
  }

  lemma Retrack(c: Config, s: Vhd, t: Vhd)
    requires Tracked(c, s) && Grows(c, s, t) && LogM(c, s, t)
    requires Layout(c, t.bat, t.nextDb) && MetaD(c, t)
    requires forall b {:trigger MapOf(c, t, b)} :: MapOf(c, t, b)
    requires forall b :: b in t.cache ==> Writables(c, s, t.cache[b])
    requires forall r :: r in t.raw && r !in s.raw ==> RawM(c, t.media.disk, t.bat, t.batmap, r)
    ensures Tracked(c, t)
  {
    hide Layout;
    hide MetaD;
    hide MapD;
    forall b | b in t.cache ensures Writables(c, t, t.cache[b]) {
      forall r | r in t.cache[b].tx.reqs || r in t.cache[b].queue ensures Writable(c, t, r) {
        WritableGrows(c, s, t, r);
      }
    }
    forall i, l: nat | 0 <= i < |t.log| && Acknowledges(t.log[i], l) ensures BitOnDisk(c, t.media.disk, t.bat, l) {
      if i < |s.log| { assert t.log[i] == s.log[i] && BitOnDisk(c, s.media.disk, s.bat, l); }
    }
  }

  /** Nothing changes that the bitmaps depend on. */
  ghost predicate Quiet(c: Config, s: Vhd, t: Vhd) {
    && t.bat == s.bat && t.batmap == s.batmap && NextOff(c, t.nextDb) == NextOff(c, s.nextDb)
    && (forall b :: PlaceOf(t, b) == PlaceOf(s, b) && SameHold(HoldOf(s, b), HoldOf(t, b)))
    && (forall b :: PlaceOf(s, b).Place? && PlaceOf(s, b).ready ==>
         SameOn(s.media.disk, t.media.disk, PlaceOf(s, b).off, PlaceOf(s, b).off + c.bmSecs))
    && (forall b :: Follows(PlaceOf(s, b), CachedOf(s, b), CachedOf(t, b)))
    && (forall b :: b in t.cache ==> Writables(c, s, t.cache[b]))
    && (forall r :: r in t.raw && r !in s.raw ==> RawM(c, s.media.disk, s.bat, s.batmap, r))
  }

  lemma QuietTracked(c: Config, s: Vhd, t: Vhd)
    requires Tracked(c, s) && Quiet(c, s, t) && LogM(c, s, t)
    requires Layout(c, t.bat, t.nextDb) && MetaD(c, t)
    ensures Tracked(c, t)
  {
    hide Layout;
    hide MetaD;
    forall b ensures MapOf(c, t, b) {
      assert MapOf(c, s, b);
      hide MapD;
      MapFollows(c, s.media.disk, t.media.disk, PlaceOf(s, b), HoldOf(s, b), HoldOf(t, b), CachedOf(s, b),
        CachedOf(t, b), b in s.batmap);
    }
    hide MapD;
    forall b | b in s.bat ensures BitsAt(t.media.disk, s.bat[b]) == BitsAt(s.media.disk, s.bat[b]) {
      assert PlaceOf(s, b) == Place(s.bat[b], true);
    }
    Retrack(c, s, t);
  }

  /** Nothing on the disk changes, nor the BAT and its lock. */
  ghost predicate Calm(c: Config, s: Vhd, t: Vhd) {
    && t == s.(free := t.free, raw := t.raw, lru := t.lru, bmFree := t.bmFree, panicked := t.panicked,
               cache := t.cache, log := t.log)
    && |s.log| <= |t.log| && t.log[..|s.log|] == s.log
    && (forall i, l: nat :: |s.log| <= i < |t.log| ==> !Acknowledges(t.log[i], l))
    && (forall b :: b in t.cache ==> Follows(PlaceOf(s, b), CachedOf(s, b), InCache(t.cache[b])))
    && (forall b :: b in t.cache ==> Writables(c, s, t.cache[b]))
    && (forall r :: r in t.raw && r !in s.raw ==> RawM(c, s.media.disk, s.bat, s.batmap, r))
  }

  lemma CalmTracked(c: Config, s: Vhd, t: Vhd)
    requires Tracked(c, s) && Calm(c, s, t)
    ensures Tracked(c, t)
  {
    forall b ensures PlaceOf(t, b) == PlaceOf(s, b) && HoldOf(t, b) == HoldOf(s, b) {
    }
    assert Quiet(c, s, t);
    QuietTracked(c, s, t);
  }

  /* ---- completions that end transactions ---- */

  ghost predicate AllWritable(c: Config, s: Vhd, b: nat, G: set<Req>) {
    forall r :: r in G ==> WriteOk(c, b, r) && Writable(c, s, r)
  }

  /** The bitmap on the disk is S. */
  ghost predicate BitmapIs(c: Config, d: Disk, off: int, S: set<nat>) {
    S == BitsAt(d, off) && BitmapAt(c, d, off, S) && S <= Full(c)
  }

  lemma TracksHere(c: Config, s: Vhd, b: nat, G: set<Req>, pool: nat)
    requires Structure(c, s, pool) && Tracked(c, s) && b in s.cache && !s.cache[b].reading
    requires WritesOf(s.cache[b]) <= G
    ensures Tracks(c, At(s, b), G, DiskBits(s, b))
    ensures HasExtent(At(s, b)) ==> BitmapIs(c, s.media.disk, Home(At(s, b)), DiskBits(s, b))
    ensures AllWritable(c, s, b, WritesOf(s.cache[b])) && (b in s.batmap <==> At(s, b).full)
  {
    assert BlockOk(c, s, b) && MapOf(c, s, b) && Writables(c, s, s.cache[b]);
  }

  /** Write r has finished and is marked. */
  lemma MarkedWritable(c: Config, s: Vhd, b: nat, r: Req, err: int, pool: nat)
    requires CanFinish(r, err) && b in s.cache && !s.cache[b].reading && Structure(c, s, pool) && Tracked(c, s)
    ensures AllWritable(c, s, b, WritesWith(s.cache[b], r, r.(finished := true, err := err)))
  {
    TracksHere(c, s, b, WritesOf(s.cache[b]), pool);
  }

  lemma PutMapOf(c: Config, s: Vhd, s1: Vhd, k: Blk, G: set<Req>, S: set<nat>, x: nat)
    requires Tracked(c, s) && PutContext(c, s, s1, k) && Tracks(c, k, G, S)
    requires HasExtent(k) ==> BitmapIs(c, s1.media.disk, Home(k), S)
    ensures MapOf(c, Put(s1, k), x)
  {
    hide Layout;
    hide MetaD;
    var t := Put(s1, k);
    if x == k.b {
      assert PlaceOf(t, x) == PlaceOfBlk(k) && CachedOf(t, x) == InCache(k.bm);
    } else {
      assert MapOf(c, s, x);
      assert PlaceOf(t, x) == PlaceOf(s, x) && CachedOf(t, x) == CachedOf(s, x) && HoldOf(t, x) == HoldOf(s, x);
      assert x in t.batmap <==> x in s.batmap;
      hide MapD;
      MapFollows(c, s.media.disk, t.media.disk, PlaceOf(s, x), HoldOf(s, x), HoldOf(t, x), CachedOf(s, x),
        CachedOf(t, x), x in s.batmap);
    }
  }

  /** What a block answers with success is mapped. */
  lemma PutLogM(c: Config, s: Vhd, s1: Vhd, k: Blk, G: set<Req>, S: set<nat>)
    requires k.b in s.cache && PutContext(c, s, s1, k) && Tracks(c, k, G, S) && AllWritable(c, s, k.b, G)
    requires HasExtent(k) ==> BitmapIs(c, s1.media.disk, Home(k), S)
    ensures LogM(c, s, Put(s1, k))
  {
    hide Layout;
    hide MetaD;
    var t := Put(s1, k);
    forall i, l: nat | |s.log| <= i < |t.log| && Acknowledges(t.log[i], l)
      ensures BitOnDisk(c, t.media.disk, t.bat, l)
    {
      var e := k.out[i - |s.log|];
      assert t.log[i] == e && e in k.out && Justified(c, e, G, S, k.alloc);
      var r :| r in G && Signals(c, e, r, S);
      InBlockRange(c, k.b, r, l);
      assert InRange(l % c.spb, r.sec % c.spb, r.secs) && l % c.spb in ReqBits(c.spb, r);
    }
  }

  lemma PutWritables(c: Config, s: Vhd, s1: Vhd, k: Blk, G: set<Req>, S: set<nat>, x: nat)
    requires Tracked(c, s) && s1.cache == s.cache && k.b in s.cache && x in Put(s1, k).cache
    requires Tracks(c, k, G, S) && AllWritable(c, s, k.b, G)
    ensures Writables(c, s, Put(s1, k).cache[x])
  {
    if x == k.b {
      forall r | r in k.bm.tx.reqs || r in k.bm.queue ensures Writable(c, s, r) {
        if !(r in k.bm.tx.reqs && Harmless(k.bm, r)) { assert r in G; }
      }
    }
  }

  lemma PutTracked(c: Config, s: Vhd, s1: Vhd, k: Blk, G: set<Req>, S: set<nat>)
    requires Tracked(c, s) && PutContext(c, s, s1, k) && Tracks(c, k, G, S) && AllWritable(c, s, k.b, G)
    requires IsExtent(c, s1, NextOff(c, s.nextDb)) && (HasExtent(k) ==> BitmapIs(c, s1.media.disk, Home(k), S))
    ensures Tracked(c, Put(s1, k))
  {
    var t := Put(s1, k);
    forall x ensures MapOf(c, t, x) { PutMapOf(c, s, s1, k, G, S, x); }
    forall x | x in t.cache ensures Writables(c, s, t.cache[x]) { PutWritables(c, s, s1, k, G, S, x); }
    PutLogM(c, s, s1, k, G, S);
    hide MapOf;
    hide Tracks;
    Retrack(c, s, t);
  }

  /** Ending transactions of block k.b. */
  lemma EndTracked(c: Config, s: Vhd, s1: Vhd, k: Blk, G: set<Req>, S: set<nat>, pool: nat)
    requires k.b in s.cache && s1 == s.(media := s1.media) && s1.media.bat == s.media.bat
    requires s1.media.disk == s.media.disk && SameDisk(WorldOf(s), WorldOf(s1))
    requires KFrame(At(s, k.b), k, s.meta.zero, s.meta.bat) && (k.b in s.batmap ==> k.full)
    requires Tracks(c, k, G, S) && AllWritable(c, s, k.b, G)
    requires HasExtent(At(s, k.b)) ==> BitmapIs(c, s.media.disk, Home(At(s, k.b)), S)
    requires Structure(c, s, pool) && Tracked(c, s)
    ensures Tracked(c, Put(s1, k))
  {
    hide Structure;
    hide Tracks;
    hide AllWritable;
    EndContext(c, s, s1, k, pool);
    PutTracked(c, s, s1, k, G, S);
  }

  lemma DoneTxTracked(c: Config, s: Vhd, b: nat, i: nat, err: int, pool: nat)
    requires Structure(c, s, pool) && Tracked(c, s) && Enabled(s, DoneTx(b, i, err))
    ensures Tracked(c, FinishTxWrite(c, s, b, i, err))
  {
    hide Structure;
    hide Tracked;
    hide TxWriteDone;
    hide Tracks;
    hide AllWritable;
    hide KFrame;
    hide BitmapIs;
    AtOk(c, s, b, pool);
    var k := At(s, b);
    var r := k.bm.tx.reqs[i];
    assert r in k.bm.tx.reqs;
    BusyNotReading(c, s, b, pool);
    var G := WritesWith(k.bm, r, r.(finished := true, err := err));
    TracksHere(c, s, b, G, pool);
    MarkedWritable(c, s, b, r, err, pool);
    TxWriteDoneTracks(c, k, i, err, G, DiskBits(s, b), s.meta.zero, s.meta.bat);
    TxWriteDoneOk(c, k, i, err, s.meta.zero, s.meta.bat);
    SyncSameDisk(s, r, err);
    TxWriteDoneStays(c, k, i, err);
    assert TxWriteDone(c, k, i, err).b == b;
    EndTracked(c, s, Sync(s, r, err), TxWriteDone(c, k, i, err), G, DiskBits(s, b), pool);
  }

  lemma DoneQueueTracked(c: Config, s: Vhd, b: nat, i: nat, err: int, pool: nat)
    requires Structure(c, s, pool) && Tracked(c, s) && Enabled(s, DoneQueue(b, i, err))
    ensures Tracked(c, FinishQueuedWrite(s, b, i, err))
  {
    hide Structure;
    hide Tracked;
    hide Tracks;
    hide AllWritable;
    hide BitmapIs;
    AtOk(c, s, b, pool);
    var k := At(s, b);
    var r := k.bm.queue[i];
    assert r in k.bm.queue;
    BusyNotReading(c, s, b, pool);
    var G := WritesWith(k.bm, r, r.(finished := true, err := err));
    TracksHere(c, s, b, G, pool);
    MarkedWritable(c, s, b, r, err, pool);
    QueuedWriteDoneTracks(c, k, i, err, G, DiskBits(s, b));
    QueuedWriteDoneOk(c, k, i, err, s.meta.zero, s.meta.bat);
    SyncSameDisk(s, r, err);
    EndTracked(c, s, Sync(s, r, err), QueuedWriteDone(k, i, err), G, DiskBits(s, b), pool);
  }

  lemma DoneBitmapWriteTracked(c: Config, s: Vhd, b: nat, err: int, pool: nat)
    requires Structure(c, s, pool) && Tracked(c, s) && Enabled(s, DoneBitmapWrite(b, err))
    ensures Tracked(c, FinishBitmapWrite(c, s, b, err))
  {
    hide Structure;
    hide Tracked;
    hide Tracks;
    hide AllWritable;
    hide BitmapWritten;
    hide KFrame;
    hide BitmapIs;
    AtOk(c, s, b, pool);
    var k := At(s, b);
    BusyNotReading(c, s, b, pool);
    var G := WritesOf(k.bm);
    TracksHere(c, s, b, G, pool);
    BitmapWrittenTracks(c, k, err, G, DiskBits(s, b), s.meta.zero, s.meta.bat);
    BitmapWrittenOk(c, k, err, s.meta.zero, s.meta.bat);
    BitmapWrittenStays(c, k, err);
    assert BitmapWritten(c, k, err).b == b;
    EndTracked(c, s, s, BitmapWritten(c, k, err), G, DiskBits(s, b), pool);
  }

  /** Whatever the zero-bitmap write came to, and whatever it leaves behind. */
  lemma DoneZeroTracked(c: Config, s: Vhd, err: int, pool: nat)
    requires Structure(c, s, pool) && Tracked(c, s) && Enabled(s, DoneZero(err))
    ensures Tracked(c, FinishZeroBmWrite(c, s, err))
  {
    hide ZeroWritten;
    hide Tracks;
    hide AllWritable;
    hide Structure;
    hide Tracked;
    hide Layout;
    hide MetaD;
    hide KOk;
    hide BitmapIs;
    var b := s.lock.blk;
    ZeroHolder(c, s, pool);
    AtOk(c, s, b, pool);
    var k := At(s, b);
    var s1 := AfterZeroWrite(s, err);
    assert At(s1, b) == k.(lock := AfterZero(k.lock, err));
    var k' := ZeroWritten(c, At(s1, b), err);
    var G := WritesOf(k.bm);
    TracksHere(c, s, b, G, pool);
    assert Within(k.bm, G);
    FileTracked(c, s);
    ZeroWrittenOk(c, k, err, s.meta.zero);
    ZeroWrittenTracks(c, k, err, G, s.meta.zero);
    ZeroContext(c, s, err, k', pool);
    ZeroBitmap(c, s, err, k');
    PutTracked(c, s, s1, k', G, {});
  }

  lemma FileTracked(c: Config, s: Vhd)
    requires Tracked(c, s)
    ensures Layout(c, s.bat, s.nextDb) && MetaD(c, s)
  {
  }

  lemma ZeroHolder(c: Config, s: Vhd, pool: nat)
    requires s.meta.zero != Idle && Structure(c, s, pool)
    ensures s.lock.locked && s.lock.blk in s.cache && s.meta.bat == Idle && s.lock.err == 0
    ensures var k := At(s, s.lock.blk); k.Holds() && !k.alloc && !k.full && !k.bm.reading && k.bm.locked
    ensures s.meta.zeroBlk == s.lock.blk && !s.lock.started
  {
    HolderKnown(c, s, pool);
    assert BlockOk(c, s, s.lock.blk);
  }

  lemma ZeroBitmap(c: Config, s: Vhd, err: int, k': Blk)
    requires MetaD(c, s) && s.lock.locked && IoOutcome(s.meta.zero, err) && !k'.alloc
    requires k'.lock == AfterZero(s.lock, err) || k'.lock == InitLock ||
             k'.lock.(tx := AfterZero(s.lock, err).tx) == AfterZero(s.lock, err)
    ensures HasExtent(k') ==> BitmapIs(c, s.media.disk, Home(k'), {})
  {
    if HasExtent(k') {
      assert err == 0 && BitmapAt(c, s.media.disk, s.lock.off, {});
      assert s.media.disk(s.lock.off) == Bits({});
    }
  }

  lemma DoneBatTracked(c: Config, s: Vhd, err: int, pool: nat)
    requires Enabled(s, DoneBat(err)) && Structure(c, s, pool) && Tracked(c, s)
    ensures Tracked(c, FinishBatWrite(c, s, err))
  {
    hide BatWritten;
    hide Structure;
    hide AllWritable;
    hide KOk;
    hide Tracks;
    hide KFrame;
    hide BitmapIs;
    hide FinishBatWrite;
    BatHolder(c, s, pool);
    FinishBatPut(c, s, err);
    var b := s.lock.blk;
    AtOk(c, s, b, pool);
    var k := At(s, b);
    var s1 := AfterBat(c, s, err);
    var k0 := k.(at := BatEntry(s1, b));
    var k1 := At(s1, b);
    assert k1 == k0.(lock := k.lock.(err := err), alloc := err == 0);
    var k' := BatWritten(c, k1, err);
    var G := WritesOf(k.bm);
    var S := DiskBits(s, b);
    TracksHere(c, s, b, G, pool);
    EntryTracks(c, k, k0, s.meta.bat, G, S);
    BatWrittenOk(c, k0, err, s.meta.bat);
    BatWrittenTracks(c, k0, err, G, S, s.meta.bat);
    BatReleases(c, k', Idle, Idle);
    BatContext(c, s, err, k', pool);
    assert HasExtent(k') ==> BitmapIs(c, s1.media.disk, Home(k'), S) by { BatBitmap(c, s, err, k', S); }
    assert IsExtent(c, s1, NextOff(c, s.nextDb)) by {
      if err == 0 { assert b in s1.bat && s1.bat[b] == s.lock.off; }
    }
    hide Tracked;
    PutTracked(c, s, s1, k', G, S);
  }

  lemma BatBitmap(c: Config, s: Vhd, err: int, k': Blk, S: set<nat>)
    requires s.lock.locked && s.lock.blk in s.cache && s.lock.blk !in s.bat && s.lock.started && s.lock.err == 0
    requires KFrame(At(AfterBat(c, s, err), s.lock.blk), k', Idle, Idle)
    requires BitmapIs(c, s.media.disk, s.lock.off, S)
    ensures HasExtent(k') ==> BitmapIs(c, s.media.disk, Home(k'), S)
  {
  }

  /* ---- landings ---- */

  lemma LandedMeta(c: Config, s: Vhd, t: Vhd)
    requires MetaD(c, s)
    requires t.bat == s.bat && t.nextDb == s.nextDb && t.lock == s.lock && t.meta == s.meta &&
             t.media.bat == s.media.bat
    requires s.lock.locked ==> SameOn(s.media.disk, t.media.disk, s.lock.off, s.lock.off + c.bmSecs)
    requires s.meta.zero != Idle ==> s.lock.locked
    ensures MetaD(c, t)
  {
  }

  /** Something lands that spares the bitmaps of all extents. */
  lemma SpareTracked(c: Config, s: Vhd, t: Vhd, pool: nat)
    requires t == s.(cache := t.cache, raw := t.raw, media := s.media.(disk := t.media.disk))
    requires forall x :: IsExtent(c, s, x) ==> SameOn(s.media.disk, t.media.disk, x, x + c.bmSecs)
    requires forall b :: Follows(PlaceOf(s, b), CachedOf(s, b), CachedOf(t, b))
    requires forall b :: b in t.cache ==> Writables(c, s, t.cache[b])
    requires forall r :: r in t.raw && r !in s.raw ==> RawM(c, s.media.disk, s.bat, s.batmap, r)
    requires Structure(c, s, pool) && Tracked(c, s)
    ensures Tracked(c, t)
  {
    HolderKnown(c, s, pool);
    FileTracked(c, s);
    hide Structure;
    hide Tracked;
    hide Writables;
    hide Follows;
    hide RawM;
    hide Layout;
    hide SameOn;
    assert s.lock.locked ==> IsExtent(c, s, s.lock.off);
    LandedMeta(c, s, t);
    forall b ensures PlaceOf(t, b) == PlaceOf(s, b) && HoldOf(s, b) == HoldOf(t, b) {
    }
    forall b | PlaceOf(s, b).Place?
      ensures SameOn(s.media.disk, t.media.disk, PlaceOf(s, b).off, PlaceOf(s, b).off + c.bmSecs)
    {
      PlaceIsExtent(c, s, b);
    }
    hide MetaD;
    QuietTracked(c, s, t);
  }

  lemma ListedOk(c: Config, s: Vhd, b: nat, r: Req, pool: nat)
    requires b in s.cache && !s.cache[b].reading && (r in s.cache[b].tx.reqs || r in s.cache[b].queue)
    requires Structure(c, s, pool)
    ensures WriteOk(c, b, r)
  {
    assert BlockOk(c, s, b);
  }

  lemma LandListTracked(c: Config, s: Vhd, t: Vhd, b: nat, r: Req, pool: nat)
    requires b in s.cache && (r in s.cache[b].tx.reqs || r in s.cache[b].queue) && CanLand(r) && !s.cache[b].reading
    requires b in t.cache && LandMark(s.cache[b], t.cache[b])
    requires t == LandOn(PutBm(s, b, t.cache[b]), LandReq(s.media.disk, r))
    requires forall q :: q in t.cache[b].tx.reqs || q in t.cache[b].queue ==>
      q in s.cache[b].tx.reqs || q in s.cache[b].queue || q == r.(landed := true)
    requires Structure(c, s, pool) && Tracked(c, s)
    ensures Tracked(c, t)
  {
    hide LandReq;
    hide SameOn;
    hide Layout;
    hide MetaD;
    hide Structure;
    hide Tracked;
    hide IsExtent;
    OwnWritables(c, s, b);
    assert WriteOk(c, b, r) by { ListedOk(c, s, b, r, pool); }
    assert Writable(c, s, r);
    FileTracked(c, s);
    forall x | IsExtent(c, s, x) ensures SameOn(s.media.disk, t.media.disk, x, x + c.bmSecs) {
      DataWriteSpares(c, s, b, r, x);
    }
    assert Writables(c, s, t.cache[b]);
    forall x | x in t.cache && x != b ensures Writables(c, s, t.cache[x]) { OwnWritables(c, s, x); }
    hide Writables;
    SpareTracked(c, s, t, pool);
  }

  lemma LandTxTracked(c: Config, s: Vhd, b: nat, i: nat, pool: nat)
    requires Structure(c, s, pool) && Tracked(c, s) && Enabled(s, LandTx(b, i))
    ensures Tracked(c, LandTxWrite(s, b, i))
  {
    hide Structure;
    hide Tracked;
    BusyNotReading(c, s, b, pool);
    var rs := s.cache[b].tx.reqs;
    assert rs[i] in rs;
    forall q | q in rs[i := rs[i].(landed := true)] ensures q in rs || q == rs[i].(landed := true) {
    }
    LandListTracked(c, s, LandTxWrite(s, b, i), b, rs[i], pool);
  }

  lemma LandQueueTracked(c: Config, s: Vhd, b: nat, i: nat, pool: nat)
    requires Structure(c, s, pool) && Tracked(c, s) && Enabled(s, LandQueue(b, i))
    ensures Tracked(c, LandQueuedWrite(s, b, i))
  {
    hide Structure;
    hide Tracked;
    BusyNotReading(c, s, b, pool);
    var rs := s.cache[b].queue;
    assert rs[i] in rs;
    forall q | q in rs[i := rs[i].(landed := true)] ensures q in rs || q == rs[i].(landed := true) {
    }
    LandListTracked(c, s, LandQueuedWrite(s, b, i), b, rs[i], pool);
  }

  /** A redundant bitmap write puts the bitmap of a full block where it is already. */
  lemma PadSpares(c: Config, s: Vhd, r: Req, x: int)
    requires r.op == OpPad && RawM(c, s.media.disk, s.bat, s.batmap, r) && IsExtent(c, s, x) && Tracked(c, s)
    ensures SameOn(s.media.disk, LandPad(c, s.media.disk, r), x, x + c.bmSecs)
  {
    var b := r.sec / c.spb;
    var off := s.bat[b];
    assert MapOf(c, s, b) && BitsAt(s.media.disk, off) == Full(c);
    if off != x { ExtentsDiffer(c, s, off, x); }
  }

  lemma LandRawTracked(c: Config, s: Vhd, i: nat, pool: nat)
    requires Structure(c, s, pool) && Tracked(c, s) && Enabled(s, LandOther(i))
    ensures Tracked(c, LandRaw(c, s, i))
  {
    var r := s.raw[i];
    var t := LandRaw(c, s, i);
    assert r in s.raw && RawShape(c, r) && RawM(c, s.media.disk, s.bat, s.batmap, r);
    assert ReqBits(c.spb, t.raw[i]) == ReqBits(c.spb, r);
    forall x | IsExtent(c, s, x) ensures SameOn(s.media.disk, t.media.disk, x, x + c.bmSecs) {
      FileTracked(c, s);
      hide Tracked;
      if r.op == OpPad { PadSpares(c, s, r, x); }
      if r.op == OpWrite { DataWriteSpares(c, s, r.sec / c.spb, r, x); }
    }
    assert RawM(c, s.media.disk, s.bat, s.batmap, t.raw[i]);
    hide LandReq;
    hide LandPad;
    SpareTracked(c, s, t, pool);
  }

  /** Where the bitmap write of a transaction goes, and that it only adds bits. */
  lemma BitmapGoes(c: Config, s: Vhd, b: nat, pool: nat)
    requires b in s.cache && s.cache[b].write == Flying && Structure(c, s, pool) && Tracked(c, s)
    ensures var p := PlaceOf(s, b); var bm := s.cache[b];
            p.Place? && bm.wAddr == p.off && !bm.reading && bm.shadow <= Full(c) &&
            (p.ready ==> BitsAt(s.media.disk, p.off) <= bm.shadow && bm.tx.error == 0) &&
            (s.meta.zero != Idle ==> s.lock.blk != b)
  {
    BusyNotReading(c, s, b, pool);
    assert BlockOk(c, s, b) && MapOf(c, s, b);
    StagedInBlock(c, b, s.cache[b].tx.reqs);
    if s.meta.zero != Idle { ZeroHolder(c, s, pool); }
  }

  lemma LandBitmapMap(c: Config, s: Vhd, b: nat, x: nat, pool: nat)
    requires b in s.cache && s.cache[b].write == Flying && Structure(c, s, pool) && Tracked(c, s)
    ensures MapOf(c, LandBitmapWrite(c, s, b), x)
  {
    BitmapGoes(c, s, b, pool);
    FileTracked(c, s);
    assert MapOf(c, s, x);
    hide Structure;
    hide Tracked;
    hide MetaD;
    var t := LandBitmapWrite(c, s, b);
    var p := PlaceOf(s, x);
    assert PlaceOf(t, x) == p && HoldOf(t, x) == HoldOf(s, x);
    if x == b {
      assert t.media.disk(p.off) == Bits(s.cache[b].shadow);
    } else if p.Place? {
      assert CachedOf(t, x) == CachedOf(s, x);
      PlacesApart(c, s, b, x);
      MapFollows(c, s.media.disk, t.media.disk, p, HoldOf(s, x), HoldOf(t, x), CachedOf(s, x), CachedOf(t, x),
        x in s.batmap);
    }
  }

  lemma LandBitmapSpares(c: Config, s: Vhd, b: nat, x: nat, pool: nat)
    requires b in s.cache && s.cache[b].write == Flying && x != b && PlaceOf(s, x).Place?
    requires Structure(c, s, pool) && Tracked(c, s)
    ensures var off := PlaceOf(s, x).off;
            SameOn(s.media.disk, LandBitmapWrite(c, s, b).media.disk, off, off + c.bmSecs)
  {
    BitmapGoes(c, s, b, pool);
    FileTracked(c, s);
    hide Structure;
    hide Tracked;
    hide MetaD;
    PlacesApart(c, s, b, x);
  }

  lemma LandBitmapMeta(c: Config, s: Vhd, b: nat, pool: nat)
    requires b in s.cache && s.cache[b].write == Flying && Structure(c, s, pool) && Tracked(c, s)
    ensures MetaD(c, LandBitmapWrite(c, s, b))
  {
    BitmapGoes(c, s, b, pool);
    FileTracked(c, s);
    HolderKnown(c, s, pool);
    if s.meta.zero != Idle {
      ZeroHolder(c, s, pool);
      LandBitmapSpares(c, s, b, s.lock.blk, pool);
    }
  }

  lemma LandBitmapGrows(c: Config, s: Vhd, b: nat, pool: nat)
    requires b in s.cache && s.cache[b].write == Flying && Structure(c, s, pool) && Tracked(c, s)
    ensures Grows(c, s, LandBitmapWrite(c, s, b))
  {
    hide Structure;
    hide Tracked;
    var t := LandBitmapWrite(c, s, b);
    BitmapGoes(c, s, b, pool);
    forall x | x in s.bat ensures BitsAt(s.media.disk, s.bat[x]) <= BitsAt(t.media.disk, s.bat[x]) {
      assert PlaceOf(s, x) == Place(s.bat[x], true);
      if x == b {
        assert t.media.disk(s.bat[x]) == Bits(s.cache[b].shadow);
      } else {
        LandBitmapSpares(c, s, b, x, pool);
      }
    }
  }

  lemma LandBitmapTracked(c: Config, s: Vhd, b: nat, pool: nat)
    requires Structure(c, s, pool) && Tracked(c, s) && Enabled(s, LandBitmap(b))
    ensures Tracked(c, LandBitmapWrite(c, s, b))
  {
    hide MapOf;
    hide Structure;
    hide Tracked;
    hide Writables;
    hide Grows;
    hide Layout;
    hide MetaD;
    var t := LandBitmapWrite(c, s, b);
    forall x ensures MapOf(c, t, x) { LandBitmapMap(c, s, b, x, pool); }
    FileTracked(c, s);
    forall x | x in t.cache ensures Writables(c, s, t.cache[x]) {
      OwnWritables(c, s, x);
      SameWritables(c, s, s.cache[x], t.cache[x]);
    }
    LandBitmapMeta(c, s, b, pool);
    LandBitmapGrows(c, s, b, pool);
    Retrack(c, s, t);
  }

  /** The zero-bitmap write stays beyond the extents in use. */
  lemma LandZeroTracked(c: Config, s: Vhd, pool: nat)
    requires Structure(c, s, pool) && Tracked(c, s) && Enabled(s, LandZero)
    ensures Tracked(c, LandZeroBmWrite(c, s))
  {
    ZeroHolder(c, s, pool);
    FileTracked(c, s);
    var t := LandZeroBmWrite(c, s);
    forall b | b in t.cache ensures Writables(c, s, t.cache[b]) { assert Writables(c, s, s.cache[b]); }
    hide Structure;
    hide Tracked;
    hide Writables;
    forall b | PlaceOf(s, b).Place? && PlaceOf(s, b).ready
      ensures SameOn(s.media.disk, t.media.disk, PlaceOf(s, b).off, PlaceOf(s, b).off + c.bmSecs)
    {
      assert b in s.bat && InUseExtent(c, s.nextDb, s.bat[b]);
    }
    forall b ensures PlaceOf(t, b) == PlaceOf(s, b) && SameHold(HoldOf(s, b), HoldOf(t, b)) {
    }
    QuietTracked(c, s, t);
  }

  lemma LandBatTracked(c: Config, s: Vhd)
    requires Tracked(c, s) && Enabled(s, LandBat)
    ensures Tracked(c, LandBatWrite(s))
  {
    hide MetaD;
    hide Layout;
    var t := LandBatWrite(s);
    BatLanded(c, s);
    forall b ensures PlaceOf(t, b) == PlaceOf(s, b) && SameHold(HoldOf(s, b), HoldOf(t, b)) {
    }
    QuietTracked(c, s, t);
  }

  /* ---- other completions ---- */

  lemma MetaSameFile(c: Config, s: Vhd, t: Vhd)
    requires MetaD(c, s)
    requires t.bat == s.bat && t.nextDb == s.nextDb && t.lock == s.lock && t.meta == s.meta && t.media == s.media
    ensures MetaD(c, t)
  {
  }

  /** The sectors of a request outside transactions are mapped. */
  lemma RawMapped(c: Config, s: Vhd, r: Req, l: nat, pool: nat)
    requires r in s.raw && r.op != OpPad && r.sec <= l < r.sec + r.secs && Structure(c, s, pool) && Tracked(c, s)
    ensures BitOnDisk(c, s.media.disk, s.bat, l)
  {
    assert RawShape(c, r) && RawM(c, s.media.disk, s.bat, s.batmap, r);
    InBlockRange(c, r.sec / c.spb, r, l);
    assert InRange(l % c.spb, r.sec % c.spb, r.secs) && l % c.spb in ReqBits(c.spb, r);
  }

  lemma DoneOtherTracked(c: Config, s: Vhd, i: nat, err: int, pool: nat)
    requires Structure(c, s, pool) && Tracked(c, s) && Enabled(s, DoneOther(i, err))
    ensures Tracked(c, FinishRaw(s, i, err))
  {
    hide Structure;
    hide Tracked;
    hide Layout;
    hide MetaD;
    hide Writables;
    hide RawM;
    hide BitOnDisk;
    hide Quiet;
    var (t, r) := (FinishRaw(s, i, err), s.raw[i]);
    assert r in s.raw;
    forall k, l: nat | |s.log| <= k < |t.log| && Acknowledges(t.log[k], l)
      ensures BitOnDisk(c, s.media.disk, s.bat, l)
    {
      assert t.log[k] == DoneEv(r.(err := err), 0);
      RawMapped(c, s, r, l, pool);
    }
    FileTracked(c, s);
    MetaSameFile(c, s, t);
    forall b | b in t.cache ensures Writables(c, s, t.cache[b]) { OwnWritables(c, s, b); }
    LoggedQuiet(c, s, t);
    QuietTracked(c, s, t);
  }

  lemma LoggedQuiet(c: Config, s: Vhd, t: Vhd)
    requires t == s.(raw := t.raw, free := t.free, log := t.log) && forall r :: r in t.raw ==> r in s.raw
    requires forall b :: b in t.cache ==> Writables(c, s, t.cache[b])
    ensures Quiet(c, s, t)
  {
    hide Writables;
  }

  /* ---- serving ---- */

  lemma CalmSame(c: Config, s: Vhd, t: Vhd)
    requires Tracked(c, s)
    requires t == s.(free := t.free, raw := t.raw, lru := t.lru, bmFree := t.bmFree, panicked := t.panicked)
    requires forall r :: r in t.raw && r !in s.raw ==> RawM(c, s.media.disk, s.bat, s.batmap, r)
    ensures Tracked(c, t)
  {
    hide Writables;
    hide RawM;
    CalmTracked(c, s, t);
  }

  /** The bitmap of block b is replaced by one that follows it, and others may go. */
  lemma CalmBm(c: Config, s: Vhd, t: Vhd, b: nat)
    requires Tracked(c, s)
    requires t == s.(free := t.free, lru := t.lru, bmFree := t.bmFree, panicked := t.panicked, cache := t.cache)
    requires forall x :: x in t.cache && x != b ==> x in s.cache && t.cache[x] == s.cache[x]
    requires b in t.cache ==> Follows(PlaceOf(s, b), CachedOf(s, b), InCache(t.cache[b])) && Writables(c, s, t.cache[b])
    ensures Tracked(c, t)
  {
    forall x | x in t.cache
      ensures Writables(c, s, t.cache[x]) && Follows(PlaceOf(s, x), CachedOf(s, x), InCache(t.cache[x]))
    {
      if x != b { assert Writables(c, s, s.cache[x]); }
    }
    hide Writables;
    hide Follows;
    hide Tracked;
    CalmTracked(c, s, t);
  }

  lemma TouchTracked(c: Config, s: Vhd, sec: nat, write: bool)
    requires Tracked(c, s)
    ensures Tracked(c, ReadBitmapCache(c, s, sec, write).0)
  {
    hide Tracked;
    hide Writables;
    var b := sec / c.spb;
    if b <= c.maxBat && b in s.bat && b !in s.batmap && b in s.cache {
      OwnWritables(c, s, b);
      SameWritables(c, s, s.cache[b], s.cache[b].(seqno := s.lru + 1));
      CalmBm(c, s, Touch(s, b), b);
    }
  }

  lemma EmitTracked(c: Config, s: Vhd, e: Ev)
    requires Tracked(c, s) && forall l: nat :: !Acknowledges(e, l)
    ensures Tracked(c, Emit(s, e))
  {
    forall b | b in s.cache ensures Writables(c, s, s.cache[b]) {
    }
    hide Writables;
    CalmTracked(c, s, Emit(s, e));
  }

  lemma InstallTracked(c: Config, s: Vhd, b: nat, bm: Bm, pool: nat)
    requires b !in s.cache && Blank(bm) && (PlaceOf(s, b).NoPlace? || bm.reading)
    requires Structure(c, s, pool) && Tracked(c, s)
    ensures Tracked(c, InstallBitmap(c, s, b, bm).0)
  {
    hide Structure;
    hide Tracked;
    hide IsVictim;
    var (t, err) := InstallBitmap(c, s, b, bm);
    assert Writables(c, s, bm.(seqno := s.lru + 1));
    hide Writables;
    if s.bmFree > 0 {
      CalmBm(c, s, t, b);
    } else if err == 0 {
      var v := Evicted(c, s, b, bm, pool);
      hide InstallBitmap;
      CalmBm(c, s, t, b);
    }
  }

  lemma QueueTracked(c: Config, s: Vhd, r: Req)
    requires Tracked(c, s) && r.sec / c.spb in s.cache
    ensures Tracked(c, QueueRequest(c, s, r).0)
  {
    assert Writables(c, s, s.cache[r.sec / c.spb]);
    hide Tracked;
    CalmBm(c, s, QueueRequest(c, s, r).0, r.sec / c.spb);
  }

  /* ---- allocation ---- */

  /** The lock is taken for block b, with an extent whose bitmap is empty if it is ready. */
  lemma LockedTracked(c: Config, s: Vhd, t: Vhd, b: nat, pool: nat)
    requires b in s.cache && b !in s.bat && !s.lock.locked && !s.cache[b].reading
    requires t.bat == s.bat && t.batmap == s.batmap && t.nextDb == s.nextDb && t.media == s.media && t.log == s.log &&
             t.raw == s.raw
    requires t.lock.locked && t.lock.blk == b && MetaD(c, t) && b in t.cache
    requires t.cache == s.cache[b := s.cache[b].(locked := true, tx := t.cache[b].tx)]
    requires t.cache[b].tx.reqs == s.cache[b].tx.reqs
    requires PlaceOf(t, b).ready ==>
      BitmapAt(c, s.media.disk, t.lock.off, {}) && !t.cache[b].tx.updateBat
    requires Structure(c, s, pool) && Tracked(c, s)
    ensures Tracked(c, t)
  {
    assert BlockOk(c, s, b);
    FileTracked(c, s);
    forall x ensures MapOf(c, t, x) {
      if x == b {
        if PlaceOf(t, b).ready { assert t.media.disk(t.lock.off) == Bits({}); }
      } else {
        assert MapOf(c, s, x);
        assert PlaceOf(t, x) == PlaceOf(s, x) && HoldOf(t, x) == HoldOf(s, x) && CachedOf(t, x) == CachedOf(s, x);
      }
    }
    forall x | x in t.cache ensures Writables(c, s, t.cache[x]) { assert Writables(c, s, s.cache[x]); }
    hide Structure;
    hide MapOf;
    hide Layout;
    hide MetaD;
    hide Writables;
    hide RawM;
    Retrack(c, s, t);
  }

  lemma ReserveTracked(c: Config, s: Vhd, b: nat, pool: nat)
    requires Structure(c, s, pool) && Tracked(c, s) && b in s.cache && b !in s.bat && !s.lock.locked
    ensures Tracked(c, ReserveAndZero(c, s, b))
  {
    assert BlockOk(c, s, b);
    var t := ReserveAndZero(c, s, b);
    assert s.log + [] == s.log;
    assert MetaD(c, t);
    hide Structure;
    hide Tracked;
    hide MetaD;
    LockedTracked(c, s, t, b, pool);
  }

  lemma LockAndWriteBatTracked(c: Config, s: Vhd, b: nat, pool: nat)
    requires Structure(c, s, pool) && Tracked(c, s) && b in s.cache && b !in s.bat && !s.lock.locked && s.lock.blk == b
    requires s.lock.off == NextOff(c, s.nextDb) && BitmapAt(c, s.media.disk, s.lock.off, {})
    ensures Tracked(c, LockAndWriteBat(s, b))
  {
    assert BlockOk(c, s, b);
    var t := LockAndWriteBat(s, b);
    assert s.log + [] == s.log;
    assert BatSector(t.bat, t.lock, t.meta);
    assert MetaD(c, t);
    hide Structure;
    hide Tracked;
    hide MetaD;
    LockedTracked(c, s, t, b, pool);
  }

  /** The new extent is zeroed, its bitmap included, beyond all extents in use. */
  /** The extent that is zeroed begins at or beyond all that is in use. */
  lemma ExtentTakenLayout(c: Config, s: Vhd, b: nat)
    requires Layout(c, s.bat, s.nextDb)
    ensures var t := ExtentTaken(c, s, b);
            && Layout(c, t.bat, t.nextDb) && t.lock.off == t.nextDb == NextOff(c, t.nextDb) == NextOff(c, s.nextDb)
  {
    NextOffAligned(c, s.nextDb);
    AlignKeepsLayout(c, s.bat, s.nextDb);
  }

  lemma ExtentTakenSame(c: Config, s: Vhd, b: nat, x: nat)
    requires Layout(c, s.bat, s.nextDb) && x in s.bat
    ensures SameOn(s.media.disk, ExtentTaken(c, s, b).media.disk, s.bat[x], s.bat[x] + c.bmSecs)
  {
    hide Gap;
    assert InUseExtent(c, s.nextDb, s.bat[x]);
  }

  lemma ExtentTakenBitmap(c: Config, s: Vhd, b: nat)
    requires Layout(c, s.bat, s.nextDb) && c.sync(|s.log|) == 0
    ensures var t := ExtentTaken(c, s, b); BitmapAt(c, t.media.disk, t.nextDb, {})
  {
    NextOffAligned(c, s.nextDb);
  }

  /** Zeroing it leaves the rest of the file alone. */
  lemma ExtentTakenQuiet(c: Config, s: Vhd, b: nat)
    requires Tracked(c, s) && !s.lock.locked && s.meta.zero == Idle && s.meta.bat == Idle
    ensures Quiet(c, s, ExtentTaken(c, s, b))
  {
    hide Tracked;
    hide Writables;
    hide RawM;
    hide Layout;
    hide NextOff;
    hide Gap;
    hide ZeroExtent;
    hide SameOn;
    var t := ExtentTaken(c, s, b);
    FileTracked(c, s);
    ZeroedSame(c, s);
    forall x | x in t.cache ensures Writables(c, s, t.cache[x]) { OwnWritables(c, s, x); }
    ExtentTakenLayout(c, s, b);
    forall x ensures PlaceOf(t, x) == PlaceOf(s, x) && HoldOf(t, x) == HoldOf(s, x) {
    }
    forall x | x in s.bat ensures SameOn(s.media.disk, t.media.disk, s.bat[x], s.bat[x] + c.bmSecs) {
      ExtentTakenSame(c, s, b, x);
    }
  }

  lemma ZeroedSame(c: Config, s: Vhd)
    ensures var t := ZeroExtent(c, s); t == s.(media := t.media) && t.media.bat == s.media.bat
  {
  }

  lemma ExtentTakenTracked(c: Config, s: Vhd, b: nat, pool: nat)
    requires Structure(c, s, pool) && Tracked(c, s) && !s.lock.locked
    ensures var t := ExtentTaken(c, s, b);
            Tracked(c, t) && t.lock.off == t.nextDb == NextOff(c, t.nextDb) && !t.lock.locked && t.lock.blk == b &&
            (c.sync(|s.log|) == 0 ==> BitmapAt(c, t.media.disk, t.nextDb, {}))
  {
    hide Structure;
    hide Tracked;
    hide Layout;
    hide Quiet;
    FileTracked(c, s);
    HolderKnown(c, s, pool);
    ExtentTakenLayout(c, s, b);
    if c.sync(|s.log|) == 0 { ExtentTakenBitmap(c, s, b); }
    ExtentTakenQuiet(c, s, b);
    QuietTracked(c, s, ExtentTaken(c, s, b));
  }

  lemma AllocationTracked(c: Config, s: Vhd, b: nat, pool: nat)
    requires Structure(c, s, pool) && Tracked(c, s) && b !in s.bat && (s.lock.locked ==> s.lock.blk == b)
    ensures var (t, err) := if c.prealloc then AllocateBlock(c, s, b) else UpdateBat(c, s, b);
            Tracked(c, t)
  {
    hide Tracked;
    hide Structure;
    hide ReserveAndZero;
    hide LockAndWriteBat;
    hide InstallBitmap;
    assert Check(s, true) == s;
    if s.lock.locked {
      CalmSame(c, s, Check(s, true));
    } else {
      var s1 := if c.prealloc then ExtentTaken(c, s, b) else s;
      if c.prealloc {
        ExtentTakenTracked(c, s, b, pool);
        ExtentTakenOk(c, s, b, pool);
      }
      if b !in s1.cache { InstallTracked(c, s1, b, InitBm, pool); }
      EmptyBitmapOk(c, s1, b, pool);
      var (s2, err) := EmptyBitmap(c, s1, b);
      if err == 0 && (c.prealloc ==> c.sync(|s.log|) == 0) {
        if c.prealloc { LockAndWriteBatTracked(c, s2, b, pool); } else { ReserveTracked(c, s2, b, pool); }
      }
    }
  }

  /* ---- new requests ---- */

  lemma JoinTracked(c: Config, s: Vhd, r: Req)
    requires Tracked(c, s) && s.free > 0 && r.sec / c.spb in s.cache
    requires var p := PlaceOf(s, r.sec / c.spb); p.Place? && r.addr == p.off + c.bmSecs + r.sec % c.spb
    ensures var s2 := s.(free := s.free - 1); Tracked(c, Put(s2, JoinTx(At(s2, r.sec / c.spb), r)))
  {
    var b := r.sec / c.spb;
    PlaceIsExtent(c, s, b);
    JoinPut(s, b, r);
    assert Writables(c, s, s.cache[b]);
    var bm := JoinTx(At(s, b), r).bm;
    assert Writables(c, s, bm);
    assert SameMap(s.cache[b], bm);
    hide Tracked;
    hide JoinTx;
    hide Writables;
    CalmBm(c, s, PutBm(s, b, bm).(free := s.free - 1, panicked := s.panicked || JoinTx(At(s, b), r).bad), b);
  }

  /** The sectors of a piece whose bits are set in memory are on the disk. */
  lemma SetSpanTracked(c: Config, s: Vhd, wid: nat, sec: nat, n: nat, pool: nat)
    requires Structure(c, s, pool) && Tracked(c, s)
    requires InMap(c, s, sec)
    ensures var b := sec / c.spb;
            b in s.bat &&
            ReqBits(c.spb, Piece(true, wid, sec, Span(c, s, sec, n, true))) <= BitsAt(s.media.disk, s.bat[b])
  {
    var b := sec / c.spb;
    assert MapOf(c, s, b);
    if b !in s.batmap {
      assert BlockOk(c, s, b);
      assert s.cache[b].bits <= ExpectedBits(s.cache[b], HoldOf(s, b));
    }
  }

  /** What a write without bitmap update submits. */
  lemma PlainRaw(c: Config, s: Vhd, q: Req, b: nat)
    requires b == q.sec / c.spb && b in s.bat && RawM(c, s.media.disk, s.bat, s.batmap, q)
    ensures var t := PlainWrite(c, s, q);
            t == s.(free := t.free, raw := t.raw, panicked := t.panicked) &&
            forall r :: r in t.raw && r !in s.raw ==> RawM(c, s.media.disk, s.bat, s.batmap, r)
  {
    assert b * c.spb / c.spb == b by { DivUnique(c.spb, b, 0); }
  }

  lemma StraightWriteTracked(c: Config, s: Vhd, wid: nat, sec: nat, n: nat, pool: nat)
    requires Structure(c, s, pool) && Tracked(c, s) && InMap(c, s, sec)
    ensures Tracked(c, ScheduleDataWrite(c, s, Piece(true, wid, sec, Span(c, s, sec, n, true)), false, false).0)
  {
    hide Structure;
    hide Tracked;
    hide Span;
    hide PlainWrite;
    SetSpanTracked(c, s, wid, sec, n, pool);
    if s.free == 0 { return; }
    var b := sec / c.spb;
    var r := Piece(true, wid, sec, Span(c, s, sec, n, true));
    var q := r.(op := OpWrite, addr := BatEntry(s, b) + c.bmSecs + sec % c.spb);
    assert ReqBits(c.spb, q) == ReqBits(c.spb, r);
    assert RawM(c, s.media.disk, s.bat, s.batmap, q);
    hide ReqBits;
    PlainRaw(c, s.(free := s.free - 1), q, b);
    hide RawM;
    hide PlainWrite;
    CalmSame(c, s, ScheduleDataWrite(c, s, r, false, false).0);
  }

  lemma DataReadTracked(c: Config, s: Vhd, wid: nat, sec: nat, n: nat, pool: nat)
    requires Structure(c, s, pool) && Tracked(c, s) && InMap(c, s, sec)
    ensures Tracked(c, ScheduleDataRead(c, s, Piece(false, wid, sec, Span(c, s, sec, n, true))).0)
  {
    SetSpanTracked(c, s, wid, sec, n, pool);
    hide Structure;
    hide Tracked;
    hide Span;
    var r := Piece(false, wid, sec, Span(c, s, sec, n, true));
    assert ReqBits(c.spb, r) == ReqBits(c.spb, Piece(true, wid, sec, Span(c, s, sec, n, true)));
    CalmSame(c, s, ScheduleDataRead(c, s, r).0);
  }

  lemma BitmapWriteTracked(c: Config, s: Vhd, r: Req, updBat: bool, pool: nat)
    requires Joinable(s, r.sec / c.spb, updBat) && Structure(c, s, pool) && Tracked(c, s)
    ensures Tracked(c, ScheduleDataWrite(c, s, r, updBat, true).0)
  {
    hide AllocateBlock;
    hide UpdateBat;
    hide Structure;
    hide Tracked;
    hide JoinTx;
    var b := r.sec / c.spb;
    var (s1, err) :=
      if !updBat then (s, 0) else if c.prealloc then AllocateBlock(c, s, b) else UpdateBat(c, s, b);
    if updBat {
      AllocationOk(c, s, b, pool);
      AllocationTracked(c, s, b, pool);
      AllocationLog(c, s, b, pool);
    }
    if err == 0 && s1.free > 0 {
      var base := if updBat then s1.lock.off else BatEntry(s, b);
      JoinTracked(c, s1, r.(op := OpWrite, addr := base + c.bmSecs + r.sec % c.spb));
    }
  }

  lemma BitmapReadTracked(c: Config, s: Vhd, r: Req, pool: nat)
    requires var b := r.sec / c.spb; b in s.bat && b !in s.cache
    requires Structure(c, s, pool) && Tracked(c, s)
    ensures var (t, err) := ScheduleBitmapRead(c, s, r.sec / c.spb);
            Tracked(c, t) && (err == 0 ==> Tracked(c, QueueRequest(c, t, r).0))
  {
    hide Structure;
    hide Tracked;
    hide InstallBitmap;
    hide QueueRequest;
    assert Check(s, true) == s;
    InstallTracked(c, s, r.sec / c.spb, InitBm.(reading := true, locked := true), pool);
    var (t, err) := ScheduleBitmapRead(c, s, r.sec / c.spb);
    if err == 0 { QueueTracked(c, t, r); }
  }

  lemma ReadTurnTracked(c: Config, s: Vhd, wid: nat, sec: nat, n: nat, pool: nat)
    requires Structure(c, s, pool) && Tracked(c, s) && 0 < n
    ensures Tracked(c, ReadTurn(c, s, wid, sec, n).0)
  {
    hide Structure;
    hide Tracked;
    hide QueueRequest;
    hide ScheduleDataRead;
    hide ScheduleBitmapRead;
    var (s1, hit) := ReadBitmapCache(c, s, sec, false);
    ReadBitmapCacheOk(c, s, sec, false, pool);
    TouchTracked(c, s, sec, false);
    match hit
    case OutOfRange =>
    case BatLocked =>
    case BatClear => EmitTracked(c, s1, Forward(wid, sec, ToBlockEnd(c, sec, n)));
    case BitClear => EmitTracked(c, s1, Forward(wid, sec, Span(c, s1, sec, n, false)));
    case BitSet => DataReadTracked(c, s1, wid, sec, n, pool);
    case NotCached => BitmapReadTracked(c, s1, Piece(false, wid, sec, ToBlockEnd(c, sec, n)), pool);
    case ReadPending => QueueTracked(c, s1, Piece(false, wid, sec, ToBlockEnd(c, sec, n)));
  }

  lemma WriteTurnTracked(c: Config, s: Vhd, wid: nat, sec: nat, n: nat, pool: nat)
    requires Structure(c, s, pool) && Tracked(c, s) && 0 < n
    ensures Tracked(c, WriteTurn(c, s, wid, sec, n).0)
  {
    hide Structure;
    hide Tracked;
    hide QueueRequest;
    hide ScheduleDataWrite;
    hide ScheduleBitmapRead;
    var (s1, hit) := ReadBitmapCache(c, s, sec, true);
    ReadBitmapCacheOk(c, s, sec, true, pool);
    TouchTracked(c, s, sec, true);
    match hit
    case OutOfRange =>
    case BatLocked =>
    case BatClear => BitmapWriteTracked(c, s1, Piece(true, wid, sec, ToBlockEnd(c, sec, n)), true, pool);
    case BitClear => BitmapWriteTracked(c, s1, Piece(true, wid, sec, Span(c, s1, sec, n, false)), false, pool);
    case BitSet => StraightWriteTracked(c, s1, wid, sec, n, pool);
    case NotCached => BitmapReadTracked(c, s1, Piece(true, wid, sec, ToBlockEnd(c, sec, n)), pool);
    case ReadPending => QueueTracked(c, s1, Piece(true, wid, sec, ToBlockEnd(c, sec, n)));
  }

  lemma {:induction false} ServeTracked(c: Config, s: Vhd, write: bool, wid: nat, sec: nat, n: nat, pool: nat)
    requires Structure(c, s, pool) && Tracked(c, s)
    ensures Tracked(c, Serve(c, s, write, wid, sec, n))
    decreases n
  {
    hide Structure;
    hide Tracked;
    hide WriteTurn;
    hide ReadTurn;
    if n > 0 {
      if write { WriteTurnTracked(c, s, wid, sec, n, pool); } else { ReadTurnTracked(c, s, wid, sec, n, pool); }
      TurnOk(c, s, write, wid, sec, n, pool);
      var (s1, k, err) := Turn(c, s, write, wid, sec, n);
      if err != 0 {
        EmitTracked(c, s1, Done(write, wid, sec, n, err));
      } else {
        ServeTracked(c, s1, write, wid, sec + k, n - k, pool);
      }
    }
  }

  lemma {:induction false} ReplayTracked(c: Config, s: Vhd, rs: seq<Req>, pool: nat)
    requires |rs| <= pool && Structure(c, s, pool - |rs|) && Tracked(c, s)
    ensures Tracked(c, Replay(c, s, rs))
    decreases |rs|
  {
    hide Structure;
    hide Tracked;
    hide Serve;
    if rs != [] {
      var r := rs[0];
      var s1 := s.(free := s.free + 1);
      FreeOk(c, s, pool - |rs|);
      CalmSame(c, s, s1);
      ServeTracked(c, s1, r.op == OpWrite, r.wid, r.sec, r.secs, pool - |rs| + 1);
      ServeOk(c, s1, r.op == OpWrite, r.wid, r.sec, r.secs, pool - |rs| + 1);
      ReplayTracked(c, Serve(c, s1, r.op == OpWrite, r.wid, r.sec, r.secs), rs[1..], pool);
    }
  }

  /** The loaded bitmap is the one on the disk. */
  lemma LoadedTracked(c: Config, s: Vhd, b: nat, pool: nat)
    requires b in s.cache && s.cache[b].reading && Structure(c, s, pool) && Tracked(c, s)
    ensures Tracked(c, BitmapLoaded(c, s, b))
  {
    assert BlockOk(c, s, b) && MapOf(c, s, b);
    FileTracked(c, s);
    var t := BitmapLoaded(c, s, b);
    assert BitsAt(s.media.disk, s.bat[b]) * Full(c) == BitsAt(s.media.disk, s.bat[b]);
    forall x ensures MapOf(c, t, x) {
      assert MapOf(c, s, x);
      assert PlaceOf(t, x) == PlaceOf(s, x) && HoldOf(t, x) == HoldOf(s, x);
      assert x != b ==> CachedOf(t, x) == CachedOf(s, x);
    }
    forall x | x in t.cache ensures Writables(c, s, t.cache[x]) { assert Writables(c, s, s.cache[x]); }
    MetaSameFile(c, s, t);
    hide Structure;
    hide MapOf;
    hide Layout;
    hide MetaD;
    hide Writables;
    hide RawM;
    Retrack(c, s, t);
  }

  lemma UnlockTracked(c: Config, s: Vhd, b: nat)
    requires Tracked(c, s)
    ensures Tracked(c, UnlockCached(s, b))
  {
    if b in s.cache {
      assert Writables(c, s, s.cache[b]);
      var k := UnlockIfIdle(At(s, b));
      PutSame(s, b, k);
      hide Tracked;
      hide Put;
      CalmBm(c, s, PutBm(s, b, k.bm).(panicked := s.panicked || k.bad), b);
    }
  }

  lemma LoadFailedTracked(c: Config, s: Vhd, b: nat, err: int)
    requires Tracked(c, s) && b in s.cache && err != 0
    ensures Tracked(c, FinishBitmapRead(c, s, b, err))
  {
    var t := FinishBitmapRead(c, s, b, err);
    forall x | x in t.cache ensures Writables(c, s, t.cache[x]) { assert Writables(c, s, s.cache[x]); }
    hide Writables;
    CalmTracked(c, s, t);
  }

  lemma DoneBitmapReadTracked(c: Config, s: Vhd, b: nat, err: int, pool: nat)
    requires Structure(c, s, pool) && Tracked(c, s) && Enabled(s, DoneBitmapRead(b, err))
    ensures Tracked(c, FinishBitmapRead(c, s, b, err))
  {
    hide Structure;
    hide Tracked;
    hide Replay;
    if err != 0 {
      LoadFailedTracked(c, s, b, err);
    } else {
      LoadedTracked(c, s, b, pool);
      BitmapLoadedOk(c, s, b, pool);
      ReplayTracked(c, BitmapLoaded(c, s, b), s.cache[b].waiting, pool);
      UnlockTracked(c, Replay(c, BitmapLoaded(c, s, b), s.cache[b].waiting), b);
    }
  }

  lemma RequestTracked(c: Config, s: Vhd, write: bool, sec: nat, n: nat, pool: nat)
    requires Structure(c, s, pool) && Tracked(c, s)
    ensures Tracked(c, Next(c, s, Request(write, sec, n)))
  {
    hide Structure;
    hide Tracked;
    hide Serve;
    var s1 := Emit(s, Issue(write, sec, n));
    EmitTracked(c, s, Issue(write, sec, n));
    MediaIrrelevant(c, s, s1, pool);
    ServeTracked(c, s1, write, |s.log|, sec, n, pool);
  }

  /* ---- every step ---- */

  /** Every step, also a failure that leaves writes behind, keeps extents apart and the
      bitmaps on the disk tracked. */
  lemma StepTracked(c: Config, s: Vhd, step: Step, pool: nat)
    requires Structure(c, s, pool) && Enabled(s, step) && Tracked(c, s)
    ensures Tracked(c, Next(c, s, step))
  {
    hide Structure;
    hide Tracked;
    match step
    case Request(write, sec, n) => RequestTracked(c, s, write, sec, n, pool);
    case LandTx(b, i) => LandTxTracked(c, s, b, i, pool);
    case LandQueue(b, i) => LandQueueTracked(c, s, b, i, pool);
    case LandOther(i) => LandRawTracked(c, s, i, pool);
    case LandBitmap(b) => LandBitmapTracked(c, s, b, pool);
    case LandZero => LandZeroTracked(c, s, pool);
    case LandBat => LandBatTracked(c, s);
    case DoneTx(b, i, err) => DoneTxTracked(c, s, b, i, err, pool);
    case DoneQueue(b, i, err) => DoneQueueTracked(c, s, b, i, err, pool);
    case DoneOther(i, err) => DoneOtherTracked(c, s, i, err, pool);
    case DoneBitmapRead(b, err) => DoneBitmapReadTracked(c, s, b, err, pool);
    case DoneBitmapWrite(b, err) => DoneBitmapWriteTracked(c, s, b, err, pool);
    case DoneZero(err) => DoneZeroTracked(c, s, err, pool);
    case DoneBat(err) => DoneBatTracked(c, s, err, pool);
  }
}
