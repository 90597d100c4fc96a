/** Writes reaching the disk, at any moment, keep `OnDisk`. */
module VhdLanding {
  import opened Arithmetic
  import opened VhdTypes
  import opened VhdEngine
  import opened VhdInvariants
  import opened VhdStructure
  import opened VhdSafety
  import opened VhdAccounting
  import opened VhdMoves
  import opened VhdLayout
  import opened VhdDisk
  import opened VhdDurability

  /* ---- one block ---- */

  lemma SameQuotient(d: pos, x: nat, y: nat)
    requires x / d == y / d
    ensures x - y == x % d - y % d
  {
    assert x == x / d * d + x % d && y == y / d * d + y % d;
  }

  /** Request r is about to land in the extent at `off`. */
  ghost predicate Lands(c: Config, v: World, off: int, b: nat, r: Req) {
    && InBlock(c, b, r) && r.addr == off + c.bmSecs + r.sec % c.spb
    && r.wid < |v.log|
    && (forall l: nat :: r.sec <= l < r.sec + r.secs ==> Wrote(v.log, r.wid, l) && NotBefore(v.log, r.wid, |v.log|, l))
  }

  /** What landing does to one sector of the block. */
  lemma LandSector(c: Config, v: World, d2: Disk, off: int, b: nat, r: Req, l: nat, w: nat)
    requires Lands(c, v, off, b, r) && l / c.spb == b && w <= |v.log|
    requires forall a :: d2(a) == LandReq(v.disk, r)(a)
    ensures var v2 := v.(disk := d2);
            (InPlace(c, v, off, l) ==> InPlace(c, v2, off, l)) &&
            (Fresh(c, v, off, l, w) ==> Fresh(c, v2, off, l, w)) &&
            (r.sec <= l < r.sec + r.secs ==> Fresh(c, v2, off, l, w))
  {
    SameQuotient(c.spb, l, r.sec);
    var a := Loc(c, off, l);
    if r.addr <= a < r.addr + r.secs {
      assert d2(a) == Data(r.wid, l);
    }
  }

  lemma LandWriteD(c: Config, v: World, d2: Disk, off: int, b: nat, r: Req, q: Req)
    requires Lands(c, v, off, b, r) && InBlock(c, b, q) && WriteD(c, v, off, q)
    requires forall a :: d2(a) == LandReq(v.disk, r)(a)
    ensures WriteD(c, v.(disk := d2), off, q)
  {
    var v2 := v.(disk := d2);
    forall l: nat | q.sec <= l < q.sec + q.secs
      ensures q.landed ==> Fresh(c, v2, off, l, q.wid)
      ensures q.finished && q.err == 0 ==> Synced(c, v2, off, l)
    {
      InBlockRange(c, b, q, l);
      LandSector(c, v, d2, off, b, r, l, q.wid);
      if q.finished && q.err == 0 { assert Synced(c, v, off, l); }
    }
  }

  /** The write that landed is as it should be. */
  lemma LandedWriteD(c: Config, v: World, d2: Disk, off: int, b: nat, r: Req)
    requires Lands(c, v, off, b, r) && WriteD(c, v, off, r) && !r.finished
    requires forall a :: d2(a) == LandReq(v.disk, r)(a)
    ensures WriteD(c, v.(disk := d2), off, r.(landed := true))
  {
    forall l: nat | r.sec <= l < r.sec + r.secs ensures Fresh(c, v.(disk := d2), off, l, r.wid) {
      InBlockRange(c, b, r, l);
      LandSector(c, v, d2, off, b, r, l, r.wid);
    }
  }

  lemma LandBacked(c: Config, v: World, d2: Disk, off: int, b: nat, r: Req, m: set<nat>)
    requires Lands(c, v, off, b, r) && Backed(c, v, off, b, m)
    requires forall a :: d2(a) == LandReq(v.disk, r)(a)
    ensures Backed(c, v.(disk := d2), off, b, m)
  {
    forall l: nat | l / c.spb == b && l % c.spb in m
      ensures InPlace(c, v.(disk := d2), off, l) && Synced(c, v.(disk := d2), off, l)
    {
      assert InPlace(c, v, off, l) && Synced(c, v, off, l);
      LandSector(c, v, d2, off, b, r, l, 0);
    }
  }

  /** A data write leaves the bitmap of its extent alone. */
  lemma LandBitmapSame(c: Config, v: World, off: int, b: nat, r: Req, m: set<nat>)
    requires Lands(c, v, off, b, r)
    ensures BitsAt(LandReq(v.disk, r), off) == BitsAt(v.disk, off)
    ensures BitmapAt(c, v.disk, off, m) ==> BitmapAt(c, LandReq(v.disk, r), off, m)
  {
  }

  /** Marking a request as landed. */
  predicate LandMark(bm: Bm, bm2: Bm) {
    bm2 == bm.(tx := bm.tx.(reqs := bm2.tx.reqs), queue := bm2.queue)
  }

  lemma LandBlock(c: Config, v: World, b: nat, p: Place, h: Hold, k: Cached, k2: Cached, full: bool, r: Req)
    requires BlockD(c, v, b, p, h, k, full) && p.Place? && Lands(c, v, p.off, b, r)
    requires k.InCache? <==> k2.InCache?
    requires k.InCache? ==> LandMark(k.bm, k2.bm) && WritesD(c, v.(disk := LandReq(v.disk, r)), p.off, k2.bm)
    ensures BlockD(c, v.(disk := LandReq(v.disk, r)), b, p, h, k2, full)
  {
    LandBitmapSame(c, v, p.off, b, r, BitsAt(v.disk, p.off));
    if p.ready { LandBacked(c, v, LandReq(v.disk, r), p.off, b, r, BitsAt(v.disk, p.off)); }
  }

  /* ---- the rest of the disk ---- */

  lemma PlacesApart(c: Config, s: Vhd, x: nat, y: nat)
    requires Layout(c, s.bat, s.nextDb) && MetaD(c, s) && x != y && PlaceOf(s, x).Place? && PlaceOf(s, y).Place?
    ensures Apart(c, PlaceOf(s, x).off, PlaceOf(s, y).off)
  {
  }

  /** The disk changed only where writes to the extent at `off` may go. */
  ghost predicate OnlyIn(c: Config, d: Disk, d2: Disk, off: int) {
    forall a :: (a < Low(c, off) || End(c, off) <= a) ==> d2(a) == d(a)
  }

  ghost predicate SameOn(d: Disk, d2: Disk, lo: int, hi: int) {
    forall a :: lo <= a < hi ==> d2(a) == d(a)
  }

  /** A write for block b landed: the extents of the other blocks are as they were. */
  ghost predicate LandContext(c: Config, s: Vhd, t: Vhd, b: nat) {
    && OnDisk(c, s)
    && (forall x :: x != b && PlaceOf(s, x).Place? ==>
         SameOn(s.media.disk, t.media.disk, PlaceOf(s, x).off, End(c, PlaceOf(s, x).off)))
    && t.bat == s.bat && t.nextDb == s.nextDb && t.lock == s.lock && t.log == s.log && t.batmap == s.batmap
    && t.media == s.media.(disk := t.media.disk)
    && (forall x :: x != b ==> HoldOf(t, x) == HoldOf(s, x))
    && t.cache.Keys == s.cache.Keys && (forall x :: x in s.cache && x != b ==> t.cache[x] == s.cache[x])
    && (b in s.cache ==> t.cache[b].waiting == s.cache[b].waiting)
  }

  lemma OnlyInElsewhere(c: Config, s: Vhd, d2: Disk, b: nat)
    requires OnDisk(c, s) && PlaceOf(s, b).Place? && OnlyIn(c, s.media.disk, d2, PlaceOf(s, b).off)
    ensures forall x :: x != b && PlaceOf(s, x).Place? ==>
              SameOn(s.media.disk, d2, PlaceOf(s, x).off, End(c, PlaceOf(s, x).off))
  {
    forall x | x != b && PlaceOf(s, x).Place?
      ensures SameOn(s.media.disk, d2, PlaceOf(s, x).off, End(c, PlaceOf(s, x).off))
    {
      PlacesApart(c, s, b, x);
    }
  }

  lemma Elsewhere(c: Config, s: Vhd, t: Vhd, b: nat, x: nat)
    requires LandContext(c, s, t, b) && x != b && PlaceOf(s, x).Place?
    ensures var off := PlaceOf(s, x).off; Later(WorldOf(s), WorldOf(t), off, End(c, off))
  {
  }

  lemma LandElsewhere(c: Config, s: Vhd, t: Vhd, b: nat, x: nat)
    requires LandContext(c, s, t, b) && x != b
    ensures BlkD(c, t, x)
  {
    assert BlkD(c, s, x);
    if PlaceOf(s, x).Place? { Elsewhere(c, s, t, b, x); }
    assert CachedOf(t, x) == CachedOf(s, x) && HoldOf(t, x) == HoldOf(s, x);
    BlockLater(c, WorldOf(s), WorldOf(t), x, PlaceOf(s, x), HoldOf(s, x), CachedOf(s, x), x in s.batmap);
  }

  lemma LandOnDisk(c: Config, s: Vhd, t: Vhd, b: nat)
    requires LandContext(c, s, t, b) && AtMost(c, s)
    requires BlkD(c, t, b) && MetaD(c, t)
    requires forall r :: r in t.raw && r.sec / c.spb == b ==> RawD(c, WorldOf(t), t.bat, t.batmap, r)
    requires forall r :: r in t.raw && r.sec / c.spb != b ==> r in s.raw
    requires forall l: nat, w: nat :: l / c.spb == b && w <= |s.log| && Stored(c, WorldOf(s), s.bat, l, w) ==>
               Stored(c, WorldOf(t), t.bat, l, w)
    ensures OnDisk(c, t)
  {
    forall x ensures BlkD(c, t, x) {
      if x != b { LandElsewhere(c, s, t, b, x); }
    }
    forall r | r in t.raw ensures RawD(c, WorldOf(t), t.bat, t.batmap, r) {
      var x := r.sec / c.spb;
      if x != b {
        if x in s.bat { Elsewhere(c, s, t, b, x); }
        RawLater(c, WorldOf(s), WorldOf(t), s.bat, t.bat, s.batmap, t.batmap, r);
      }
    }
    LandAcks(c, s, t, b);
    forall x | x in t.cache ensures WaitD(t.log, t.cache[x]) { assert WaitD(s.log, s.cache[x]); }
  }

  lemma LandAcks(c: Config, s: Vhd, t: Vhd, b: nat)
    requires LandContext(c, s, t, b) && AtMost(c, s)
    requires forall l: nat, w: nat :: l / c.spb == b && w <= |s.log| && Stored(c, WorldOf(s), s.bat, l, w) ==>
               Stored(c, WorldOf(t), t.bat, l, w)
    ensures AckD(c, WorldOf(t), t.bat)
  {
    forall i, l: nat | 0 <= i < |t.log| && Acknowledges(t.log[i], l)
      ensures Stored(c, WorldOf(t), t.bat, l, t.log[i].wid)
    {
      AnsweredOnce(c, s, i, l);
      var x := l / c.spb;
      if x != b {
        Elsewhere(c, s, t, b, x);
        StoredLater(c, WorldOf(s), WorldOf(t), s.bat, t.bat, l, t.log[i].wid);
      }
    }
  }

  /* ---- data writes ---- */

  lemma {:induction false} CountedUnsettled(c: Config, s: Vhd, w: nat, l: nat)
    requires AtMost(c, s) && Total(c, s, w, l) > CountEvs(s.log, w, l)
    ensures Issued(s.log, w, l) && NotBefore(s.log, w, |s.log|, l)
  {
    forall d | 0 <= d < |s.log| ensures !Settles(s.log[d], w, l) {
      if Settles(s.log[d], w, l) { OneSettles(s.log, d, w, l); }
    }
  }

  /** A write on a list of block b goes to its extent. */
  lemma ListedHere(c: Config, s: Vhd, b: nat, r: Req, pool: nat)
    requires b in s.cache && !s.cache[b].reading
    requires (r in s.cache[b].tx.reqs && !Harmless(s.cache[b], r)) || r in s.cache[b].queue
    requires Structure(c, s, pool) && OnDisk(c, s)
    ensures PlaceOf(s, b).Place? && WriteD(c, WorldOf(s), PlaceOf(s, b).off, r) && WriteOk(c, b, r)
  {
    assert BlockOk(c, s, b);
    assert BlkD(c, s, b);
  }

  /** A write on a list of block b that has not been answered. */
  lemma ListedLands(c: Config, s: Vhd, b: nat, r: Req, pool: nat)
    requires Structure(c, s, pool) && AtMost(c, s) && OnDisk(c, s) && b in s.cache && !s.cache[b].reading
    requires (r in s.cache[b].tx.reqs && !Harmless(s.cache[b], r)) || r in s.cache[b].queue
    ensures PlaceOf(s, b).Place? && Lands(c, WorldOf(s), PlaceOf(s, b).off, b, r) &&
            WriteD(c, WorldOf(s), PlaceOf(s, b).off, r)
    ensures WriteOk(c, b, r)
  {
    hide Structure;
    hide OnDisk;
    hide CountReqs;
    hide NotBefore;
    var bm := s.cache[b];
    ListedHere(c, s, b, r, pool);
    forall l: nat | r.sec <= l < r.sec + r.secs
      ensures Wrote(s.log, r.wid, l) && NotBefore(s.log, r.wid, |s.log|, l)
    {
      InBlockRange(c, b, r, l);
      if r in bm.tx.reqs {
        var i :| 0 <= i < |bm.tx.reqs| && bm.tx.reqs[i] == r;
        OneCovers(bm.tx.reqs, i, r.wid, l);
      } else {
        var i :| 0 <= i < |bm.queue| && bm.queue[i] == r;
        OneCovers(bm.queue, i, r.wid, l);
      }
      CountedUnsettled(c, s, r.wid, l);
    }
  }

  lemma StoredAfterLand(c: Config, s: Vhd, t: Vhd, b: nat, r: Req)
    requires PlaceOf(s, b).Place? && Lands(c, WorldOf(s), PlaceOf(s, b).off, b, r)
    requires t.bat == s.bat && t.media == s.media.(disk := LandReq(s.media.disk, r)) && t.log == s.log
    ensures forall l: nat, w: nat :: l / c.spb == b && w <= |s.log| && Stored(c, WorldOf(s), s.bat, l, w) ==>
              Stored(c, WorldOf(t), t.bat, l, w)
  {
    forall l: nat, w: nat | l / c.spb == b && w <= |s.log| && Stored(c, WorldOf(s), s.bat, l, w)
      ensures Stored(c, WorldOf(t), t.bat, l, w)
    {
      LandSector(c, WorldOf(s), t.media.disk, s.bat[b], b, r, l, w);
      LandBitmapSame(c, WorldOf(s), s.bat[b], b, r, {});
    }
  }

  /** Other writes of the block that go straight to their place. */
  lemma RawAfterLand(c: Config, s: Vhd, t: Vhd, b: nat, r: Req, q: Req)
    requires PlaceOf(s, b).Place? && Lands(c, WorldOf(s), PlaceOf(s, b).off, b, r) && q.sec / c.spb == b
    requires t.bat == s.bat && t.batmap == s.batmap && t.media == s.media.(disk := LandReq(s.media.disk, r)) &&
             t.log == s.log
    requires RawD(c, WorldOf(s), s.bat, s.batmap, q) && RawShape(c, q)
    ensures RawD(c, WorldOf(t), t.bat, t.batmap, q)
  {
    if q.op != OpPad {
      if q.op == OpWrite { LandWriteD(c, WorldOf(s), t.media.disk, s.bat[b], b, r, q); }
      LandBitmapSame(c, WorldOf(s), s.bat[b], b, r, {});
    }
  }

  lemma LandOnlyIn(c: Config, d: Disk, v: World, off: int, b: nat, r: Req)
    requires Lands(c, v, off, b, r) && Geometry(c)
    ensures OnlyIn(c, d, LandReq(d, r), off)
  {
  }

  lemma MarkedWritesD(c: Config, s: Vhd, b: nat, r: Req, bm2: Bm, pool: nat)
    requires Structure(c, s, pool) && AtMost(c, s) && OnDisk(c, s) && b in s.cache && !s.cache[b].reading
    requires (r in s.cache[b].tx.reqs || r in s.cache[b].queue) && CanLand(r)
    requires LandMark(s.cache[b], bm2)
    requires forall q :: q in bm2.tx.reqs ==> q in s.cache[b].tx.reqs || q == r.(landed := true)
    requires forall q :: q in bm2.queue ==> q in s.cache[b].queue || q == r.(landed := true)
    ensures PlaceOf(s, b).Place? && WritesD(c, WorldOf(s).(disk := LandReq(s.media.disk, r)), PlaceOf(s, b).off, bm2)
  {
    ListedLands(c, s, b, r, pool);
    var off := PlaceOf(s, b).off;
    var v := WorldOf(s);
    var d2 := LandReq(s.media.disk, r);
    forall q | (q in bm2.tx.reqs && !Harmless(bm2, q)) || q in bm2.queue ensures WriteD(c, v.(disk := d2), off, q) {
      if q == r.(landed := true) {
        LandedWriteD(c, v, d2, off, b, r);
      } else {
        ListedLands(c, s, b, q, pool);
        LandWriteD(c, v, d2, off, b, r, q);
      }
    }
  }

  lemma RawShapes(c: Config, s: Vhd, pool: nat)
    requires Structure(c, s, pool)
    ensures forall r :: r in s.raw ==> RawShape(c, r)
  {
  }

  lemma ListLandBlock(c: Config, s: Vhd, t: Vhd, b: nat, r: Req, pool: nat)
    requires b in s.cache && !s.cache[b].reading && (r in s.cache[b].tx.reqs || r in s.cache[b].queue) && CanLand(r)
    requires b in t.cache && t == LandOn(PutBm(s, b, t.cache[b]), LandReq(s.media.disk, r)) &&
             LandMark(s.cache[b], t.cache[b])
    requires forall q :: q in t.cache[b].tx.reqs ==> q in s.cache[b].tx.reqs || q == r.(landed := true)
    requires forall q :: q in t.cache[b].queue ==> q in s.cache[b].queue || q == r.(landed := true)
    requires Structure(c, s, pool) && AtMost(c, s) && OnDisk(c, s)
    ensures BlkD(c, t, b)
  {
    hide Structure;
    hide AtMost;
    hide Lands;
    hide LandReq;
    hide RawD;
    ListedLands(c, s, b, r, pool);
    MarkedWritesD(c, s, b, r, t.cache[b], pool);
    assert BlkD(c, s, b);
    LandBlock(c, WorldOf(s), b, PlaceOf(s, b), HoldOf(s, b), CachedOf(s, b), CachedOf(t, b), b in s.batmap, r);
    assert WorldOf(t) == WorldOf(s).(disk := t.media.disk);
  }

  /** A write of a transaction or of the queue lands. */
  lemma ListLandD(c: Config, s: Vhd, t: Vhd, b: nat, r: Req, pool: nat)
    requires Structure(c, s, pool) && AtMost(c, s) && OnDisk(c, s) && b in s.cache && !s.cache[b].reading
    requires (r in s.cache[b].tx.reqs || r in s.cache[b].queue) && CanLand(r)
    requires b in t.cache && t == LandOn(PutBm(s, b, t.cache[b]), LandReq(s.media.disk, r)) &&
             LandMark(s.cache[b], t.cache[b])
    requires forall q :: q in t.cache[b].tx.reqs ==> q in s.cache[b].tx.reqs || q == r.(landed := true)
    requires forall q :: q in t.cache[b].queue ==> q in s.cache[b].queue || q == r.(landed := true)
    ensures OnDisk(c, t)
  {
    hide Structure;
    hide AtMost;
    hide BlkD;
    hide Lands;
    hide WriteD;
    hide OnlyIn;
    hide LandReq;
    hide RawD;
    RawShapes(c, s, pool);
    ListedLands(c, s, b, r, pool);
    var off := PlaceOf(s, b).off;
    LandOnlyIn(c, s.media.disk, WorldOf(s), off, b, r);
    ListLandBlock(c, s, t, b, r, pool);
    StoredAfterLand(c, s, t, b, r);
    forall q | q in t.raw && q.sec / c.spb == b ensures RawD(c, WorldOf(t), t.bat, t.batmap, q) {
      RawAfterLand(c, s, t, b, r, q);
    }
    LandMeta(c, s, t, b, r, pool);
    OnlyInElsewhere(c, s, t.media.disk, b);
    LandOnDisk(c, s, t, b);
  }

  lemma ApartBitmap(c: Config, d: Disk, d2: Disk, off: int, off2: int, m: set<nat>)
    requires Apart(c, off, off2) && OnlyIn(c, d, d2, off) && Geometry(c) && BitmapAt(c, d, off2, m)
    ensures BitmapAt(c, d2, off2, m)
  {
  }

  lemma HolderUnallocated(c: Config, s: Vhd, pool: nat)
    requires Structure(c, s, pool) && s.lock.locked
    ensures s.lock.blk !in s.bat && s.lock.blk in s.cache && !s.cache[s.lock.blk].reading
  {
    assert BlockOk(c, s, s.lock.blk);
  }

  lemma LandMeta(c: Config, s: Vhd, t: Vhd, b: nat, r: Req, pool: nat)
    requires Structure(c, s, pool)
    requires OnDisk(c, s) && PlaceOf(s, b).Place? && Lands(c, WorldOf(s), PlaceOf(s, b).off, b, r)
    requires t.bat == s.bat && t.nextDb == s.nextDb && t.lock == s.lock && t.meta == s.meta
    requires t.media == s.media.(disk := LandReq(s.media.disk, r))
    ensures MetaD(c, t)
  {
    if s.meta.zero == Landed && s.lock.locked {
      HolderUnallocated(c, s, pool);
      if s.lock.blk == b {
        LandBitmapSame(c, WorldOf(s), s.lock.off, b, r, {});
      } else {
        PlacesApart(c, s, b, s.lock.blk);
        LandOnlyIn(c, s.media.disk, WorldOf(s), PlaceOf(s, b).off, b, r);
        ApartBitmap(c, s.media.disk, t.media.disk, PlaceOf(s, b).off, s.lock.off, {});
      }
    }
  }

  lemma LandTxD(c: Config, s: Vhd, b: nat, i: nat, pool: nat)
    requires Structure(c, s, pool) && AtMost(c, s) && OnDisk(c, s) && Enabled(s, LandTx(b, i))
    ensures OnDisk(c, LandTxWrite(s, b, i))
  {
    hide Structure;
    hide OnDisk;
    BusyNotReading(c, s, b, pool);
    var rs := s.cache[b].tx.reqs;
    assert rs[i] in rs;
    forall q | q in rs[i := rs[i].(landed := true)] ensures q in rs || q == rs[i].(landed := true) {
    }
    ListLandD(c, s, LandTxWrite(s, b, i), b, rs[i], pool);
  }

  lemma LandQueueD(c: Config, s: Vhd, b: nat, i: nat, pool: nat)
    requires Structure(c, s, pool) && AtMost(c, s) && OnDisk(c, s) && Enabled(s, LandQueue(b, i))
    ensures OnDisk(c, LandQueuedWrite(s, b, i))
  {
    hide Structure;
    hide OnDisk;
    BusyNotReading(c, s, b, pool);
    var rs := s.cache[b].queue;
    assert rs[i] in rs;
    forall q | q in rs[i := rs[i].(landed := true)] ensures q in rs || q == rs[i].(landed := true) {
    }
    ListLandD(c, s, LandQueuedWrite(s, b, i), b, rs[i], pool);
  }

  /* ---- writes outside transactions ---- */

  lemma RawLands(c: Config, s: Vhd, i: nat, pool: nat)
    requires Structure(c, s, pool) && AtMost(c, s) && OnDisk(c, s) && i < |s.raw| && s.raw[i].op == OpWrite
    ensures var r := s.raw[i]; var b := r.sec / c.spb;
            b in s.bat && Lands(c, WorldOf(s), s.bat[b], b, r) && WriteD(c, WorldOf(s), s.bat[b], r) && !r.finished
  {
    var r := s.raw[i];
    assert r in s.raw;
    forall l: nat | r.sec <= l < r.sec + r.secs
      ensures Wrote(s.log, r.wid, l) && NotBefore(s.log, r.wid, |s.log|, l)
    {
      OneRawCovers(s.raw, i, r.wid, l);
      CountedUnsettled(c, s, r.wid, l);
    }
  }

  lemma CachedAfterLand(c: Config, s: Vhd, b: nat, r: Req, pool: nat)
    requires Structure(c, s, pool) && AtMost(c, s) && OnDisk(c, s) && b in s.cache && b in s.bat
    requires Lands(c, WorldOf(s), s.bat[b], b, r)
    ensures WritesD(c, WorldOf(s).(disk := LandReq(s.media.disk, r)), s.bat[b], s.cache[b])
  {
    var bm := s.cache[b];
    forall q | (q in bm.tx.reqs && !Harmless(bm, q)) || q in bm.queue
      ensures WriteD(c, WorldOf(s).(disk := LandReq(s.media.disk, r)), s.bat[b], q)
    {
      BusyNotReading(c, s, b, pool);
      ListedLands(c, s, b, q, pool);
      LandWriteD(c, WorldOf(s), LandReq(s.media.disk, r), s.bat[b], b, r, q);
    }
  }

  lemma RawAfterRaw(c: Config, s: Vhd, i: nat, q: Req, pool: nat)
    requires i < |s.raw| && s.raw[i].op == OpWrite && CanLand(s.raw[i])
    requires var t := LandRaw(c, s, i); q in t.raw && q.sec / c.spb == s.raw[i].sec / c.spb
    requires Structure(c, s, pool) && AtMost(c, s) && OnDisk(c, s)
    ensures var t := LandRaw(c, s, i); RawD(c, WorldOf(t), t.bat, t.batmap, q)
  {
    hide BlockOk;
    hide BlkD;
    var r := s.raw[i];
    var b := r.sec / c.spb;
    var t := LandRaw(c, s, i);
    RawLands(c, s, i, pool);
    assert WorldOf(t) == WorldOf(s).(disk := t.media.disk);
    if q == r.(landed := true) {
      LandedWriteD(c, WorldOf(s), t.media.disk, s.bat[b], b, r);
      LandBitmapSame(c, WorldOf(s), s.bat[b], b, r, {});
      assert r in s.raw;
    } else {
      assert q in s.raw;
      RawAfterLand(c, s, t, b, r, q);
    }
  }

  lemma LandRawBlock(c: Config, s: Vhd, i: nat, b: nat, pool: nat)
    requires i < |s.raw| && s.raw[i].op == OpWrite && CanLand(s.raw[i]) && b == s.raw[i].sec / c.spb
    requires Structure(c, s, pool) && AtMost(c, s) && OnDisk(c, s)
    ensures BlkD(c, LandRaw(c, s, i), b)
  {
    hide Structure;
    hide AtMost;
    hide Lands;
    hide LandReq;
    hide RawD;
    var r := s.raw[i];
    var t := LandRaw(c, s, i);
    RawLands(c, s, i, pool);
    if b in s.cache { CachedAfterLand(c, s, b, r, pool); }
    assert BlkD(c, s, b);
    LandBlock(c, WorldOf(s), b, PlaceOf(s, b), HoldOf(s, b), CachedOf(s, b), CachedOf(t, b), b in s.batmap, r);
    assert WorldOf(t) == WorldOf(s).(disk := t.media.disk);
  }

  lemma LandRawWriteD(c: Config, s: Vhd, i: nat, pool: nat)
    requires Structure(c, s, pool) && AtMost(c, s) && OnDisk(c, s) && Enabled(s, LandOther(i)) && s.raw[i].op == OpWrite
    ensures OnDisk(c, LandRaw(c, s, i))
  {
    hide RawD;
    hide BlkD;
    hide Structure;
    hide AtMost;
    hide Lands;
    hide WriteD;
    hide OnlyIn;
    hide LandReq;
    var r := s.raw[i];
    var b := r.sec / c.spb;
    var t := LandRaw(c, s, i);
    RawLands(c, s, i, pool);
    LandOnlyIn(c, s.media.disk, WorldOf(s), s.bat[b], b, r);
    LandRawBlock(c, s, i, b, pool);
    StoredAfterLand(c, s, t, b, r);
    forall q | q in t.raw && q.sec / c.spb == b ensures RawD(c, WorldOf(t), t.bat, t.batmap, q) {
      RawAfterRaw(c, s, i, q, pool);
    }
    LandMeta(c, s, t, b, r, pool);
    OnlyInElsewhere(c, s, t.media.disk, b);
    LandOnDisk(c, s, t, b);
  }

  /** A redundant bitmap write changes nothing that counts: the bitmap was full. */
  lemma PadSame(c: Config, s: Vhd, r: Req, b: nat)
    requires OnDisk(c, s) && r.op == OpPad && b == r.sec / c.spb && RawD(c, WorldOf(s), s.bat, s.batmap, r)
    ensures b in s.bat && OnlyIn(c, s.media.disk, LandPad(c, s.media.disk, r), s.bat[b])
    ensures SameOn(s.media.disk, LandPad(c, s.media.disk, r), s.bat[b], End(c, s.bat[b]))
  {
    var off := s.bat[b];
    assert BlkD(c, s, b);
    var S := BitsAt(s.media.disk, off);
    assert S == Full(c);
    var d2 := LandPad(c, s.media.disk, r);
    forall a | off <= a < End(c, off) ensures d2(a) == s.media.disk(a) {
      if a < off + c.bmSecs { assert s.media.disk(a) == Bits(S); }
    }
  }

  lemma LandPadD(c: Config, s: Vhd, i: nat, pool: nat)
    requires Structure(c, s, pool) && AtMost(c, s) && OnDisk(c, s) && Enabled(s, LandOther(i)) && s.raw[i].op == OpPad
    ensures OnDisk(c, LandRaw(c, s, i))
  {
    var r := s.raw[i];
    var b := r.sec / c.spb;
    var t := LandRaw(c, s, i);
    assert r in s.raw;
    PadSame(c, s, r, b);
    var off := s.bat[b];
    OnlyInElsewhere(c, s, t.media.disk, b);
    assert Later(WorldOf(s), WorldOf(t), off, End(c, off));
    assert BlkD(c, s, b);
    BlockLater(c, WorldOf(s), WorldOf(t), b, PlaceOf(s, b), HoldOf(s, b), CachedOf(s, b), b in s.batmap);
    forall q | q in t.raw && q.sec / c.spb == b ensures RawD(c, WorldOf(t), t.bat, t.batmap, q) {
      var q0 := if q in s.raw then q else r;
      RawLater(c, WorldOf(s), WorldOf(t), s.bat, t.bat, s.batmap, t.batmap, q0);
    }
    forall l: nat, w: nat | l / c.spb == b && w <= |s.log| && Stored(c, WorldOf(s), s.bat, l, w)
      ensures Stored(c, WorldOf(t), t.bat, l, w)
    {
      StoredLater(c, WorldOf(s), WorldOf(t), s.bat, t.bat, l, w);
    }
    PadMeta(c, s, t, b, pool);
    LandOnDisk(c, s, t, b);
  }

  lemma PadMeta(c: Config, s: Vhd, t: Vhd, b: nat, pool: nat)
    requires Structure(c, s, pool) && OnDisk(c, s) && b in s.bat
    requires t.bat == s.bat && t.nextDb == s.nextDb && t.lock == s.lock && t.meta == s.meta
    requires t.media == s.media.(disk := t.media.disk) && OnlyIn(c, s.media.disk, t.media.disk, s.bat[b])
    ensures MetaD(c, t)
  {
    if s.meta.zero == Landed && s.lock.locked {
      HolderUnallocated(c, s, pool);
      PlacesApart(c, s, b, s.lock.blk);
      ApartBitmap(c, s.media.disk, t.media.disk, s.bat[b], s.lock.off, {});
    }
  }

  /* ---- what does not matter to the disk ---- */

  /** OnDisk put together again for a state with the same disk, history and BAT. */
  lemma Reassemble(c: Config, s: Vhd, t: Vhd)
    requires OnDisk(c, s) && t.bat == s.bat && t.batmap == s.batmap && t.media == s.media && t.log == s.log
    requires Layout(c, t.bat, t.nextDb) && MetaD(c, t)
    requires forall b {:trigger BlkD(c, t, b)} :: BlkD(c, t, b)
    requires forall r :: r in t.raw && r !in s.raw ==> RawD(c, WorldOf(t), t.bat, t.batmap, r)
    requires forall b :: b in t.cache ==> WaitD(t.log, t.cache[b])
    ensures OnDisk(c, t)
  {
    assert WorldOf(t) == WorldOf(s);
  }

  /** Pools, counters and the list of other requests. */
  lemma PoolsD(c: Config, s: Vhd, t: Vhd)
    requires OnDisk(c, s)
    requires t == s.(free := t.free, raw := t.raw, lru := t.lru, bmFree := t.bmFree, panicked := t.panicked)
    requires forall r :: r in t.raw && r !in s.raw ==> RawD(c, WorldOf(s), s.bat, s.batmap, r)
    ensures OnDisk(c, t)
  {
    forall x ensures BlkD(c, t, x) {
      assert BlkD(c, s, x);
      assert PlaceOf(t, x) == PlaceOf(s, x) && HoldOf(t, x) == HoldOf(s, x) && CachedOf(t, x) == CachedOf(s, x);
    }
    Reassemble(c, s, t);
  }

  /** A read finds, for every sector, what the bitmap says is there: current data. */
  lemma LandReadCurrent(c: Config, s: Vhd, r: Req, k: nat)
    requires OnDisk(c, s) && AtMost(c, s) && r in s.raw && r.op == OpRead && RawShape(c, r) && k < r.secs
    ensures r.wid <= |s.log| && Current(s.log, s.media.disk(r.addr + k), r.wid, r.sec + k)
  {
    var b, l := r.sec / c.spb, r.sec + k;
    assert RawD(c, WorldOf(s), s.bat, s.batmap, r);
    assert BlkD(c, s, b);
    InBlockRange(c, b, r, l);
    assert InRange(l % c.spb, r.sec % c.spb, r.secs) && l % c.spb in ReqBits(c.spb, r);
    assert InPlace(c, WorldOf(s), s.bat[b], l);
    assert Loc(c, s.bat[b], l) == r.addr + k;
    forall m | 0 <= m < r.wid && Acknowledges(s.log[m], l)
      ensures s.media.disk(r.addr + k).w >= 0 && NotBefore(s.log[..r.wid], s.media.disk(r.addr + k).w, s.log[m].wid, l)
    {
      assert Stored(c, WorldOf(s), s.bat, l, s.log[m].wid);
    }
  }

  /** A read that lands finds current data. */
  lemma LandReadRaw(c: Config, s: Vhd, i: nat, pool: nat)
    requires i < |s.raw| && s.raw[i].op == OpRead
    requires Structure(c, s, pool) && OnDisk(c, s) && AtMost(c, s)
    ensures RawD(c, WorldOf(s), s.bat, s.batmap, LandRaw(c, s, i).raw[i])
  {
    hide Structure;
    hide AtMost;
    hide Current;
    var r := s.raw[i];
    var r' := LandRaw(c, s, i).raw[i];
    RawShapes(c, s, pool);
    assert r in s.raw;
    forall k: nat | k < r.secs ensures Current(s.log, r'.got[k], r.wid, r.sec + k) { LandReadCurrent(c, s, r, k); }
    assert RawD(c, WorldOf(s), s.bat, s.batmap, r);
  }

  lemma LandReadD(c: Config, s: Vhd, i: nat, pool: nat)
    requires Structure(c, s, pool) && OnDisk(c, s) && AtMost(c, s) && i < |s.raw| && s.raw[i].op == OpRead
    ensures OnDisk(c, LandRaw(c, s, i))
  {
    hide Structure;
    hide OnDisk;
    hide AtMost;
    hide RawD;
    var t := LandRaw(c, s, i);
    LandReadRaw(c, s, i, pool);
    assert t == s.(raw := t.raw);
    PoolsD(c, s, t);
  }

  /* ---- bitmaps and the BAT ---- */

  /** The bitmap write of a transaction lands: every new bit has its data. */
  lemma ShadowBacked(c: Config, v: World, off: int, b: nat, bm: Bm)
    requires Backed(c, v, off, b, bm.bits) && WritesD(c, v, off, bm) && ReqsOk(c, b, bm) && bm.tx.error == 0
    requires bm.shadow == bm.bits + Staged(c.spb, bm.tx.reqs)
    ensures Backed(c, v, off, b, bm.shadow)
  {
    forall l: nat | l / c.spb == b && l % c.spb in bm.shadow ensures InPlace(c, v, off, l) && Synced(c, v, off, l) {
      if l % c.spb !in bm.bits {
        var i: nat :| i < |bm.tx.reqs| && bm.tx.reqs[i].finished && bm.tx.reqs[i].err == 0 &&
          l % c.spb in ReqBits(c.spb, bm.tx.reqs[i]);
        var r := bm.tx.reqs[i];
        assert r in bm.tx.reqs && WriteOk(c, b, r) && WriteD(c, v, off, r);
        StagedSector(c, v, off, b, r, l);
      }
    }
  }

  lemma StagedSector(c: Config, v: World, off: int, b: nat, r: Req, l: nat)
    requires WriteOk(c, b, r) && WriteD(c, v, off, r) && r.finished && r.err == 0
    requires l / c.spb == b && l % c.spb in ReqBits(c.spb, r)
    ensures InPlace(c, v, off, l) && Synced(c, v, off, l)
  {
    SameQuotient(c.spb, l, r.sec);
    assert r.sec <= l < r.sec + r.secs;
    assert Fresh(c, v, off, l, r.wid);
  }

  /** The bitmap at `off` replaced by m. */
  ghost predicate NewBitmap(c: Config, d: Disk, d2: Disk, off: int, m: set<nat>) {
    BitmapAt(c, d2, off, m) && forall a :: (a < off || off + c.bmSecs <= a) ==> d2(a) == d(a)
  }

  lemma NewBitmapLater(c: Config, s: Vhd, t: Vhd, off: int, m: set<nat>)
    requires t.log == s.log && t.media == s.media.(disk := t.media.disk) &&
             NewBitmap(c, s.media.disk, t.media.disk, off, m)
    ensures Later(WorldOf(s), WorldOf(t), off + c.bmSecs, End(c, off)) && BitsAt(t.media.disk, off) == m
  {
    assert t.media.disk(off) == Bits(m);
  }

  lemma NewBitmapOnly(c: Config, s: Vhd, t: Vhd, off: int, m: set<nat>)
    requires NewBitmap(c, s.media.disk, t.media.disk, off, m) && c.bmSecs <= c.spp
    ensures OnlyIn(c, s.media.disk, t.media.disk, off)
  {
  }

  lemma RawAfterBitmap(c: Config, s: Vhd, t: Vhd, b: nat, q: Req)
    requires b in s.cache && t == LandBitmapWrite(c, s, b) && PlaceOf(s, b).Place?
    requires NewBitmap(c, s.media.disk, t.media.disk, PlaceOf(s, b).off, s.cache[b].shadow)
    requires PlaceOf(s, b).ready ==> BitsAt(s.media.disk, PlaceOf(s, b).off) <= s.cache[b].shadow
    requires q in s.raw && q.sec / c.spb == b && RawD(c, WorldOf(s), s.bat, s.batmap, q)
    ensures RawD(c, WorldOf(t), t.bat, t.batmap, q)
  {
    var off := PlaceOf(s, b).off;
    NewBitmapLater(c, s, t, off, s.cache[b].shadow);
    if q.op == OpWrite { WriteLater(c, WorldOf(s), WorldOf(t), off, q); }
    if q.op == OpRead { ReadLater(c, WorldOf(s), WorldOf(t), off, q); }
  }

  lemma StoredAfterBitmap(c: Config, s: Vhd, t: Vhd, b: nat, l: nat, w: nat)
    requires b in s.cache && t == LandBitmapWrite(c, s, b) && PlaceOf(s, b).Place?
    requires NewBitmap(c, s.media.disk, t.media.disk, PlaceOf(s, b).off, s.cache[b].shadow)
    requires PlaceOf(s, b).ready ==> BitsAt(s.media.disk, PlaceOf(s, b).off) <= s.cache[b].shadow
    requires l / c.spb == b && w <= |s.log| && Stored(c, WorldOf(s), s.bat, l, w)
    ensures Stored(c, WorldOf(t), t.bat, l, w)
  {
    NewBitmapLater(c, s, t, PlaceOf(s, b).off, s.cache[b].shadow);
    FreshLater(c, WorldOf(s), WorldOf(t), PlaceOf(s, b).off, l, w);
  }

  lemma NewBitmapBlock(c: Config, s: Vhd, t: Vhd, b: nat, pool: nat)
    requires Structure(c, s, pool) && OnDisk(c, s) && Enabled(s, LandBitmap(b)) && t == LandBitmapWrite(c, s, b)
    ensures var bm := s.cache[b]; var p := PlaceOf(s, b);
            p.Place? && NewBitmap(c, s.media.disk, t.media.disk, p.off, bm.shadow) && BlkD(c, t, b) &&
            (p.ready ==> BitsAt(s.media.disk, p.off) <= bm.shadow)
  {
    var bm := s.cache[b];
    BusyNotReading(c, s, b, pool);
    assert BlockOk(c, s, b);
    assert BlkD(c, s, b);
    var off := PlaceOf(s, b).off;
    StagedInBlock(c, b, bm.tx.reqs);
    NewBitmapLater(c, s, t, off, bm.shadow);
    WritesLater(c, WorldOf(s), WorldOf(t), off, bm);
    if PlaceOf(s, b).ready {
      ShadowBacked(c, WorldOf(s), off, b, bm);
      BackedLater(c, WorldOf(s), WorldOf(t), off, b, bm.shadow);
    }
  }

  lemma LandBitmapD(c: Config, s: Vhd, b: nat, pool: nat)
    requires Structure(c, s, pool) && AtMost(c, s) && OnDisk(c, s) && Enabled(s, LandBitmap(b))
    ensures OnDisk(c, LandBitmapWrite(c, s, b))
  {
    hide Structure;
    hide AtMost;
    hide BlkD;
    hide RawD;
    hide Stored;
    hide NewBitmap;
    var t := LandBitmapWrite(c, s, b);
    NewBitmapBlock(c, s, t, b, pool);
    var off := PlaceOf(s, b).off;
    var m := s.cache[b].shadow;
    NewBitmapOnly(c, s, t, off, m);
    OnlyInElsewhere(c, s, t.media.disk, b);
    forall q | q in t.raw && q.sec / c.spb == b ensures RawD(c, WorldOf(t), t.bat, t.batmap, q) {
      RawAfterBitmap(c, s, t, b, q);
    }
    forall l: nat, w: nat | l / c.spb == b && w <= |s.log| && Stored(c, WorldOf(s), s.bat, l, w)
      ensures Stored(c, WorldOf(t), t.bat, l, w)
    {
      StoredAfterBitmap(c, s, t, b, l, w);
    }
    BitmapMeta(c, s, t, b, pool);
    LandOnDisk(c, s, t, b);
  }

  lemma BitmapMeta(c: Config, s: Vhd, t: Vhd, b: nat, pool: nat)
    requires Structure(c, s, pool) && OnDisk(c, s) && PlaceOf(s, b).Place? && b in s.cache && s.cache[b].write != Idle
    requires t.bat == s.bat && t.nextDb == s.nextDb && t.lock == s.lock && t.meta == s.meta
    requires t.media == s.media.(disk := t.media.disk) && OnlyIn(c, s.media.disk, t.media.disk, PlaceOf(s, b).off)
    ensures MetaD(c, t)
  {
    if s.meta.zero == Landed && s.lock.locked {
      assert BlockOk(c, s, s.lock.blk);
      PlacesApart(c, s, b, s.lock.blk);
      ApartBitmap(c, s.media.disk, t.media.disk, PlaceOf(s, b).off, s.lock.off, {});
    }
  }

  lemma ZeroDisk(c: Config, s: Vhd, pool: nat)
    requires Structure(c, s, pool) && OnDisk(c, s) && s.meta.zero == Flying
    ensures var d2 := LandZeroBmWrite(c, s).media.disk; var b := s.lock.blk;
            b !in s.bat && PlaceOf(s, b).Place? && !PlaceOf(s, b).ready &&
            (forall a :: s.lock.off + c.bmSecs <= a ==> d2(a) == s.media.disk(a)) &&
            (forall a :: a < s.nextDb ==> d2(a) == s.media.disk(a)) && BitmapAt(c, d2, s.lock.off, {})
  {
    assert BlockOk(c, s, s.lock.blk);
  }

  lemma LandZeroD(c: Config, s: Vhd, pool: nat)
    requires Structure(c, s, pool) && AtMost(c, s) && OnDisk(c, s) && Enabled(s, LandZero)
    ensures OnDisk(c, LandZeroBmWrite(c, s))
  {
    hide BlockOk;
    var t := LandZeroBmWrite(c, s);
    var b := s.lock.blk;
    ZeroDisk(c, s, pool);
    assert BlkD(c, s, b);
    assert Later(WorldOf(s), WorldOf(t), s.lock.off + c.bmSecs, End(c, s.lock.off));
    if b in s.cache { WritesLater(c, WorldOf(s), WorldOf(t), s.lock.off, s.cache[b]); }
    forall x | x != b && PlaceOf(s, x).Place?
      ensures SameOn(s.media.disk, t.media.disk, PlaceOf(s, x).off, End(c, PlaceOf(s, x).off))
    {
      assert InUseExtent(c, s.nextDb, s.bat[x]);
    }
    LandOnDisk(c, s, t, b);
  }

  lemma BatUnion(bat: map<nat, nat>, base: nat, blk: nat, off: nat)
    requires base <= blk < base + 128
    ensures (map b | b in bat && !(base <= b < base + 128) :: bat[b]) +
            (map b | b in bat && base <= b < base + 128 :: bat[b])[blk := off] == bat[blk := off]
  {
  }

  lemma BatLanded(c: Config, s: Vhd)
    requires MetaD(c, s) && s.meta.bat == Flying
    ensures LandBatWrite(s).media.bat == s.bat[s.lock.blk := s.lock.off]
    ensures MetaD(c, LandBatWrite(s))
  {
    hide BitmapAt;
    hide NextOff;
    hide BatSector;
    BatEntryLands(s);
    BatSectorKept(s);
  }

  lemma BatSectorKept(s: Vhd)
    requires BatSector(s.bat, s.lock, s.meta)
    ensures BatSector(s.bat, s.lock, s.meta.(bat := Landed))
  {
  }

  lemma BatEntryLands(s: Vhd)
    requires BatSector(s.bat, s.lock, s.meta) && s.media.bat == s.bat
    ensures LandBatWrite(s).media.bat == s.bat[s.lock.blk := s.lock.off]
  {
    BatUnion(s.bat, s.meta.batBase, s.lock.blk, s.lock.off);
  }

  lemma LandBatD(c: Config, s: Vhd)
    requires OnDisk(c, s) && Enabled(s, LandBat)
    ensures OnDisk(c, LandBatWrite(s))
  {
    var t := LandBatWrite(s);
    BatLanded(c, s);
    hide MetaD;
    assert WorldOf(t) == WorldOf(s) && t.cache == s.cache && t.bat == s.bat && t.lock == s.lock;
    forall x ensures BlkD(c, t, x) {
      assert BlkD(c, s, x);
      assert PlaceOf(t, x) == PlaceOf(s, x) && CachedOf(t, x) == CachedOf(s, x);
      hide BlockD;
      HoldIrrelevant(c, WorldOf(s), x, PlaceOf(s, x), HoldOf(s, x), HoldOf(t, x), CachedOf(s, x), x in s.batmap);
    }
  }

  /** Whether the embedded requests have landed does not matter to the blocks. */
  lemma HoldIrrelevant(c: Config, v: World, b: nat, p: Place, h: Hold, h2: Hold, k: Cached, full: bool)
    requires BlockD(c, v, b, p, h, k, full)
    requires h.Hold? <==> h2.Hold?
    requires h.Hold? ==> h2.tx == h.tx
    ensures BlockD(c, v, b, p, h2, k, full)
  {
  }
}
