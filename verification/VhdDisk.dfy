/** What the disk holds at every moment: bitmaps are initialised, set bits have data
    behind them, and acknowledged writes can be read back. */
module VhdDisk {
  import opened Arithmetic
  import opened VhdTypes
  import opened VhdEngine
  import opened VhdInvariants
  import opened VhdStructure
  import opened VhdAccounting
  import opened VhdMoves
  import opened VhdLayout

  /** The disk with its history. */
  datatype World = World(disk: Disk, synced: (int, int) -> bool, log: seq<Ev>)

  function WorldOf(s: Vhd): World { World(s.media.disk, s.media.synced, s.log) }

  /** The place of logical sector l in an extent at `off`. */
  function Loc(c: Config, off: int, l: nat): int { off + c.bmSecs + l % c.spb }

  /** v is a write request for sector l, or -1 for what the disk was opened with. */
  predicate Wrote(log: seq<Ev>, v: int, l: int) {
    v == -1 || (0 <= v < |log| && log[v].Issue? && log[v].write && log[v].sec <= l < log[v].sec + log[v].secs)
  }

  /** Sector l is in place: its data is data of sector l. */
  ghost predicate InPlace(c: Config, v: World, off: int, l: nat) {
    var x := v.disk(Loc(c, off, l));
    x.Data? && x.l == l && Wrote(v.log, x.w, l)
  }

  /** Write request v had not been answered for sector l when request w was issued. */
  ghost predicate NotBefore(log: seq<Ev>, v: nat, w: nat, l: nat) {
    forall d :: 0 <= d < w && d < |log| ==> !Settles(log[d], v, l)
  }

  /** Sector l holds data at least as new as request w: of a write that had not been
      answered when w was issued. */
  ghost predicate Fresh(c: Config, v: World, off: int, l: nat, w: nat) {
    InPlace(c, v, off, l) &&
    v.disk(Loc(c, off, l)).w >= 0 && NotBefore(v.log, v.disk(Loc(c, off, l)).w, w, l)
  }

  /** A data write for sector l has completed at its place. */
  predicate Synced(c: Config, v: World, off: int, l: nat) { v.synced(l, Loc(c, off, l)) }

  ghost predicate BitmapAt(c: Config, d: Disk, off: int, m: set<nat>) {
    forall a :: off <= a < off + c.bmSecs ==> d(a) == Bits(m)
  }

  /** Every sector of block b whose bit is in m is in place, by a completed write. */
  ghost predicate Backed(c: Config, v: World, off: int, b: nat, m: set<nat>) {
    forall l: nat :: l / c.spb == b && l % c.spb in m ==> InPlace(c, v, off, l) && Synced(c, v, off, l)
  }

  /** A write of a transaction goes to its block's extent; once it is on the disk its
      sectors are as new as itself. */
  ghost predicate WriteD(c: Config, v: World, off: int, r: Req) {
    && r.addr == off + c.bmSecs + r.sec % c.spb
    && r.wid < |v.log| && v.log[r.wid].Issue? && v.log[r.wid].write
    && (r.landed ==> forall l: nat :: r.sec <= l < r.sec + r.secs ==> Fresh(c, v, off, l, r.wid))
    && (r.finished && r.err == 0 ==> forall l: nat :: r.sec <= l < r.sec + r.secs ==> Synced(c, v, off, l))
  }

  /** Event e answers a write of sector l with success. */
  ghost predicate Acknowledges(e: Ev, l: nat) {
    e.Done? && e.write && e.err == 0 && e.sec <= l < e.sec + e.secs
  }

  /** Request wid is a read or a write, as the history says. */
  predicate Wid(log: seq<Ev>, wid: nat, write: bool) { wid < |log| && log[wid].Issue? && log[wid].write == write }

  /** Contents x, read for sector l on behalf of request wid: data of sector l, and as new
      as every write that was answered before the request was issued. */
  ghost predicate Current(log: seq<Ev>, x: Sector, wid: nat, l: nat)
    requires wid <= |log|
  {
    && x.Data? && x.l == l && Wrote(log, x.w, l)
    && forall m :: 0 <= m < wid && Acknowledges(log[m], l) ==> x.w >= 0 && NotBefore(log[..wid], x.w, log[m].wid, l)
  }

  /** A read goes to its block's extent; what it has read is current. */
  ghost predicate ReadD(c: Config, v: World, off: int, r: Req) {
    && r.addr == off + c.bmSecs + r.sec % c.spb && Wid(v.log, r.wid, false)
    && (r.landed ==> |r.got| == r.secs && forall i :: 0 <= i < r.secs ==> Current(v.log, r.got[i], r.wid, r.sec + i))
  }

  /** Where block b is, and whether its bitmap there is initialised. */
  datatype Place = NoPlace | Place(off: nat, ready: bool)

  function PlaceOf(s: Vhd, b: nat): Place {
    if b in s.bat then Place(s.bat[b], true)
    else if s.lock.locked && s.lock.blk == b then Place(s.lock.off, s.lock.err == 0 && s.lock.started)
    else NoPlace
  }

  datatype Cached = NotInCache | InCache(bm: Bm)

  function CachedOf(s: Vhd, b: nat): Cached {
    if b in s.cache then InCache(s.cache[b]) else NotInCache
  }

  ghost predicate WritesD(c: Config, v: World, off: int, bm: Bm) {
    (forall r :: r in bm.tx.reqs && !Harmless(bm, r) ==> WriteD(c, v, off, r)) &&
    (forall r :: r in bm.queue ==> WriteD(c, v, off, r))
  }

  /** The bitmap the disk should hold for block b. */
  function ExpectedBits(bm: Bm, h: Hold): set<nat> {
    if bm.write == Landed || (h.Hold? && h.tx && bm.tx.updateBat && bm.tx.error == 0) then bm.shadow else bm.bits
  }

  /** The bitmap of a block on the disk: initialised where the block's extent is, the one
      that memory takes it for, and full if the batmap says so. */
  ghost predicate MapD(c: Config, d: Disk, p: Place, h: Hold, k: Cached, full: bool) {
    && (full ==> p.Place? && p.ready && Full(c) <= BitsAt(d, p.off))
    && (p.Place? && p.ready ==>
         BitmapAt(c, d, p.off, BitsAt(d, p.off)) && BitsAt(d, p.off) <= Full(c) &&
         (k.InCache? && !k.bm.reading ==>
           BitsAt(d, p.off) == ExpectedBits(k.bm, h) && (k.bm.write != Idle ==> k.bm.tx.error == 0)))
    && (p.Place? && k.InCache? && k.bm.write != Idle ==> k.bm.wAddr == p.off)
  }

  /** The data of a block: behind every bit of its bitmap, and as its writes have left it. */
  ghost predicate DataD(c: Config, v: World, b: nat, p: Place, k: Cached) {
    if p.NoPlace? then k.InCache? ==> Adrift(k.bm)
    else
      (p.ready ==> Backed(c, v, p.off, b, BitsAt(v.disk, p.off))) && (k.InCache? ==> WritesD(c, v, p.off, k.bm))
  }

  ghost predicate BlockD(c: Config, v: World, b: nat, p: Place, h: Hold, k: Cached, full: bool) {
    MapD(c, v.disk, p, h, k, full) && DataD(c, v, b, p, k)
  }

  ghost predicate BlkD(c: Config, s: Vhd, b: nat) {
    BlockD(c, WorldOf(s), b, PlaceOf(s, b), HoldOf(s, b), CachedOf(s, b), b in s.batmap)
  }

  /** Sector l is allocated and has its bit set on the disk. */
  ghost predicate BitOnDisk(c: Config, d: Disk, bat: map<nat, nat>, l: nat) {
    l / c.spb in bat && l % c.spb in BitsAt(d, bat[l / c.spb])
  }

  /** Sector l is stored for good: allocated, its bit set, its data as new as w. */
  ghost predicate Stored(c: Config, v: World, bat: map<nat, nat>, l: nat, w: nat) {
    BitOnDisk(c, v.disk, bat, l) && Fresh(c, v, bat[l / c.spb], l, w)
  }

  /** A request outside transactions goes to the extent of its block, to sectors whose bits
      are set; or it writes the page before the data of a full block. */
  ghost predicate RawM(c: Config, d: Disk, bat: map<nat, nat>, batmap: set<nat>, r: Req) {
    var b := r.sec / c.spb;
    b in bat &&
    if r.op == OpPad then
      b in batmap && bat[b] != c.firstDb && r.secs == c.spp && r.addr == bat[b] + c.bmSecs - c.spp
    else
      r.addr == bat[b] + c.bmSecs + r.sec % c.spb && ReqBits(c.spb, r) <= BitsAt(d, bat[b])
  }

  ghost predicate RawD(c: Config, v: World, bat: map<nat, nat>, batmap: set<nat>, r: Req) {
    RawM(c, v.disk, bat, batmap, r) &&
    match r.op
    case OpRead => ReadD(c, v, bat[r.sec / c.spb], r)
    case OpPad => true
    case OpWrite => WriteD(c, v, bat[r.sec / c.spb], r)
  }

  ghost predicate AckD(c: Config, v: World, bat: map<nat, nat>) {
    forall i, l: nat :: 0 <= i < |v.log| && Acknowledges(v.log[i], l) ==>
      v.log[i].wid < i && Stored(c, v, bat, l, v.log[i].wid)
  }

  /** The buffer of the BAT write: one sector of the BAT, with the new entry. */
  ghost predicate BatSector(bat: map<nat, nat>, lock: Lock, m: MetaIo) {
    && m.batBase <= lock.blk < m.batBase + 128
    && m.batBuf == (map b | b in bat && m.batBase <= b < m.batBase + 128 :: bat[b])[lock.blk := lock.off]
  }

  /** The embedded requests: what they write and what is on the disk already. */
  ghost predicate MetaD(c: Config, s: Vhd) {
    var m := s.meta;
    && (s.lock.locked ==> s.lock.off == NextOff(c, s.nextDb))
    && (m.zero != Idle ==> m.zeroAt == s.nextDb && m.zeroAt + m.zeroLen == s.lock.off + c.bmSecs)
    && (m.zero == Landed ==> BitmapAt(c, s.media.disk, s.lock.off, {}))
    && (m.bat != Idle ==> s.lock.locked && BatSector(s.bat, s.lock, m))
    && s.media.bat == if m.bat == Landed then s.bat[s.lock.blk := s.lock.off] else s.bat
  }

  /** Waiting writes come from write requests, and waiting reads from reads. */
  ghost predicate WaitD(log: seq<Ev>, bm: Bm) {
    forall r :: r in bm.waiting ==> Wid(log, r.wid, r.op == OpWrite)
  }

  ghost predicate OnDisk(c: Config, s: Vhd) {
    && Layout(c, s.bat, s.nextDb)
    && MetaD(c, s)
    && (forall b {:trigger BlkD(c, s, b)} :: BlkD(c, s, b))
    && (forall r :: r in s.raw ==> RawD(c, WorldOf(s), s.bat, s.batmap, r))
    && (forall b :: b in s.cache ==> WaitD(s.log, s.cache[b]))
    && AckD(c, WorldOf(s), s.bat)
  }

  /* ---- the passing of time ---- */

  /** v2 is a later world whose disk agrees with v on [lo, hi). */
  ghost predicate Later(v: World, v2: World, lo: int, hi: int) {
    && |v.log| <= |v2.log| && v2.log[..|v.log|] == v.log
    && (forall l, a :: v.synced(l, a) ==> v2.synced(l, a))
    && (forall a :: lo <= a < hi ==> v2.disk(a) == v.disk(a))
  }

  lemma FreshLater(c: Config, v: World, v2: World, off: int, l: nat, w: nat)
    requires Later(v, v2, off + c.bmSecs, End(c, off)) && w <= |v.log|
    ensures InPlace(c, v, off, l) ==> InPlace(c, v2, off, l)
    ensures Fresh(c, v, off, l, w) ==> Fresh(c, v2, off, l, w)
    ensures Synced(c, v, off, l) ==> Synced(c, v2, off, l)
  {
    assert forall d :: 0 <= d < |v.log| ==> v2.log[d] == v.log[d];
    assert off + c.bmSecs <= Loc(c, off, l) < End(c, off);
  }

  lemma WriteLater(c: Config, v: World, v2: World, off: int, r: Req)
    requires Later(v, v2, off + c.bmSecs, End(c, off)) && WriteD(c, v, off, r)
    ensures WriteD(c, v2, off, r)
  {
    assert v2.log[r.wid] == v.log[r.wid];
    forall l: nat | r.sec <= l < r.sec + r.secs
      ensures r.landed ==> Fresh(c, v2, off, l, r.wid)
      ensures r.finished && r.err == 0 ==> Synced(c, v2, off, l)
    {
      FreshLater(c, v, v2, off, l, r.wid);
    }
  }

  lemma ReadLater(c: Config, v: World, v2: World, off: int, r: Req)
    requires |v.log| <= |v2.log| && v2.log[..|v.log|] == v.log && ReadD(c, v, off, r)
    ensures ReadD(c, v2, off, r)
  {
    assert v2.log[r.wid] == v.log[r.wid];
    forall i | 0 <= i < r.secs && r.landed ensures Current(v2.log, r.got[i], r.wid, r.sec + i) {
      CurrentLater(v.log, v2.log, r.got[i], r.wid, r.sec + i);
    }
  }

  lemma CurrentLater(log: seq<Ev>, log2: seq<Ev>, x: Sector, wid: nat, l: nat)
    requires |log| <= |log2| && log2[..|log|] == log && wid <= |log| && Current(log, x, wid, l)
    ensures Current(log2, x, wid, l)
  {
    assert log2[..wid] == log[..wid];
    assert forall m :: 0 <= m < |log| ==> log2[m] == log[m];
  }

  lemma WritesLater(c: Config, v: World, v2: World, off: int, bm: Bm)
    requires Later(v, v2, off + c.bmSecs, End(c, off)) && WritesD(c, v, off, bm)
    ensures WritesD(c, v2, off, bm)
  {
    forall r | (r in bm.tx.reqs && !Harmless(bm, r)) || r in bm.queue ensures WriteD(c, v2, off, r) {
      WriteLater(c, v, v2, off, r);
    }
  }

  lemma BackedLater(c: Config, v: World, v2: World, off: int, b: nat, m: set<nat>)
    requires Later(v, v2, off + c.bmSecs, End(c, off)) && Backed(c, v, off, b, m)
    ensures Backed(c, v2, off, b, m)
  {
    forall l: nat | l / c.spb == b && l % c.spb in m ensures InPlace(c, v2, off, l) && Synced(c, v2, off, l) {
      FreshLater(c, v, v2, off, l, 0);
    }
  }

  lemma BlockLater(c: Config, v: World, v2: World, b: nat, p: Place, h: Hold, k: Cached, full: bool)
    requires BlockD(c, v, b, p, h, k, full)
    requires p.Place? ==> Later(v, v2, p.off, End(c, p.off))
    ensures BlockD(c, v2, b, p, h, k, full)
  {
    if p.Place? {
      assert BitsAt(v2.disk, p.off) == BitsAt(v.disk, p.off);
      if k.InCache? { WritesLater(c, v, v2, p.off, k.bm); }
      if p.ready { BackedLater(c, v, v2, p.off, b, BitsAt(v.disk, p.off)); }
    }
  }

  lemma StoredLater(c: Config, v: World, v2: World, bat: map<nat, nat>, bat2: map<nat, nat>, l: nat, w: nat)
    requires Stored(c, v, bat, l, w) && w <= |v.log|
    requires l / c.spb in bat2 && bat2[l / c.spb] == bat[l / c.spb]
    requires Later(v, v2, bat[l / c.spb], End(c, bat[l / c.spb]))
    ensures Stored(c, v2, bat2, l, w)
  {
    FreshLater(c, v, v2, bat[l / c.spb], l, w);
  }

  lemma RawLater(c: Config, v: World, v2: World, bat: map<nat, nat>, bat2: map<nat, nat>, full: set<nat>,
          full2: set<nat>, r: Req)
    requires RawD(c, v, bat, full, r) && full <= full2
    requires var b := r.sec / c.spb; b in bat ==> b in bat2 && bat2[b] == bat[b] && Later(v, v2, bat[b], End(c, bat[b]))
    ensures RawD(c, v2, bat2, full2, r)
  {
    var b := r.sec / c.spb;
    if r.op != OpPad {
      if r.op == OpWrite { WriteLater(c, v, v2, bat[b], r); } else { ReadLater(c, v, v2, bat[b], r); }
      assert BitsAt(v2.disk, bat[b]) == BitsAt(v.disk, bat[b]);
    }
  }
}
