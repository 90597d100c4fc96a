/** What the VHD driver does with a read of sectors that no transaction is writing: it reads
    what the disk holds, where it holds it, and forwards the rest to the parent. */
module VhdReads {
  import opened Arithmetic
  import opened VhdTypes
  import opened VhdEngine
  import opened VhdInvariants
  import opened VhdStructure
  import opened VhdAccounting
  import opened VhdLayout
  import opened VhdDisk
  import opened VhdServing
  import opened VhdLanding
  import opened VhdTheorems

  /** No write of sector l is in the transaction of its block. */
  predicate Unwritten(c: Config, s: Vhd, l: nat) {
    var b := l / c.spb;
    b in s.cache ==> forall r :: r in s.cache[b].tx.reqs ==> !(r.sec <= l < r.sec + r.secs)
  }

  /** Sector l as the driver finds it in memory. */
  predicate Mapped(c: Config, s: Vhd, l: nat) {
    var b := l / c.spb;
    b in s.bat && (b in s.batmap || (b in s.cache && l % c.spb in s.cache[b].bits))
  }

  /** What memory says of sector l is what the file holds. */
  ghost predicate Agrees(c: Config, s: Vhd, l: nat) {
    var f := Recover(c, s.media, l);
    if Mapped(c, s, l) then f.Present? && s.media.disk(Loc(c, s.bat[l / c.spb], l)) == Data(f.w, l) else f == Absent
  }

  /** The bitmap of b is in memory, or is not needed. */
  predicate Known(s: Vhd, b: nat) {
    b in s.bat ==> b in s.batmap || (b in s.cache && !s.cache[b].reading)
  }

  /** A bit is staged only by a write of its sector. */
  lemma NotStaged(c: Config, b: nat, rs: seq<Req>, l: nat)
    requires (forall r :: r in rs ==> InBlock(c, b, r)) && l / c.spb == b
    requires forall r :: r in rs ==> !(r.sec <= l < r.sec + r.secs)
    ensures l % c.spb !in Staged(c.spb, rs)
  {
    forall r | r in rs ensures l % c.spb !in ReqBits(c.spb, r) { BitSector(c, b, r, l); }
  }

  lemma BitSector(c: Config, b: nat, r: Req, l: nat)
    requires InBlock(c, b, r) && l / c.spb == b
    ensures l % c.spb in ReqBits(c.spb, r) <==> r.sec <= l < r.sec + r.secs
  {
    assert l == b * c.spb + l % c.spb && r.sec == b * c.spb + r.sec % c.spb;
    assert l % c.spb in ReqBits(c.spb, r) <==> InRange(l % c.spb, r.sec % c.spb, r.secs);
  }

  /** The committed and the staged bitmap agree about sector l, and there is no bitmap of
      a block without extent. */
  lemma SameBit(c: Config, s: Vhd, l: nat, pool: nat)
    requires l / c.spb in s.cache && !s.cache[l / c.spb].reading && Unwritten(c, s, l)
    requires Structure(c, s, pool)
    ensures var bm := s.cache[l / c.spb];
            (l % c.spb in bm.shadow <==> l % c.spb in bm.bits) && (l / c.spb !in s.bat ==> bm.bits == {})
  {
    var b := l / c.spb;
    assert BlockOk(c, s, b);
    NotStaged(c, b, s.cache[b].tx.reqs, l);
  }

  /** A BAT entry that has reached the disk before the driver has heard of it. */
  predicate OnlyOnDisk(s: Vhd, b: nat) { b !in s.bat && s.meta.bat == Landed && s.lock.locked && s.lock.blk == b }

  lemma HolderCached(c: Config, s: Vhd, b: nat, pool: nat)
    requires OnlyOnDisk(s, b)
    requires Structure(c, s, pool)
    ensures b in s.cache && !s.cache[b].reading && s.lock.err == 0 && s.lock.started
  {
    assert BlockOk(c, s, b);
  }

  lemma BlockAgrees(c: Config, s: Vhd, l: nat)
    requires var b := l / c.spb;
             && Known(s, b) && (OnlyOnDisk(s, b) ==>
               b in s.cache && !s.cache[b].reading && s.lock.err == 0 && s.lock.started)
             && (b in s.cache && !s.cache[b].reading ==>
                  (l % c.spb in s.cache[b].shadow <==> l % c.spb in s.cache[b].bits) &&
                    (b !in s.bat ==> s.cache[b].bits == {}))
             && (b in s.media.bat <==> b in s.bat || OnlyOnDisk(s, b))
             && (b in s.media.bat ==> s.media.bat[b] == if b in s.bat then s.bat[b] else s.lock.off)
             && BlkD(c, s, b)
    ensures Agrees(c, s, l)
  {
    var b := l / c.spb;
    assert InRange(l % c.spb, 0, c.spb) && l % c.spb in Full(c);
  }

  lemma DiskFacts(c: Config, s: Vhd, b: nat)
    requires OnDisk(c, s)
    ensures BlkD(c, s, b) && s.media.bat == if s.meta.bat == Landed then s.bat[s.lock.blk := s.lock.off] else s.bat
    ensures s.meta.bat != Idle ==> s.lock.locked
  {
    assert BlkD(c, s, b);
    hide BlkD;
  }

  /** Whatever else is in flight, what memory says of a sector that no transaction is
      writing is what the file holds. */
  lemma MemoryIsDisk(c: Config, s: Vhd, l: nat, pool: nat)
    requires Unwritten(c, s, l) && Known(s, l / c.spb)
    requires Structure(c, s, pool) && OnDisk(c, s)
    ensures Agrees(c, s, l)
  {
    hide Agrees;
    hide Structure;
    hide OnDisk;
    hide BlkD;
    hide Unwritten;
    var b := l / c.spb;
    DiskFacts(c, s, b);
    if s.lock.locked { HolderUnallocated(c, s, pool); }
    if OnlyOnDisk(s, b) { HolderCached(c, s, b, pool); }
    if b in s.cache && !s.cache[b].reading { SameBit(c, s, l, pool); }
    BlockAgrees(c, s, l);
  }

  /** What a turn of a read may do with sector l of its span. */
  ghost predicate ReadServed(c: Config, s: Vhd, t: Vhd, wid: nat, sec: nat, k: nat, l: nat) {
    // all of the span is forwarded, and the file does not hold the sector
    (t.log == s.log + [Forward(wid, sec, k)] && t.raw == s.raw && Recover(c, s.media, l) == Absent) ||
    // the span is read from where the file holds the sector
    (t.log == s.log && t.raw != [] && t.raw[..|t.raw| - 1] == s.raw &&
      ReadsSector(c, s, t.raw[|t.raw| - 1], wid, sec, k, l)) ||
    // the span is parked until the bitmap has been read
    (t.log == s.log && t.raw == s.raw && Parked(c, t, Piece(false, wid, sec, k)))
  }

  ghost predicate ReadsSector(c: Config, s: Vhd, r: Req, wid: nat, sec: nat, k: nat, l: nat) {
    && r.op == OpRead && r.wid == wid && r.sec == sec && r.secs == k
    && Recover(c, s.media, l).Present? && s.media.disk(r.addr + (l - sec)) == Data(Recover(c, s.media, l).w, l)
  }

  predicate Parked(c: Config, t: Vhd, r: Req) {
    var b := r.sec / c.spb;
    b in t.cache && t.cache[b].reading && r in t.cache[b].waiting
  }

  /** A turn of a read serves a span of its block: all of it forwarded, and then the file
      holds none of it; or read from where the file holds it; or parked until the bitmap
      has been read. */
  lemma ReadTurnReads(c: Config, s: Vhd, wid: nat, sec: nat, n: nat, l: nat, pool: nat)
    requires 0 < n && Unwritten(c, s, l)
    requires var (_, k, err) := ReadTurn(c, s, wid, sec, n); err == 0 && sec <= l < sec + k
    requires Structure(c, s, pool) && OnDisk(c, s)
    ensures var (t, k, _) := ReadTurn(c, s, wid, sec, n); ReadServed(c, s, t, wid, sec, k, l)
  {
    hide Structure;
    hide OnDisk;
    hide Recover;
    TurnInBlock(c, s, wid, sec, n);
    SameBlock(c.spb, sec, l);
    if KnownHit(c, s, sec) { HitKnown(c, s, sec); MemoryIsDisk(c, s, l, pool); }
    TurnServes(c, s, wid, sec, n, l);
  }

  predicate KnownHit(c: Config, s: Vhd, sec: nat) {
    var hit := ReadBitmapCache(c, s, sec, false).1;
    hit == BatClear || hit == BitClear || hit == BitSet
  }

  lemma HitKnown(c: Config, s: Vhd, sec: nat)
    requires KnownHit(c, s, sec)
    ensures Known(s, sec / c.spb)
  {
  }

  lemma TurnServes(c: Config, s: Vhd, wid: nat, sec: nat, n: nat, l: nat)
    requires 0 < n
    requires var (_, k, err) := ReadTurn(c, s, wid, sec, n); err == 0 && sec <= l < sec + k
    requires KnownHit(c, s, sec) ==> Agrees(c, s, l)
    ensures var (t, k, _) := ReadTurn(c, s, wid, sec, n); ReadServed(c, s, t, wid, sec, k, l)
  {
    hide Recover;
    hide ScheduleBitmapRead;
    TurnInBlock(c, s, wid, sec, n);
    SameBlock(c.spb, sec, l);
    var (s1, hit) := ReadBitmapCache(c, s, sec, false);
    match hit
    case BitClear => RunAt(c, s, sec, n, false, l);
    case BitSet => RunAt(c, s, sec, n, true, l);
    case NotCached => ParkedAfterRead(c, s1, Piece(false, wid, sec, ToBlockEnd(c, sec, n)));
    case _ =>
  }

  lemma ParkedAfterRead(c: Config, s: Vhd, r: Req)
    requires ScheduleBitmapRead(c, s, r.sec / c.spb).1 == 0
    requires QueueRequest(c, ScheduleBitmapRead(c, s, r.sec / c.spb).0, r).1 == 0
    ensures var t := QueueRequest(c, ScheduleBitmapRead(c, s, r.sec / c.spb).0, r).0;
            t.log == s.log && t.raw == s.raw && Parked(c, t, r)
  {
  }

  /** A turn does not leave the block. */
  lemma TurnInBlock(c: Config, s: Vhd, wid: nat, sec: nat, n: nat)
    requires 0 < n
    ensures var (_, k, err) := ReadTurn(c, s, wid, sec, n); err == 0 ==> sec % c.spb + k <= c.spb && k <= n
  {
  }

  /** The driver's range check lets a block past the end of the BAT through if and only if
      it is the first one: sectors within the disk never are. */
  lemma RangeCheckExact(c: Config, s: Vhd, sec: nat, write: bool)
    ensures var b := sec / c.spb;
            b >= c.maxBat && ReadBitmapCache(c, s, sec, write).1 != OutOfRange <==> b == c.maxBat
    ensures sec < c.maxBat * c.spb ==> sec / c.spb < c.maxBat
  {
    if c.maxBat <= sec / c.spb { MulMono(c.maxBat, sec / c.spb, c.spb); }
  }

  /** A span covers sectors of one kind. */
  lemma RunAt(c: Config, s: Vhd, sec: nat, n: nat, value: bool, l: nat)
    requires var (s1, hit) := ReadBitmapCache(c, s, sec, false);
             hit == (if value then BitSet else BitClear) && sec <= l < sec + Span(c, s1, sec, n, value)
    ensures Mapped(c, s, l) == value
    ensures l / c.spb in s.bat && (l / c.spb in s.batmap || (l / c.spb in s.cache && !s.cache[l / c.spb].reading))
  {
    var (s1, hit) := ReadBitmapCache(c, s, sec, false);
    SameBlock(c.spb, sec, l);
    var b := sec / c.spb;
    if b !in s.batmap {
      var m := s1.cache[b].bits;
      var off := sec % c.spb;
      assert (off + (l - sec) in m) == value;
    }
  }
}
