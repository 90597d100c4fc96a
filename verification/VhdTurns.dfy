/** What one turn of the loops of vhd_queue_read and vhd_queue_write does, in terms of the
    fields of the state: when it refuses, and what it adds to which list. */
module VhdTurns {
  import opened Arithmetic
  import opened VhdTypes
  import opened VhdEngine

  /* ---- what the driver knows of a sector ---- */

  /** BAT and bitmap say that the file has the sector. */
  predicate Stored(c: Config, s: Vhd, sec: nat) {
    var b := sec / c.spb;
    b in s.bat && (b in s.batmap || (b in s.cache && !s.cache[b].reading && sec % c.spb in s.cache[b].bits))
  }

  /** BAT or bitmap say that it has not. */
  predicate Missing(c: Config, s: Vhd, sec: nat) {
    var b := sec / c.spb;
    b !in s.bat || (b !in s.batmap && b in s.cache && !s.cache[b].reading && sec % c.spb !in s.cache[b].bits)
  }

  /** No bitmap can be had for the block: it has none, none is free, and all are locked or
      the one that was used last. */
  ghost predicate NoBitmap(s: Vhd, b: nat) {
    b !in s.cache && s.bmFree == 0 && forall v :: v in s.cache ==> s.cache[v].locked || s.cache[v].seqno >= s.lru
  }

  /** The bitmap of v can be taken, and no other that can be has been used before it. */
  ghost predicate Oldest(s: Vhd, v: nat) {
    && v in s.cache && !s.cache[v].locked && s.cache[v].seqno < s.lru
    && forall u :: u in s.cache && !s.cache[u].locked && s.cache[u].seqno < s.lru ==>
         s.cache[v].seqno <= s.cache[u].seqno
  }

  /** k is the length of the longest span from sec, within the n sectors asked for and
      within the block, that is all stored or all not known to be stored. */
  ghost predicate Longest(c: Config, s: Vhd, sec: nat, n: nat, k: nat) {
    && 0 < k <= n && sec % c.spb + k <= c.spb
    && (forall l :: sec <= l < sec + k ==> Stored(c, s, l) == Stored(c, s, sec))
    && (k == n || sec % c.spb + k == c.spb || Stored(c, s, sec + k) != Stored(c, s, sec))
  }

  /* ---- the bitmap cache ---- */

  ghost predicate Best(s: Vhd, todo: set<nat>, v: nat) {
    v in todo && Evictable(s, v) && forall u :: u in todo && Evictable(s, u) ==> Older(s, v, u)
  }

  /** Of some bitmaps that can be taken, one is the oldest. */
  lemma {:induction false} BestOf(s: Vhd, todo: set<nat>, u: nat) returns (v: nat)
    requires u in todo && Evictable(s, u)
    ensures Best(s, todo, v)
    decreases todo
  {
    var rest := todo - {u};
    if x: nat :| x in rest && Evictable(s, x) {
      v := BestOf(s, rest, x);
      if !Older(s, v, u) { v := u; }
    } else {
      v := u;
    }
  }

  lemma VictimThere(s: Vhd, u: nat)
    requires Evictable(s, u)
    ensures exists v :: IsVictim(s, v)
  {
    var v := BestOf(s, s.cache.Keys, u);
    assert IsVictim(s, v);
  }

  /** Installing a bitmap fails just if none can be had. A free one is taken first, and else
      the one that has not been used for longest. */
  lemma InstallExact(c: Config, s: Vhd, b: nat, bm: Bm)
    requires b !in s.cache
    ensures var (t, err) := InstallBitmap(c, s, b, bm);
            && (if NoBitmap(s, b) then err == EBUSY && t == s else err == 0)
            && (err == 0 ==> Installed(s, t, b, bm))
  {
    hide Evictable;
    hide Oldest;
    hide Install;
    if s.bmFree > 0 {
      InstallsFree(c, s, b, bm);
    } else if u: nat :| Evictable(s, u) {
      VictimThere(s, u);
      var v :| IsVictim(s, v) && InstallBitmap(c, s, b, bm) == (Evicted(c, s, b, bm, v), 0);
      EvictedTakes(c, s, b, bm, v);
    } else {
      NoneEvictable(s, b);
    }
  }

  ghost function Evicted(c: Config, s: Vhd, b: nat, bm: Bm, v: nat): Vhd
    requires IsVictim(s, v)
  {
    Install(c, Check(s.(cache := s.cache - {v}), !InUse(s.cache[v])), b, bm)
  }

  lemma InstallsFree(c: Config, s: Vhd, b: nat, bm: Bm)
    requires s.bmFree > 0
    ensures !NoBitmap(s, b) && Installed(s, Install(c, s.(bmFree := s.bmFree - 1), b, bm), b, bm)
  {
  }

  lemma EvictedTakes(c: Config, s: Vhd, b: nat, bm: Bm, v: nat)
    requires s.bmFree == 0 && IsVictim(s, v)
    ensures !NoBitmap(s, b) && Installed(s, Evicted(c, s, b, bm, v), b, bm)
  {
    hide InUse;
    VictimOldest(s, v);
    hide IsVictim;
    hide Oldest;
    assert TakesOldest(s, Evicted(c, s, b, bm, v), b, bm, v);
  }

  lemma NoneEvictable(s: Vhd, b: nat)
    requires b !in s.cache && s.bmFree == 0 && forall u :: !Evictable(s, u)
    ensures NoBitmap(s, b) && forall v :: !IsVictim(s, v)
  {
    forall v | v in s.cache ensures s.cache[v].locked || s.cache[v].seqno >= s.lru {
      assert !Evictable(s, v);
    }
  }

  lemma VictimOldest(s: Vhd, v: nat)
    requires IsVictim(s, v)
    ensures Evictable(s, v) && Oldest(s, v)
  {
    forall u | u in s.cache && !s.cache[u].locked && s.cache[u].seqno < s.lru
      ensures s.cache[v].seqno <= s.cache[u].seqno
    {
      assert Evictable(s, u);
    }
  }

  /** Block b has the bitmap bm, as the one used last, and at most one other block has lost its. */
  ghost predicate Installed(s: Vhd, t: Vhd, b: nat, bm: Bm) {
    && t == s.(cache := t.cache, bmFree := t.bmFree, lru := s.lru + 1, panicked := t.panicked)
    && if s.bmFree > 0 then TakesFree(s, t, b, bm) else exists v :: TakesOldest(s, t, b, bm, v)
  }

  predicate TakesFree(s: Vhd, t: Vhd, b: nat, bm: Bm) {
    t.bmFree == s.bmFree - 1 && t.cache == s.cache[b := bm.(seqno := s.lru + 1)]
  }

  ghost predicate TakesOldest(s: Vhd, t: Vhd, b: nat, bm: Bm, v: nat) {
    Oldest(s, v) && t.bmFree == s.bmFree && t.cache == (s.cache - {v})[b := bm.(seqno := s.lru + 1)]
  }

  /* ---- spans ---- */

  /** Up to the end of the block, if no bitmap tells its sectors apart. */
  lemma CutLongest(c: Config, s: Vhd, sec: nat, n: nat)
    requires 0 < n
    requires var b := sec / c.spb; b !in s.bat || b in s.batmap || b !in s.cache || s.cache[b].reading
    ensures Longest(c, s, sec, n, ToBlockEnd(c, sec, n))
  {
    forall l | sec <= l < sec + ToBlockEnd(c, sec, n) ensures Stored(c, s, l) == Stored(c, s, sec) {
      SameBlock(c.spb, sec, l);
    }
  }

  /** As far as the bits are equal, if one does. */
  lemma RunLongest(c: Config, s: Vhd, sec: nat, n: nat)
    requires var b := sec / c.spb;
             0 < n && b in s.bat && b !in s.batmap && b in s.cache && !s.cache[b].reading
    ensures var bits := s.cache[sec / c.spb].bits;
            Longest(c, s, sec, n, RunLength(c.spb, bits, sec % c.spb, n, sec % c.spb in bits))
  {
    var bits, o := s.cache[sec / c.spb].bits, sec % c.spb;
    var k := RunLength(c.spb, bits, o, n, o in bits);
    forall l | sec <= l <= sec + k && o + (l - sec) < c.spb ensures Stored(c, s, l) == (o + (l - sec) in bits) {
      SameBlock(c.spb, sec, l);
    }
  }

  /* ---- reads ---- */

  /** When a turn of a read is refused, and with which error. */
  ghost function ReadRefusal(c: Config, s: Vhd, sec: nat): int {
    var b := sec / c.spb;
    if b > c.maxBat then EINVAL
    else if Missing(c, s, sec) then 0
    else if s.free == 0 || (!Stored(c, s, sec) && NoBitmap(s, b)) then EBUSY
    else 0
  }

  /** A turn of a read is refused just if the sector lies beyond the BAT; or if it is not
      known to be missing, and no request is free or its bitmap has to be read and none can
      be had for it. Then nothing is answered, submitted or parked. */
  lemma ReadRefuses(c: Config, s: Vhd, wid: nat, sec: nat, n: nat)
    requires 0 < n
    ensures var (t, _, err) := ReadTurn(c, s, wid, sec, n);
            && err == ReadRefusal(c, s, sec)
            && (err != 0 ==> t.log == s.log && t.raw == s.raw && t.free == s.free)
  {
    hide RunLength;
    hide InstallBitmap;
    hide Oldest;
    var b := sec / c.spb;
    if b in s.bat && b !in s.cache {
      assert Check(s, true) == s;
      InstallExact(c, s, b, ReadingBitmap);
    }
  }

  const ReadingBitmap := InitBm.(reading := true, locked := true)

  function ReadOf(wid: nat, sec: nat, n: nat, addr: int): Req {
    Req(OpRead, wid, sec, n, addr, false, false, 0, [])
  }

  /** The requests that wait for the bitmap of b. */
  function Waiting(s: Vhd, b: nat): seq<Req> {
    if b in s.cache then s.cache[b].waiting else []
  }

  /** A request waits, last of all, for the bitmap of b, which is being read. */
  predicate Waits(s: Vhd, t: Vhd, b: nat, r: Req) {
    && t.log == s.log && t.raw == s.raw && t.free == s.free - 1
    && b in t.cache && t.cache[b].reading && t.cache[b].locked
    && t.cache[b].waiting == Waiting(s, b) + [r]
  }

  /** The bitmap of b has been used last. */
  predicate UsedLast(s: Vhd, t: Vhd, b: nat) {
    b in s.bat && b !in s.batmap ==> b in t.cache && t.cache[b].seqno == t.lru == s.lru + 1
  }

  /** BAT, lock and file are left alone. */
  ghost predicate FileSame(s: Vhd, t: Vhd) {
    t == s.(cache := t.cache, bmFree := t.bmFree, lru := t.lru, free := t.free, raw := t.raw, log := t.log,
            panicked := t.panicked)
  }

  /** What a turn of a read that is not refused does with the longest span it can: a span
      that is missing is forwarded and takes no request; one that is stored is read at its
      place in the file; and one of which it is not known waits for its bitmap. */
  ghost predicate ReadDone(c: Config, s: Vhd, t: Vhd, wid: nat, sec: nat, k: nat) {
    var b := sec / c.spb;
    if Missing(c, s, sec) then
      t.log == s.log + [Forward(wid, sec, k)] && t.raw == s.raw && t.free == s.free
    else if Stored(c, s, sec) then
      t.log == s.log && t.free == s.free - 1 &&
      t.raw == s.raw + [ReadOf(wid, sec, k, s.bat[b] + c.bmSecs + sec % c.spb)]
    else Waits(s, t, b, ReadOf(wid, sec, k, 0))
  }

  lemma ReadDoes(c: Config, s: Vhd, wid: nat, sec: nat, n: nat)
    requires 0 < n && ReadTurn(c, s, wid, sec, n).2 == 0
    ensures var (t, k, _) := ReadTurn(c, s, wid, sec, n);
            Longest(c, s, sec, n, k) && ReadDone(c, s, t, wid, sec, k) && FileSame(s, t) &&
            UsedLast(s, t, sec / c.spb)
  {
    hide RunLength;
    hide Oldest;
    hide Longest;
    hide ReadDone;
    hide FileSame;
    hide UsedLast;
    var b := sec / c.spb;
    if b in s.bat && b !in s.batmap && (b !in s.cache || s.cache[b].reading) {
      CutLongest(c, s, sec, n);
      ReadUntold(c, s, wid, sec, n);
    } else {
      ReadTold(c, s, wid, sec, n);
      if b in s.bat && b !in s.batmap { RunLongest(c, s, sec, n); } else { CutLongest(c, s, sec, n); }
    }
  }

  /** A read of sectors of which it is known whether they are stored. */
  lemma ReadTold(c: Config, s: Vhd, wid: nat, sec: nat, n: nat)
    requires 0 < n && ReadTurn(c, s, wid, sec, n).2 == 0
    requires var b := sec / c.spb; b in s.bat && b !in s.batmap ==> b in s.cache && !s.cache[b].reading
    ensures var (t, k, _) := ReadTurn(c, s, wid, sec, n);
            && ReadDone(c, s, t, wid, sec, k) && FileSame(s, t) && UsedLast(s, t, sec / c.spb)
            && k == if sec / c.spb !in s.bat then ToBlockEnd(c, sec, n) else Span(c, s, sec, n, Stored(c, s, sec))
  {
    hide RunLength;
  }

  lemma ReadUntold(c: Config, s: Vhd, wid: nat, sec: nat, n: nat)
    requires 0 < n && ReadTurn(c, s, wid, sec, n).2 == 0
    requires var b := sec / c.spb; b in s.bat && b !in s.batmap && (b !in s.cache || s.cache[b].reading)
    ensures var (t, k, _) := ReadTurn(c, s, wid, sec, n);
            && ReadDone(c, s, t, wid, sec, k) && FileSame(s, t) && UsedLast(s, t, sec / c.spb)
            && k == ToBlockEnd(c, sec, n)
  {
    hide InstallBitmap;
    hide Oldest;
    var b := sec / c.spb;
    if b !in s.cache {
      assert Check(s, true) == s;
      InstallExact(c, s, b, ReadingBitmap);
    }
  }

  /* ---- writes ---- */

  function WriteOf(wid: nat, sec: nat, n: nat, addr: int): Req {
    Req(OpWrite, wid, sec, n, addr, false, false, 0, [])
  }

  /** When a turn of a write is refused, and with which error. */
  ghost function WriteRefusal(c: Config, s: Vhd, sec: nat): int {
    var b := sec / c.spb;
    if b > c.maxBat then EINVAL
    else if b in s.bat then
      if s.free == 0 || (!Stored(c, s, sec) && !Missing(c, s, sec) && NoBitmap(s, b)) then EBUSY else 0
    else if s.lock.locked && s.lock.blk != b then EBUSY
    else if AllocationRefusal(c, s, b) != 0 then AllocationRefusal(c, s, b)
    else if s.free == 0 then EBUSY
    else 0
  }

  /** Why block b cannot be given an extent. */
  ghost function AllocationRefusal(c: Config, s: Vhd, b: nat): int {
    if s.lock.locked then if c.prealloc && s.lock.err != 0 then EBUSY else 0
    else if c.prealloc && c.sync(|s.log|) != 0 then c.sync(|s.log|)
    else if NoBitmap(s, b) then EBUSY
    else 0
  }

  /** A bitmap for a block about to be allocated. */
  lemma EmptyExact(c: Config, s: Vhd, b: nat)
    ensures var (t, err) := EmptyBitmap(c, s, b);
            && err == (if NoBitmap(s, b) then EBUSY else 0)
            && t == s.(cache := t.cache, bmFree := t.bmFree, lru := t.lru, panicked := t.panicked)
            && (err == 0 ==> b in t.cache && t.cache[b] == BitmapOf(s, b).(seqno := t.cache[b].seqno))
  {
    hide InstallBitmap;
    hide Oldest;
    if b !in s.cache { InstallExact(c, s, b, InitBm); }
  }

  /** The bitmap that block b has, or is given. */
  function BitmapOf(s: Vhd, b: nat): Bm {
    if b in s.cache then s.cache[b] else InitBm
  }

  /** The extent of block b is the next free one whose data is aligned to a page. Unless it has
      been written already, its bitmap is being zeroed, with all that lies before it; else
      the BAT entry is being written. The transaction waits for that write. */
  ghost predicate Allocates(c: Config, s: Vhd, t: Vhd, b: nat) {
    var off := s.nextDb + Gap(c, s.nextDb);
    var bm := BitmapOf(s, b);
    && t.lock.locked && t.lock.blk == b && t.lock.off == off
    && (if c.prealloc
        then t.meta.bat == Flying && b in t.meta.batBuf && t.meta.batBuf[b] == off && t.lock.started && t.lock.tx
        else t.meta.zero == Flying && t.meta.zeroBlk == b && t.meta.zeroAt == s.nextDb &&
             t.meta.zeroLen == off - s.nextDb + c.bmSecs)
    && b in t.cache && t.cache[b].locked
    && t.cache[b].tx == bm.tx.(started := bm.tx.started + 1, live := true, meta := true,
                               updateBat := bm.tx.updateBat || !c.prealloc)
    && t.cache[b].queue == bm.queue
  }

  /** The write of the zero bitmap is on its way, or the synchronous write has failed. */
  lemma ReserveExact(c: Config, s: Vhd, b: nat)
    requires b !in s.bat && !s.lock.locked && !c.prealloc
    ensures var (t, err) := UpdateBat(c, s, b);
            && err == (if NoBitmap(s, b) then EBUSY else 0)
            && t.log == s.log && t.raw == s.raw && t.free == s.free
            && (err == 0 ==> Allocates(c, s, t, b))
  {
    hide EmptyBitmap;
    hide NoBitmap;
    hide Gap;
    assert Check(s, true) == s;
    EmptyExact(c, s, b);
  }

  lemma PreallocExact(c: Config, s: Vhd, b: nat)
    requires b !in s.bat && !s.lock.locked && c.prealloc
    ensures var (t, err) := AllocateBlock(c, s, b);
            && err == (if c.sync(|s.log|) != 0 then c.sync(|s.log|) else if NoBitmap(s, b) then EBUSY else 0)
            && t.log == s.log && t.raw == s.raw && t.free == s.free
            && (err == 0 ==> Allocates(c, s, t, b))
  {
    hide EmptyBitmap;
    hide NoBitmap;
    hide Gap;
    hide LockAndWriteBat;
    hide Allocates;
    assert Check(s, true) == s;
    if c.sync(|s.log|) == 0 {
      var s1 := Placed(c, s, b);
      assert NoBitmap(s1, b) == NoBitmap(s, b) by { SameBitmaps(s, s1, b); }
      EmptyExact(c, s1, b);
      var (s2, err) := EmptyBitmap(c, s1, b);
      assert AllocateBlock(c, s, b) == if err != 0 then (s2, err) else (LockAndWriteBat(s2, b), 0);
      if err == 0 { LockedAllocates(c, s, s2, b); }
    }
  }

  /** allocate_block has zeroed the extent. */
  ghost function Placed(c: Config, s: Vhd, b: nat): Vhd {
    var off := s.nextDb + Gap(c, s.nextDb);
    ZeroExtent(c, s).(nextDb := off, lock := s.lock.(blk := b, off := off))
  }

  lemma LockedAllocates(c: Config, s: Vhd, t: Vhd, b: nat)
    requires c.prealloc && b in t.cache && t.cache[b] == BitmapOf(s, b).(seqno := t.cache[b].seqno)
    requires t.lock.blk == b && t.lock.off == s.nextDb + Gap(c, s.nextDb)
    ensures var u := LockAndWriteBat(t, b);
            Allocates(c, s, u, b) && u.log == t.log && u.raw == t.raw && u.free == t.free
  {
    hide Gap;
  }

  lemma SameBitmaps(s: Vhd, t: Vhd, b: nat)
    requires t.cache == s.cache && t.bmFree == s.bmFree && t.lru == s.lru
    ensures NoBitmap(t, b) == NoBitmap(s, b)
  {
  }

  /** The block of a write is given an extent, or has been promised one: the outcome, before a
      request is taken. */
  ghost function Allocation(c: Config, s: Vhd, b: nat): (Vhd, int) {
    if c.prealloc then AllocateBlock(c, s, b) else UpdateBat(c, s, b)
  }

  lemma AllocationExact(c: Config, s: Vhd, b: nat)
    requires b !in s.bat && (s.lock.locked ==> s.lock.blk == b)
    ensures var (t, err) := Allocation(c, s, b);
            && err == AllocationRefusal(c, s, b)
            && t.log == s.log && t.raw == s.raw && t.free == s.free
            && (err == 0 ==> (if s.lock.locked then t == s else Allocates(c, s, t, b)))
  {
    hide EmptyBitmap;
    hide NoBitmap;
    hide Allocates;
    assert Check(s, true) == s;
    if s.lock.locked {
    } else if c.prealloc {
      PreallocExact(c, s, b);
    } else {
      ReserveExact(c, s, b);
    }
  }

  /** A write joins the transaction of its block, or waits for the next one if that one has
      been closed. Its bitmap cannot be taken away now. */
  predicate Joins(s: Vhd, t: Vhd, b: nat, r: Req) {
    var bm := BitmapOf(s, b);
    && t.log == s.log && t.raw == s.raw && t.free == s.free - 1
    && b in t.cache && t.cache[b].locked
    && t.cache[b].tx.error == bm.tx.error && t.cache[b].tx.closed == bm.tx.closed
    && t.cache[b].tx.reqs == bm.tx.reqs + (if bm.tx.closed then [] else [r])
    && t.cache[b].queue == bm.queue + (if bm.tx.closed then [r] else [])
  }

  /** Before the first sector of a block that is all stored, its bitmap is written again. */
  predicate RewritesBitmap(c: Config, s: Vhd, sec: nat) {
    var b := sec / c.spb;
    b in s.bat && b in s.batmap && sec % c.spb == 0 && s.bat[b] != c.firstDb && s.free >= 2
  }

  function PadOf(c: Config, s: Vhd, b: nat): Req
    requires b in s.bat
  {
    Req(OpPad, 0, b * c.spb, c.spp, s.bat[b] + c.bmSecs - c.spp, false, false, 0, [])
  }

  /** A write of stored sectors goes straight to their place in the file. */
  predicate WritesStraight(c: Config, s: Vhd, t: Vhd, sec: nat, r: Req)
    requires sec / c.spb in s.bat
  {
    && t.log == s.log
    && t.raw == s.raw + (if RewritesBitmap(c, s, sec) then [PadOf(c, s, sec / c.spb)] else []) + [r]
    && t.free == s.free - (if RewritesBitmap(c, s, sec) then 2 else 1)
  }

  /** What a turn of a write that is not refused does with the longest span it can. */
  ghost predicate WriteDone(c: Config, s: Vhd, t: Vhd, wid: nat, sec: nat, k: nat) {
    var b := sec / c.spb;
    var place := c.bmSecs + sec % c.spb;
    if b !in s.bat then
      t.lock.locked && t.lock.blk == b && Joins(s, t, b, WriteOf(wid, sec, k, t.lock.off + place)) &&
      t.lock.off == if s.lock.locked then s.lock.off else s.nextDb + Gap(c, s.nextDb)
    else if Stored(c, s, sec) then WritesStraight(c, s, t, sec, WriteOf(wid, sec, k, s.bat[b] + place))
    else if Missing(c, s, sec) then Joins(s, t, b, WriteOf(wid, sec, k, s.bat[b] + place))
    else Waits(s, t, b, WriteOf(wid, sec, k, 0))
  }

  /** Whether a sector of block b is stored is known, or will be once its bitmap has been read. */
  predicate Tells(s: Vhd, b: nat) {
    b in s.batmap || (b in s.cache && !s.cache[b].reading)
  }

  /** The turn is refused as it should be, or deals with k sectors. */
  ghost predicate WriteTurned(c: Config, s: Vhd, wid: nat, sec: nat, n: pos, k: nat) {
    var (t, k', err) := WriteTurn(c, s, wid, sec, n);
    && err == WriteRefusal(c, s, sec)
    && if err != 0 then t.log == s.log && t.raw == s.raw && t.free == s.free
       else k' == k && WriteDone(c, s, t, wid, sec, k) && UsedLast(s, t, sec / c.spb)
  }

  /** The write q finds the bitmap of b as it was, up to what else waits in its transaction. */
  lemma JoinExact(s: Vhd, t: Vhd, b: nat, q: Req)
    requires b in t.cache && t.log == s.log && t.raw == s.raw && t.free == s.free - 1
    requires var (bm, was) := (t.cache[b], BitmapOf(s, b));
             && bm.tx.error == was.tx.error && bm.tx.closed == was.tx.closed
             && bm.tx.reqs == was.tx.reqs && bm.queue == was.queue
    ensures var u := Put(t, JoinTx(At(t, b), q));
            Joins(s, u, b, q) && u.lock == t.lock && u.lru == t.lru && u.cache[b].seqno == t.cache[b].seqno
  {
  }

  /** A write of a block without extent is refused only with its allocation, or for want of
      a request. */
  lemma WriteNew(c: Config, s: Vhd, wid: nat, sec: nat, n: nat)
    requires 0 < n && sec / c.spb !in s.bat && sec / c.spb <= c.maxBat
    requires s.lock.locked ==> s.lock.blk in s.cache
    ensures WriteTurned(c, s, wid, sec, n, ToBlockEnd(c, sec, n))
  {
    var b := sec / c.spb;
    if !s.lock.locked || s.lock.blk == b {
      NewScheduled(c, s, wid, sec, n);
      hide WriteTurn;
      ScheduledExact(c, s, Piece(true, wid, sec, ToBlockEnd(c, sec, n)));
    }
  }

  lemma ScheduledExact(c: Config, s: Vhd, r: Req)
    requires r == WriteOf(r.wid, r.sec, r.secs, 0) && r.sec / c.spb !in s.bat && r.sec / c.spb <= c.maxBat
    requires s.lock.locked ==> s.lock.blk == r.sec / c.spb && s.lock.blk in s.cache
    ensures var (t, k, err) := Scheduled(c, s, r);
            && err == WriteRefusal(c, s, r.sec) && k == r.secs
            && if err != 0 then t.log == s.log && t.raw == s.raw && t.free == s.free
               else WriteDone(c, s, t, r.wid, r.sec, k)
  {
    hide Allocation;
    hide AllocationRefusal;
    hide Gap;
    hide JoinTx;
    hide Put;
    hide At;
    hide Joins;
    var b := r.sec / c.spb;
    AllocationExact(c, s, b);
    var (s1, err) := Allocation(c, s, b);
    if err == 0 && s1.free > 0 {
      JoinExact(s, s1.(free := s1.free - 1), b, r.(addr := s1.lock.off + c.bmSecs + r.sec % c.spb));
    }
  }

  /** schedule_data_write for a block without extent. */
  ghost function Scheduled(c: Config, s: Vhd, r: Req): (Vhd, nat, int) {
    var (s1, err) := Allocation(c, s, r.sec / c.spb);
    var (s2, err') := if err != 0 then (s1, err) else Joined(c, s1, r, s1.lock.off);
    (s2, r.secs, err')
  }

  /** The part of schedule_data_write that takes a request and joins the transaction. */
  ghost function Joined(c: Config, s: Vhd, r: Req, off: nat): (Vhd, int) {
    var b := r.sec / c.spb;
    var t := s.(free := if s.free == 0 then 0 else s.free - 1);
    if s.free == 0 then (s, EBUSY)
    else if b !in s.cache then (Check(t, false), 0)
    else (Put(t, JoinTx(At(t, b), r.(addr := off + c.bmSecs + r.sec % c.spb))), 0)
  }

  lemma NewScheduled(c: Config, s: Vhd, wid: nat, sec: nat, n: nat)
    requires 0 < n && sec / c.spb !in s.bat && sec / c.spb <= c.maxBat
    requires !s.lock.locked || s.lock.blk == sec / c.spb
    ensures WriteTurn(c, s, wid, sec, n) == Scheduled(c, s, Piece(true, wid, sec, ToBlockEnd(c, sec, n)))
  {
    hide AllocateBlock;
    hide UpdateBat;
    hide JoinTx;
    hide Put;
    hide At;
  }

  /** A write of sectors whose bits are known is refused only for want of a request. */
  lemma WriteStored(c: Config, s: Vhd, wid: nat, sec: nat, n: nat)
    requires 0 < n && sec / c.spb <= c.maxBat && Stored(c, s, sec)
    ensures WriteTurned(c, s, wid, sec, n, Span(c, s, sec, n, true))
  {
    hide RunLength;
    hide NoBitmap;
    hide JoinTx;
    hide Joins;
  }

  lemma WriteClear(c: Config, s: Vhd, wid: nat, sec: nat, n: nat)
    requires 0 < n && sec / c.spb in s.bat && sec / c.spb <= c.maxBat && Missing(c, s, sec)
    ensures WriteTurned(c, s, wid, sec, n, Span(c, s, sec, n, false))
  {
    hide RunLength;
    hide NoBitmap;
    hide JoinTx;
    hide Put;
    hide At;
    hide Joins;
    var b := sec / c.spb;
    var k := Span(c, s, sec, n, false);
    if s.free > 0 {
      var s1 := Touch(s, b);
      JoinExact(s, s1.(free := s1.free - 1), b, WriteOf(wid, sec, k, s.bat[b] + c.bmSecs + sec % c.spb));
    }
  }

  /** A write of sectors whose bits are not known waits for them. */
  lemma WriteUntold(c: Config, s: Vhd, wid: nat, sec: nat, n: nat)
    requires 0 < n && sec / c.spb in s.bat && sec / c.spb <= c.maxBat && !Tells(s, sec / c.spb)
    ensures WriteTurned(c, s, wid, sec, n, ToBlockEnd(c, sec, n))
  {
    hide InstallBitmap;
    hide Oldest;
    var b := sec / c.spb;
    if b !in s.cache {
      assert Check(s, true) == s;
      InstallExact(c, s, b, ReadingBitmap);
    }
  }

  /** A turn of a write is refused just if the sector lies beyond the BAT; if its block has no
      extent and cannot be given one; or if no request is free, or the bitmap has to be read and
      none can be had for it. Then nothing is answered, submitted or queued. Else the longest span
      of its kind goes to its place in the file, into a transaction, or waits for its bitmap. */
  lemma WriteExact(c: Config, s: Vhd, wid: nat, sec: nat, n: nat)
    requires 0 < n && (s.lock.locked ==> s.lock.blk in s.cache)
    ensures var (t, k, err) := WriteTurn(c, s, wid, sec, n);
            && err == WriteRefusal(c, s, sec)
            && (err != 0 ==> t.log == s.log && t.raw == s.raw && t.free == s.free)
            && (err == 0 ==> Longest(c, s, sec, n, k) && WriteDone(c, s, t, wid, sec, k))
            && (err == 0 ==> UsedLast(s, t, sec / c.spb))
  {
    hide RunLength;
    hide WriteDone;
    hide Longest;
    var b := sec / c.spb;
    if b > c.maxBat {
    } else if b !in s.bat {
      hide WriteTurn;
      WriteNew(c, s, wid, sec, n);
      CutLongest(c, s, sec, n);
    } else if !Tells(s, b) {
      hide WriteTurn;
      WriteUntold(c, s, wid, sec, n);
      CutLongest(c, s, sec, n);
    } else {
      hide WriteTurn;
      if Stored(c, s, sec) { WriteStored(c, s, wid, sec, n); } else { WriteClear(c, s, wid, sec, n); }
      if b in s.batmap { CutLongest(c, s, sec, n); } else { RunLongest(c, s, sec, n); }
    }
  }
}
