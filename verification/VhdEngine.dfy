/** The VHD driver as functions from state to state, one for each function of
    drivers/block-vhd.c. An ASSERT that fails sets `panicked`. */
module VhdEngine {
  import opened Arithmetic
  import opened VhdTypes

  /* ---- lookups ---- */

  function BatEntry(s: Vhd, b: nat): nat {
    if b in s.bat then s.bat[b] else DD_BLK_UNUSED
  }

  function Check(s: Vhd, ok: bool): Vhd {
    s.(panicked := s.panicked || !ok)
  }

  function PutBm(s: Vhd, b: nat, bm: Bm): Vhd {
    s.(cache := s.cache[b := bm])
  }

  function Touch(s: Vhd, b: nat): Vhd
    requires b in s.cache
  {
    PutBm(s, b, s.cache[b].(seqno := s.lru + 1)).(lru := s.lru + 1)
  }

  datatype Hit = OutOfRange | BatLocked | BatClear | BitClear | BitSet | NotCached | ReadPending

  function ReadBitmapCache(c: Config, s: Vhd, sec: nat, write: bool): (r: (Vhd, Hit))
  {
    var b := sec / c.spb;
    if b > c.maxBat then (s, OutOfRange)
    else if b !in s.bat then
      (s, if write && s.lock.blk != b && s.lock.locked then BatLocked else BatClear)
    else if b in s.batmap then (s, BitSet)
    else if b !in s.cache then (s, NotCached)
    else
      var s1 := Touch(s, b);
      (s1, if s.cache[b].reading then ReadPending
           else if sec % c.spb in s.cache[b].bits then BitSet else BitClear)
  }

  /** Length of the run of sectors from `off` whose bit is `value`, at most `n`
      and at most to the end of the block. */
  function RunLength(spb: pos, m: set<nat>, off: nat, n: nat, value: bool): (k: nat)
    ensures k <= n
    ensures off < spb ==> off + k <= spb
    ensures 0 < n && off < spb && ((off in m) == value) ==> 0 < k
    ensures forall i :: off <= i < off + k ==> ((i in m) == value)
    ensures k == n || off + k >= spb || (off + k in m) != value
    decreases n
  {
    if n == 0 || off >= spb || (off in m) != value then 0
    else 1 + RunLength(spb, m, off + 1, n - 1, value)
  }

  function Span(c: Config, s: Vhd, sec: nat, n: nat, value: bool): (k: nat)
    ensures k <= n && sec % c.spb + k <= c.spb
  {
    var b := sec / c.spb;
    if b in s.batmap then Min(n, c.spb - sec % c.spb)
    else if b in s.cache then RunLength(c.spb, s.cache[b].bits, sec % c.spb, n, value)
    else 0
  }

  function ToBlockEnd(c: Config, sec: nat, n: nat): (k: nat)
    ensures k <= n && sec % c.spb + k <= c.spb
    ensures 0 < n ==> 0 < k
  {
    Min(n, c.spb - sec % c.spb)
  }

  /* ---- bitmap cache ---- */

  predicate Evictable(s: Vhd, v: nat) {
    v in s.cache && !s.cache[v].locked && s.cache[v].seqno < s.lru
  }

  /** Bitmap u was used before bitmap v. Sequence numbers are not reused; the block
      number only makes the order total. */
  predicate Older(s: Vhd, u: nat, v: nat)
    requires u in s.cache && v in s.cache
  {
    s.cache[u].seqno < s.cache[v].seqno || (s.cache[u].seqno == s.cache[v].seqno && u <= v)
  }

  ghost predicate IsVictim(s: Vhd, v: nat) {
    Evictable(s, v) && forall u :: Evictable(s, u) ==> Older(s, v, u)
  }

  /** alloc_vhd_bitmap and install_bitmap: a free bitmap, or the least recently used
      unlocked one, becomes `bm` for block b. */
  ghost function InstallBitmap(c: Config, s: Vhd, b: nat, bm: Bm): (r: (Vhd, int))
    ensures r.1 == 0 ==> b in r.0.cache
  {
    if s.bmFree > 0 then (Install(c, s.(bmFree := s.bmFree - 1), b, bm), 0)
    else if exists v :: IsVictim(s, v) then
      var v :| IsVictim(s, v);
      (Install(c, Check(s.(cache := s.cache - {v}), !InUse(s.cache[v])), b, bm), 0)
    else (s, EBUSY)
  }

  function Install(c: Config, s: Vhd, b: nat, bm: Bm): Vhd {
    Check(s, b !in s.cache && |s.cache| < c.cacheSize)
      .(cache := s.cache[b := bm.(seqno := s.lru + 1)], lru := s.lru + 1)
  }

  /* ---- one block ---- */

  /** What the transaction code works on: the bitmap of block b, the BAT lock, and
      what it adds to the batmap, the request pool and the history. */
  datatype Blk = Blk(
    b: nat, alloc: bool, at: nat,   // block number, whether the BAT holds it, its BAT entry
    bm: Bm, lock: Lock, lru: nat,
    full: bool, freed: nat, out: seq<Ev>, bad: bool)
  {
    predicate Holds() { lock.locked && lock.blk == b }
  }

  function At(s: Vhd, b: nat): Blk
    requires b in s.cache
  {
    Blk(b, b in s.bat, BatEntry(s, b), s.cache[b], s.lock, s.lru, b in s.batmap, 0, [], false)
  }

  function Put(s: Vhd, k: Blk): (t: Vhd)
    ensures k.b in t.cache
  {
    s.(cache := s.cache[k.b := k.bm], lock := k.lock, lru := k.lru,
       batmap := if k.full then s.batmap + {k.b} else s.batmap,
       free := s.free + k.freed, log := s.log + k.out, panicked := s.panicked || k.bad)
  }

  function Assert(k: Blk, ok: bool): Blk { k.(bad := k.bad || !ok) }

  function AddToTx(k: Blk, r: Req): Blk {
    var tx := k.bm.tx;
    Assert(k, !tx.closed).(
      bm := k.bm.(tx := tx.(started := tx.started + 1, live := true, reqs := tx.reqs + [r])))
  }

  function AddToQueue(k: Blk, r: Req): Blk { k.(bm := k.bm.(queue := k.bm.queue + [r])) }

  function AddMetaToTx(k: Blk): Blk {
    var tx := k.bm.tx;
    Assert(k, !tx.closed).(bm := k.bm.(tx := tx.(started := tx.started + 1, live := true, meta := true)))
  }

  function LockBm(k: Blk): Blk { k.(bm := k.bm.(locked := true)) }

  function UnlockIfIdle(k: Blk): Blk {
    if InUse(k.bm) then k else k.(bm := k.bm.(locked := false))
  }

  function ScheduleBitmapWrite(k: Blk): Blk {
    Assert(k, !k.bm.reading && k.bm.write == Idle && (k.alloc || k.Holds())).(
      lru := k.lru + 1,
      bm := k.bm.(locked := true, write := Flying, wAddr := if k.alloc then k.at else k.lock.off, seqno := k.lru + 1))
  }

  function DoneEv(r: Req, error: int): Ev {
    Done(r.op == OpWrite, r.wid, r.sec, r.secs, if error != 0 then error else r.err)
  }

  function DoneEvs(rs: seq<Req>, error: int): (es: seq<Ev>)
    ensures |es| == |rs|
    ensures forall i :: 0 <= i < |rs| ==> es[i] == DoneEv(rs[i], error)
  {
    seq(|rs|, i requires 0 <= i < |rs| => DoneEv(rs[i], error))
  }

  function FinishBatTx(k: Blk): Blk {
    if !k.Holds() then k
    else if k.lock.err == 0 || !k.bm.tx.live then k.(lock := InitLock)
    else k.(bm := k.bm.(tx := k.bm.tx.(closed := true)))
  }

  ghost function Full(c: Config): set<nat> { Range(0, c.spb) }

  /** bitmap_full looks at the whole bytes of the map. */
  ghost predicate BitmapFull(c: Config, m: set<nat>) { Range(0, 8 * (c.spb / 8)) <= m }

  /** The part of finish_bitmap_transaction that ends a transaction: resolve shadow
      against map, signal the writes, forget them. */
  ghost function EndTx(c: Config, k: Blk): Blk {
    var tx := k.bm.tx;
    k.(bm := if tx.error != 0 then k.bm.(shadow := k.bm.bits, tx := InitTx)
             else k.bm.(bits := k.bm.shadow, tx := InitTx),
       full := k.full || (tx.error == 0 && c.hasBatmap && BitmapFull(c, k.bm.shadow)),
       freed := k.freed + |tx.reqs|,
       out := k.out + DoneEvs(tx.reqs, tx.error))
  }

  function FinishedCount(q: seq<Req>): (n: nat)
    ensures n <= |q|
  {
    if q == [] then 0 else FinishedCount(q[..|q|-1]) + (if q[|q|-1].finished then 1 else 0)
  }

  /** Sectors of the block whose data write has finished without error. */
  ghost function Staged(spb: pos, rs: seq<Req>): set<nat> {
    set i: nat, l: nat | 0 <= i < |rs| && rs[i].finished && rs[i].err == 0 && l in ReqBits(spb, rs[i]) :: l
  }

  /** The queued writes become a transaction; those that already finished count. */
  ghost function QueueToTx(c: Config, k: Blk): Blk {
    var q := k.bm.queue;
    Assert(k, !k.bm.tx.closed).(bm := k.bm.(
      queue := [],
      tx := Tx(if k.alloc then 0 else EIO, false, |q|, FinishedCount(q), true, false, false, q),
      shadow := k.bm.shadow + Staged(c.spb, q)))
  }

  ghost function StartNewTx(c: Config, k: Blk): Blk
    decreases |k.bm.queue|, 1
  {
    if k.bm.queue == [] then k else FinishDataTxIfCompleted(c, QueueToTx(c, k))
  }

  ghost function FinishDataTxIfCompleted(c: Config, k: Blk): Blk
    decreases |k.bm.queue|, 4
  {
    if Completed(k.bm.tx) then FinishDataTx(c, k) else k
  }

  ghost function FinishBitmapTx(c: Config, k: Blk, error: int): Blk
    decreases |k.bm.queue|, 2
  {
    var tx := k.bm.tx;
    var k1 := k.(bm := k.bm.(tx := tx.(error := if tx.error != 0 then tx.error else error)));
    if !c.prealloc && tx.updateBat then
      Assert(k1, k.b == k.lock.blk && k.lock.started).(lock := k.lock.(tx := true))
    else
      FinishBatTx(UnlockIfIdle(StartNewTx(c, EndTx(c, k1))))
  }

  ghost function FinishDataTx(c: Config, k: Blk): Blk
    decreases |k.bm.queue|, 3
  {
    var k1 := k.(bm := k.bm.(tx := k.bm.tx.(closed := true)));
    if k.bm.tx.error == 0 then ScheduleBitmapWrite(k1) else FinishBitmapTx(c, k1, 0)
  }

  /** finish_bat_write, once the in-memory BAT has its new entry. */
  ghost function BatMark(c: Config, k: Blk, err: int): Blk {
    var tx := k.bm.tx.(error := if err == 0 then k.bm.tx.error else err);
    k.(bm := k.bm.(tx := if c.prealloc then tx.(finished := tx.finished + 1, meta := false)
                         else tx.(updateBat := false)))
  }

  ghost function BatWritten(c: Config, k: Blk, err: int): Blk {
    FinishBatTx(
      if c.prealloc then FinishDataTxIfCompleted(c, BatMark(c, k, err))
      else if k.lock.tx then FinishBitmapTx(c, BatMark(c, k, err), err)
      else BatMark(c, k, err))
  }

  /** finish_zero_bm_write, once the lock has been given up or the BAT write started. */
  ghost function ZeroMark(k: Blk, err: int): Blk {
    var tx := k.bm.tx.(finished := k.bm.tx.finished + 1, meta := false);
    k.(bm := k.bm.(tx := if err != 0 then tx.(error := err, updateBat := false) else tx))
  }

  ghost function ZeroWritten(c: Config, k: Blk, err: int): Blk {
    FinishDataTxIfCompleted(c, ZeroMark(k, err))
  }

  /** The write at place i of the transaction is marked finished and its sectors staged. */
  ghost function TxWriteMark(c: Config, k: Blk, i: nat, err: int): Blk
    requires i < |k.bm.tx.reqs|
  {
    var r := k.bm.tx.reqs[i].(finished := true, err := err);
    Assert(k, !k.bm.reading && k.bm.locked).(bm := k.bm.(
      tx := k.bm.tx.(finished := k.bm.tx.finished + 1, reqs := k.bm.tx.reqs[i := r]),
      shadow := if err == 0 then k.bm.shadow + ReqBits(c.spb, r) else k.bm.shadow))
  }

  /** finish_data_write for the write at place i of the transaction. */
  ghost function TxWriteDone(c: Config, k: Blk, i: nat, err: int): Blk
    requires i < |k.bm.tx.reqs|
  {
    FinishDataTxIfCompleted(c, TxWriteMark(c, k, i, err))
  }

  /** finish_data_write for the write at place i of the queue: it is only marked. */
  function QueuedWriteDone(k: Blk, i: nat, err: int): Blk
    requires i < |k.bm.queue|
  {
    k.(bm := k.bm.(queue := k.bm.queue[i := k.bm.queue[i].(finished := true, err := err)]))
  }

  ghost function BitmapWritten(c: Config, k: Blk, err: int): Blk {
    FinishBitmapTx(c,
      Assert(k, k.bm.tx.closed && !k.bm.reading && k.bm.write != Idle).(bm := k.bm.(write := Idle)), err)
  }

  /** schedule_data_write with VHD_FLAG_REQ_UPDATE_BITMAP: join the transaction, or
      wait for the next one. */
  function JoinTx(k: Blk, r: Req): Blk {
    var k1 := LockBm(Assert(k, !k.bm.reading));
    if k.bm.tx.closed then AddToQueue(k1, r) else AddToTx(k1, r)
  }

  /* ---- block allocation ---- */

  function Gap(c: Config, next: nat): nat {
    if (next + c.bmSecs) % c.spp != 0 then c.spp - (next + c.bmSecs) % c.spp else 0
  }

  function ScheduleBatWrite(s: Vhd): Vhd {
    var base := s.lock.blk - s.lock.blk % 128;
    Check(s, s.lock.locked && s.meta.bat == Idle).(
      meta := s.meta.(bat := Flying, batBase := base,
        batBuf := (map b | b in s.bat && base <= b < base + 128 :: s.bat[b])[s.lock.blk := s.lock.off]),
      lock := s.lock.(started := true, err := 0, tx := false))
  }

  /** The bitmap of a block about to be allocated: it may be cached from an earlier
      failed attempt. */
  ghost function EmptyBitmap(c: Config, s: Vhd, b: nat): (r: (Vhd, int))
    ensures r.1 == 0 ==> b in r.0.cache
  {
    if b in s.cache then (s, 0) else InstallBitmap(c, s, b, InitBm)
  }

  /** Takes the lock for block b, reserves the next extent and zeroes its bitmap. */
  ghost function ReserveAndZero(c: Config, s: Vhd, b: nat): Vhd
    requires b in s.cache
  {
    var gap := Gap(c, s.nextDb);
    var s1 := Check(s, !s.lock.started && s.meta.zero == Idle).(
      lock := s.lock.(locked := true, blk := b, off := s.nextDb + gap),
      meta := s.meta.(zero := Flying, zeroBlk := b, zeroAt := s.nextDb, zeroLen := gap + c.bmSecs));
    var k := AddMetaToTx(LockBm(At(s1, b)));
    Put(s1, k.(bm := k.bm.(tx := k.bm.tx.(updateBat := true))))
  }

  ghost function UpdateBat(c: Config, s: Vhd, b: nat): (Vhd, int) {
    var s0 := Check(s, b !in s.bat);
    if s.lock.locked then (Check(s0, s.lock.blk == b), 0)
    else
      var (s1, err) := EmptyBitmap(c, s0, b);
      if err != 0 then (s1, err) else (ReserveAndZero(c, s1, b), 0)
  }

  /** Writes f(0), f(1), ... to the n sectors from `at`. */
  ghost function WriteSectors(d: Disk, at: int, n: nat, f: nat -> Sector): Disk {
    a => if at <= a < at + n then f(a - at) else d(a)
  }

  /** The synchronous write of allocate_block: gap, bitmap and data of a new extent. */
  ghost function ZeroExtent(c: Config, s: Vhd): Vhd {
    var gap := Gap(c, s.nextDb);
    s.(media := s.media.(disk := WriteSectors(s.media.disk, s.nextDb, gap + c.bmSecs + c.spb,
      i => if gap <= i < gap + c.bmSecs then Bits({}) else Zero)))
  }

  /** Takes the lock for block b and starts the BAT write. */
  ghost function LockAndWriteBat(s: Vhd, b: nat): Vhd
    requires b in s.cache
  {
    var s1 := ScheduleBatWrite(s.(lock := s.lock.(locked := true)));
    var s2 := s1.(lock := s1.lock.(tx := true));
    Put(s2, AddMetaToTx(LockBm(At(s2, b))))
  }

  ghost function AllocateBlock(c: Config, s: Vhd, b: nat): (Vhd, int) {
    var s0 := Check(s, b !in s.bat);
    if s.lock.locked then
      (Check(s0, s.lock.blk == b), if s.lock.err != 0 then EBUSY else 0)
    else
      var off := s.nextDb + Gap(c, s.nextDb);
      var err := c.sync(|s.log|);
      var s1 := (if err == 0 then ZeroExtent(c, s0) else s0).(
        nextDb := off, lock := s0.lock.(blk := b, off := off));
      if err != 0 then (s1, err)
      else
        var (s2, err') := EmptyBitmap(c, s1, b);
        if err' != 0 then (s2, err') else (LockAndWriteBat(s2, b), 0)
  }

  /* ---- scheduling ---- */

  function ScheduleDataRead(c: Config, s: Vhd, r: Req): (Vhd, int) {
    var b := r.sec / c.spb;
    var s0 := Check(s, b in s.bat && (b in s.batmap || (b in s.cache && !s.cache[b].reading)));
    if s.free == 0 then (s0, EBUSY)
    else
      var addr := BatEntry(s, b) + c.bmSecs + r.sec % c.spb;
      (s0.(free := s.free - 1, raw := s.raw + [r.(op := OpRead, addr := addr)]), 0)
  }

  /** schedule_redundant_bm_write: rewrite the page that ends with the bitmap. */
  function ScheduleRedundantBmWrite(c: Config, s: Vhd, b: nat): Vhd {
    var s0 := Check(s, b in s.batmap && b in s.bat);
    if s.free == 0 then s0
    else
      var addr := BatEntry(s, b) + c.bmSecs - c.spp;
      s0.(free := s.free - 1,
          raw := s.raw + [Req(OpPad, 0, b * c.spb, c.spp, addr, false, false, 0, [])])
  }

  /** A write that needs no bitmap update; before the first sector of a full block
      its bitmap is written again, to keep the writes sequential. */
  function PlainWrite(c: Config, s: Vhd, q: Req): Vhd {
    var b := q.sec / c.spb;
    var s1 := if q.sec % c.spb == 0 && BatEntry(s, b) != c.firstDb && b in s.batmap
              then ScheduleRedundantBmWrite(c, s, b) else s;
    s1.(raw := s1.raw + [q])
  }

  ghost function ScheduleDataWrite(c: Config, s: Vhd, r: Req, updBat: bool, updBitmap: bool): (Vhd, int) {
    var b := r.sec / c.spb;
    var (s1, err) :=
      if !updBat then (s, 0) else if c.prealloc then AllocateBlock(c, s, b) else UpdateBat(c, s, b);
    if err != 0 then (s1, err)
    else if s1.free == 0 then (s1, EBUSY)
    else
      var base := if updBat then s1.lock.off else BatEntry(s, b);
      var q := r.(op := OpWrite, addr := base + c.bmSecs + r.sec % c.spb);
      var s2 := s1.(free := s1.free - 1);
      if updBitmap then
        (if b in s2.cache then Put(s2, JoinTx(At(s2, b), q)) else Check(s2, false), 0)
      else
        (PlainWrite(c, s2, q), 0)
  }

  ghost function ScheduleBitmapRead(c: Config, s: Vhd, b: nat): (r: (Vhd, int))
    ensures r.1 == 0 ==> b in r.0.cache
  {
    InstallBitmap(c, Check(s, b in s.bat && b !in s.cache), b, InitBm.(reading := true, locked := true))
  }

  /** __vhd_queue_request: park a request until the bitmap has been read. */
  function QueueRequest(c: Config, s: Vhd, r: Req): (Vhd, int) {
    var b := r.sec / c.spb;
    var s0 := Check(s, b in s.cache && s.cache[b].reading);
    if s.free == 0 then (s0, EBUSY)
    else if b !in s.cache then (s0, 0)
    else
      var bm := s0.cache[b];
      (PutBm(s0, b, bm.(waiting := bm.waiting + [r], locked := true)).(free := s.free - 1), 0)
  }

  /* ---- guest requests ---- */

  function Emit(s: Vhd, e: Ev): Vhd { s.(log := s.log + [e]) }

  function Piece(write: bool, wid: nat, sec: nat, n: nat): Req {
    Req(if write then OpWrite else OpRead, wid, sec, n, 0, false, false, 0, [])
  }

  /** One turn of the loop of vhd_queue_read: the new state, the sectors consumed
      and the error. */
  ghost function ReadTurn(c: Config, s: Vhd, wid: nat, sec: nat, n: nat): (r: (Vhd, nat, int))
    requires 0 < n
    ensures r.2 == 0 ==> 0 < r.1 <= n
  {
    var (s1, hit) := ReadBitmapCache(c, s, sec, false);
    match hit
    case OutOfRange => (s1, 0, EINVAL)
    case BatLocked => (Check(s1, false), n, 0)
    case BatClear =>
      var k := ToBlockEnd(c, sec, n);
      (Emit(s1, Forward(wid, sec, k)), k, 0)
    case BitClear =>
      var k := Span(c, s1, sec, n, false);
      (Emit(s1, Forward(wid, sec, k)), k, 0)
    case BitSet =>
      var k := Span(c, s1, sec, n, true);
      var (s2, err) := ScheduleDataRead(c, s1, Piece(false, wid, sec, k));
      (s2, k, err)
    case NotCached =>
      var (s2, err) := ScheduleBitmapRead(c, s1, sec / c.spb);
      if err != 0 then (s2, 0, err)
      else
        var k := ToBlockEnd(c, sec, n);
        var (s3, err') := QueueRequest(c, s2, Piece(false, wid, sec, k));
        (s3, k, err')
    case ReadPending =>
      var k := ToBlockEnd(c, sec, n);
      var (s2, err) := QueueRequest(c, s1, Piece(false, wid, sec, k));
      (s2, k, err)
  }

  ghost function WriteTurn(c: Config, s: Vhd, wid: nat, sec: nat, n: nat): (r: (Vhd, nat, int))
    requires 0 < n
    ensures r.2 == 0 ==> 0 < r.1 <= n
  {
    var (s1, hit) := ReadBitmapCache(c, s, sec, true);
    match hit
    case OutOfRange => (s1, 0, EINVAL)
    case BatLocked => (s1, 0, EBUSY)
    case BatClear =>
      var k := ToBlockEnd(c, sec, n);
      var (s2, err) := ScheduleDataWrite(c, s1, Piece(true, wid, sec, k), true, true);
      (s2, k, err)
    case BitClear =>
      var k := Span(c, s1, sec, n, false);
      var (s2, err) := ScheduleDataWrite(c, s1, Piece(true, wid, sec, k), false, true);
      (s2, k, err)
    case BitSet =>
      var k := Span(c, s1, sec, n, true);
      var (s2, err) := ScheduleDataWrite(c, s1, Piece(true, wid, sec, k), false, false);
      (s2, k, err)
    case NotCached =>
      var k := ToBlockEnd(c, sec, n);
      var (s2, err) := ScheduleBitmapRead(c, s1, sec / c.spb);
      if err != 0 then (s2, 0, err)
      else
        var (s3, err') := QueueRequest(c, s2, Piece(true, wid, sec, k));
        (s3, k, err')
    case ReadPending =>
      var k := ToBlockEnd(c, sec, n);
      var (s2, err) := QueueRequest(c, s1, Piece(true, wid, sec, k));
      (s2, k, err)
  }

  ghost function Turn(c: Config, s: Vhd, write: bool, wid: nat, sec: nat, n: nat): (r: (Vhd, nat, int))
    requires 0 < n
    ensures r.2 == 0 ==> 0 < r.1 <= n
  {
    if write then WriteTurn(c, s, wid, sec, n) else ReadTurn(c, s, wid, sec, n)
  }

  /** vhd_queue_read and vhd_queue_write: serve [sec, sec + n) of guest request `wid`. */
  ghost function Serve(c: Config, s: Vhd, write: bool, wid: nat, sec: nat, n: nat): Vhd
    decreases n
  {
    if n == 0 then s
    else
      var (s1, k, err) := Turn(c, s, write, wid, sec, n);
      if err != 0 then Emit(s1, Done(write, wid, sec, n, err))
      else Serve(c, s1, write, wid, sec + k, n - k)
  }

  /* ---- completions ---- */

  ghost function FinishBatWrite(c: Config, s: Vhd, err: int): Vhd {
    var b := s.lock.blk;
    var s0 := Check(s, b in s.cache && !s.cache[b].reading && s.lock.locked && s.lock.started && s.cache[b].tx.live)
              .(meta := s.meta.(bat := Idle), lock := s.lock.(err := err));
    var s1 := if err != 0 then s0
              else s0.(bat := s0.bat[b := s.lock.off], nextDb := s.lock.off + c.spb + c.bmSecs);
    if b in s1.cache then Put(s1, BatWritten(c, At(s1, b), err)) else s1
  }

  ghost function FinishZeroBmWrite(c: Config, s: Vhd, err: int): Vhd {
    var b := s.meta.zeroBlk;
    var s0 := Check(s, s.lock.locked && s.lock.blk == b && b in s.cache && !s.cache[b].reading && s.cache[b].locked)
              .(meta := s.meta.(zero := Idle));
    var s1 := if err != 0 then s0.(lock := InitLock) else ScheduleBatWrite(s0);
    if b in s1.cache then Put(s1, ZeroWritten(c, At(s1, b), err)) else s1
  }

  /** Records which sector of the file has had a data write complete, and for which
      logical sector. */
  ghost function Sync(s: Vhd, r: Req, err: int): Vhd {
    if err != 0 then s
    else s.(media := s.media.(synced :=
      (l, a) => s.media.synced(l, a) || (r.sec <= l < r.sec + r.secs && a == r.addr + (l - r.sec))))
  }

  ghost function FinishTxWrite(c: Config, s: Vhd, b: nat, i: nat, err: int): Vhd
    requires b in s.cache && i < |s.cache[b].tx.reqs|
  {
    Put(Sync(s, s.cache[b].tx.reqs[i], err), TxWriteDone(c, At(s, b), i, err))
  }

  ghost function FinishQueuedWrite(s: Vhd, b: nat, i: nat, err: int): Vhd
    requires b in s.cache && i < |s.cache[b].queue|
  {
    Put(Sync(s, s.cache[b].queue[i], err), QueuedWriteDone(At(s, b), i, err))
  }

  ghost function FinishBitmapWrite(c: Config, s: Vhd, b: nat, err: int): Vhd
    requires b in s.cache
  {
    Put(s, BitmapWritten(c, At(s, b), err))
  }

  function SignalCompletion(s: Vhd, rs: seq<Req>, error: int): Vhd {
    s.(log := s.log + DoneEvs(rs, error), free := s.free + |rs|)
  }

  /** A data read, a write outside transactions, or a redundant bitmap write is done. */
  function FinishRaw(s: Vhd, i: nat, err: int): Vhd
    requires i < |s.raw|
  {
    var r := s.raw[i];
    var s1 := s.(raw := s.raw[..i] + s.raw[i+1..]);
    if r.op == OpPad then s1.(free := s1.free + 1)
    else SignalCompletion(s1, [r.(err := err)], 0)
  }

  /** The requests that waited for the bitmap are served again, in order. */
  ghost function Replay(c: Config, s: Vhd, rs: seq<Req>): Vhd
    decreases |rs|
  {
    if rs == [] then s
    else
      var r := rs[0];
      Replay(c, Serve(c, s.(free := s.free + 1), r.op == OpWrite, r.wid, r.sec, r.secs), rs[1..])
  }

  function BitsAt(d: Disk, off: int): set<nat> {
    if d(off).Bits? then d(off).bits else {}
  }

  /** finish_bitmap_read, before the waiting requests are served. */
  ghost function BitmapLoaded(c: Config, s: Vhd, b: nat): Vhd
    requires b in s.cache
  {
    var m := BitsAt(s.media.disk, BatEntry(s, b)) * Full(c);
    PutBm(Check(s, s.cache[b].reading), b,
      s.cache[b].(reading := false, waiting := [], bits := m, shadow := m))
  }

  ghost function UnlockCached(s: Vhd, b: nat): Vhd {
    if b in s.cache then Put(s, UnlockIfIdle(At(s, b))) else s
  }

  ghost function FinishBitmapRead(c: Config, s: Vhd, b: nat, err: int): Vhd
    requires b in s.cache
  {
    var bm := s.cache[b];
    if err == 0 then
      UnlockCached(Replay(c, BitmapLoaded(c, s, b), bm.waiting), b)
    else
      var idle := bm.(reading := false, waiting := [], locked := false);
      var s1 := Check(s, bm.reading && !InUse(idle)).(cache := s.cache - {b}, bmFree := s.bmFree + 1);
      SignalCompletion(s1, bm.waiting, err)
  }

  /* ---- the disk ---- */

  ghost function LandReq(d: Disk, r: Req): Disk {
    WriteSectors(d, r.addr, r.secs, i => Data(r.wid, r.sec + i))
  }

  ghost function LandPad(c: Config, d: Disk, r: Req): Disk {
    WriteSectors(d, r.addr, r.secs, i => if i + c.bmSecs < r.secs then Zero else Bits(Full(c)))
  }

  ghost function LandOn(s: Vhd, d: Disk): Vhd { s.(media := s.media.(disk := d)) }

  ghost function LandTxWrite(s: Vhd, b: nat, i: nat): Vhd
    requires b in s.cache && i < |s.cache[b].tx.reqs|
  {
    var bm := s.cache[b];
    var r := bm.tx.reqs[i];
    LandOn(PutBm(s, b, bm.(tx := bm.tx.(reqs := bm.tx.reqs[i := r.(landed := true)]))), LandReq(s.media.disk, r))
  }

  ghost function LandQueuedWrite(s: Vhd, b: nat, i: nat): Vhd
    requires b in s.cache && i < |s.cache[b].queue|
  {
    var bm := s.cache[b];
    var r := bm.queue[i];
    LandOn(PutBm(s, b, bm.(queue := bm.queue[i := r.(landed := true)])), LandReq(s.media.disk, r))
  }

  ghost function LandRaw(c: Config, s: Vhd, i: nat): Vhd
    requires i < |s.raw|
  {
    var r := s.raw[i];
    var got := if r.op == OpRead then seq(r.secs, k => s.media.disk(r.addr + k)) else r.got;
    LandOn(s.(raw := s.raw[i := r.(landed := true, got := got)]),
      match r.op
      case OpRead => s.media.disk
      case OpWrite => LandReq(s.media.disk, r)
      case OpPad => LandPad(c, s.media.disk, r))
  }

  /** The bitmap write takes whatever shadow holds when it reaches the disk. */
  ghost function LandBitmapWrite(c: Config, s: Vhd, b: nat): Vhd
    requires b in s.cache
  {
    var bm := s.cache[b];
    LandOn(PutBm(s, b, bm.(write := Landed)),
      WriteSectors(s.media.disk, bm.wAddr, c.bmSecs, i => Bits(bm.shadow)))
  }

  ghost function LandZeroBmWrite(c: Config, s: Vhd): Vhd {
    LandOn(s.(meta := s.meta.(zero := Landed)),
      WriteSectors(s.media.disk, s.meta.zeroAt, s.meta.zeroLen,
        i => if i + c.bmSecs < s.meta.zeroLen then Zero else Bits({})))
  }

  /** One sector of the BAT, 128 entries, is replaced. */
  ghost function LandBatWrite(s: Vhd): Vhd {
    var m := s.meta;
    s.(meta := m.(bat := Landed),
       media := s.media.(bat :=
         (map b | b in s.media.bat && !(m.batBase <= b < m.batBase + 128) :: s.media.bat[b]) + m.batBuf))
  }

  /* ---- steps ---- */

  datatype Step =
    | Request(write: bool, sec: nat, secs: nat)
    | LandTx(b: nat, i: nat) | LandQueue(b: nat, i: nat) | LandOther(i: nat)
    | LandBitmap(b: nat) | LandZero | LandBat
    | DoneTx(b: nat, i: nat, err: int) | DoneQueue(b: nat, i: nat, err: int) | DoneOther(i: nat, err: int)
    | DoneBitmapRead(b: nat, err: int) | DoneBitmapWrite(b: nat, err: int)
    | DoneZero(err: int) | DoneBat(err: int)

  /** An I/O completes with success only after it reached the disk, and with an
      error only if it did not. */
  predicate Outcome(landed: bool, err: int) { landed <==> err == 0 }

  predicate IoOutcome(io: Io, err: int) { io != Idle && Outcome(io == Landed, err) }

  predicate CanLand(r: Req) { !r.finished && !r.landed }

  predicate CanFinish(r: Req, err: int) { !r.finished && Outcome(r.landed, err) }

  predicate Enabled(s: Vhd, step: Step) {
    match step
    case Request(_, _, _) => true
    case LandTx(b, i) => b in s.cache && i < |s.cache[b].tx.reqs| && CanLand(s.cache[b].tx.reqs[i])
    case LandQueue(b, i) => b in s.cache && i < |s.cache[b].queue| && CanLand(s.cache[b].queue[i])
    case LandOther(i) => i < |s.raw| && CanLand(s.raw[i])
    case LandBitmap(b) => b in s.cache && s.cache[b].write == Flying
    case LandZero => s.meta.zero == Flying
    case LandBat => s.meta.bat == Flying
    case DoneTx(b, i, err) => b in s.cache && i < |s.cache[b].tx.reqs| && CanFinish(s.cache[b].tx.reqs[i], err)
    case DoneQueue(b, i, err) => b in s.cache && i < |s.cache[b].queue| && CanFinish(s.cache[b].queue[i], err)
    case DoneOther(i, err) => i < |s.raw| && CanFinish(s.raw[i], err)
    case DoneBitmapRead(b, err) => b in s.cache && s.cache[b].reading
    case DoneBitmapWrite(b, err) => b in s.cache && IoOutcome(s.cache[b].write, err)
    case DoneZero(err) => IoOutcome(s.meta.zero, err)
    case DoneBat(err) => IoOutcome(s.meta.bat, err)
  }

  ghost function Next(c: Config, s: Vhd, step: Step): Vhd
    requires Enabled(s, step)
  {
    match step
    case Request(write, sec, secs) => Serve(c, Emit(s, Issue(write, sec, secs)), write, |s.log|, sec, secs)
    case LandTx(b, i) => LandTxWrite(s, b, i)
    case LandQueue(b, i) => LandQueuedWrite(s, b, i)
    case LandOther(i) => LandRaw(c, s, i)
    case LandBitmap(b) => LandBitmapWrite(c, s, b)
    case LandZero => LandZeroBmWrite(c, s)
    case LandBat => LandBatWrite(s)
    case DoneTx(b, i, err) => FinishTxWrite(c, s, b, i, err)
    case DoneQueue(b, i, err) => FinishQueuedWrite(s, b, i, err)
    case DoneOther(i, err) => FinishRaw(s, i, err)
    case DoneBitmapRead(b, err) => FinishBitmapRead(c, s, b, err)
    case DoneBitmapWrite(b, err) => FinishBitmapWrite(c, s, b, err)
    case DoneZero(err) => FinishZeroBmWrite(c, s, err)
    case DoneBat(err) => FinishBatWrite(c, s, err)
  }
}
