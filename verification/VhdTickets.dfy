/** The reads that a driver holds, parked until a bitmap is there or on their way to the
    file, one by one: each turn of a read that does not forward its span adds one, and no
    other step of the driver but a completion takes one away. */
module VhdTickets {
  import opened VhdTypes
  import opened VhdEngine
  import opened VhdInvariants
  import opened VhdStructure
  import opened VhdSafety
  import opened VhdAccounting
  import opened VhdDisk
  import opened VhdDurability
  import opened VhdServing
  import opened VhdTheorems
  import opened VhdChain
  import Lists = VhdStill

  /** A read on a driver's lists: the driver's number of the request, and the sectors. */
  datatype Key = Key(wid: nat, sec: nat, secs: nat)

  predicate Is(r: Req, k: Key) { r.op == OpRead && r.wid == k.wid && r.sec == k.sec && r.secs == k.secs }

  ghost function Count(rs: seq<Req>, k: Key): nat {
    if rs == [] then 0 else Count(rs[..|rs| - 1], k) + if Is(rs[|rs| - 1], k) then 1 else 0
  }

  function WaitingOf(s: Vhd, b: nat): seq<Req> { if b in s.cache then s.cache[b].waiting else [] }

  /** How often the driver holds read k. */
  ghost function Reads(c: Config, s: Vhd, k: Key): nat { Count(s.raw, k) + Count(WaitingOf(s, k.sec / c.spb), k) }

  lemma {:induction false} CountAdd(a: seq<Req>, b: seq<Req>, k: Key)
    ensures Count(a + b, k) == Count(a, k) + Count(b, k)
  {
    if b == [] {
      assert a + b == a;
    } else {
      CountAdd(a, b[..|b| - 1], k);
      assert (a + b)[..|a + b| - 1] == a + b[..|b| - 1];
    }
  }

  lemma {:induction false} CountOne(r: Req, k: Key)
    ensures Count([r], k) == if Is(r, k) then 1 else 0
  {
    assert [r][..0] == [];
  }

  lemma {:induction false} CountSnoc(rs: seq<Req>, r: Req, k: Key)
    ensures Count(rs + [r], k) == Count(rs, k) + if Is(r, k) then 1 else 0
  {
    CountAdd(rs, [r], k);
    CountOne(r, k);
  }

  lemma {:induction false} CountAt(rs: seq<Req>, i: nat, k: Key)
    requires i < |rs|
    ensures Count(rs, k) == Count(rs[..i] + rs[i + 1..], k) + if Is(rs[i], k) then 1 else 0
  {
    CountAdd(rs[..i], rs[i + 1..], k);
    CountAdd(rs[..i] + [rs[i]], rs[i + 1..], k);
    CountSnoc(rs[..i], rs[i], k);
    assert rs == rs[..i] + [rs[i]] + rs[i + 1..];
  }

  lemma CountMark(rs: seq<Req>, i: nat, r: Req, k: Key)
    requires i < |rs| && r.op == rs[i].op && r.wid == rs[i].wid && r.sec == rs[i].sec && r.secs == rs[i].secs
    ensures Count(rs[i := r], k) == Count(rs, k)
  {
    CountAt(rs, i, k);
    CountAt(rs[i := r], i, k);
    assert rs[i := r][..i] + rs[i := r][i + 1..] == rs[..i] + rs[i + 1..];
  }

  /* ---- steps that neither add nor take away a read ---- */

  /** Lists that differ at their end, and there by writes. */
  predicate SameReadsOn(rs: seq<Req>, rs': seq<Req>) {
    |rs| <= |rs'| && rs'[..|rs|] == rs && forall i :: |rs| <= i < |rs'| ==> rs'[i].op != OpRead
  }

  ghost predicate SameHeld(s: Vhd, t: Vhd) {
    SameReadsOn(s.raw, t.raw) && forall b :: SameReadsOn(WaitingOf(s, b), WaitingOf(t, b))
  }

  lemma {:induction false} SameCount(rs: seq<Req>, rs': seq<Req>, k: Key)
    requires SameReadsOn(rs, rs')
    ensures Count(rs', k) == Count(rs, k)
    decreases |rs'|
  {
    if |rs'| == |rs| {
      assert rs' == rs;
    } else {
      var init := rs'[..|rs'| - 1];
      assert init[..|rs|] == rs'[..|rs|];
      SameCount(rs, init, k);
    }
  }

  lemma HeldReads(c: Config, s: Vhd, t: Vhd, k: Key)
    requires SameHeld(s, t)
    ensures Reads(c, t, k) == Reads(c, s, k)
  {
    SameCount(s.raw, t.raw, k);
    SameCount(WaitingOf(s, k.sec / c.spb), WaitingOf(t, k.sec / c.spb), k);
  }

  lemma SameOnTrans(a: seq<Req>, b: seq<Req>, d: seq<Req>)
    requires SameReadsOn(a, b) && SameReadsOn(b, d)
    ensures SameReadsOn(a, d)
  {
    assert d[..|a|] == b[..|a|];
    assert forall i :: 0 <= i < |b| ==> d[i] == b[i];
  }

  lemma HeldTrans(r: Vhd, s: Vhd, t: Vhd)
    requires SameHeld(r, s) && SameHeld(s, t)
    ensures SameHeld(r, t)
  {
    hide SameReadsOn;
    SameOnTrans(r.raw, s.raw, t.raw);
    forall b ensures SameReadsOn(WaitingOf(r, b), WaitingOf(t, b)) {
      SameOnTrans(WaitingOf(r, b), WaitingOf(s, b), WaitingOf(t, b));
    }
  }

  lemma SameOn(rs: seq<Req>)
    ensures SameReadsOn(rs, rs)
  {
  }

  lemma HeldSame(s: Vhd, t: Vhd)
    requires t.raw == s.raw && forall b :: WaitingOf(t, b) == WaitingOf(s, b)
    ensures SameHeld(s, t)
  {
  }

  lemma TouchHeld(c: Config, s: Vhd, sec: nat, write: bool)
    ensures SameHeld(s, ReadBitmapCache(c, s, sec, write).0)
  {
    hide SameHeld;
    HeldSame(s, ReadBitmapCache(c, s, sec, write).0);
  }

  lemma InstallHeld(c: Config, s: Vhd, b: nat, bm: Bm, pool: nat)
    requires b !in s.cache && Blank(bm) && Structure(c, s, pool)
    ensures SameHeld(s, InstallBitmap(c, s, b, bm).0)
  {
    hide Structure;
    hide SameHeld;
    hide IsVictim;
    var (t, err) := InstallBitmap(c, s, b, bm);
    if s.bmFree == 0 && err == 0 {
      var v := Evicted(c, s, b, bm, pool);
      hide InstallBitmap;
      HeldSame(s, t);
    } else {
      HeldSame(s, t);
    }
  }

  lemma LockHeld(c: Config, s: Vhd, b: nat)
    requires b in s.cache
    ensures SameHeld(s, ReserveAndZero(c, s, b)) && SameHeld(s, LockAndWriteBat(s, b))
  {
    hide SameHeld;
    HeldSame(s, ReserveAndZero(c, s, b));
    HeldSame(s, LockAndWriteBat(s, b));
  }

  lemma AllocationHeld(c: Config, s: Vhd, b: nat, pool: nat)
    requires b !in s.bat && (s.lock.locked ==> s.lock.blk == b) && Structure(c, s, pool)
    ensures var t := (if c.prealloc then AllocateBlock(c, s, b) else UpdateBat(c, s, b)).0; SameHeld(s, t)
  {
    hide Structure;
    hide SameHeld;
    hide InstallBitmap;
    hide ReserveAndZero;
    hide LockAndWriteBat;
    var t := (if c.prealloc then AllocateBlock(c, s, b) else UpdateBat(c, s, b)).0;
    assert Check(s, true) == s;
    if s.lock.locked {
      HeldSame(s, t);
    } else {
      var s1 := if c.prealloc then ExtentTaken(c, s, b) else s;
      if c.prealloc { ExtentTakenOk(c, s, b, pool); }
      HeldSame(s, s1);
      if b !in s1.cache { InstallHeld(c, s1, b, InitBm, pool); } else { HeldSame(s1, s1); }
      var (s2, err) := EmptyBitmap(c, s1, b);
      HeldTrans(s, s1, s2);
      if err == 0 && (c.prealloc ==> c.sync(|s.log|) == 0) {
        LockHeld(c, s2, b);
        HeldTrans(s, s2, t);
      }
    }
  }

  lemma JoinHeld(s: Vhd, b: nat, q: Req)
    requires b in s.cache
    ensures SameHeld(s, Put(s, JoinTx(At(s, b), q)))
  {
    hide SameHeld;
    HeldSame(s, Put(s, JoinTx(At(s, b), q)));
  }

  lemma PlainHeld(c: Config, s: Vhd, q: Req)
    requires q.op == OpWrite
    ensures SameHeld(s, PlainWrite(c, s, q))
  {
  }

  lemma DataWriteHeld(c: Config, s: Vhd, r: Req, updBat: bool, updBitmap: bool, pool: nat)
    requires updBat ==> r.sec / c.spb !in s.bat && (s.lock.locked ==> s.lock.blk == r.sec / c.spb)
    requires Structure(c, s, pool)
    ensures SameHeld(s, ScheduleDataWrite(c, s, r, updBat, updBitmap).0)
  {
    hide Structure;
    hide SameHeld;
    hide AllocateBlock;
    hide UpdateBat;
    hide JoinTx;
    hide Put;
    hide At;
    hide PlainWrite;
    var b := r.sec / c.spb;
    HeldSame(s, s);
    if updBat { AllocationHeld(c, s, b, pool); }
    var (s1, err) := if !updBat then (s, 0) else if c.prealloc then AllocateBlock(c, s, b) else UpdateBat(c, s, b);
    if err == 0 && s1.free > 0 {
      var s2 := s1.(free := s1.free - 1);
      HeldSame(s1, s2);
      HeldTrans(s, s1, s2);
      var q := r.(op := OpWrite, addr := (if updBat then s1.lock.off else BatEntry(s, b)) + c.bmSecs + r.sec % c.spb);
      PlainHeld(c, s2, q);
      if b in s2.cache { JoinHeld(s2, b, q); }
      HeldSame(s2, Check(s2, false));
      HeldTrans(s, s2, ScheduleDataWrite(c, s, r, updBat, updBitmap).0);
    }
  }

  lemma QueueHeld(c: Config, s: Vhd, r: Req)
    requires r.op == OpWrite
    ensures SameHeld(s, QueueRequest(c, s, r).0)
  {
    var (t, b) := (QueueRequest(c, s, r).0, r.sec / c.spb);
    forall x ensures SameReadsOn(WaitingOf(s, x), WaitingOf(t, x)) {
    }
  }

  lemma ReadBitmapHeld(c: Config, s: Vhd, b: nat, pool: nat)
    requires b in s.bat && b !in s.cache && Structure(c, s, pool)
    ensures SameHeld(s, ScheduleBitmapRead(c, s, b).0)
  {
    hide Structure;
    hide SameHeld;
    hide InstallBitmap;
    assert Check(s, true) == s;
    InstallHeld(c, s, b, InitBm.(reading := true, locked := true), pool);
  }

  lemma WriteTurnHeld(c: Config, s: Vhd, wid: nat, sec: nat, n: nat, pool: nat)
    requires 0 < n && Structure(c, s, pool)
    ensures SameHeld(s, WriteTurn(c, s, wid, sec, n).0)
  {
    hide Structure;
    hide SameHeld;
    hide QueueRequest;
    hide ScheduleBitmapRead;
    hide ScheduleDataWrite;
    var (s1, hit) := ReadBitmapCache(c, s, sec, true);
    var t := WriteTurn(c, s, wid, sec, n).0;
    ReadBitmapCacheOk(c, s, sec, true, pool);
    TouchHeld(c, s, sec, true);
    var r := Piece(true, wid, sec, ToBlockEnd(c, sec, n));
    HeldSame(s1, s1);
    match hit
    case BatClear => DataWriteHeld(c, s1, r, true, true, pool); HeldTrans(s, s1, t);
    case BitClear =>
      DataWriteHeld(c, s1, Piece(true, wid, sec, Span(c, s1, sec, n, false)), false, true, pool);
      HeldTrans(s, s1, t);
    case BitSet =>
      DataWriteHeld(c, s1, Piece(true, wid, sec, Span(c, s1, sec, n, true)), false, false, pool);
      HeldTrans(s, s1, t);
    case NotCached =>
      ReadBitmapHeld(c, s1, sec / c.spb, pool);
      var s2 := ScheduleBitmapRead(c, s1, sec / c.spb).0;
      QueueHeld(c, s2, r);
      HeldTrans(s, s1, s2);
      if t != s2 { HeldTrans(s, s2, t); }
    case ReadPending => QueueHeld(c, s1, r); HeldTrans(s, s1, t);
    case _ =>
  }

  lemma {:induction false} WriteHeld(c: Config, s: Vhd, wid: nat, sec: nat, n: nat, pool: nat)
    requires Structure(c, s, pool)
    ensures SameHeld(s, Serve(c, s, true, wid, sec, n))
    decreases n
  {
    hide Structure;
    hide SameHeld;
    hide WriteTurn;
    hide ReadTurn;
    if n == 0 {
      HeldSame(s, s);
    } else {
      WriteTurnHeld(c, s, wid, sec, n, pool);
      TurnOk(c, s, true, wid, sec, n, pool);
      var (s1, k, err) := Turn(c, s, true, wid, sec, n);
      var t := Serve(c, s, true, wid, sec, n);
      if err != 0 { HeldSame(s1, t); } else { WriteHeld(c, s1, wid, sec + k, n - k, pool); }
      HeldTrans(s, s1, t);
    }
  }

  /* ---- steps of a driver ---- */

  /** A step that is neither a read request nor a completion that concerns reads. */
  predicate Plain(s: Vhd, step: Step)
    requires Enabled(s, step)
  {
    match step
    case Request(write, _, _) => write
    case DoneOther(i, _) => s.raw[i].op != OpRead
    case DoneBitmapRead(_, _) => false
    case _ => true
  }

  lemma PutHeld(s: Vhd, s1: Vhd, k: Blk)
    requires k.b in s.cache && k.bm.waiting == s.cache[k.b].waiting && s1.cache == s.cache && s1.raw == s.raw
    ensures SameHeld(s, Put(s1, k))
  {
    hide SameHeld;
    HeldSame(s, Put(s1, k));
  }

  lemma TxDoneHeld(c: Config, s: Vhd, b: nat, i: nat, err: int)
    requires b in s.cache && i < |s.cache[b].tx.reqs|
    ensures SameHeld(s, FinishTxWrite(c, s, b, i, err))
  {
    hide SameHeld;
    hide FinishDataTxIfCompleted;
    TxWriteDoneStays(c, At(s, b), i, err);
    Lists.IfCompletedSpares(c, TxWriteMark(c, At(s, b), i, err), 0);
    PutHeld(s, Sync(s, s.cache[b].tx.reqs[i], err), TxWriteDone(c, At(s, b), i, err));
  }

  lemma BitmapDoneHeld(c: Config, s: Vhd, b: nat, err: int)
    requires b in s.cache
    ensures SameHeld(s, FinishBitmapWrite(c, s, b, err))
  {
    hide SameHeld;
    hide FinishBitmapTx;
    var k := At(s, b);
    BitmapWrittenStays(c, k, err);
    Lists.FinishBitmapTxSpares(c,
      Assert(k, k.bm.tx.closed && !k.bm.reading && k.bm.write != Idle).(bm := k.bm.(write := Idle)), err, 0);
    PutHeld(s, s, BitmapWritten(c, k, err));
  }

  lemma ZeroDoneHeld(c: Config, s: Vhd, err: int, pool: nat)
    requires Structure(c, s, pool) && s.meta.zero != Idle
    ensures SameHeld(s, FinishZeroBmWrite(c, s, err))
  {
    HolderIn(c, s, pool);
    hide Structure;
    hide SameHeld;
    hide ZeroWritten;
    var s1 := AfterZeroWrite(s, err);
    var k := At(s1, s.lock.blk);
    ZeroWrittenStays(c, k, err);
    ZeroWaiting(c, k, err);
    PutHeld(s, s1, ZeroWritten(c, k, err));
    HeldSame(Put(s1, ZeroWritten(c, k, err)), FinishZeroBmWrite(c, s, err));
    HeldTrans(s, Put(s1, ZeroWritten(c, k, err)), FinishZeroBmWrite(c, s, err));
  }

  lemma ZeroWaiting(c: Config, k: Blk, err: int)
    ensures ZeroWritten(c, k, err).bm.waiting == k.bm.waiting
  {
    hide FinishDataTxIfCompleted;
    Lists.IfCompletedSpares(c, ZeroMark(k, err), 0);
  }

  lemma BatDoneHeld(c: Config, s: Vhd, err: int, pool: nat)
    requires Structure(c, s, pool) && s.meta.bat != Idle
    ensures SameHeld(s, FinishBatWrite(c, s, err))
  {
    HolderIn(c, s, pool);
    hide Structure;
    hide SameHeld;
    hide BatWritten;
    var s1 := AfterBat(c, s, err);
    var k := At(s1, s.lock.blk);
    BatWrittenStays(c, k, err);
    Lists.BatWrittenSpares(c, k, err, 0);
    PutHeld(s, s1, BatWritten(c, k, err));
    HeldSame(Put(s1, BatWritten(c, k, err)), FinishBatWrite(c, s, err));
    HeldTrans(s, Put(s1, BatWritten(c, k, err)), FinishBatWrite(c, s, err));
  }

  lemma DoneHeld(c: Config, s: Vhd, step: Step, pool: nat)
    requires Structure(c, s, pool) && Enabled(s, step)
    requires step.DoneTx? || step.DoneQueue? || step.DoneBitmapWrite? || step.DoneZero? || step.DoneBat?
    ensures SameHeld(s, Next(c, s, step))
  {
    hide Structure;
    hide SameHeld;
    hide FinishTxWrite;
    hide FinishBitmapWrite;
    hide FinishZeroBmWrite;
    hide FinishBatWrite;
    match step
    case DoneTx(b, i, err) => TxDoneHeld(c, s, b, i, err);
    case DoneQueue(b, i, err) => PutHeld(s, Sync(s, s.cache[b].queue[i], err), QueuedWriteDone(At(s, b), i, err));
    case DoneBitmapWrite(b, err) => BitmapDoneHeld(c, s, b, err);
    case DoneZero(err) => ZeroDoneHeld(c, s, err, pool);
    case DoneBat(err) => BatDoneHeld(c, s, err, pool);
  }

  lemma HolderIn(c: Config, s: Vhd, pool: nat)
    requires Structure(c, s, pool) && (s.meta.zero != Idle || s.meta.bat != Idle)
    ensures s.lock.blk in s.cache && (s.meta.zero != Idle ==> s.meta.zeroBlk == s.lock.blk)
  {
  }

  lemma LandHeld(c: Config, s: Vhd, step: Step)
    requires Enabled(s, step)
    requires step.LandTx? || step.LandQueue? || step.LandBitmap? || step.LandZero? || step.LandBat?
    ensures SameHeld(s, Next(c, s, step))
  {
    hide SameHeld;
    HeldSame(s, Next(c, s, step));
  }

  lemma RequestHeld(c: Config, s: Vhd, sec: nat, n: nat, pool: nat)
    requires Structure(c, s, pool)
    ensures SameHeld(s, Next(c, s, Request(true, sec, n)))
  {
    hide Structure;
    hide SameHeld;
    hide Serve;
    var s1 := Emit(s, Issue(true, sec, n));
    MediaIrrelevant(c, s, s1, pool);
    WriteHeld(c, s1, |s.log|, sec, n, pool);
    HeldSame(s, s1);
    HeldTrans(s, s1, Next(c, s, Request(true, sec, n)));
  }

  /** Other steps neither bring the driver a read nor take one from it. */
  lemma PlainReads(c: Config, s: Vhd, step: Step, pool: nat, k: Key)
    requires Structure(c, s, pool) && Enabled(s, step) && Plain(s, step)
    ensures Reads(c, Next(c, s, step), k) == Reads(c, s, k)
  {
    hide Structure;
    hide SameHeld;
    match step
    case LandOther(i) => CountMark(s.raw, i, LandRaw(c, s, i).raw[i], k);
    case DoneOther(i, err) => DoneReads(c, s, i, err, k);
    case Request(write, sec, n) =>
      hide Next;
      RequestHeld(c, s, sec, n, pool);
      HeldReads(c, s, Next(c, s, step), k);
    case DoneTx(_, _, _) => hide Next; DoneHeld(c, s, step, pool); HeldReads(c, s, Next(c, s, step), k);
    case DoneQueue(_, _, _) => hide Next; DoneHeld(c, s, step, pool); HeldReads(c, s, Next(c, s, step), k);
    case DoneBitmapWrite(_, _) => hide Next; DoneHeld(c, s, step, pool); HeldReads(c, s, Next(c, s, step), k);
    case DoneZero(_) => hide Next; DoneHeld(c, s, step, pool); HeldReads(c, s, Next(c, s, step), k);
    case DoneBat(_) => hide Next; DoneHeld(c, s, step, pool); HeldReads(c, s, Next(c, s, step), k);
    case _ => hide Next; LandHeld(c, s, step); HeldReads(c, s, Next(c, s, step), k);
  }

  /** A completed read is one less. */
  lemma DoneReads(c: Config, s: Vhd, i: nat, err: int, k: Key)
    requires i < |s.raw|
    ensures Reads(c, s, k) == Reads(c, FinishRaw(s, i, err), k) + if Is(s.raw[i], k) then 1 else 0
  {
    CountAt(s.raw, i, k);
  }

  /* ---- a turn of a read ---- */

  lemma QueueReads(c: Config, s: Vhd, r: Req, k: Key)
    requires r.sec / c.spb in s.cache
    ensures var (t, err) := QueueRequest(c, s, r);
            Reads(c, t, k) == Reads(c, s, k) + if err == 0 && Is(r, k) then 1 else 0
  {
    CountSnoc(s.cache[r.sec / c.spb].waiting, r, k);
  }

  lemma DataReads(c: Config, s: Vhd, r: Req, k: Key)
    requires r.op == OpRead
    ensures var (t, err) := ScheduleDataRead(c, s, r);
            Reads(c, t, k) == Reads(c, s, k) + if err == 0 && Is(r, k) then 1 else 0
  {
    var b := r.sec / c.spb;
    CountSnoc(s.raw, r.(op := OpRead, addr := BatEntry(s, b) + c.bmSecs + r.sec % c.spb), k);
  }

  /** The span of a turn that does not forward it is one read more. */
  lemma TurnReads(c: Config, s: Vhd, wid: nat, sec: nat, n: nat, pool: nat, k: Key)
    requires 0 < n && Structure(c, s, pool)
    ensures var (t, m, err) := ReadTurn(c, s, wid, sec, n);
            Reads(c, t, k) == Reads(c, s, k) +
              if err == 0 && !Forwards(c, s, sec) && k == Key(wid, sec, m) then 1 else 0
  {
    hide Structure;
    hide SameHeld;
    hide Reads;
    hide QueueRequest;
    hide ScheduleBitmapRead;
    hide ScheduleDataRead;
    var (s1, hit) := ReadBitmapCache(c, s, sec, false);
    ReadBitmapCacheOk(c, s, sec, false, pool);
    TouchHeld(c, s, sec, false);
    HeldReads(c, s, s1, k);
    var r := Piece(false, wid, sec, ToBlockEnd(c, sec, n));
    match hit
    case BatClear => EmitReads(c, s1, Forward(wid, sec, ToBlockEnd(c, sec, n)), k);
    case BitClear => EmitReads(c, s1, Forward(wid, sec, Span(c, s1, sec, n, false)), k);
    case BitSet => DataReads(c, s1, Piece(false, wid, sec, Span(c, s1, sec, n, true)), k);
    case NotCached =>
      ReadBitmapHeld(c, s1, sec / c.spb, pool);
      var s2 := ScheduleBitmapRead(c, s1, sec / c.spb).0;
      HeldReads(c, s1, s2, k);
      if ScheduleBitmapRead(c, s1, sec / c.spb).1 == 0 { QueueReads(c, s2, r, k); }
    case ReadPending => QueueReads(c, s1, r, k);
    case _ =>
  }

  lemma EmitReads(c: Config, s: Vhd, e: Ev, k: Key)
    ensures Reads(c, Emit(s, e), k) == Reads(c, s, k)
  {
  }

  /* ---- one read for one piece ---- */

  lemma {:induction false} CountCovers(rs: seq<Req>, k: Key)
    requires k.secs > 0
    ensures Count(rs, k) <= CountReqs(rs, k.wid, k.sec) && Count(rs, k) <= CountRaw(rs, k.wid, k.sec)
  {
    if rs != [] { CountCovers(rs[..|rs| - 1], k); }
  }

  /** No read is on a driver's lists twice. */
  lemma ReadsOnce(c: Config, s: Vhd, k: Key)
    requires AtMost(c, s) && k.secs > 0
    ensures Reads(c, s, k) <= 1
  {
    CountCovers(s.raw, k);
    CountCovers(WaitingOf(s, k.sec / c.spb), k);
    assert Total(c, s, k.wid, k.sec) <= 1;
  }

  lemma {:induction false} CountHas(rs: seq<Req>, r: Req, k: Key)
    requires r in rs && Is(r, k)
    ensures Count(rs, k) > 0
  {
    if r != rs[|rs| - 1] { CountHas(rs[..|rs| - 1], r, k); }
  }
}
