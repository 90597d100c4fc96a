/** Every sector of every guest request is forwarded or completed exactly once: at
    any moment it is on exactly one list, or in exactly one event of the history. */
module VhdAccounting {
  import opened Arithmetic
  import opened VhdTypes
  import opened VhdEngine
  import opened VhdInvariants
  import opened VhdStructure
  import opened VhdSafety

  /** How many of the requests stand for sector l of guest request w. */
  ghost function CountReqs(rs: seq<Req>, w: nat, l: nat): nat {
    if rs == [] then 0 else CountReqs(rs[..|rs|-1], w, l) + if rs[|rs|-1].Covers(w, l) then 1 else 0
  }

  ghost function CountRaw(rs: seq<Req>, w: nat, l: nat): nat {
    if rs == [] then 0
    else CountRaw(rs[..|rs|-1], w, l) + if rs[|rs|-1].op != OpPad && rs[|rs|-1].Covers(w, l) then 1 else 0
  }

  ghost predicate Settles(e: Ev, w: nat, l: nat) {
    match e
    case Issue(_, _, _) => false
    case Done(_, wid, sec, secs, _) => wid == w && sec <= l < sec + secs
    case Forward(wid, sec, secs) => wid == w && sec <= l < sec + secs
  }

  /** How often the history completes or forwards sector l of guest request w. */
  ghost function CountEvs(es: seq<Ev>, w: nat, l: nat): nat {
    if es == [] then 0 else CountEvs(es[..|es|-1], w, l) + if Settles(es[|es|-1], w, l) then 1 else 0
  }

  ghost predicate Issued(log: seq<Ev>, w: nat, l: nat) {
    w < |log| && log[w].Issue? && log[w].sec <= l < log[w].sec + log[w].secs
  }

  ghost function CountBm(bm: Bm, w: nat, l: nat): nat {
    CountReqs(bm.tx.reqs, w, l) + CountReqs(bm.queue, w, l) + CountReqs(bm.waiting, w, l)
  }

  /** All places in which sector l of guest request w can be. */
  ghost function Total(c: Config, s: Vhd, w: nat, l: nat): nat {
    CountRaw(s.raw, w, l) + CountEvs(s.log, w, l) +
    if l / c.spb in s.cache then CountBm(s.cache[l / c.spb], w, l) else 0
  }

  ghost predicate Accounts(c: Config, s: Vhd) {
    forall w: nat, l: nat :: Total(c, s, w, l) == if Issued(s.log, w, l) then 1 else 0
  }

  /** While a request is being served, part of it is in no place yet. */
  ghost predicate AtMost(c: Config, s: Vhd) {
    forall w: nat, l: nat :: Total(c, s, w, l) <= if Issued(s.log, w, l) then 1 else 0
  }

  /* ---- counting ---- */

  lemma {:induction false} CountEvsConcat(a: seq<Ev>, b: seq<Ev>, w: nat, l: nat)
    ensures CountEvs(a + b, w, l) == CountEvs(a, w, l) + CountEvs(b, w, l)
  {
    if b == [] {
      assert a + b == a;
    } else {
      CountEvsConcat(a, b[..|b|-1], w, l);
      assert (a + b)[..|a + b|-1] == a + b[..|b|-1];
    }
  }

  lemma {:induction false} CountReqsConcat(a: seq<Req>, b: seq<Req>, w: nat, l: nat)
    ensures CountReqs(a + b, w, l) == CountReqs(a, w, l) + CountReqs(b, w, l)
  {
    if b == [] {
      assert a + b == a;
    } else {
      CountReqsConcat(a, b[..|b|-1], w, l);
      assert (a + b)[..|a + b|-1] == a + b[..|b|-1];
    }
  }

  lemma {:induction false} CountRawConcat(a: seq<Req>, b: seq<Req>, w: nat, l: nat)
    ensures CountRaw(a + b, w, l) == CountRaw(a, w, l) + CountRaw(b, w, l)
  {
    if b == [] {
      assert a + b == a;
    } else {
      CountRawConcat(a, b[..|b|-1], w, l);
      assert (a + b)[..|a + b|-1] == a + b[..|b|-1];
    }
  }

  lemma {:induction false} CountRawOne(r: Req, w: nat, l: nat)
    ensures CountRaw([r], w, l) == if r.op != OpPad && r.Covers(w, l) then 1 else 0
    ensures CountReqs([r], w, l) == if r.Covers(w, l) then 1 else 0
  {
    assert [r][..0] == [];
  }

  lemma {:induction false} CountEvOne(e: Ev, w: nat, l: nat)
    ensures CountEvs([e], w, l) == if Settles(e, w, l) then 1 else 0
  {
    assert [e][..0] == [];
  }

  /** A signalled request is settled where it was counted. */
  lemma {:induction false} CountDone(rs: seq<Req>, error: int, w: nat, l: nat)
    ensures CountEvs(DoneEvs(rs, error), w, l) == CountReqs(rs, w, l)
  {
    if rs != [] {
      var n := |rs| - 1;
      CountDone(rs[..n], error, w, l);
      assert DoneEvs(rs, error)[..n] == DoneEvs(rs[..n], error);
    }
  }

  /** Marking a request does not change what it stands for. */
  lemma {:induction false} CountReqsUpdate(rs: seq<Req>, i: nat, r: Req, w: nat, l: nat)
    requires i < |rs| && r.wid == rs[i].wid && r.sec == rs[i].sec && r.secs == rs[i].secs
    ensures CountReqs(rs[i := r], w, l) == CountReqs(rs, w, l)
  {
    var n := |rs| - 1;
    if i == n {
      assert rs[i := r][..n] == rs[..n];
    } else {
      CountReqsUpdate(rs[..n], i, r, w, l);
      assert rs[i := r][..n] == rs[..n][i := r];
    }
  }

  lemma {:induction false} NoneCovers(rs: seq<Req>, w: nat, l: nat)
    requires forall r :: r in rs ==> !r.Covers(w, l)
    ensures CountReqs(rs, w, l) == 0
  {
    if rs != [] { NoneCovers(rs[..|rs|-1], w, l); }
  }

  lemma {:induction false} OneCovers(rs: seq<Req>, i: nat, w: nat, l: nat)
    requires i < |rs| && rs[i].Covers(w, l)
    ensures CountReqs(rs, w, l) > 0
  {
    if i < |rs| - 1 { OneCovers(rs[..|rs|-1], i, w, l); }
  }

  lemma {:induction false} OneRawCovers(rs: seq<Req>, i: nat, w: nat, l: nat)
    requires i < |rs| && rs[i].op != OpPad && rs[i].Covers(w, l)
    ensures CountRaw(rs, w, l) > 0
  {
    if i < |rs| - 1 { OneRawCovers(rs[..|rs|-1], i, w, l); }
  }

  lemma {:induction false} OneSettles(es: seq<Ev>, i: nat, w: nat, l: nat)
    requires i < |es| && Settles(es[i], w, l)
    ensures CountEvs(es, w, l) > 0
  {
    if i < |es| - 1 { OneSettles(es[..|es|-1], i, w, l); }
  }

  /* ---- one block ---- */

  /** What block k still owes, with what it has just paid. */
  ghost function Owed(k: Blk, w: nat, l: nat): nat {
    CountBm(k.bm, w, l) + CountEvs(k.out, w, l)
  }

  lemma EndTxOwed(c: Config, k: Blk, w: nat, l: nat)
    ensures Owed(EndTx(c, k), w, l) == Owed(k, w, l) && EndTx(c, k).b == k.b && EndTx(c, k).bm.tx.reqs == [] &&
            EndTx(c, k).bm.queue == k.bm.queue
  {
    CountDone(k.bm.tx.reqs, k.bm.tx.error, w, l);
    CountEvsConcat(k.out, DoneEvs(k.bm.tx.reqs, k.bm.tx.error), w, l);
  }

  lemma {:induction false} StartNewTxOwed(c: Config, k: Blk, w: nat, l: nat)
    requires k.bm.tx.reqs == []
    ensures Owed(StartNewTx(c, k), w, l) == Owed(k, w, l) && StartNewTx(c, k).b == k.b
    decreases |k.bm.queue|, 1
  {
    if k.bm.queue != [] && Completed(QueueToTx(c, k).bm.tx) {
      FinishDataTxOwed(c, QueueToTx(c, k), w, l);
    }
  }

  lemma {:induction false} CloseTxOwed(c: Config, k: Blk, w: nat, l: nat)
    ensures var k' := FinishBatTx(UnlockIfIdle(StartNewTx(c, EndTx(c, k))));
            Owed(k', w, l) == Owed(k, w, l) && k'.b == k.b
    decreases |k.bm.queue|, 2
  {
    hide StartNewTx;
    hide FinishBatTx;
    assert EndTx(c, k).bm.queue == k.bm.queue && EndTx(c, k).b == k.b;
    EndTxOwed(c, k, w, l);
    hide EndTx;
    hide Owed;
    StartNewTxOwed(c, EndTx(c, k), w, l);
    UnlockOwed(StartNewTx(c, EndTx(c, k)), w, l);
    FinishBatTxOwed(UnlockIfIdle(StartNewTx(c, EndTx(c, k))), w, l);
  }

  lemma UnlockOwed(k: Blk, w: nat, l: nat)
    ensures Owed(UnlockIfIdle(k), w, l) == Owed(k, w, l) && UnlockIfIdle(k).b == k.b
  {
  }

  lemma {:induction false} FinishBitmapTxOwed(c: Config, k: Blk, error: int, w: nat, l: nat)
    ensures Owed(FinishBitmapTx(c, k, error), w, l) == Owed(k, w, l) && FinishBitmapTx(c, k, error).b == k.b
    decreases |k.bm.queue|, 3
  {
    hide StartNewTx;
    hide EndTx;
    hide FinishBatTx;
    hide UnlockIfIdle;
    CloseTxOwed(c, WithError(k, error), w, l);
  }

  lemma {:induction false} FinishDataTxOwed(c: Config, k: Blk, w: nat, l: nat)
    ensures Owed(FinishDataTx(c, k), w, l) == Owed(k, w, l) && FinishDataTx(c, k).b == k.b
    decreases |k.bm.queue|, 4
  {
    if k.bm.tx.error != 0 { FinishBitmapTxOwed(c, Closed(k), 0, w, l); }
  }

  lemma TxWriteDoneOwed(c: Config, k: Blk, i: nat, err: int, w: nat, l: nat)
    requires i < |k.bm.tx.reqs|
    ensures Owed(TxWriteDone(c, k, i, err), w, l) == Owed(k, w, l) && TxWriteDone(c, k, i, err).b == k.b
  {
    CountReqsUpdate(k.bm.tx.reqs, i, k.bm.tx.reqs[i].(finished := true, err := err), w, l);
    if Completed(TxWriteMark(c, k, i, err).bm.tx) { FinishDataTxOwed(c, TxWriteMark(c, k, i, err), w, l); }
  }

  lemma ZeroWrittenOwed(c: Config, k: Blk, err: int, w: nat, l: nat)
    ensures Owed(ZeroWritten(c, k, err), w, l) == Owed(k, w, l) && ZeroWritten(c, k, err).b == k.b
  {
    if Completed(ZeroMark(k, err).bm.tx) { FinishDataTxOwed(c, ZeroMark(k, err), w, l); }
  }

  lemma FinishBatTxOwed(k: Blk, w: nat, l: nat)
    ensures Owed(FinishBatTx(k), w, l) == Owed(k, w, l) && FinishBatTx(k).b == k.b
  {
  }

  lemma BatMarkOwed(c: Config, k: Blk, err: int, w: nat, l: nat)
    ensures Owed(BatMark(c, k, err), w, l) == Owed(k, w, l) && BatMark(c, k, err).b == k.b
  {
  }

  lemma BatWrittenOwed(c: Config, k: Blk, err: int, w: nat, l: nat)
    ensures Owed(BatWritten(c, k, err), w, l) == Owed(k, w, l) && BatWritten(c, k, err).b == k.b
  {
    hide FinishDataTx;
    hide FinishBitmapTx;
    hide Owed;
    BatMarkOwed(c, k, err, w, l);
    if c.prealloc {
      FinishBatTxOwed(FinishDataTxIfCompleted(c, BatMark(c, k, err)), w, l);
      if Completed(BatMark(c, k, err).bm.tx) { FinishDataTxOwed(c, BatMark(c, k, err), w, l); }
    } else if k.lock.tx {
      FinishBatTxOwed(FinishBitmapTx(c, BatMark(c, k, err), err), w, l);
      FinishBitmapTxOwed(c, BatMark(c, k, err), err, w, l);
    } else {
      FinishBatTxOwed(BatMark(c, k, err), w, l);
    }
  }

  lemma BitmapWrittenOwed(c: Config, k: Blk, err: int, w: nat, l: nat)
    ensures Owed(BitmapWritten(c, k, err), w, l) == Owed(k, w, l) && BitmapWritten(c, k, err).b == k.b
  {
    FinishBitmapTxOwed(c,
      Assert(k, k.bm.tx.closed && !k.bm.reading && k.bm.write != Idle).(bm := k.bm.(write := Idle)), err, w, l);
  }

  lemma JoinTxOwed(k: Blk, r: Req, w: nat, l: nat)
    ensures Owed(JoinTx(k, r), w, l) == Owed(k, w, l) + if r.Covers(w, l) then 1 else 0
  {
    CountReqsConcat(k.bm.tx.reqs, [r], w, l);
    CountReqsConcat(k.bm.queue, [r], w, l);
    CountRawOne(r, w, l);
  }

  /* ---- the whole state ---- */

  /** Sectors of other blocks are nowhere in block b. */
  lemma NotInBlock(c: Config, b: nat, bm: Bm, w: nat, l: nat)
    requires ReqsOk(c, b, bm) && l / c.spb != b
    ensures CountBm(bm, w, l) == 0
  {
    forall r | InBlock(c, b, r) ensures !r.Covers(w, l) {
      if r.Covers(w, l) { InBlockRange(c, b, r, l); }
    }
    NoneCovers(bm.tx.reqs, w, l);
    NoneCovers(bm.queue, w, l);
    NoneCovers(bm.waiting, w, l);
  }

  lemma InBlockRange(c: Config, b: nat, r: Req, l: nat)
    requires InBlock(c, b, r) && r.sec <= l < r.sec + r.secs
    ensures l / c.spb == b
    ensures l % c.spb == r.sec % c.spb + (l - r.sec)
  {
    SameBlock(c.spb, r.sec, l);
  }

  lemma ReqsOkOf(c: Config, s: Vhd, b: nat, pool: nat)
    requires Structure(c, s, pool) && b in s.cache
    ensures ReqsOk(c, b, s.cache[b])
  {
    assert BlockOk(c, s, b);
  }

  /** A block operation that pays what it owes keeps the total. */
  lemma PutTotal(c: Config, s: Vhd, k: Blk, extra: nat, w: nat, l: nat)
    requires k.b in s.cache && ReqsOk(c, k.b, s.cache[k.b])
    requires Owed(k, w, l) == CountBm(s.cache[k.b], w, l) + extra
    requires extra > 0 ==> l / c.spb == k.b
    ensures Total(c, Put(s, k), w, l) == Total(c, s, w, l) + extra
  {
    CountEvsConcat(s.log, k.out, w, l);
    if l / c.spb != k.b { NotInBlock(c, k.b, s.cache[k.b], w, l); }
  }

  lemma {:induction false} RawRemove(rs: seq<Req>, i: nat, w: nat, l: nat)
    requires i < |rs|
    ensures CountRaw(rs, w, l) ==
      CountRaw(rs[..i] + rs[i+1..], w, l) + if rs[i].op != OpPad && rs[i].Covers(w, l) then 1 else 0
  {
    CountRawConcat(rs[..i], [rs[i]], w, l);
    CountRawConcat(rs[..i] + [rs[i]], rs[i+1..], w, l);
    CountRawConcat(rs[..i], rs[i+1..], w, l);
    CountRawOne(rs[i], w, l);
    assert rs == rs[..i] + [rs[i]] + rs[i+1..];
  }

  lemma {:induction false} RawUpdate(rs: seq<Req>, i: nat, r: Req, w: nat, l: nat)
    requires i < |rs| && r == rs[i].(landed := r.landed, got := r.got)
    ensures CountRaw(rs[i := r], w, l) == CountRaw(rs, w, l)
  {
    RawRemove(rs, i, w, l);
    RawRemove(rs[i := r], i, w, l);
    assert rs[i := r][..i] + rs[i := r][i+1..] == rs[..i] + rs[i+1..];
  }

  lemma NoLoadNoCount(bm: Bm, w: nat, l: nat)
    requires Load(bm) == 0
    ensures CountBm(bm, w, l) == 0
  {
  }

  /** A bitmap without requests may come or go. */
  lemma CacheTotal(c: Config, s: Vhd, t: Vhd, b: nat, w: nat, l: nat)
    requires t.raw == s.raw && t.log == s.log
    requires forall x :: x != b ==> (x in s.cache <==> x in t.cache) && (x in s.cache ==> t.cache[x] == s.cache[x])
    requires b in s.cache ==> Load(s.cache[b]) == 0
    requires b in t.cache ==> Load(t.cache[b]) == 0
    ensures Total(c, t, w, l) == Total(c, s, w, l)
  {
    if b in s.cache { NoLoadNoCount(s.cache[b], w, l); }
    if b in t.cache { NoLoadNoCount(t.cache[b], w, l); }
  }

  lemma InstallTotal(c: Config, s: Vhd, b: nat, bm: Bm, pool: nat, w: nat, l: nat)
    requires Structure(c, s, pool) && b !in s.cache && Load(bm) == 0
    ensures Total(c, InstallBitmap(c, s, b, bm).0, w, l) == Total(c, s, w, l)
  {
    hide Total;
    hide Structure;
    var (t, err) := InstallBitmap(c, s, b, bm);
    if s.bmFree > 0 {
      CacheTotal(c, s, t, b, w, l);
    } else if err == 0 {
      var v := Evicted(c, s, b, bm, pool);
      var s1 := s.(cache := s.cache - {v});
      CacheTotal(c, s, s1, v, w, l);
      CacheTotal(c, s1, t, b, w, l);
    }
  }

  lemma EmptyBitmapTotal(c: Config, s: Vhd, b: nat, pool: nat, w: nat, l: nat)
    requires Structure(c, s, pool)
    ensures Total(c, EmptyBitmap(c, s, b).0, w, l) == Total(c, s, w, l)
  {
    if b !in s.cache { InstallTotal(c, s, b, InitBm, pool, w, l); }
  }

  lemma ReserveTotal(c: Config, s: Vhd, b: nat, w: nat, l: nat)
    requires b in s.cache
    ensures Total(c, ReserveAndZero(c, s, b), w, l) == Total(c, s, w, l)
  {
    assert s.log + [] == s.log;
  }

  lemma LockAndWriteBatTotal(c: Config, s: Vhd, b: nat, w: nat, l: nat)
    requires b in s.cache
    ensures Total(c, LockAndWriteBat(s, b), w, l) == Total(c, s, w, l)
  {
    assert s.log + [] == s.log;
  }

  lemma ExtentTotal(c: Config, s: Vhd, b: nat, w: nat, l: nat)
    ensures Total(c, ExtentTaken(c, s, b), w, l) == Total(c, s, w, l)
  {
  }

  lemma AllocationTotal(c: Config, s: Vhd, b: nat, pool: nat, w: nat, l: nat)
    requires Structure(c, s, pool) && b !in s.bat && (s.lock.locked ==> s.lock.blk == b)
    ensures var (t, err) := if c.prealloc then AllocateBlock(c, s, b) else UpdateBat(c, s, b);
            Total(c, t, w, l) == Total(c, s, w, l)
  {
    hide Structure;
    hide Total;
    hide ReserveAndZero;
    hide LockAndWriteBat;
    if s.lock.locked {
      CheckTotal(c, s, s.lock.blk == b, w, l);
    } else {
      if c.prealloc { ExtentTotal(c, s, b, w, l); }
      var s1 := if c.prealloc then ExtentTaken(c, s, b) else s;
      if c.prealloc { ExtentTakenOk(c, s, b, pool); }
      EmptyBitmapTotal(c, s1, b, pool, w, l);
      var (s2, err) := EmptyBitmap(c, s1, b);
      if err == 0 {
        if c.prealloc { LockAndWriteBatTotal(c, s2, b, w, l); } else { ReserveTotal(c, s2, b, w, l); }
      }
    }
  }

  /** Joining a transaction adds one place. */
  lemma JoinTotal(c: Config, s: Vhd, r: Req, pool: nat, w: nat, l: nat)
    requires Structure(c, s, pool) && InBlock(c, r.sec / c.spb, r) && r.sec / c.spb in s.cache && s.free > 0
    ensures var s2 := s.(free := s.free - 1);
            Total(c, Put(s2, JoinTx(At(s2, r.sec / c.spb), r)), w, l) == Total(c, s, w, l) +
                if r.Covers(w, l) then 1 else 0
  {
    var b := r.sec / c.spb;
    var s2 := s.(free := s.free - 1);
    ReqsOkOf(c, s, b, pool);
    JoinTxOwed(At(s2, b), r, w, l);
    if r.Covers(w, l) { InBlockRange(c, b, r, l); }
    PutTotal(c, s2, JoinTx(At(s2, b), r), if r.Covers(w, l) then 1 else 0, w, l);
  }

  lemma RedundantTotal(c: Config, s: Vhd, b: nat, w: nat, l: nat)
    ensures Total(c, ScheduleRedundantBmWrite(c, s, b), w, l) == Total(c, s, w, l)
  {
    var t := ScheduleRedundantBmWrite(c, s, b);
    if t.raw != s.raw { RawSnocTotal(s.raw, t.raw[|s.raw|], w, l); }
  }

  lemma PlainWriteTotal(c: Config, s: Vhd, q: Req, w: nat, l: nat)
    requires q.op == OpWrite
    ensures Total(c, PlainWrite(c, s, q), w, l) == Total(c, s, w, l) + if q.Covers(w, l) then 1 else 0
  {
    var b := q.sec / c.spb;
    RedundantTotal(c, s, b, w, l);
    var s1 := if q.sec % c.spb == 0 && BatEntry(s, b) != c.firstDb && b in s.batmap
              then ScheduleRedundantBmWrite(c, s, b) else s;
    RawSnocTotal(s1.raw, q, w, l);
  }

  lemma FullWriteTotal(c: Config, s: Vhd, r: Req, w: nat, l: nat)
    requires r.op == OpWrite
    ensures var (t, err) := ScheduleDataWrite(c, s, r, false, false);
            Total(c, t, w, l) == Total(c, s, w, l) + if err == 0 && r.Covers(w, l) then 1 else 0
  {
    hide PlainWrite;
    if s.free > 0 {
      var q := r.(addr := BatEntry(s, r.sec / c.spb) + c.bmSecs + r.sec % c.spb);
      PlainWriteTotal(c, s.(free := s.free - 1), q, w, l);
    }
  }

  lemma BitmapWriteTotal(c: Config, s: Vhd, r: Req, updBat: bool, pool: nat, w: nat, l: nat)
    requires Structure(c, s, pool) && WaitingOk(c, r.sec / c.spb, r) && r.op == OpWrite
    requires var b := r.sec / c.spb;
             if updBat then b !in s.bat && (s.lock.locked ==> s.lock.blk == b)
             else b in s.bat && b in s.cache && !s.cache[b].reading
    ensures var (t, err) := ScheduleDataWrite(c, s, r, updBat, true);
            Total(c, t, w, l) == Total(c, s, w, l) + if err == 0 && r.Covers(w, l) then 1 else 0
  {
    hide AllocateBlock;
    hide UpdateBat;
    hide Structure;
    hide Total;
    hide JoinTx;
    var b := r.sec / c.spb;
    var (s1, err) :=
      if !updBat then (s, 0) else if c.prealloc then AllocateBlock(c, s, b) else UpdateBat(c, s, b);
    if updBat {
      AllocationOk(c, s, b, pool);
      AllocationTotal(c, s, b, pool, w, l);
    }
    if err == 0 && s1.free > 0 {
      var base := if updBat then s1.lock.off else BatEntry(s, b);
      JoinTotal(c, s1, r.(op := OpWrite, addr := base + c.bmSecs + r.sec % c.spb), pool, w, l);
    }
  }

  lemma {:induction false} RawSnocTotal(rs: seq<Req>, r: Req, w: nat, l: nat)
    ensures CountRaw(rs + [r], w, l) == CountRaw(rs, w, l) + if r.op != OpPad && r.Covers(w, l) then 1 else 0
  {
    CountRawConcat(rs, [r], w, l);
    CountRawOne(r, w, l);
  }

  lemma WaitingTotal(c: Config, s: Vhd, t: Vhd, b: nat, r: Req, w: nat, l: nat)
    requires b in s.cache && b in t.cache && t.raw == s.raw && t.log == s.log
    requires t.cache == s.cache[b := t.cache[b]]
    requires t.cache[b] == s.cache[b].(waiting := s.cache[b].waiting + [r], locked := true)
    requires r.Covers(w, l) ==> l / c.spb == b
    ensures Total(c, t, w, l) == Total(c, s, w, l) + if r.Covers(w, l) then 1 else 0
  {
    CountReqsConcat(s.cache[b].waiting, [r], w, l);
    CountRawOne(r, w, l);
  }

  lemma QueueRequestTotal(c: Config, s: Vhd, r: Req, w: nat, l: nat)
    requires WaitingOk(c, r.sec / c.spb, r) && r.sec / c.spb in s.cache
    ensures var (t, err) := QueueRequest(c, s, r);
            Total(c, t, w, l) == Total(c, s, w, l) + if err == 0 && r.Covers(w, l) then 1 else 0
  {
    hide Total;
    var b := r.sec / c.spb;
    var (t, err) := QueueRequest(c, s, r);
    if err == 0 {
      assert r.Covers(w, l) ==> l / c.spb == b by { if r.Covers(w, l) { InBlockRange(c, b, r, l); } }
      WaitingTotal(c, s, t, b, r, w, l);
    } else {
      CheckTotal(c, s, b in s.cache && s.cache[b].reading, w, l);
    }
  }

  lemma CheckTotal(c: Config, s: Vhd, ok: bool, w: nat, l: nat)
    ensures Total(c, Check(s, ok), w, l) == Total(c, s, w, l)
  {
  }

  lemma TouchTotal(c: Config, s: Vhd, sec: nat, write: bool, w: nat, l: nat)
    ensures Total(c, ReadBitmapCache(c, s, sec, write).0, w, l) == Total(c, s, w, l)
  {
  }

  lemma EmitTotal(c: Config, s: Vhd, e: Ev, w: nat, l: nat)
    ensures Total(c, Emit(s, e), w, l) == Total(c, s, w, l) + if Settles(e, w, l) then 1 else 0
  {
    CountEvsConcat(s.log, [e], w, l);
    CountEvOne(e, w, l);
  }

  lemma DataReadTotal(c: Config, s: Vhd, r: Req, w: nat, l: nat)
    ensures var (t, err) := ScheduleDataRead(c, s, r);
            Total(c, t, w, l) == Total(c, s, w, l) + if err == 0 && r.Covers(w, l) then 1 else 0
  {
    RawSnocTotal(s.raw, r.(op := OpRead, addr := BatEntry(s, r.sec / c.spb) + c.bmSecs + r.sec % c.spb), w, l);
  }

  /** One turn takes care of the sectors it consumes. */
  ghost predicate Taken(w: nat, l: nat, wid: nat, sec: nat, n: nat) { w == wid && sec <= l < sec + n }

  lemma ReadTurnTotal(c: Config, s: Vhd, wid: nat, sec: nat, n: nat, pool: nat, w: nat, l: nat)
    requires Structure(c, s, pool) && 0 < n
    ensures var (t, k, err) := ReadTurn(c, s, wid, sec, n);
            Total(c, t, w, l) == Total(c, s, w, l) + if err == 0 && Taken(w, l, wid, sec, k) then 1 else 0
  {
    hide Structure;
    hide Total;
    hide QueueRequest;
    hide ScheduleDataRead;
    var (s1, hit) := ReadBitmapCache(c, s, sec, false);
    ReadBitmapCacheOk(c, s, sec, false, pool);
    TouchTotal(c, s, sec, false, w, l);
    var b := sec / c.spb;
    match hit
    case OutOfRange =>
    case BatLocked =>
    case BatClear => EmitTotal(c, s1, Forward(wid, sec, ToBlockEnd(c, sec, n)), w, l);
    case BitClear => EmitTotal(c, s1, Forward(wid, sec, Span(c, s1, sec, n, false)), w, l);
    case BitSet =>
      var r := Piece(false, wid, sec, Span(c, s1, sec, n, true));
      DataReadTotal(c, s1, r, w, l);
    case NotCached =>
      ScheduleBitmapReadOk(c, s1, b, pool);
      InstallTotal(c, Check(s1, b in s1.bat && b !in s1.cache), b, InitBm.(reading := true, locked := true), pool, w,
          l);
      PieceOk(c, false, wid, sec, ToBlockEnd(c, sec, n));
      if ScheduleBitmapRead(c, s1, b).1 == 0 {
        QueueRequestTotal(c, ScheduleBitmapRead(c, s1, b).0, Piece(false, wid, sec, ToBlockEnd(c, sec, n)), w, l);
      }
    case ReadPending =>
      PieceOk(c, false, wid, sec, ToBlockEnd(c, sec, n));
      QueueRequestTotal(c, s1, Piece(false, wid, sec, ToBlockEnd(c, sec, n)), w, l);
  }

  lemma WriteTurnTotal(c: Config, s: Vhd, wid: nat, sec: nat, n: nat, pool: nat, w: nat, l: nat)
    requires Structure(c, s, pool) && 0 < n
    ensures var (t, k, err) := WriteTurn(c, s, wid, sec, n);
            Total(c, t, w, l) == Total(c, s, w, l) + if err == 0 && Taken(w, l, wid, sec, k) then 1 else 0
  {
    hide Structure;
    hide Total;
    hide QueueRequest;
    hide ScheduleDataRead;
    hide ScheduleDataWrite;
    var (s1, hit) := ReadBitmapCache(c, s, sec, true);
    ReadBitmapCacheOk(c, s, sec, true, pool);
    TouchTotal(c, s, sec, true, w, l);
    var b := sec / c.spb;
    match hit
    case OutOfRange =>
    case BatLocked =>
    case BatClear =>
      PieceOk(c, true, wid, sec, ToBlockEnd(c, sec, n));
      BitmapWriteTotal(c, s1, Piece(true, wid, sec, ToBlockEnd(c, sec, n)), true, pool, w, l);
    case BitClear =>
      PieceOk(c, true, wid, sec, Span(c, s1, sec, n, false));
      BitmapWriteTotal(c, s1, Piece(true, wid, sec, Span(c, s1, sec, n, false)), false, pool, w, l);
    case BitSet =>
      PieceOk(c, true, wid, sec, Span(c, s1, sec, n, true));
      FullWriteTotal(c, s1, Piece(true, wid, sec, Span(c, s1, sec, n, true)), w, l);
    case NotCached =>
      ScheduleBitmapReadOk(c, s1, b, pool);
      InstallTotal(c, Check(s1, b in s1.bat && b !in s1.cache), b, InitBm.(reading := true, locked := true), pool, w,
          l);
      PieceOk(c, true, wid, sec, ToBlockEnd(c, sec, n));
      if ScheduleBitmapRead(c, s1, b).1 == 0 {
        QueueRequestTotal(c, ScheduleBitmapRead(c, s1, b).0, Piece(true, wid, sec, ToBlockEnd(c, sec, n)), w, l);
      }
    case ReadPending =>
      PieceOk(c, true, wid, sec, ToBlockEnd(c, sec, n));
      QueueRequestTotal(c, s1, Piece(true, wid, sec, ToBlockEnd(c, sec, n)), w, l);
  }

  lemma {:induction false} ServeTotal(c: Config, s: Vhd, write: bool, wid: nat, sec: nat, n: nat, pool: nat, w: nat,
          l: nat)
    requires Structure(c, s, pool)
    ensures Total(c, Serve(c, s, write, wid, sec, n), w, l) ==
            Total(c, s, w, l) + if Taken(w, l, wid, sec, n) then 1 else 0
    decreases n
  {
    hide WriteTurn;
    hide ReadTurn;
    hide Structure;
    hide Total;
    if n > 0 {
      if write {
        WriteTurnOk(c, s, wid, sec, n, pool);
        WriteTurnTotal(c, s, wid, sec, n, pool, w, l);
      } else {
        ReadTurnOk(c, s, wid, sec, n, pool);
        ReadTurnTotal(c, s, wid, sec, n, pool, w, l);
      }
      var (s1, k, err) := Turn(c, s, write, wid, sec, n);
      if err != 0 { EmitTotal(c, s1, Done(write, wid, sec, n, err), w, l); }
      else { ServeTotal(c, s1, write, wid, sec + k, n - k, pool, w, l); }
    }
  }

  lemma FreeTotal(c: Config, s: Vhd, w: nat, l: nat)
    ensures Total(c, s.(free := s.free + 1), w, l) == Total(c, s, w, l)
  {
  }

  lemma {:induction false} ReplayTotal(c: Config, s: Vhd, rs: seq<Req>, pool: nat, w: nat, l: nat)
    requires |rs| <= pool && Structure(c, s, pool - |rs|)
    ensures Total(c, Replay(c, s, rs), w, l) == Total(c, s, w, l) + CountReqs(rs, w, l)
    decreases |rs|
  {
    hide Serve;
    hide Structure;
    hide Total;
    if rs != [] {
      var r := rs[0];
      var s1 := s.(free := s.free + 1);
      FreeTotal(c, s, w, l);
      CountReqsConcat([r], rs[1..], w, l);
      CountRawOne(r, w, l);
      assert rs == [r] + rs[1..];
      FreeOk(c, s, pool - |rs|);
      ServeOk(c, s1, r.op == OpWrite, r.wid, r.sec, r.secs, pool - |rs| + 1);
      ServeTotal(c, s1, r.op == OpWrite, r.wid, r.sec, r.secs, pool - |rs| + 1, w, l);
      ReplayTotal(c, Serve(c, s1, r.op == OpWrite, r.wid, r.sec, r.secs), rs[1..], pool, w, l);
    }
  }

  /* ---- steps ---- */

  lemma PutOwedTotal(c: Config, s: Vhd, s1: Vhd, k: Blk, pool: nat, w: nat, l: nat)
    requires Structure(c, s, pool) && k.b in s.cache && s1.cache == s.cache && s1.raw == s.raw && s1.log == s.log
    requires Owed(k, w, l) == CountBm(s.cache[k.b], w, l)
    ensures Total(c, Put(s1, k), w, l) == Total(c, s, w, l)
  {
    ReqsOkOf(c, s, k.b, pool);
    PutTotal(c, s1, k, 0, w, l);
  }

  lemma AtOwed(s: Vhd, b: nat, w: nat, l: nat)
    requires b in s.cache
    ensures Owed(At(s, b), w, l) == CountBm(s.cache[b], w, l)
  {
  }

  lemma DoneTxTotal(c: Config, s: Vhd, b: nat, i: nat, err: int, pool: nat, w: nat, l: nat)
    requires Structure(c, s, pool) && b in s.cache && i < |s.cache[b].tx.reqs|
    ensures Total(c, FinishTxWrite(c, s, b, i, err), w, l) == Total(c, s, w, l)
  {
    hide TxWriteDone;
    hide Owed;
    hide Structure;
    AtOwed(s, b, w, l);
    TxWriteDoneOwed(c, At(s, b), i, err, w, l);
    PutOwedTotal(c, s, Sync(s, s.cache[b].tx.reqs[i], err), TxWriteDone(c, At(s, b), i, err), pool, w, l);
  }

  lemma DoneQueueTotal(c: Config, s: Vhd, b: nat, i: nat, err: int, pool: nat, w: nat, l: nat)
    requires Structure(c, s, pool) && b in s.cache && i < |s.cache[b].queue|
    ensures Total(c, FinishQueuedWrite(s, b, i, err), w, l) == Total(c, s, w, l)
  {
    CountReqsUpdate(s.cache[b].queue, i, s.cache[b].queue[i].(finished := true, err := err), w, l);
    PutOwedTotal(c, s, Sync(s, s.cache[b].queue[i], err), QueuedWriteDone(At(s, b), i, err), pool, w, l);
  }

  lemma DoneBitmapWriteTotal(c: Config, s: Vhd, b: nat, err: int, pool: nat, w: nat, l: nat)
    requires Structure(c, s, pool) && b in s.cache
    ensures Total(c, FinishBitmapWrite(c, s, b, err), w, l) == Total(c, s, w, l)
  {
    hide BitmapWritten;
    hide Owed;
    hide Structure;
    AtOwed(s, b, w, l);
    BitmapWrittenOwed(c, At(s, b), err, w, l);
    PutOwedTotal(c, s, s, BitmapWritten(c, At(s, b), err), pool, w, l);
  }

  lemma DoneZeroTotal(c: Config, s: Vhd, err: int, pool: nat, w: nat, l: nat)
    requires Structure(c, s, pool) && s.meta.zero != Idle
    ensures Total(c, FinishZeroBmWrite(c, s, err), w, l) == Total(c, s, w, l)
  {
    hide ZeroWritten;
    hide Owed;
    var b := s.lock.blk;
    assert BlockOk(c, s, b);
    var s0 := s.(meta := s.meta.(zero := Idle));
    var s1 := if err != 0 then s0.(lock := InitLock) else ScheduleBatWrite(s0);
    AtOwed(s1, b, w, l);
    ZeroWrittenOwed(c, At(s1, b), err, w, l);
    PutOwedTotal(c, s, s1, ZeroWritten(c, At(s1, b), err), pool, w, l);
  }

  lemma DoneBatTotal(c: Config, s: Vhd, err: int, pool: nat, w: nat, l: nat)
    requires Structure(c, s, pool) && s.meta.bat != Idle
    ensures Total(c, FinishBatWrite(c, s, err), w, l) == Total(c, s, w, l)
  {
    hide BatWritten;
    hide Owed;
    var b := s.lock.blk;
    assert BlockOk(c, s, b);
    var s1 := AfterBat(c, s, err);
    AtOwed(s1, b, w, l);
    BatWrittenOwed(c, At(s1, b), err, w, l);
    PutOwedTotal(c, s, s1, BatWritten(c, At(s1, b), err), pool, w, l);
  }

  lemma DoneOtherTotal(c: Config, s: Vhd, i: nat, err: int, w: nat, l: nat)
    requires i < |s.raw|
    ensures Total(c, FinishRaw(s, i, err), w, l) == Total(c, s, w, l)
  {
    hide CountEvs;
    hide CountRaw;
    hide CountReqs;
    hide CountBm;
    var r := s.raw[i].(err := err);
    RawRemove(s.raw, i, w, l);
    CountDone([r], 0, w, l);
    CountRawOne(r, w, l);
    CountEvsConcat(s.log, DoneEvs([r], 0), w, l);
  }

  lemma DoneBitmapReadTotal(c: Config, s: Vhd, b: nat, err: int, pool: nat, w: nat, l: nat)
    requires Structure(c, s, pool) && b in s.cache && s.cache[b].reading
    ensures Total(c, FinishBitmapRead(c, s, b, err), w, l) == Total(c, s, w, l)
  {
    ReqsOkOf(c, s, b, pool);
    var bm := s.cache[b];
    assert bm.tx.reqs == [] && bm.queue == [] by { assert BlockOk(c, s, b); }
    if l / c.spb != b { NotInBlock(c, b, bm, w, l); }
    if err == 0 {
      BitmapLoadedOk(c, s, b, pool);
      BitmapLoadedTotal(c, s, b, w, l);
      hide Structure;
      hide Total;
      ReplayTotal(c, BitmapLoaded(c, s, b), bm.waiting, pool, w, l);
      UnlockTotal(c, Replay(c, BitmapLoaded(c, s, b), bm.waiting), b, w, l);
    } else {
      CountDone(bm.waiting, err, w, l);
      CountEvsConcat(s.log, DoneEvs(bm.waiting, err), w, l);
    }
  }

  lemma {:induction false} BitmapLoadedTotal(c: Config, s: Vhd, b: nat, w: nat, l: nat)
    requires b in s.cache
    ensures Total(c, s, w, l) == Total(c, BitmapLoaded(c, s, b), w, l) +
      if l / c.spb == b then CountReqs(s.cache[b].waiting, w, l) else 0
  {
  }

  lemma UnlockTotal(c: Config, s: Vhd, b: nat, w: nat, l: nat)
    ensures Total(c, UnlockCached(s, b), w, l) == Total(c, s, w, l)
  {
    assert s.log + [] == s.log;
  }

  lemma LandTotal(c: Config, s: Vhd, step: Step, pool: nat, w: nat, l: nat)
    requires Structure(c, s, pool) && Enabled(s, step)
    requires step.LandTx? || step.LandQueue? || step.LandOther? || step.LandBitmap? || step.LandZero? || step.LandBat?
    ensures Total(c, Next(c, s, step), w, l) == Total(c, s, w, l)
  {
    hide Structure;
    match step
    case LandTx(b, i) =>
      CountReqsUpdate(s.cache[b].tx.reqs, i, s.cache[b].tx.reqs[i].(landed := true), w, l);
    case LandQueue(b, i) =>
      CountReqsUpdate(s.cache[b].queue, i, s.cache[b].queue[i].(landed := true), w, l);
    case LandOther(i) => RawUpdate(s.raw, i, LandRaw(c, s, i).raw[i], w, l);
    case LandBitmap(b) =>
    case LandZero =>
    case LandBat =>
  }

  /** Only a new guest request adds something to take care of. */
  lemma StepTotal(c: Config, s: Vhd, step: Step, pool: nat, w: nat, l: nat)
    requires Structure(c, s, pool) && Enabled(s, step)
    ensures Total(c, Next(c, s, step), w, l) == Total(c, s, w, l) +
      if step.Request? && Taken(w, l, |s.log|, step.sec, step.secs) then 1 else 0
  {
    hide Structure;
    hide Total;
    match step
    case Request(write, sec, n) =>
      var e := Issue(write, sec, n);
      MediaIrrelevant(c, s, Emit(s, e), pool);
      EmitTotal(c, s, e, w, l);
      ServeTotal(c, Emit(s, e), write, |s.log|, sec, n, pool, w, l);
    case DoneTx(b, i, err) => DoneTxTotal(c, s, b, i, err, pool, w, l);
    case DoneQueue(b, i, err) => DoneQueueTotal(c, s, b, i, err, pool, w, l);
    case DoneOther(i, err) => DoneOtherTotal(c, s, i, err, w, l);
    case DoneBitmapRead(b, err) => DoneBitmapReadTotal(c, s, b, err, pool, w, l);
    case DoneBitmapWrite(b, err) => DoneBitmapWriteTotal(c, s, b, err, pool, w, l);
    case DoneZero(err) => DoneZeroTotal(c, s, err, pool, w, l);
    case DoneBat(err) => DoneBatTotal(c, s, err, pool, w, l);
    case _ => LandTotal(c, s, step, pool, w, l);
  }
}
