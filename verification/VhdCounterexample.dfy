/** When the zero-bitmap write of a block fails while a write of its transaction may still
    reach the disk, the extent can be given to another block, and the late write then
    destroys data that has been acknowledged. This happens from every state in which such
    a failure is possible, and durability is safe after every other failure. */
module VhdCounterexample {
  import opened Arithmetic
  import opened VhdTypes
  import opened VhdEngine
  import opened VhdInvariants
  import opened VhdStructure
  import opened VhdSafety
  import opened VhdAccounting
  import opened VhdMoves
  import opened VhdLayout
  import opened VhdDisk
  import opened VhdDurability
  import opened VhdTheorems

  /** The write of one sector of a block whose extent is at `off`. */
  function OneReq(c: Config, wid: nat, sec: nat, off: nat): Req {
    Req(OpWrite, wid, sec, 1, off + c.bmSecs + sec % c.spb, false, false, 0, [])
  }

  /** The bitmap of a new block, its transaction holding writes rs besides the zeroing. */
  function FreshBm(rs: seq<Req>, seqno: nat): Bm {
    InitBm.(locked := true, tx := Tx(0, false, 1 + |rs|, 0, true, true, true, rs), seqno := seqno)
  }

  /* ---- a write of one sector to a block that has no extent ---- */

  /** Nothing is locked and block b is new. */
  predicate CanReserve(c: Config, s: Vhd, b: nat) {
    !c.prealloc && b <= c.maxBat && s.lock == InitLock && s.meta.zero == Idle && b !in s.bat && b !in s.cache &&
    s.bmFree > 0 && s.free > 0 && |s.cache| < c.cacheSize && !s.panicked && b !in s.batmap
  }

  /** Block b has the lock; rs are the writes scheduled so far. */
  function Locked(c: Config, s: Vhd, b: nat, rs: seq<Req>): Vhd
    requires s.bmFree > 0 && s.free >= |rs|
  {
    s.(lock := Lock(true, false, b, NextOff(c, s.nextDb), 0, false),
       meta := s.meta.(zero := Flying, zeroBlk := b, zeroAt := s.nextDb, zeroLen := Gap(c, s.nextDb) + c.bmSecs),
       cache := s.cache[b := FreshBm(rs, s.lru + 1)],
       bmFree := s.bmFree - 1, lru := s.lru + 1, free := s.free - |rs|)
  }

  function Reserved(c: Config, s: Vhd, wid: nat, sec: nat): Vhd
    requires s.bmFree > 0 && s.free > 0
  {
    Locked(c, s, sec / c.spb, [OneReq(c, wid, sec, NextOff(c, s.nextDb))])
  }

  lemma Installs(c: Config, s: Vhd, b: nat)
    requires CanReserve(c, s, b)
    ensures EmptyBitmap(c, s, b) ==
      (s.(cache := s.cache[b := InitBm.(seqno := s.lru + 1)], bmFree := s.bmFree - 1, lru := s.lru + 1), 0)
  {
  }

  lemma Reserves(c: Config, s: Vhd, b: nat)
    requires CanReserve(c, s, b)
    ensures UpdateBat(c, s, b) == (Locked(c, s, b, []), 0)
  {
    hide Gap;
    Installs(c, s, b);
    var s1 := EmptyBitmap(c, s, b).0;
    assert Check(s, true) == s;
    assert s1.log + [] == s1.log;
    var t := ReserveAndZero(c, s1, b);
    assert t.cache == s.cache[b := t.cache[b]];
    assert t == Locked(c, s, b, []);
  }

  lemma Joins(c: Config, s: Vhd, wid: nat, sec: nat)
    requires CanReserve(c, s, sec / c.spb)
    ensures var b := sec / c.spb; var s2 := Locked(c, s, b, []).(free := s.free - 1);
            Put(s2, JoinTx(At(s2, b), OneReq(c, wid, sec, NextOff(c, s.nextDb)))) == Reserved(c, s, wid, sec)
  {
    hide Gap;
    var b := sec / c.spb;
    var s2 := Locked(c, s, b, []).(free := s.free - 1);
    var q := OneReq(c, wid, sec, NextOff(c, s.nextDb));
    assert s2.log + [] == s2.log;
    assert [] + [q] == [q];
    var t := Put(s2, JoinTx(At(s2, b), q));
    assert t.cache == s.cache[b := FreshBm([q], s.lru + 1)];
  }

  lemma LockedFields(c: Config, s: Vhd, b: nat)
    requires CanReserve(c, s, b)
    ensures var t := Locked(c, s, b, []);
            t.free == s.free > 0 && t.lock.off == NextOff(c, s.nextDb) && b in t.cache && !t.cache[b].reading
  {
  }

  lemma Schedules(c: Config, s: Vhd, wid: nat, sec: nat)
    requires CanReserve(c, s, sec / c.spb)
    ensures s.bmFree > 0 && s.free > 0
    ensures ScheduleDataWrite(c, s, Piece(true, wid, sec, 1), true, true) == (Reserved(c, s, wid, sec), 0)
  {
    hide UpdateBat;
    hide AllocateBlock;
    hide PlainWrite;
    hide JoinTx;
    hide Put;
    hide At;
    hide Locked;
    hide Reserved;
    hide Gap;
    var b := sec / c.spb;
    Reserves(c, s, b);
    Joins(c, s, wid, sec);
    LockedFields(c, s, b);
    var s1 := Locked(c, s, b, []);
    assert Piece(true, wid, sec, 1).(op := OpWrite, addr := s1.lock.off + c.bmSecs + sec % c.spb)
        == OneReq(c, wid, sec, NextOff(c, s.nextDb));
  }

  lemma {:induction false} Writes(c: Config, s: Vhd, wid: nat, sec: nat)
    requires CanReserve(c, s, sec / c.spb)
    ensures Serve(c, s, true, wid, sec, 1) == Reserved(c, s, wid, sec)
  {
    Schedules(c, s, wid, sec);
    hide ScheduleDataWrite;
    hide Reserved;
    var (t, k, err) := WriteTurn(c, s, wid, sec, 1);
    assert t == Reserved(c, s, wid, sec) && k == 1 && err == 0;
  }

  /* ---- the stages of that write, until it has been answered ---- */

  /** Write i of block b may still reach the disk, in the extent at `off`. */
  predicate Late(c: Config, u: Vhd, b: nat, i: nat, r: Req, off: nat) {
    && b in u.cache && i < |u.cache[b].tx.reqs| && u.cache[b].tx.reqs[i] == r && CanLand(r)
    && 0 < r.secs && r.addr == off + c.bmSecs + r.sec % c.spb
  }

  /** The write r to the new block b goes to the extent at `off`. */
  predicate Goes(c: Config, u: Vhd, b: nat, r: Req, off: nat) {
    && b in u.cache && b !in u.batmap && !u.panicked
    && r.op == OpWrite && r.sec / c.spb == b && r.secs == 1 && r.err == 0 && r.addr == off + c.bmSecs + r.sec % c.spb
  }

  predicate IsZeroing(c: Config, u: Vhd, b: nat, r: Req, off: nat, io: Io) {
    && Goes(c, u, b, r, off) && u.cache[b] == FreshBm([r], u.cache[b].seqno)
    && u.lock == Lock(true, false, b, off, 0, false) && b !in u.bat && u.media.bat == u.bat
    && u.meta.zero == io && u.meta.zeroBlk == b && u.meta.bat == Idle
  }

  predicate IsAllocating(c: Config, u: Vhd, b: nat, r: Req, off: nat, io: Io) {
    && Goes(c, u, b, r, off)
    && u.cache[b] == FreshBm([r], u.cache[b].seqno).(tx := Tx(0, false, 2, 1, true, true, false, [r]))
    && u.lock == Lock(true, true, b, off, 0, false) && b !in u.bat && u.meta.zero == Idle && u.meta.bat == io
    && b in u.meta.batBuf && u.meta.batBuf[b] == off && (io == Landed ==> b in u.media.bat && u.media.bat[b] == off)
  }

  predicate IsWriting(c: Config, u: Vhd, b: nat, r: Req, off: nat) {
    && Goes(c, u, b, r, off) && u.lock == InitLock
    && u.cache[b] == FreshBm([r], u.cache[b].seqno).(tx := Tx(0, false, 2, 1, true, false, false, [r]))
    && b in u.bat && u.bat[b] == off && b in u.media.bat && u.media.bat[b] == off
  }

  predicate IsFlushing(c: Config, u: Vhd, b: nat, r: Req, off: nat, io: Io) {
    && Goes(c, u, b, r, off) && u.lock == InitLock
    && u.cache[b] == FreshBm([r], u.cache[b].seqno).(tx := Tx(0, true, 2, 2, true, false, false, [r]),
                       shadow := {r.sec % c.spb}, write := io, wAddr := off)
    && b in u.bat && u.bat[b] == off && b in u.media.bat && u.media.bat[b] == off
    && (io == Landed ==> u.media.disk(off) == Bits({r.sec % c.spb}))
  }

  predicate IsAnswered(c: Config, u: Vhd, b: nat, r: Req, off: nat) {
    && |u.log| > 0 && u.log[|u.log| - 1] == Done(true, r.wid, r.sec, 1, 0) && r.sec / c.spb == b
    && b in u.media.bat && u.media.bat[b] == off && u.media.disk(off) == Bits({r.sec % c.spb})
  }

  /** Step `step` leads from u to t and leaves the late write as it is. */
  ghost predicate Leads(c: Config, u: Vhd, step: Step, t: Vhd, b: nat) {
    Enabled(u, step) && t == Next(c, u, step) && b in u.cache && b in t.cache && t.cache[b] == u.cache[b] &&
    Orderly(u, step)
  }

  lemma StepReserve(c: Config, u: Vhd, b1: nat, sec: nat)
    requires CanReserve(c, u, sec / c.spb) && b1 in u.cache && b1 != sec / c.spb
    requires u.meta.bat == Idle && u.media.bat == u.bat
    ensures var t := Next(c, u, Request(true, sec, 1)); var off := NextOff(c, u.nextDb);
            Leads(c, u, Request(true, sec, 1), t, b1) &&
            IsZeroing(c, t, sec / c.spb, OneReq(c, |u.log|, sec, off), off, Flying)
  {
    hide Serve;
    hide Gap;
    Writes(c, Emit(u, Issue(true, sec, 1)), |u.log|, sec);
  }

  lemma StepZeroLands(c: Config, u: Vhd, b1: nat, b: nat, r: Req, off: nat)
    requires IsZeroing(c, u, b, r, off, Flying) && b1 in u.cache && b1 != b
    ensures var t := Next(c, u, LandZero); Leads(c, u, LandZero, t, b1) && IsZeroing(c, t, b, r, off, Landed)
  {
  }

  lemma StepZeroDone(c: Config, u: Vhd, b1: nat, b: nat, r: Req, off: nat)
    requires IsZeroing(c, u, b, r, off, Landed) && b1 in u.cache && b1 != b
    ensures var t := Next(c, u, DoneZero(0)); Leads(c, u, DoneZero(0), t, b1) && IsAllocating(c, t, b, r, off, Flying)
  {
    assert u.log + [] == u.log;
    var s1 := AfterZeroWrite(u, 0);
    assert Check(u, true) == u;
    assert ZeroWritten(c, At(s1, b), 0) == ZeroMark(At(s1, b), 0);
  }

  lemma StepBatLands(c: Config, u: Vhd, b1: nat, b: nat, r: Req, off: nat)
    requires IsAllocating(c, u, b, r, off, Flying) && b1 in u.cache && b1 != b
    ensures var t := Next(c, u, LandBat); Leads(c, u, LandBat, t, b1) && IsAllocating(c, t, b, r, off, Landed)
  {
  }

  lemma StepBatDone(c: Config, u: Vhd, b1: nat, b: nat, r: Req, off: nat)
    requires !c.prealloc && IsAllocating(c, u, b, r, off, Landed) && b1 in u.cache && b1 != b
    ensures var t := Next(c, u, DoneBat(0)); Leads(c, u, DoneBat(0), t, b1) && IsWriting(c, t, b, r, off)
  {
    assert u.log + [] == u.log;
    var s1 := AfterBat(c, u, 0);
    assert Check(u, true) == u;
    assert BatWritten(c, At(s1, b), 0) == BatMark(c, At(s1, b), 0).(lock := InitLock);
  }

  lemma StepWriteLands(c: Config, u: Vhd, b1: nat, b: nat, r: Req, off: nat)
    requires IsWriting(c, u, b, r, off) && b1 in u.cache && b1 != b && CanLand(r)
    ensures var t := Next(c, u, LandTx(b, 0));
            Leads(c, u, LandTx(b, 0), t, b1) && IsWriting(c, t, b, r.(landed := true), off)
  {
    assert [r][0 := r.(landed := true)] == [r.(landed := true)];
  }

  lemma StepWriteDone(c: Config, u: Vhd, b1: nat, b: nat, r: Req, off: nat)
    requires IsWriting(c, u, b, r, off) && b1 in u.cache && b1 != b && r.landed && !r.finished
    ensures var t := Next(c, u, DoneTx(b, 0, 0));
            Leads(c, u, DoneTx(b, 0, 0), t, b1) && IsFlushing(c, t, b, r.(finished := true), off, Flying)
  {
    assert u.log + [] == u.log;
    var r' := r.(finished := true, err := 0);
    assert forall x :: x in ReqBits(c.spb, r') <==> x == r.sec % c.spb;
    assert ReqBits(c.spb, r') == {r.sec % c.spb};
    assert [r][0 := r'] == [r'];
    var k := At(u, b);
    var k1 := TxWriteMark(c, k, 0, 0);
    assert k1.bm.tx.reqs == [r'] && Completed(k1.bm.tx) && k1.bm.tx.error == 0;
    assert {} + {r.sec % c.spb} == {r.sec % c.spb};
    assert TxWriteDone(c, k, 0, 0) == FinishDataTx(c, k1) == ScheduleBitmapWrite(Closed(k1));
  }

  lemma StepBitmapLands(c: Config, u: Vhd, b1: nat, b: nat, r: Req, off: nat)
    requires IsFlushing(c, u, b, r, off, Flying) && b1 in u.cache && b1 != b
    ensures var t := Next(c, u, LandBitmap(b)); Leads(c, u, LandBitmap(b), t, b1) && IsFlushing(c, t, b, r, off, Landed)
  {
  }

  predicate WholeBytes(c: Config) { c.spb % 8 == 0 }

  /** One bit does not fill a bitmap. */
  lemma OneBitNotFull(c: Config, x: nat)
    requires WholeBytes(c)
    ensures !BitmapFull(c, {x})
  {
    var y := if x == 0 then 1 else 0;
    assert InRange(y, 0, 8 * (c.spb / 8));
    assert y in Range(0, 8 * (c.spb / 8)) && y !in {x};
  }

  lemma StepBitmapDone(c: Config, u: Vhd, b1: nat, b: nat, r: Req, off: nat)
    requires WholeBytes(c) && IsFlushing(c, u, b, r, off, Landed) && b1 in u.cache && b1 != b
    ensures var t := Next(c, u, DoneBitmapWrite(b, 0));
            Leads(c, u, DoneBitmapWrite(b, 0), t, b1) && IsAnswered(c, t, b, r, off)
  {
    OneBitNotFull(c, r.sec % c.spb);
    hide BitmapFull;
    var k := At(u, b).(bm := u.cache[b].(write := Idle));
    var e := EndTx(c, k);
    assert DoneEvs([r], 0) == [Done(true, r.wid, r.sec, r.secs, 0)];
    assert [] + DoneEvs([r], 0) == DoneEvs([r], 0);
    assert k.bm.tx.(error := 0) == k.bm.tx;
    assert StartNewTx(c, e) == e;
    assert FinishBitmapTx(c, k, 0) == e.(bm := e.bm.(locked := false));
  }

  /** Two sectors at the same place of different blocks. */
  predicate SameBit(c: Config, x: nat, y: nat) { x % c.spb == y % c.spb && x != y }

  /** The late write lands on the answered one. */
  lemma StepDestroys(c: Config, u: Vhd, b1: nat, i: nat, r1: Req, b: nat, r: Req, off: nat)
    requires IsAnswered(c, u, b, r, off) && Late(c, u, b1, i, r1, off) && SameBit(c, r.sec, r1.sec)
    ensures var t := Next(c, u, LandTx(b1, i));
            Enabled(u, LandTx(b1, i)) && t.log == u.log && |t.log| > 0 && Acknowledges(t.log[|t.log| - 1], r.sec) &&
            Recover(c, t.media, r.sec) == Damaged
  {
    var t := Next(c, u, LandTx(b1, i));
    assert t.media.disk(off) == u.media.disk(off);
    assert Loc(c, off, r.sec) == r1.addr;
    assert t.media.disk(r1.addr) == Data(r1.wid, r1.sec);
  }

  /* ---- the failure ---- */

  /** The state after the zero-bitmap write failed with other writes out. */
  function Failed(s: Vhd, err: int): Vhd
    requires s.lock.blk in s.cache
  {
    var bm := s.cache[s.lock.blk];
    s.(lock := InitLock, meta := s.meta.(zero := Idle),
       cache := s.cache[s.lock.blk :=
         bm.(tx := bm.tx.(error := err, finished := bm.tx.finished + 1, meta := false, updateBat := false))])
  }

  lemma ZeroFails(c: Config, s: Vhd, err: int, pool: nat)
    requires Structure(c, s, pool) && Enabled(s, DoneZero(err)) && LeavesWritesBehind(s, err)
    ensures s.lock.blk in s.cache && Next(c, s, DoneZero(err)) == Failed(s, err)
  {
    var b := s.lock.blk;
    assert BlockOk(c, s, b);
    var r :| r in s.cache[b].tx.reqs && !r.Spent();
    UnfinishedCounts(s.cache[b].tx.reqs, r);
    var s1 := AfterZeroWrite(s, err);
    assert s.log + [] == s.log;
    assert ZeroWritten(c, At(s1, b), err) == ZeroMark(At(s1, b), err);
    assert Check(s, true) == s;
  }

  /** Another block of the disk has no extent, and there is room to write to it. */
  predicate Spare(c: Config, s: Vhd, b: nat) {
    b < c.maxBat && b != s.lock.blk && b !in s.bat && b !in s.cache && s.bmFree > 0 && s.free > 0
  }

  /** What is known of the write that is left behind. */
  lemma LeftBehind(c: Config, s: Vhd, err: int, pool: nat) returns (i: nat, r: Req)
    requires Structure(c, s, pool) && OnDisk(c, s) && Enabled(s, DoneZero(err)) && LeavesWritesBehind(s, err)
    ensures Late(c, s, s.lock.blk, i, r, NextOff(c, s.nextDb)) && r.sec / c.spb == s.lock.blk
    ensures s.meta.bat == Idle && s.media.bat == s.bat && !c.prealloc && WholeBytes(c)
  {
    var b := s.lock.blk;
    r :| r in s.cache[b].tx.reqs && !r.Spent();
    i :| 0 <= i < |s.cache[b].tx.reqs| && s.cache[b].tx.reqs[i] == r;
    assert BlockOk(c, s, b);
    assert WriteOk(c, b, r);
    assert BlkD(c, s, b);
  }

  /** An orderly run from s. */
  ghost predicate RunsOrderly(c: Config, s: Vhd, states: seq<Vhd>, steps: seq<Step>) {
    Run(c, states, steps) && states[0] == s && forall j :: 0 <= j < |steps| ==> Orderly(states[j], steps[j])
  }

  /** An orderly run of n steps from s to u. */
  ghost predicate Reaches(c: Config, s: Vhd, states: seq<Vhd>, steps: seq<Step>, n: nat, u: Vhd) {
    RunsOrderly(c, s, states, steps) && |steps| == n && states[n] == u
  }

  lemma Extend(c: Config, s: Vhd, states: seq<Vhd>, steps: seq<Step>, n: nat, u: Vhd, step: Step, t: Vhd)
    returns (states': seq<Vhd>, steps': seq<Step>)
    requires Reaches(c, s, states, steps, n, u) && Enabled(u, step) && t == Next(c, u, step) && Orderly(u, step)
    ensures Reaches(c, s, states', steps', n + 1, t)
  {
    hide Next;
    hide Orderly;
    hide Enabled;
    states', steps' := states + [t], steps + [step];
  }

  /** Until its extent is in the BAT. */
  lemma Allocates(c: Config, s: Vhd, b1: nat, sec: nat) returns (states: seq<Vhd>, steps: seq<Step>, t: Vhd)
    requires CanReserve(c, s, sec / c.spb) && s.meta.bat == Idle && s.media.bat == s.bat
    requires b1 in s.cache && b1 != sec / c.spb
    ensures Reaches(c, s, states, steps, 5, t) && b1 in t.cache && t.cache[b1] == s.cache[b1]
    ensures var off := NextOff(c, s.nextDb); IsWriting(c, t, sec / c.spb, OneReq(c, |s.log|, sec, off), off)
  {
    hide Next; hide Enabled; hide Orderly; hide IsZeroing; hide IsAllocating; hide IsWriting;
    hide Gap; hide Reaches;
    var off := NextOff(c, s.nextDb);
    var b, r := sec / c.spb, OneReq(c, |s.log|, sec, off);
    Start(c, s);
    StepReserve(c, s, b1, sec);
    t := Next(c, s, Request(true, sec, 1));
    states, steps := Extend(c, s, [s], [], 0, s, Request(true, sec, 1), t);
    StepZeroLands(c, t, b1, b, r, off);
    var t2 := Next(c, t, LandZero);
    states, steps := Extend(c, s, states, steps, 1, t, LandZero, t2);
    StepZeroDone(c, t2, b1, b, r, off);
    t := Next(c, t2, DoneZero(0));
    states, steps := Extend(c, s, states, steps, 2, t2, DoneZero(0), t);
    StepBatLands(c, t, b1, b, r, off);
    t2 := Next(c, t, LandBat);
    states, steps := Extend(c, s, states, steps, 3, t, LandBat, t2);
    StepBatDone(c, t2, b1, b, r, off);
    t := Next(c, t2, DoneBat(0));
    states, steps := Extend(c, s, states, steps, 4, t2, DoneBat(0), t);
  }

  lemma Start(c: Config, s: Vhd)
    ensures Reaches(c, s, [s], [], 0, s)
  {
  }

  /** Until it has been answered. */
  lemma Answers(c: Config, s: Vhd, states0: seq<Vhd>, steps0: seq<Step>, u: Vhd, b1: nat, b: nat, r: Req, off: nat)
    returns (states: seq<Vhd>, steps: seq<Step>, t: Vhd)
    requires Reaches(c, s, states0, steps0, 5, u) && IsWriting(c, u, b, r, off) && b1 in u.cache && b1 != b
    requires CanLand(r) && !c.prealloc && WholeBytes(c)
    ensures Reaches(c, s, states, steps, 9, t) && b1 in t.cache && t.cache[b1] == u.cache[b1]
    ensures IsAnswered(c, t, b, r.(landed := true, finished := true), off)
  {
    hide Next; hide Enabled; hide Orderly; hide IsWriting; hide IsFlushing; hide IsAnswered; hide Gap; hide Reaches;
    hide WholeBytes;
    StepWriteLands(c, u, b1, b, r, off);
    var t2 := Next(c, u, LandTx(b, 0));
    states, steps := Extend(c, s, states0, steps0, 5, u, LandTx(b, 0), t2);
    StepWriteDone(c, t2, b1, b, r.(landed := true), off);
    t := Next(c, t2, DoneTx(b, 0, 0));
    states, steps := Extend(c, s, states, steps, 6, t2, DoneTx(b, 0, 0), t);
    var r' := r.(landed := true, finished := true);
    StepBitmapLands(c, t, b1, b, r', off);
    t2 := Next(c, t, LandBitmap(b));
    states, steps := Extend(c, s, states, steps, 7, t, LandBitmap(b), t2);
    StepBitmapDone(c, t2, b1, b, r', off);
    t := Next(c, t2, DoneBitmapWrite(b, 0));
    states, steps := Extend(c, s, states, steps, 8, t2, DoneBitmapWrite(b, 0), t);
  }

  /** A second write, to the spare block, is answered and then destroyed. */
  lemma Destroys(c: Config, s: Vhd, b1: nat, i: nat, r1: Req, sec: nat) returns (states: seq<Vhd>, steps: seq<Step>)
    requires CanReserve(c, s, sec / c.spb) && s.meta.bat == Idle && s.media.bat == s.bat && WholeBytes(c)
    requires Late(c, s, b1, i, r1, NextOff(c, s.nextDb))
    requires b1 != sec / c.spb && SameBit(c, sec, r1.sec)
    ensures RunsOrderly(c, s, states, steps) && |steps| == 10
    ensures var t := states[10];
            |t.log| > 0 && Acknowledges(t.log[|t.log| - 1], sec) && Recover(c, t.media, sec) == Damaged
  {
    hide Next; hide Enabled; hide Orderly; hide IsWriting; hide IsAnswered; hide Gap; hide Recover; hide RunsOrderly;
    hide NextOff; hide Late; hide SameBit; hide WholeBytes;
    var off := NextOff(c, s.nextDb);
    var b, r := sec / c.spb, OneReq(c, |s.log|, sec, off);
    StillLate(c, s, s, b1, i, r1, off);
    var states5, steps5, u := Allocates(c, s, b1, sec);
    var states9, steps9, t := Answers(c, s, states5, steps5, u, b1, b, r, off);
    StillLate(c, s, t, b1, i, r1, off);
    StepDestroys(c, t, b1, i, r1, b, r.(landed := true, finished := true), off);
    LandingIsOrderly(t, b1, i);
    states, steps := Extend(c, s, states9, steps9, 9, t, LandTx(b1, i), Next(c, t, LandTx(b1, i)));
  }

  lemma StillLate(c: Config, s: Vhd, t: Vhd, b: nat, i: nat, r: Req, off: nat)
    requires Late(c, s, b, i, r, off)
    ensures b in s.cache && (b in t.cache && t.cache[b] == s.cache[b] ==> Late(c, t, b, i, r, off))
  {
  }

  lemma LandingIsOrderly(s: Vhd, b: nat, i: nat)
    ensures Orderly(s, LandTx(b, i))
  {
  }

  /* ---- exactly when a failure endangers what is answered later ---- */

  /** Every acknowledged write can be recovered from the file, as durability has it. */
  ghost predicate Recoverable(c: Config, s: Vhd) {
    forall k, l: nat :: 0 <= k < |s.log| && Acknowledges(s.log[k], l) ==>
      var f := Recover(c, s.media, l);
      f.Present? && f.w >= 0 && Wrote(s.log, f.w, l) && NotBefore(s.log, f.w, s.log[k].wid, l)
  }

  /** Whatever comes after s, short of another failure that leaves writes behind, every
      acknowledged write can be recovered. */
  ghost predicate Safe(c: Config, s: Vhd) {
    forall states, steps :: RunsOrderly(c, s, states, steps) ==> Recoverable(c, states[|steps|])
  }

  lemma OnDiskRecoverable(c: Config, s: Vhd, pool: nat)
    requires Structure(c, s, pool) && OnDisk(c, s)
    ensures Recoverable(c, s)
  {
    forall k, l: nat | 0 <= k < |s.log| && Acknowledges(s.log[k], l)
      ensures var f := Recover(c, s.media, l);
              f.Present? && f.w >= 0 && Wrote(s.log, f.w, l) && NotBefore(s.log, f.w, s.log[k].wid, l)
    {
      assert Stored(c, WorldOf(s), s.bat, l, s.log[k].wid);
      EntryOnDisk(c, s, l / c.spb, pool);
    }
  }

  lemma SafeAfter(c: Config, s: Vhd, pool: nat)
    requires Structure(c, s, pool) && Accounts(c, s) && OnDisk(c, s)
    ensures Safe(c, s)
  {
    hide Structure;
    hide Accounts;
    hide OnDisk;
    hide Recoverable;
    forall states, steps | RunsOrderly(c, s, states, steps) ensures Recoverable(c, states[|steps|]) {
      RunKeeps(c, states, steps, pool, |steps|);
      RunKeepsDisk(c, states, steps, pool, |steps|);
      OnDiskRecoverable(c, states[|steps|], pool);
    }
  }

  /** The completion of the zero-bitmap write endangers no acknowledged data, now or later,
      if and only if it does not leave behind a write that may still reach the disk. This
      holds in every state that an orderly run can reach, given another block without
      extent and room to write to it. */
  lemma ZeroFailureDecides(c: Config, states: seq<Vhd>, steps: seq<Step>, pool: nat, i: nat, err: int, b: nat)
    requires Run(c, states, steps) && Opened(c, states[0], pool) && i < |states|
    requires OrderlyTo(states, steps, i)
    requires Enabled(states[i], DoneZero(err)) && Spare(c, states[i], b)
    ensures Safe(c, Next(c, states[i], DoneZero(err))) <==> !LeavesWritesBehind(states[i], err)
  {
    hide Structure;
    hide Accounts;
    hide OnDisk;
    hide Safe;
    RunStructure(c, states, steps, pool, i);
    RunOnDisk(c, states, steps, pool, i);
    SafeIff(c, states[i], err, b, pool);
  }

  lemma SafeIff(c: Config, s: Vhd, err: int, b: nat, pool: nat)
    requires Structure(c, s, pool) && Accounts(c, s) && OnDisk(c, s)
    requires Enabled(s, DoneZero(err)) && Spare(c, s, b)
    ensures Safe(c, Next(c, s, DoneZero(err))) <==> !LeavesWritesBehind(s, err)
  {
    var t := Next(c, s, DoneZero(err));
    StepOk(c, s, DoneZero(err), pool);
    if LeavesWritesBehind(s, err) {
      var states, steps := FailureDestroys(c, s, err, b, pool);
      assert !Recoverable(c, states[10]);
    } else {
      StepAccounts(c, s, DoneZero(err), pool);
      StepOnDisk(c, s, DoneZero(err), pool);
      SafeAfter(c, t, pool);
    }
  }

  lemma FailureDestroys(c: Config, s: Vhd, err: int, b: nat, pool: nat) returns (states: seq<Vhd>, steps: seq<Step>)
    requires Structure(c, s, pool) && OnDisk(c, s)
    requires Enabled(s, DoneZero(err)) && Spare(c, s, b) && LeavesWritesBehind(s, err)
    ensures RunsOrderly(c, Next(c, s, DoneZero(err)), states, steps) && |steps| == 10
    ensures exists k, l: nat :: 0 <= k < |states[10].log| && Acknowledges(states[10].log[k], l) &&
              Recover(c, states[10].media, l) == Damaged
  {
    hide Recover; hide RunsOrderly; hide Next; hide OnDisk;
    var i, r := LeftBehind(c, s, err, pool);
    ZeroFails(c, s, err, pool);
    var t := Next(c, s, DoneZero(err));
    StepOk(c, s, DoneZero(err), pool);
    var sec := b * c.spb + r.sec % c.spb;
    DivUnique(c.spb, b, r.sec % c.spb);
    assert CanReserve(c, t, b);
    states, steps := Destroys(c, t, s.lock.blk, i, r, sec);
  }

  /* ---- from a freshly opened disk ---- */

  /** On every disk without preallocation that has two blocks without extent, two bitmaps
      and two requests, there is such a run from the start. */
  lemma LateWriteDestroysData(c: Config, s: Vhd, b1: nat, b2: nat, err: int, pool: nat)
    returns (states: seq<Vhd>, steps: seq<Step>, k: nat, l: nat)
    requires Opened(c, s, pool) && !c.prealloc && c.cacheSize >= 2 && pool >= 2 && err != 0
    requires b1 < c.maxBat && b2 < c.maxBat && b1 != b2 && b1 !in s.bat && b2 !in s.bat
    ensures Run(c, states, steps) && states[0] == s && |steps| == 12
    ensures k < |states[12].log| && Acknowledges(states[12].log[k], l) && Recover(c, states[12].media, l) == Damaged
    ensures steps[1] == DoneZero(err) && forall j :: 0 <= j < |steps| && j != 1 ==> Orderly(states[j], steps[j])
  {
    hide Next; hide Orderly; hide Enabled; hide Structure; hide OnDisk; hide Accounts; hide Opened; hide Recover;
    hide CanReserve; hide LeavesWritesBehind;
    var sec := b1 * c.spb;
    var s1 := BeforeFailure(c, s, b1, b2, err, pool);
    var rest, more := FailureDestroys(c, s1, err, b2, pool);
    states, steps := [s, s1] + rest, [Request(true, sec, 1), DoneZero(err)] + more;
    k, l :| 0 <= k < |rest[10].log| && Acknowledges(rest[10].log[k], l) && Recover(c, rest[10].media, l) == Damaged;
  }

  /** The first write leaves the disk where its failure would leave that write behind. */
  lemma BeforeFailure(c: Config, s: Vhd, b1: nat, b2: nat, err: int, pool: nat) returns (s1: Vhd)
    requires Opened(c, s, pool) && !c.prealloc && c.cacheSize >= 2 && pool >= 2 && err != 0
    requires b1 < c.maxBat && b2 < c.maxBat && b1 != b2 && b1 !in s.bat && b2 !in s.bat
    ensures var step := Request(true, b1 * c.spb, 1);
            Enabled(s, step) && s1 == Next(c, s, step) && Orderly(s, step)
    ensures Structure(c, s1, pool) && OnDisk(c, s1)
    ensures Enabled(s1, DoneZero(err)) && Spare(c, s1, b2) && LeavesWritesBehind(s1, err)
  {
    hide Structure; hide OnDisk; hide Accounts; hide Next; hide Opened; hide CanReserve; hide LeavesWritesBehind;
    var sec := b1 * c.spb;
    DivUnique(c.spb, b1, 0);
    s1 := Next(c, s, Request(true, sec, 1));
    OpenedReserve(c, s, b1, pool);
    FirstWrite(c, s, sec);
    OpenedOk(c, s, pool);
    StepOk(c, s, Request(true, sec, 1), pool);
    StepOnDisk(c, s, Request(true, sec, 1), pool);
  }

  lemma OpenedReserve(c: Config, s: Vhd, b: nat, pool: nat)
    requires Opened(c, s, pool) && !c.prealloc && c.cacheSize >= 2 && pool >= 2 && b < c.maxBat && b !in s.bat
    ensures CanReserve(c, s, b)
    ensures s.cache == map[] && s.bmFree == c.cacheSize && s.free == pool
  {
  }

  lemma FirstWrite(c: Config, s: Vhd, sec: nat)
    requires CanReserve(c, s, sec / c.spb)
    ensures var t := Next(c, s, Request(true, sec, 1));
            && t.meta.zero == Flying && t.lock.blk == sec / c.spb && t.bat == s.bat
            && t.cache == s.cache[sec / c.spb := FreshBm([OneReq(c, |s.log|, sec, NextOff(c, s.nextDb))], s.lru + 1)]
            && t.bmFree == s.bmFree - 1 && t.free == s.free - 1 && forall err :: err != 0 ==> LeavesWritesBehind(t, err)
  {
    hide Serve;
    hide Gap;
    Writes(c, Emit(s, Issue(true, sec, 1)), |s.log|, sec);
    var r := OneReq(c, |s.log|, sec, NextOff(c, s.nextDb));
    assert r in [r] && !r.Spent();
  }

  /** The smallest such disk. */
  function SmallConfig(): Config { Config(8, 1, 1, 2, 2, 0, false, false, t => 0) }

  function SmallState(): Vhd {
    Vhd(map[], {}, 0, InitLock, MetaIo(Idle, 0, 0, 0, Idle, 0, map[]), map[], 2, 0, 2, [], false,
        Media(map[], a => Zero, (l, a) => false), [])
  }

  lemma SmallDisk()
    ensures Opened(SmallConfig(), SmallState(), 2)
  {
    SmallLayout();
    hide Layout;
  }

  lemma SmallLayout()
    ensures Layout(SmallConfig(), map[], 0)
  {
    assert Geometry(SmallConfig());
  }
}
