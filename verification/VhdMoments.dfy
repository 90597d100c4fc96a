/** A data read returns what the file held at one moment between its issue and its
    completion. */
module VhdMoments {
  import opened VhdTypes
  import opened VhdEngine
  import opened VhdInvariants
  import opened VhdAccounting
  import opened VhdDisk
  import opened VhdLanding
  import opened VhdTracking
  import opened VhdTheorems
  import opened VhdReadback

  /** Read r, issued before s, has found for each of its sectors what the BAT and the bitmap
      on the disk, in state s, say is that sector's. */
  ghost predicate FoundIn(c: Config, s: Vhd, r: Req) {
    r.wid < |s.log| && |r.got| == r.secs && forall k :: 0 <= k < r.secs ==> FoundSector(c, s, r, k)
  }

  ghost predicate FoundSector(c: Config, s: Vhd, r: Req, k: nat)
    requires k < |r.got|
  {
    var l := r.sec + k;
    BitOnDisk(c, s.media.disk, s.media.bat, l) && r.got[k] == s.media.disk(Loc(c, s.media.bat[l / c.spb], l))
  }

  /** What is found there is data of its sectors. */
  ghost predicate SoundIn(c: Config, s: Vhd, r: Req) {
    forall k :: 0 <= k < r.secs ==> SoundSector(c, s, r, k)
  }

  ghost predicate SoundSector(c: Config, s: Vhd, r: Req, k: nat) { Recover(c, s.media, r.sec + k).Present? }

  ghost predicate FoundOnce(c: Config, states: seq<Vhd>, steps: seq<Step>, i: nat, r: Req) {
    exists m :: 0 <= m <= i && m < |states| && FoundAt(c, states, steps, m, r)
  }

  ghost predicate FoundAt(c: Config, states: seq<Vhd>, steps: seq<Step>, m: nat, r: Req)
    requires m < |states|
  {
    FoundIn(c, states[m], r) && (OrderlyTo(states, steps, m) ==> SoundIn(c, states[m], r))
  }

  /** No other request of t than those of s has landed. */
  ghost predicate NoneLanded(s: Vhd, t: Vhd) { forall r :: r in t.raw && r !in s.raw ==> !r.landed }

  lemma NoneTrans(r: Vhd, s: Vhd, t: Vhd)
    requires NoneLanded(r, s) && NoneLanded(s, t)
    ensures NoneLanded(r, t)
  {
  }

  lemma SameNone(s: Vhd, t: Vhd)
    requires t.raw == s.raw
    ensures NoneLanded(s, t)
  {
  }

  /* ---- serving submits requests that have not landed ---- */

  lemma InstallRaw(c: Config, s: Vhd, b: nat, bm: Bm)
    ensures InstallBitmap(c, s, b, bm).0.raw == s.raw
  {
  }

  lemma AllocationRaw(c: Config, s: Vhd, b: nat)
    ensures AllocateBlock(c, s, b).0.raw == s.raw && UpdateBat(c, s, b).0.raw == s.raw
  {
    hide SameMemory;
    AllocationSame(c, s, b);
    SameRaw(s, AllocateBlock(c, s, b).0);
    SameRaw(s, UpdateBat(c, s, b).0);
    hide AllocateBlock;
    hide UpdateBat;
  }

  lemma SameRaw(s: Vhd, t: Vhd)
    requires SameMemory(s, t)
    ensures t.raw == s.raw
  {
  }

  lemma TouchRaw(c: Config, s: Vhd, sec: nat, write: bool)
    ensures ReadBitmapCache(c, s, sec, write).0.raw == s.raw
  {
  }

  lemma QueueRaw(c: Config, s: Vhd, r: Req)
    ensures QueueRequest(c, s, r).0.raw == s.raw
  {
  }

  lemma DataWriteNone(c: Config, s: Vhd, r: Req, updBat: bool, updBitmap: bool)
    requires !r.landed
    ensures NoneLanded(s, ScheduleDataWrite(c, s, r, updBat, updBitmap).0)
  {
    hide AllocateBlock;
    hide UpdateBat;
    hide JoinTx;
    hide At;
    AllocationRaw(c, s, r.sec / c.spb);
  }

  lemma ReadTurnNone(c: Config, s: Vhd, wid: nat, sec: nat, n: nat)
    requires 0 < n
    ensures NoneLanded(s, ReadTurn(c, s, wid, sec, n).0)
  {
    hide ReadBitmapCache;
    hide QueueRequest;
    hide InstallBitmap;
    var (s1, hit) := ReadBitmapCache(c, s, sec, false);
    TouchRaw(c, s, sec, false);
    var s0 := Check(s1, sec / c.spb in s1.bat && sec / c.spb !in s1.cache);
    InstallRaw(c, s0, sec / c.spb, InitBm.(reading := true, locked := true));
    var s2 := ScheduleBitmapRead(c, s1, sec / c.spb).0;
    QueueRaw(c, s2, Piece(false, wid, sec, ToBlockEnd(c, sec, n)));
    QueueRaw(c, s1, Piece(false, wid, sec, ToBlockEnd(c, sec, n)));
  }

  lemma WriteTurnNone(c: Config, s: Vhd, wid: nat, sec: nat, n: nat)
    requires 0 < n
    ensures NoneLanded(s, WriteTurn(c, s, wid, sec, n).0)
  {
    hide ReadBitmapCache;
    hide QueueRequest;
    hide InstallBitmap;
    hide ScheduleDataWrite;
    var (s1, hit) := ReadBitmapCache(c, s, sec, true);
    TouchRaw(c, s, sec, true);
    var s0 := Check(s1, sec / c.spb in s1.bat && sec / c.spb !in s1.cache);
    InstallRaw(c, s0, sec / c.spb, InitBm.(reading := true, locked := true));
    var s2 := ScheduleBitmapRead(c, s1, sec / c.spb).0;
    QueueRaw(c, s2, Piece(true, wid, sec, ToBlockEnd(c, sec, n)));
    QueueRaw(c, s1, Piece(true, wid, sec, ToBlockEnd(c, sec, n)));
    match hit
    case BatClear => DataWriteNone(c, s1, Piece(true, wid, sec, ToBlockEnd(c, sec, n)), true, true);
    case BitClear => DataWriteNone(c, s1, Piece(true, wid, sec, Span(c, s1, sec, n, false)), false, true);
    case BitSet => DataWriteNone(c, s1, Piece(true, wid, sec, Span(c, s1, sec, n, true)), false, false);
    case _ =>
  }

  lemma {:induction false} ServeNone(c: Config, s: Vhd, write: bool, wid: nat, sec: nat, n: nat)
    ensures NoneLanded(s, Serve(c, s, write, wid, sec, n))
    decreases n
  {
    hide ReadTurn;
    hide WriteTurn;
    hide NoneLanded;
    if n == 0 {
      SameNone(s, s);
    } else {
      if write { WriteTurnNone(c, s, wid, sec, n); } else { ReadTurnNone(c, s, wid, sec, n); }
      var (t, k, err) := Turn(c, s, write, wid, sec, n);
      var u := Serve(c, s, write, wid, sec, n);
      if err != 0 { SameNone(t, u); } else { ServeNone(c, t, write, wid, sec + k, n - k); }
      NoneTrans(s, t, u);
    }
  }

  lemma {:induction false} ReplayNone(c: Config, s: Vhd, rs: seq<Req>)
    ensures NoneLanded(s, Replay(c, s, rs))
    decreases |rs|
  {
    hide Serve;
    hide NoneLanded;
    if rs == [] {
      SameNone(s, s);
    } else {
      var r := rs[0];
      var s1 := s.(free := s.free + 1);
      SameNone(s, s1);
      ServeNone(c, s1, r.op == OpWrite, r.wid, r.sec, r.secs);
      var t := Serve(c, s1, r.op == OpWrite, r.wid, r.sec, r.secs);
      ReplayNone(c, t, rs[1..]);
      NoneTrans(s, s1, t);
      NoneTrans(s, t, Replay(c, t, rs[1..]));
    }
  }

  /* ---- steps ---- */

  lemma BitmapReadNone(c: Config, s: Vhd, b: nat, err: int)
    requires b in s.cache
    ensures NoneLanded(s, FinishBitmapRead(c, s, b, err))
  {
    hide Replay;
    if err == 0 {
      var s1 := BitmapLoaded(c, s, b);
      ReplayNone(c, s1, s.cache[b].waiting);
      SameNone(s, s1);
      var t := Replay(c, s1, s.cache[b].waiting);
      NoneTrans(s, s1, t);
      SameNone(t, UnlockCached(t, b));
      NoneTrans(s, t, UnlockCached(t, b));
    }
  }

  /** The only request that lands in a step is the one whose landing the step is. */
  lemma StepLands(c: Config, s: Vhd, step: Step)
    requires Enabled(s, step)
    ensures step.LandOther? ==>
              forall r :: r in Next(c, s, step).raw ==> r in s.raw || r == LandRaw(c, s, step.i).raw[step.i]
    ensures !step.LandOther? ==> NoneLanded(s, Next(c, s, step))
  {
    hide Serve;
    hide FinishBitmapRead;
    hide TxWriteDone;
    hide BitmapWritten;
    hide ZeroWritten;
    hide BatWritten;
    match step
    case Request(write, sec, n) =>
      var s1 := Emit(s, Issue(write, sec, n));
      ServeNone(c, s1, write, |s.log|, sec, n);
      SameNone(s, s1);
      NoneTrans(s, s1, Serve(c, s1, write, |s.log|, sec, n));
    case DoneBitmapRead(b, err) => BitmapReadNone(c, s, b, err);
    case _ =>
  }

  /** The moment at which a read lands is the one it returns. */
  lemma LandsFound(c: Config, s: Vhd, j: nat, pool: nat)
    requires j < |s.raw| && s.raw[j].op == OpRead
    requires Structure(c, s, pool) && AtMost(c, s) && Tracked(c, s)
    ensures FoundIn(c, s, LandRaw(c, s, j).raw[j])
    ensures OnDisk(c, s) ==> SoundIn(c, s, LandRaw(c, s, j).raw[j])
  {
    hide Recover;
    hide BitOnDisk;
    hide Structure;
    hide Tracked;
    hide OnDisk;
    hide AtMost;
    var r := s.raw[j];
    ReadIssued(c, s, j, pool);
    forall k | 0 <= k < r.secs ensures FoundSector(c, s, LandRaw(c, s, j).raw[j], k) { RawReadPlace(c, s, j, k, pool); }
    if OnDisk(c, s) {
      forall k | 0 <= k < r.secs ensures SoundSector(c, s, LandRaw(c, s, j).raw[j], k) {
        RawReadAt(c, s, j, k, pool);
      }
    }
  }

  lemma ReadIssued(c: Config, s: Vhd, j: nat, pool: nat)
    requires j < |s.raw| && s.raw[j].op == OpRead
    requires Structure(c, s, pool) && AtMost(c, s)
    ensures s.raw[j].wid < |s.log|
  {
    var r := s.raw[j];
    assert r in s.raw && RawShape(c, r);
    OneRawCovers(s.raw, j, r.wid, r.sec);
    CountedUnsettled(c, s, r.wid, r.sec);
  }

  lemma {:induction false} RunFound(c: Config, states: seq<Vhd>, steps: seq<Step>, pool: nat, i: nat)
    requires Run(c, states, steps) && Opened(c, states[0], pool) && i < |states|
    ensures forall r :: r in states[i].raw && r.op == OpRead && r.landed ==> FoundOnce(c, states, steps, i, r)
  {
    hide FoundAt;
    hide Structure;
    hide Accounts;
    hide OnDisk;
    hide Tracked;
    if i > 0 {
      hide Opened;
      hide Next;
      var (s, t, step) := (states[i - 1], states[i], steps[i - 1]);
      RunFound(c, states, steps, pool, i - 1);
      StepLands(c, s, step);
      forall r | r in t.raw && r.op == OpRead && r.landed ensures FoundOnce(c, states, steps, i, r) {
        if r in s.raw {
          assert FoundOnce(c, states, steps, i - 1, r);
        } else {
          LandedFound(c, states, steps, pool, i - 1);
          assert FoundAt(c, states, steps, i - 1, r);
        }
      }
    }
  }

  /** The read that lands in step i. */
  lemma LandedFound(c: Config, states: seq<Vhd>, steps: seq<Step>, pool: nat, i: nat)
    requires Run(c, states, steps) && Opened(c, states[0], pool) && i < |steps| && steps[i].LandOther?
    requires states[i].raw[steps[i].i].op == OpRead
    ensures FoundAt(c, states, steps, i, LandRaw(c, states[i], steps[i].i).raw[steps[i].i])
  {
    hide FoundIn;
    hide SoundIn;
    hide Structure;
    hide Accounts;
    hide AtMost;
    hide OnDisk;
    hide Tracked;
    hide Opened;
    RunStructure(c, states, steps, pool, i);
    AtMostOf(c, states[i]);
    RunTracked(c, states, steps, pool, i);
    if OrderlyTo(states, steps, i) { RunOnDisk(c, states, steps, pool, i); }
    LandsFound(c, states[i], steps[i].i, pool);
  }

  /** A data read that completes with success returns, for all its sectors, what the file
      held for them at one moment after it had been issued; and if the run had been orderly
      until then, it is data of those sectors. */
  lemma ReadReturnsMoment(c: Config, states: seq<Vhd>, steps: seq<Step>, pool: nat, i: nat, j: nat)
    requires Run(c, states, steps) && Opened(c, states[0], pool) && i < |steps| && steps[i] == DoneOther(j, 0)
    requires states[i].raw[j].op == OpRead
    ensures FoundOnce(c, states, steps, i, states[i].raw[j])
  {
    RunFound(c, states, steps, pool, i);
    assert states[i].raw[j] in states[i].raw;
  }
}
