/** The main results about the VHD driver, for every run. */
module VhdTheorems {
  import opened Arithmetic
  import opened VhdTypes
  import opened VhdEngine
  import opened VhdInvariants
  import opened VhdStructure
  import opened VhdSafety
  import opened VhdAccounting
  import opened VhdMoves
  import opened VhdLayout
  import opened VhdDisk
  import opened VhdDurability
  import opened VhdLanding
  import opened VhdServing
  import opened VhdTracking

  /** A disk as vhd_open leaves it: nothing cached, nothing in flight, `pool` requests
      free, and a well-formed file. */
  ghost predicate Opened(c: Config, s: Vhd, pool: nat) {
    && s.cache == map[] && s.bmFree == c.cacheSize && s.free == pool && s.raw == [] && s.log == [] && !s.panicked
    && s.lock == InitLock && s.meta.zero == Idle && s.meta.bat == Idle
    && s.media.bat == s.bat && s.batmap <= s.bat.Keys
    && Layout(c, s.bat, s.nextDb)
    && (forall b :: b in s.bat ==> DiskBitmap(c, WorldOf(s), s.bat[b], b, BitsAt(s.media.disk, s.bat[b])))
    && (forall b :: b in s.batmap ==> Full(c) <= BitsAt(s.media.disk, s.bat[b]))
  }

  /** A run: its states and the steps between them. */
  ghost predicate Run(c: Config, states: seq<Vhd>, steps: seq<Step>) {
    |states| == |steps| + 1 &&
    forall i :: 0 <= i < |steps| ==> Enabled(states[i], steps[i]) && states[i + 1] == Next(c, states[i], steps[i])
  }

  /** No zero-bitmap write fails while another write of its transaction may still reach
      the disk. */
  ghost predicate Orderly(s: Vhd, step: Step) { step.DoneZero? ==> !LeavesWritesBehind(s, step.err) }

  ghost predicate OrderlyTo(states: seq<Vhd>, steps: seq<Step>, i: nat) {
    i < |states| && i <= |steps| && forall j :: 0 <= j < i ==> Orderly(states[j], steps[j])
  }

  /* ---- steps ---- */

  lemma PutGoes(s: Vhd, s1: Vhd, k: Blk, k': Blk)
    requires s1.log == s.log && k'.b in s1.cache && k.out == [] && Stays(k, k')
    ensures Goes(s, Put(s1, k'))
  {
    var t := Put(s1, k');
    forall i | |s.log| <= i < |t.log| ensures !t.log[i].Issue? {
      assert t.log[i] == k'.out[i - |s.log|] && k'.out[i - |s.log|] in k'.out;
    }
  }

  lemma DoneGoes(s: Vhd, s1: Vhd, t: Vhd, rs: seq<Req>, error: int)
    requires Goes(s, s1) && t.log == s1.log + DoneEvs(rs, error)
    ensures Goes(s, t)
  {
    assert t.log[..|s.log|] == s1.log[..|s.log|];
    forall i | |s.log| <= i < |t.log| ensures !t.log[i].Issue? {
      if i < |s1.log| { assert t.log[i] == s1.log[i]; } else { assert t.log[i] == DoneEvs(rs, error)[i - |s1.log|]; }
    }
  }

  lemma {:induction false} ReplayGoes(c: Config, s: Vhd, rs: seq<Req>, pool: nat)
    requires |rs| <= pool && Structure(c, s, pool - |rs|)
    ensures Goes(s, Replay(c, s, rs))
    decreases |rs|
  {
    hide Structure;
    hide Serve;
    if rs != [] {
      var r := rs[0];
      var s1 := s.(free := s.free + 1);
      FreeOk(c, s, pool - |rs|);
      ServeOk(c, s1, r.op == OpWrite, r.wid, r.sec, r.secs, pool - |rs| + 1);
      ServeGoes(c, s1, r.op == OpWrite, r.wid, r.sec, r.secs, pool - |rs| + 1);
      var t := Serve(c, s1, r.op == OpWrite, r.wid, r.sec, r.secs);
      ReplayGoes(c, t, rs[1..], pool);
      GoesTrans(s1, t, Replay(c, t, rs[1..]));
    }
  }

  lemma DoneBitmapReadGoes(c: Config, s: Vhd, b: nat, err: int, pool: nat)
    requires Structure(c, s, pool) && b in s.cache && s.cache[b].reading
    ensures Goes(s, FinishBitmapRead(c, s, b, err))
  {
    if err != 0 {
      DoneGoes(s, s, FinishBitmapRead(c, s, b, err), s.cache[b].waiting, err);
    } else {
      hide Structure;
      BitmapLoadedOk(c, s, b, pool);
      ReplayGoes(c, BitmapLoaded(c, s, b), s.cache[b].waiting, pool);
      var t := Replay(c, BitmapLoaded(c, s, b), s.cache[b].waiting);
      assert t.log + [] == t.log;
    }
  }

  lemma DoneZeroGoes(c: Config, s: Vhd, err: int, pool: nat)
    requires Structure(c, s, pool) && s.meta.zero != Idle
    ensures Goes(s, FinishZeroBmWrite(c, s, err))
  {
    hide ZeroWritten;
    assert BlockOk(c, s, s.lock.blk);
    hide Structure;
    var s1 := AfterZeroWrite(s, err);
    var k := At(s1, s.lock.blk);
    ZeroWrittenStays(c, k, err);
    PutGoes(s, s1, k, ZeroWritten(c, k, err));
  }

  lemma DoneBatGoes(c: Config, s: Vhd, err: int, pool: nat)
    requires Structure(c, s, pool) && s.meta.bat != Idle
    ensures Goes(s, FinishBatWrite(c, s, err))
  {
    hide BatWritten;
    assert BlockOk(c, s, s.lock.blk);
    hide Structure;
    var s1 := AfterBat(c, s, err);
    var k := At(s1, s.lock.blk);
    BatWrittenStays(c, k, err);
    PutGoes(s, s1, k, BatWritten(c, k, err));
  }

  /** Except for the new request, a step adds only answers to the history. */
  lemma StepGoes(c: Config, s: Vhd, step: Step, pool: nat)
    requires Structure(c, s, pool) && Enabled(s, step) && !step.Request?
    ensures Goes(s, Next(c, s, step))
  {
    hide Structure;
    hide TxWriteDone;
    hide BitmapWritten;
    hide FinishZeroBmWrite;
    hide FinishBatWrite;
    hide FinishBitmapRead;
    match step
    case DoneTx(b, i, err) =>
      TxWriteDoneStays(c, At(s, b), i, err);
      PutGoes(s, Sync(s, s.cache[b].tx.reqs[i], err), At(s, b), TxWriteDone(c, At(s, b), i, err));
    case DoneQueue(b, i, err) =>
    case DoneOther(i, err) =>
      if s.raw[i].op != OpPad { DoneGoes(s, s, FinishRaw(s, i, err), [s.raw[i].(err := err)], 0); }
    case DoneBitmapRead(b, err) => DoneBitmapReadGoes(c, s, b, err, pool);
    case DoneBitmapWrite(b, err) =>
      BitmapWrittenStays(c, At(s, b), err);
      PutGoes(s, s, At(s, b), BitmapWritten(c, At(s, b), err));
    case DoneZero(err) => DoneZeroGoes(c, s, err, pool);
    case DoneBat(err) => DoneBatGoes(c, s, err, pool);
    case _ =>
  }

  lemma StepAccounts(c: Config, s: Vhd, step: Step, pool: nat)
    requires Structure(c, s, pool) && Enabled(s, step) && Accounts(c, s)
    ensures Accounts(c, Next(c, s, step))
  {
    hide Structure;
    hide Total;
    hide Next;
    var t := Next(c, s, step);
    var s1 := if step.Request? then Emit(s, Issue(step.write, step.sec, step.secs)) else s;
    StepGoes'(c, s, step, pool);
    forall w: nat, l: nat ensures Total(c, t, w, l) == if Issued(t.log, w, l) then 1 else 0 {
      StepTotal(c, s, step, pool, w, l);
      GoesIssued(s1, t, w, l);
      assert Total(c, s, w, l) == if Issued(s.log, w, l) then 1 else 0;
      if w < |s.log| { assert s1.log[w] == s.log[w]; }
    }
  }

  lemma StepGoes'(c: Config, s: Vhd, step: Step, pool: nat)
    requires Structure(c, s, pool) && Enabled(s, step)
    ensures Goes(if step.Request? then Emit(s, Issue(step.write, step.sec, step.secs)) else s, Next(c, s, step))
  {
    if step.Request? {
      var s1 := Emit(s, Issue(step.write, step.sec, step.secs));
      MediaIrrelevant(c, s, s1, pool);
      ServeGoes(c, s1, step.write, |s.log|, step.sec, step.secs, pool);
    } else {
      StepGoes(c, s, step, pool);
    }
  }

  lemma AtMostOf(c: Config, s: Vhd)
    requires Accounts(c, s)
    ensures AtMost(c, s)
  {
  }

  lemma StepOnDisk(c: Config, s: Vhd, step: Step, pool: nat)
    requires Structure(c, s, pool) && Enabled(s, step) && Accounts(c, s) && OnDisk(c, s) && Orderly(s, step)
    ensures OnDisk(c, Next(c, s, step))
  {
    hide Structure;
    hide OnDisk;
    hide Accounts;
    hide AtMost;
    AtMostOf(c, s);
    match step
    case Request(write, sec, n) => RequestD(c, s, write, sec, n, pool);
    case LandTx(b, i) => LandTxD(c, s, b, i, pool);
    case LandQueue(b, i) => LandQueueD(c, s, b, i, pool);
    case LandOther(i) =>
      match s.raw[i].op {
        case OpRead => LandReadD(c, s, i, pool);
        case OpWrite => LandRawWriteD(c, s, i, pool);
        case OpPad => LandPadD(c, s, i, pool);
      }
    case LandBitmap(b) => LandBitmapD(c, s, b, pool);
    case LandZero => LandZeroD(c, s, pool);
    case LandBat => LandBatD(c, s);
    case DoneTx(b, i, err) => DoneTxD(c, s, b, i, err, pool);
    case DoneQueue(b, i, err) => DoneQueueD(c, s, b, i, err, pool);
    case DoneOther(i, err) => DoneOtherD(c, s, i, err, pool);
    case DoneBitmapRead(b, err) => DoneBitmapReadD(c, s, b, err, pool);
    case DoneBitmapWrite(b, err) => DoneBitmapWriteD(c, s, b, err, pool);
    case DoneZero(err) => DoneZeroD(c, s, err, pool);
    case DoneBat(err) => DoneBatD(c, s, err, pool);
  }

  /* ---- runs ---- */

  lemma OpenedOk(c: Config, s: Vhd, pool: nat)
    requires Opened(c, s, pool)
    ensures Structure(c, s, pool) && Accounts(c, s) && OnDisk(c, s)
  {
    forall b ensures BlkD(c, s, b) {
      assert b in s.bat ==> DiskBitmap(c, WorldOf(s), s.bat[b], b, BitsAt(s.media.disk, s.bat[b]));
    }
  }

  /** From any state that satisfies the invariants in memory, every run keeps them. */
  lemma {:induction false} RunKeeps(c: Config, states: seq<Vhd>, steps: seq<Step>, pool: nat, i: nat)
    requires Run(c, states, steps) && Structure(c, states[0], pool) && Accounts(c, states[0]) && i < |states|
    ensures Structure(c, states[i], pool) && Accounts(c, states[i])
  {
    hide Structure;
    hide Accounts;
    if i > 0 {
      RunKeeps(c, states, steps, pool, i - 1);
      StepOk(c, states[i - 1], steps[i - 1], pool);
      StepAccounts(c, states[i - 1], steps[i - 1], pool);
    }
  }

  lemma {:induction false} RunKeepsDisk(c: Config, states: seq<Vhd>, steps: seq<Step>, pool: nat, i: nat)
    requires Run(c, states, steps) && Structure(c, states[0], pool) && Accounts(c, states[0]) && i < |states|
    requires OnDisk(c, states[0]) && OrderlyTo(states, steps, i)
    ensures OnDisk(c, states[i])
  {
    hide Structure;
    hide Accounts;
    hide OnDisk;
    if i > 0 {
      RunKeepsDisk(c, states, steps, pool, i - 1);
      RunKeeps(c, states, steps, pool, i - 1);
      StepOnDisk(c, states[i - 1], steps[i - 1], pool);
    }
  }

  lemma RunStructure(c: Config, states: seq<Vhd>, steps: seq<Step>, pool: nat, i: nat)
    requires Run(c, states, steps) && Opened(c, states[0], pool) && i < |states|
    ensures Structure(c, states[i], pool) && Accounts(c, states[i])
  {
    hide Structure;
    hide Accounts;
    hide Opened;
    OpenedOk(c, states[0], pool);
    RunKeeps(c, states, steps, pool, i);
  }

  lemma RunOnDisk(c: Config, states: seq<Vhd>, steps: seq<Step>, pool: nat, i: nat)
    requires Run(c, states, steps) && Opened(c, states[0], pool) && i < |states|
    requires OrderlyTo(states, steps, i)
    ensures OnDisk(c, states[i])
  {
    hide Structure;
    hide Accounts;
    hide Opened;
    hide OnDisk;
    OpenedOk(c, states[0], pool);
    RunKeepsDisk(c, states, steps, pool, i);
  }

  lemma {:induction false} RunKeepsTracked(c: Config, states: seq<Vhd>, steps: seq<Step>, pool: nat, i: nat)
    requires Run(c, states, steps) && Structure(c, states[0], pool) && Accounts(c, states[0]) && i < |states|
    requires Tracked(c, states[0])
    ensures Tracked(c, states[i])
  {
    hide Structure;
    hide Accounts;
    hide Tracked;
    if i > 0 {
      RunKeepsTracked(c, states, steps, pool, i - 1);
      RunKeeps(c, states, steps, pool, i - 1);
      StepTracked(c, states[i - 1], steps[i - 1], pool);
    }
  }

  /** In every run, whatever fails. */
  lemma RunTracked(c: Config, states: seq<Vhd>, steps: seq<Step>, pool: nat, i: nat)
    requires Run(c, states, steps) && Opened(c, states[0], pool) && i < |states|
    ensures Tracked(c, states[i])
  {
    hide Structure;
    hide Accounts;
    hide Opened;
    hide OnDisk;
    hide Tracked;
    OpenedOk(c, states[0], pool);
    OnDiskTracked(c, states[0], pool);
    RunKeepsTracked(c, states, steps, pool, i);
  }

  /* ---- main results ---- */

  /** No assertion of the driver fires, in any run, with any I/O errors. The bitmap
      cache and the request pool never lose or gain an element. */
  lemma NoAssertionFires(c: Config, states: seq<Vhd>, steps: seq<Step>, pool: nat, i: nat)
    requires Run(c, states, steps) && Opened(c, states[0], pool) && i < |states|
    ensures !states[i].panicked
    ensures |states[i].cache| + states[i].bmFree == c.cacheSize
    ensures states[i].free + |states[i].raw| + CacheLoad(states[i].cache) == pool
  {
    RunStructure(c, states, steps, pool, i);
  }

  /** Every sector of every request is in one place: on one list, or in one answer. */
  lemma ExactlyOnce(c: Config, states: seq<Vhd>, steps: seq<Step>, pool: nat, i: nat, w: nat, l: nat)
    requires Run(c, states, steps) && Opened(c, states[0], pool) && i < |states|
    ensures Total(c, states[i], w, l) == if Issued(states[i].log, w, l) then 1 else 0
  {
    RunStructure(c, states, steps, pool, i);
  }

  /** When nothing is left on any list, every sector has had its one answer. */
  lemma {:induction false} AllAnswered(c: Config, states: seq<Vhd>, steps: seq<Step>, pool: nat, i: nat, w: nat, l: nat)
    requires Run(c, states, steps) && Opened(c, states[0], pool) && i < |states| && states[i].free == pool
    requires Issued(states[i].log, w, l)
    ensures CountEvs(states[i].log, w, l) == 1
  {
    var s := states[i];
    RunStructure(c, states, steps, pool, i);
    assert s.raw == [];
    if l / c.spb in s.cache {
      CacheLoadRemove(s.cache, l / c.spb);
      NoLoadNoCount(s.cache[l / c.spb], w, l);
    }
  }

  /** The transaction invariant: the staged bitmap is the committed one with the
      sectors of the writes that finished without error; it is the committed one when
      no transaction is live. */
  lemma StagedBitmap(c: Config, states: seq<Vhd>, steps: seq<Step>, pool: nat, i: nat, b: nat)
    requires Run(c, states, steps) && Opened(c, states[0], pool) && i < |states| && b in states[i].cache
    requires !states[i].cache[b].reading
    ensures var bm := states[i].cache[b];
            && bm.shadow == bm.bits + Staged(c.spb, bm.tx.reqs)
            && (!bm.tx.live ==> bm.shadow == bm.bits)
            && (bm.write != Idle ==> forall r :: r in bm.tx.reqs ==> r.finished)
  {
    RunStructure(c, states, steps, pool, i);
    var bm := states[i].cache[b];
    assert BlockOk(c, states[i], b);
    if bm.write != Idle {
      forall r | r in bm.tx.reqs ensures r.finished {
        var j :| 0 <= j < |bm.tx.reqs| && bm.tx.reqs[j] == r;
        AllFinished(bm.tx.reqs, j);
      }
    }
  }

  /** Reading sector l from the file alone, through the BAT and the bitmap on the disk: it
      is not in this file, or what is there is data of sector l, of write w or, if w is -1,
      from before, or it is something else. */
  datatype Found = Absent | Present(w: int) | Damaged

  ghost function Recover(c: Config, m: Media, l: nat): Found {
    var b := l / c.spb;
    if b !in m.bat || l % c.spb !in BitsAt(m.disk, m.bat[b]) then Absent
    else
      var x := m.disk(Loc(c, m.bat[b], l));
      if x.Data? && x.l == l then Present(x.w) else Damaged
  }

  /** Durability. After any orderly run, a write request w answered with success for
      sector l can be recovered from the file alone: what is found there was written
      for l, by a write that had not been answered when w was issued. */
  lemma Durability(c: Config, states: seq<Vhd>, steps: seq<Step>, pool: nat, i: nat, k: nat, l: nat)
    requires Run(c, states, steps) && Opened(c, states[0], pool) && i < |states|
    requires OrderlyTo(states, steps, i)
    requires k < |states[i].log| && Acknowledges(states[i].log[k], l)
    ensures var s := states[i];
            var f := Recover(c, s.media, l);
            f.Present? && f.w >= 0 && Wrote(s.log, f.w, l) && NotBefore(s.log, f.w, s.log[k].wid, l)
  {
    RunOnDisk(c, states, steps, pool, i);
    var s := states[i];
    assert Stored(c, WorldOf(s), s.bat, l, s.log[k].wid);
    LockedElsewhere(c, states, steps, pool, i, l / c.spb);
  }

  lemma EntryOnDisk(c: Config, s: Vhd, b: nat, pool: nat)
    requires Structure(c, s, pool) && MetaD(c, s) && b in s.bat
    ensures b in s.media.bat && s.media.bat[b] == s.bat[b]
  {
    if s.lock.locked { HolderUnallocated(c, s, pool); }
  }

  /** A BAT entry on its way to the disk is for a block that has none in memory. */
  lemma LockedElsewhere(c: Config, states: seq<Vhd>, steps: seq<Step>, pool: nat, i: nat, b: nat)
    requires Run(c, states, steps) && Opened(c, states[0], pool) && i < |states|
    requires b in states[i].bat
    ensures b in states[i].media.bat && states[i].media.bat[b] == states[i].bat[b]
  {
    RunTracked(c, states, steps, pool, i);
    RunStructure(c, states, steps, pool, i);
    EntryOnDisk(c, states[i], b, pool);
  }

  /** If every other write of sector l was answered before w was issued, it is w's
      data that is found. */
  lemma LastWriteFound(c: Config, states: seq<Vhd>, steps: seq<Step>, pool: nat, i: nat, k: nat, l: nat)
    requires Run(c, states, steps) && Opened(c, states[0], pool) && i < |states|
    requires OrderlyTo(states, steps, i)
    requires k < |states[i].log| && Acknowledges(states[i].log[k], l)
    requires forall v: nat | v != states[i].log[k].wid && Wrote(states[i].log, v, l) ::
               !NotBefore(states[i].log, v, states[i].log[k].wid, l)
    ensures Recover(c, states[i].media, l) == Present(states[i].log[k].wid)
  {
    Durability(c, states, steps, pool, i, k, l);
  }

  /** Crash ordering. At every moment of every run, a BAT entry on the disk points at an
      initialised bitmap; and as long as the run is orderly, a bit set there has its
      sector's data in place, by a data write that has completed. */
  lemma CrashOrdering(c: Config, states: seq<Vhd>, steps: seq<Step>, pool: nat, i: nat, b: nat)
    requires Run(c, states, steps) && Opened(c, states[0], pool) && i < |states|
    requires b in states[i].media.bat
    ensures var s := states[i];
            var off := s.media.bat[b];
            BitmapAt(c, s.media.disk, off, BitsAt(s.media.disk, off)) && BitsAt(s.media.disk, off) <= Full(c)
    ensures OrderlyTo(states, steps, i) ==>
              var s := states[i];
              var off := s.media.bat[b];
              Backed(c, WorldOf(s), off, b, BitsAt(s.media.disk, off))
  {
    hide Run;
    hide Opened;
    hide Orderly;
    var s := states[i];
    RunStructure(c, states, steps, pool, i);
    RunTracked(c, states, steps, pool, i);
    EntryPlace(c, s, b, pool);
    assert MapOf(c, s, b);
    if OrderlyTo(states, steps, i) {
      RunOnDisk(c, states, steps, pool, i);
      EntryBacked(c, s, b);
    }
  }

  /** An entry on the disk is that of an extent with an initialised bitmap. */
  lemma EntryPlace(c: Config, s: Vhd, b: nat, pool: nat)
    requires Structure(c, s, pool) && MetaD(c, s) && b in s.media.bat
    ensures PlaceOf(s, b) == Place(s.media.bat[b], true)
  {
    if s.lock.locked { HolderUnallocated(c, s, pool); }
    if b !in s.bat { BatHolder(c, s, pool); }
  }

  lemma EntryBacked(c: Config, s: Vhd, b: nat)
    requires OnDisk(c, s) && PlaceOf(s, b).Place? && PlaceOf(s, b).ready
    ensures Backed(c, WorldOf(s), PlaceOf(s, b).off, b, BitsAt(s.media.disk, PlaceOf(s, b).off))
  {
    assert BlkD(c, s, b);
  }

  /** A block that the batmap calls full has every bit set on the disk. */
  lemma BatmapFull(c: Config, states: seq<Vhd>, steps: seq<Step>, pool: nat, i: nat, b: nat)
    requires Run(c, states, steps) && Opened(c, states[0], pool) && i < |states|
    requires b in states[i].batmap
    ensures b in states[i].media.bat && BitsAt(states[i].media.disk, states[i].media.bat[b]) == Full(c)
  {
    hide Run;
    hide Opened;
    RunTracked(c, states, steps, pool, i);
    RunStructure(c, states, steps, pool, i);
    assert MapOf(c, states[i], b);
    EntryOnDisk(c, states[i], b, pool);
  }

  /** No two blocks ever share a sector of the file, on the disk or about to be. */
  lemma ExtentsApart(c: Config, states: seq<Vhd>, steps: seq<Step>, pool: nat, i: nat, x: nat, y: nat)
    requires Run(c, states, steps) && Opened(c, states[0], pool) && i < |states|
    requires x != y && PlaceOf(states[i], x).Place? && PlaceOf(states[i], y).Place?
    ensures Apart(c, PlaceOf(states[i], x).off, PlaceOf(states[i], y).off)
  {
    RunTracked(c, states, steps, pool, i);
    PlacesApart(c, states[i], x, y);
  }
}
