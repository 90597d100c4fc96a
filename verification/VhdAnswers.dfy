/** Errors are never made up: in every run, an answer with an error has been refused by the turn
    that gave it, or has the error of an I/O that failed. */
module VhdAnswers {
  import opened VhdTypes
  import opened VhdEngine
  import opened VhdInvariants
  import opened VhdAccounting
  import opened VhdTheorems
  import opened VhdSafety
  import opened VhdErrors
  import opened VhdLocks

  /** What has failed of block b in the first i steps. */
  ghost function FaultsTo(c: Config, states: seq<Vhd>, steps: seq<Step>, b: nat, i: nat): set<Fault>
    requires Run(c, states, steps) && i <= |steps|
  {
    if i == 0 then {} else FaultsTo(c, states, steps, b, i - 1) + Faults(states[i - 1], steps[i - 1], b)
  }

  /** One of the first i steps has failed so, for block b. */
  ghost predicate Happened(c: Config, states: seq<Vhd>, steps: seq<Step>, b: nat, i: nat, f: Fault)
    requires Run(c, states, steps) && i <= |steps|
  {
    exists j :: 0 <= j < i && f in Faults(states[j], steps[j], b)
  }

  lemma {:induction false} FaultHappened(c: Config, states: seq<Vhd>, steps: seq<Step>, b: nat, i: nat, f: Fault)
    requires Run(c, states, steps) && i <= |steps| && f in FaultsTo(c, states, steps, b, i)
    ensures Happened(c, states, steps, b, i, f)
  {
    hide Faults;
    if f in Faults(states[i - 1], steps[i - 1], b) {
    } else {
      FaultHappened(c, states, steps, b, i - 1, f);
      var j :| 0 <= j < i - 1 && f in Faults(states[j], steps[j], b);
    }
  }

  lemma MoreFaults(c: Config, s: Vhd, b: nat, w: set<Fault>, w': set<Fault>)
    requires Earned(c, s, b, w) && w <= w'
    ensures Earned(c, s, b, w')
  {
    if b in s.cache {
      forall r | r in s.cache[b].tx.reqs ensures OwnEarned(r, w') { assert OwnEarned(r, w); }
      forall r | r in s.cache[b].queue ensures OwnEarned(r, w') { assert OwnEarned(r, w); }
    }
  }

  lemma OpenedEarned(c: Config, s: Vhd, pool: nat, b: nat)
    requires Opened(c, s, pool)
    ensures Earned(c, s, b, {})
  {
  }

  lemma {:induction false} RunEarned(c: Config, states: seq<Vhd>, steps: seq<Step>, pool: nat, b: nat, i: nat)
    requires Run(c, states, steps) && Opened(c, states[0], pool) && i <= |steps|
    ensures Earned(c, states[i], b, FaultsTo(c, states, steps, b, i))
  {
    hide Earned;
    hide Faults;
    hide Opened;
    hide Answers;
    hide Structure;
    if i == 0 {
      OpenedEarned(c, states[0], pool, b);
    } else {
      RunEarned(c, states, steps, pool, b, i - 1);
      RunStructure(c, states, steps, pool, i - 1);
      var w := FaultsTo(c, states, steps, b, i);
      MoreFaults(c, states[i - 1], b, FaultsTo(c, states, steps, b, i - 1), w);
      StepEarned(c, states[i - 1], steps[i - 1], b, w, pool);
    }
  }

  /** A transaction has an error only if a write of its block's bitmap, zero bitmap or BAT entry
      has failed; and a write that has not been answered yet, only its own. */
  lemma {:induction false} TxErrorEarned(c: Config, states: seq<Vhd>, steps: seq<Step>, pool: nat, b: nat, i: nat)
    requires Run(c, states, steps) && Opened(c, states[0], pool) && i <= |steps| && b in states[i].cache
    ensures var bm := states[i].cache[b];
            && (bm.tx.error != 0 ==> Happened(c, states, steps, b, i, OfMeta(bm.tx.error)))
            && (forall r :: r in bm.tx.reqs + bm.queue && r.err != 0 ==>
                 Happened(c, states, steps, b, i, OfWrite(r.wid, r.sec, r.secs, r.err)))
  {
    hide Happened;
    hide Opened;
    RunEarned(c, states, steps, pool, b, i);
    var (bm, w) := (states[i].cache[b], FaultsTo(c, states, steps, b, i));
    if bm.tx.error != 0 { FaultHappened(c, states, steps, b, i, OfMeta(bm.tx.error)); }
    forall r | r in bm.tx.reqs + bm.queue && r.err != 0
      ensures Happened(c, states, steps, b, i, OfWrite(r.wid, r.sec, r.secs, r.err))
    {
      assert r in bm.tx.reqs || r in bm.queue;
      assert OwnEarned(r, w);
      FaultHappened(c, states, steps, b, i, OfWrite(r.wid, r.sec, r.secs, r.err));
    }
  }

  /** A straight read or write is answered with its own outcome. */
  lemma RawAnswer(s: Vhd, i: nat, err: int)
    requires i < |s.raw|
    ensures var (r, t) := (s.raw[i], FinishRaw(s, i, err));
            t.log == s.log + if r.op == OpPad then [] else [Done(r.op == OpWrite, r.wid, r.sec, r.secs, err)]
  {
  }

  /** If a bitmap cannot be read, all that wait for it are answered with that error, in order. */
  lemma WaitersFail(c: Config, s: Vhd, b: nat, err: int)
    requires b in s.cache && err != 0
    ensures var (rs, t) := (s.cache[b].waiting, FinishBitmapRead(c, s, b, err));
            && |t.log| == |s.log| + |rs| && s.log <= t.log
            && forall i :: 0 <= i < |rs| ==>
                 t.log[|s.log| + i] == Done(rs[i].op == OpWrite, rs[i].wid, rs[i].sec, rs[i].secs, err)
  {
    hide FinishBitmapRead;
    hide DoneEvs;
    var rs := s.cache[b].waiting;
    WaitersLog(c, s, b, err);
    forall i | 0 <= i < |rs| ensures DoneEvs(rs, err)[i] == DoneEv(rs[i], err) {}
  }

  lemma WaitersLog(c: Config, s: Vhd, b: nat, err: int)
    requires b in s.cache && err != 0
    ensures FinishBitmapRead(c, s, b, err).log == s.log + DoneEvs(s.cache[b].waiting, err)
  {
    hide InUse;
    hide DoneEvs;
  }

  /** An I/O of the event's block has failed with its error, in one of the first i steps: its own
      write, or one of the meta-data that its transaction needs. */
  ghost predicate Earns(c: Config, states: seq<Vhd>, steps: seq<Step>, i: nat, e: Ev)
    requires Run(c, states, steps) && i <= |steps| && e.Done?
  {
    var b := e.sec / c.spb;
    Happened(c, states, steps, b, i, OfMeta(e.err)) ||
    Happened(c, states, steps, b, i, OfWrite(e.wid, e.sec, e.secs, e.err))
  }

  /** Where an answer with an error may come from. */
  ghost predicate Explained(c: Config, states: seq<Vhd>, steps: seq<Step>, i: nat, k: nat, e: Ev)
    requires Run(c, states, steps) && i < |steps| && e.Done?
  {
    match steps[i]
    case Request(_, _, _) => RefusedAt(c, k, e.err)
    case DoneBitmapRead(_, err) => if err == 0 then RefusedAt(c, k, e.err) else e.err == err
    case DoneOther(_, err) => e.err == err
    case _ => Earns(c, states, steps, i + 1, e)
  }

  /** Step i adds event k to the history, an answer with an error. */
  ghost predicate Fails(c: Config, states: seq<Vhd>, steps: seq<Step>, i: nat, k: nat)
    requires Run(c, states, steps)
  {
    i < |steps| && |states[i].log| <= k < |states[i + 1].log| && states[i + 1].log[k].Done? &&
    states[i + 1].log[k].err != 0
  }

  lemma RequestAnswers(c: Config, s: Vhd, step: Step, pool: nat, k: nat)
    requires step.Request? && Structure(c, s, pool)
    requires var t := Next(c, s, step); |s.log| <= k < |t.log| && t.log[k].Done?
    ensures RefusedAt(c, k, Next(c, s, step).log[k].err)
  {
    hide Structure;
    hide Serve;
    hide RefusedAt;
    var s1 := Emit(s, Issue(step.write, step.sec, step.secs));
    var t := Next(c, s, step);
    assert Structure(c, s1, pool) by { EmitOk(c, s, Issue(step.write, step.sec, step.secs), pool); }
    ServeRefusals(c, s1, step.write, |s.log|, step.sec, step.secs, pool);
    assert t.log[..|s1.log|] == s1.log;
    assert s1.log[|s.log|] == Issue(step.write, step.sec, step.secs);
  }

  lemma BitmapReadAnswers(c: Config, s: Vhd, b: nat, err: int, pool: nat, k: nat)
    requires Enabled(s, DoneBitmapRead(b, err)) && Structure(c, s, pool)
    requires var t := FinishBitmapRead(c, s, b, err); |s.log| <= k < |t.log| && t.log[k].Done?
    ensures var e := FinishBitmapRead(c, s, b, err).log[k];
            if err == 0 then RefusedAt(c, k, e.err) else e.err == err
  {
    hide Structure;
    hide Replay;
    hide RefusedAt;
    if err == 0 {
      BitmapLoadedOk(c, s, b, pool);
      ReplayRefusals(c, BitmapLoaded(c, s, b), s.cache[b].waiting, pool);
    } else {
      WaitersFail(c, s, b, err);
      var i := k - |s.log|;
      assert k == |s.log| + i;
    }
  }

  lemma {:induction false} CompletionAnswers(
        c: Config, states: seq<Vhd>, steps: seq<Step>, pool: nat, i: nat, k: nat, b: nat)
    requires Run(c, states, steps) && Opened(c, states[0], pool) && Fails(c, states, steps, i, k)
    requires Completes(states[i], steps[i], b)
    ensures Earns(c, states, steps, i + 1, states[i + 1].log[k])
  {
    hide Happened;
    hide Opened;
    hide Structure;
    hide Faults;
    hide Earned;
    var (s, t, e) := (states[i], states[i + 1], states[i + 1].log[k]);
    RunStructure(c, states, steps, pool, i);
    RunEarned(c, states, steps, pool, b, i);
    var w := FaultsTo(c, states, steps, b, i + 1);
    MoreFaults(c, s, b, FaultsTo(c, states, steps, b, i), w);
    StepEarned(c, s, steps[i], b, w, pool);
    assert e == t.log[|s.log|..][k - |s.log|] && e in t.log[|s.log|..];
    assert EvEarned(c, b, e, w);
    if OfMeta(e.err) in w {
      FaultHappened(c, states, steps, b, i + 1, OfMeta(e.err));
    } else {
      FaultHappened(c, states, steps, b, i + 1, OfWrite(e.wid, e.sec, e.secs, e.err));
    }
  }

  /** Errors are never made up. In every run, an answer with an error is a refusal, by a turn of a
      request that has just come in or whose bitmap has just been read; it has the error of the
      very I/O that has completed; or, if it is given when a transaction ends, the error of an I/O
      of that write or of the meta-data of its block that has failed before. */
  lemma {:induction false} ErrorsExplained(
        c: Config, states: seq<Vhd>, steps: seq<Step>, pool: nat, i: nat, k: nat)
    requires Run(c, states, steps) && Opened(c, states[0], pool) && Fails(c, states, steps, i, k)
    ensures Explained(c, states, steps, i, k, states[i + 1].log[k])
  {
    hide Earns;
    hide Opened;
    hide Structure;
    hide RefusedAt;
    var s := states[i];
    RunStructure(c, states, steps, pool, i);
    match steps[i]
    case Request(_, _, _) => RequestAnswers(c, s, steps[i], pool, k);
    case DoneBitmapRead(b, err) => BitmapReadAnswers(c, s, b, err, pool, k);
    case DoneOther(j, err) => RawAnswer(s, j, err);
    case DoneTx(b, _, _) => CompletionAnswers(c, states, steps, pool, i, k, b);
    case DoneQueue(b, _, _) => CompletionAnswers(c, states, steps, pool, i, k, b);
    case DoneBitmapWrite(b, _) => CompletionAnswers(c, states, steps, pool, i, k, b);
    case DoneZero(_) => CompletionAnswers(c, states, steps, pool, i, k, s.meta.zeroBlk);
    case DoneBat(_) => CompletionAnswers(c, states, steps, pool, i, k, s.lock.blk);
    case _ =>
  }

  /** The error of a completion, or 0. */
  function ErrorOf(step: Step): int {
    match step
    case DoneTx(_, _, err) => err
    case DoneQueue(_, _, err) => err
    case DoneOther(_, err) => err
    case DoneBitmapRead(_, err) => err
    case DoneBitmapWrite(_, err) => err
    case DoneZero(err) => err
    case DoneBat(err) => err
    case _ => 0
  }

  /** As long as every I/O has succeeded, the only errors are refusals: a completion, other than
      that of a bitmap read, answers with success. */
  lemma {:induction false} NoErrorMadeUp(
        c: Config, states: seq<Vhd>, steps: seq<Step>, pool: nat, i: nat, k: nat)
    requires Run(c, states, steps) && Opened(c, states[0], pool) && Fails(c, states, steps, i, k)
    requires (forall j :: 0 <= j <= i ==> ErrorOf(steps[j]) == 0) && (c.prealloc ==> forall n :: c.sync(n) == 0)
    ensures steps[i].Request? || steps[i].DoneBitmapRead?
    ensures states[i + 1].log[k].err in {EBUSY, EINVAL}
  {
    hide Opened;
    ErrorsExplained(c, states, steps, pool, i, k);
  }

  /* ---- nothing is left behind ---- */

  lemma OpenedNeat(c: Config, s: Vhd, pool: nat, b: nat)
    requires Opened(c, s, pool)
    ensures NeatAt(s, b)
  {
  }

  lemma {:induction false} RunNeat(c: Config, states: seq<Vhd>, steps: seq<Step>, pool: nat, b: nat, i: nat)
    requires Run(c, states, steps) && Opened(c, states[0], pool) && i <= |steps|
    ensures NeatAt(states[i], b)
    decreases i
  {
    hide NeatAt;
    hide Opened;
    hide Structure;
    if i == 0 {
      OpenedNeat(c, states[0], pool, b);
    } else {
      RunNeat(c, states, steps, pool, b, i - 1);
      RunStructure(c, states, steps, pool, i - 1);
      StepNeat(c, states[i - 1], steps[i - 1], b, pool);
    }
  }

  /** In every state of every run, a cached bitmap is locked just while it is in use. */
  lemma {:induction false} LocksExact(c: Config, states: seq<Vhd>, steps: seq<Step>, pool: nat, b: nat, i: nat)
    requires Run(c, states, steps) && Opened(c, states[0], pool) && i <= |steps| && b in states[i].cache
    ensures states[i].cache[b].locked == InUse(states[i].cache[b])
  {
    hide InUse;
    hide Opened;
    RunStructure(c, states, steps, pool, i);
    RunNeat(c, states, steps, pool, b, i);
    assert BlockOk(c, states[i], b);
  }

  /** Nothing waits for ever for want of an I/O. In every state of every run: if no I/O is left
      that could complete, every sector that has been asked for has been answered or forwarded
      exactly once, and no bitmap is locked. */
  lemma {:induction false} QuietAnswered(
        c: Config, states: seq<Vhd>, steps: seq<Step>, pool: nat, i: nat, w: nat, l: nat)
    requires Run(c, states, steps) && Opened(c, states[0], pool) && i <= |steps|
    requires forall step :: Enabled(states[i], step) ==> step.Request?
    ensures states[i].free == pool
    ensures Issued(states[i].log, w, l) ==> CountEvs(states[i].log, w, l) == 1
    ensures forall b :: b in states[i].cache ==> !states[i].cache[b].locked
  {
    hide InUse;
    hide Opened;
    hide Enabled;
    var s := states[i];
    RunStructure(c, states, steps, pool, i);
    assert s.free <= pool;
    if s.free < pool { NeverStuck(c, s, pool); }
    if Issued(s.log, w, l) { AllAnswered(c, states, steps, pool, i, w, l); }
    forall b | b in s.cache ensures !s.cache[b].locked {
      if s.cache[b].locked {
        LocksExact(c, states, steps, pool, b, i);
        BlockPends(c, s, b, pool);
      }
    }
  }
}
