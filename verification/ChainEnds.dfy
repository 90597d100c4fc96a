/** How reads of a virtual disk end, in runs: a request goes to the guest with an error only if
    the error is one that does not pass, the request was late, or the disk was going down. */
module ChainEnds {
  import opened VhdTypes
  import opened VhdEngine
  import opened VhdInvariants
  import opened VhdAccounting
  import opened VhdDisk
  import opened VhdChain
  import opened VhdTickets
  import opened ChainTickets
  import opened ChainStack
  import opened ChainSteps
  import opened ChainWake
  import opened ChainRun
  import E = TapdiskEnds
  import T = TapdiskVbd
  import V = VirtualDisk

  /** Every request that has changed is new, pending, or decided as things stand. */
  ghost predicate Rules(d: Stack, d': Stack) {
    forall v :: v in d'.reqs ==>
      (v in d.reqs && d'.reqs[v] == d.reqs[v]) || d'.reqs[v].where in {T.New, T.Pending} ||
      E.Decided(d'.reqs[v], d.stopping, v in d.late)
  }

  ghost predicate Stands(d: Stack, d': Stack) { d'.stopping == d.stopping && d'.late == d.late }

  lemma RulesTrans(d: Stack, x: Stack, d': Stack)
    requires Rules(d, x) && Rules(x, d') && Stands(d, x)
    ensures Rules(d, d')
  {
    hide E.Decided;
  }

  lemma RulesSame(d: Stack, d': Stack)
    requires d'.reqs == d.reqs
    ensures Rules(d, d')
  {
  }

  /** A driver has dealt with a piece. */
  lemma DealtRules(x: Stack, i: nat, p: T.Plan, ts: seq<Ticket>, d': Stack)
    requires Deals(x, i, p, ts) && d'.reqs == Dealt(x, i, p, ts).reqs
    requires Guests(x)
    ensures Rules(x, d')
  {
    hide T.Deliver;
    hide T.Pieces;
    hide T.Honest;
    hide T.Fits;
    hide T.Length;
    hide E.Decided;
    hide V.AllAtRest;
    hide V.PiecesOk;
    hide V.AllFilled;
    hide SteadyOk;
    hide AllLandedOk;
    hide AllPartOf;
    var q := x.tickets[i].q;
    assert HeldPieces(x.tickets)[i] == q;
    V.ResumeDecides(EnvOf(x, q.v), x.reqs, HeldPieces(x.tickets), i, p);
  }

  lemma StartRules(d: Stack, v: nat, ready: bool)
    requires CanAct(d, Start(v, ready)) && StackOk(d)
    ensures Rules(d, Started(d, v, ready))
  {
    hide PiecePlans;
    hide PiecesTickets;
    hide Sound;
    hide T.Issue;
    hide T.PlansFit;
    hide E.Decided;
    hide V.AllFilled;
    hide V.PiecesOk;
    hide SteadyOk;
    hide AllLandedOk;
    hide AllPartOf;
    hide StillFor;
    hide OnlyRead;
    var r := d.reqs[v].(error := 0);
    var held := HeldPieces(d.tickets);
    assert V.Quiet(d.reqs, held, v);
    StartAnswered(d, v, ready);
    E.IssueDecides(EnvOf(d, v), r, v, ready, PiecePlans(d.ch, ready, r, |r.iov|).1);
  }

  lemma GiveUpRules(d: Stack, v: nat)
    requires CanAct(d, GiveUp(v)) && StackOk(d)
    ensures Rules(d, Acted(d, GiveUp(v)))
  {
    hide T.Settle;
    hide E.Decided;
    assert V.Quiet(d.reqs, HeldPieces(d.tickets), v);
    E.SettleDecides(EnvOf(d, v), d.reqs[v]);
  }

  lemma FinishRules(d: Stack, j: nat, n: nat, err: int)
    requires CanAct(d, Finish(j, n, err)) && StackOk(d)
    ensures Rules(d, Finished(d, j, n, err))
  {
    hide Guests;
    hide Sound;
    hide T.Deliver;
    hide E.Decided;
    hide Deals;
    GoneGuests(d, j, n, err);
    var (r, d1, d') := (d.ch[j].s.raw[n], Gone(d, j, n, err), Finished(d, j, n, err));
    var k := Key(r.wid, r.sec, r.secs);
    if IsHeld(d, j, k) {
      var i := Find(d, j, k);
      FinishDeals(d, j, n, err, i);
      DealtRules(d1, i, T.Done(r.secs, err, T.End), [], d');
    }
  }

  /** One request that has waited. */
  lemma WakeOneRules(d: Stack, x: Stack, j: nat, b: nat, err: int, ready: bool, i: nat, pool: nat)
    requires Waking(d, j, b, pool) && i < |d.ch[j].s.cache[b].waiting| && Mid(d, x, j, b, err, i)
    ensures Rules(x, WakeOne(x, j, err, ready, d.ch[j].s.cache[b].waiting[i]))
  {
    hide Structure;
    hide Accounts;
    hide OnDisk;
    hide StackOk;
    hide Guests;
    hide Sound;
    hide MidReads;
    hide MidSpares;
    hide MidState;
    hide Deals;
    hide Dealt;
    hide Serve;
    hide ServeRead;
    hide ServeTickets;
    var (r, ch1) := (d.ch[j].s.cache[b].waiting[i], Freed(x.ch, j));
    var x' := WakeOne(x, j, err, ready, r);
    WaiterShape(d.ch[j].c, d.ch[j].s, b, i, pool);
    if r.op == OpRead {
      ComingHeld(d, x, j, b, err, i);
      var n := Find(x, j, KeyOf(r));
      if err != 0 {
        FailDeals(x, n, r.secs, err);
        DealtRules(x, n, T.Done(r.secs, err, T.End), [], x');
      } else {
        var (ch2, p) := ServeRead(ch1, ready, j, r.wid, r.sec, r.secs);
        var ts := ServeTickets(ch1, ready, x.tickets[n].q.v, j, r.wid, r.sec, r.secs);
        RouseDeals(d, x, j, b, ready, i, n, ch2, p, ts, pool);
        DealtRules(x, n, p, ts, x');
      }
    } else {
      RulesSame(x, x');
    }
  }

  lemma WakeOneStands(x: Stack, j: nat, err: int, ready: bool, r: Req)
    requires j < |x.ch|
    ensures Stands(x, WakeOne(x, j, err, ready, r))
  {
    hide T.Deliver;
    hide Serve;
    hide ServeRead;
    hide ServeTickets;
    hide IsHeld;
  }

  lemma {:induction false} WakeToRules(d: Stack, j: nat, b: nat, err: int, ready: seq<bool>, i: nat, pool: nat)
    requires Waking(d, j, b, pool) && i <= |d.ch[j].s.cache[b].waiting| == |ready|
    ensures var x := WakeTo(d, j, b, err, ready, i); Rules(d, x) && Stands(d, x)
    decreases i
  {
    hide Mid;
    hide WakeOne;
    hide Structure;
    hide Accounts;
    hide OnDisk;
    hide StackOk;
    hide Rules;
    hide BitmapLoaded;
    hide FinishBitmapRead;
    if i == 0 {
      RulesSame(d, WakeTo(d, j, b, err, ready, 0));
    } else {
      var x := WakeTo(d, j, b, err, ready, i - 1);
      WakeToRules(d, j, b, err, ready, i - 1, pool);
      WakeAll(d, j, b, err, ready, i - 1, pool);
      WakeOneRules(d, x, j, b, err, ready[i - 1], i - 1, pool);
      WakeOneStands(x, j, err, ready[i - 1], d.ch[j].s.cache[b].waiting[i - 1]);
      RulesTrans(d, x, WakeTo(d, j, b, err, ready, i));
    }
  }

  lemma WakeRules(d: Stack, j: nat, b: nat, err: int, ready: seq<bool>)
    requires CanAct(d, Wake(j, b, err, ready)) && StackOk(d)
    ensures Rules(d, Awoken(d, j, b, err, ready))
  {
    hide Structure;
    hide Accounts;
    hide OnDisk;
    hide Guests;
    hide WakeTo;
    hide Rules;
    hide UnlockCached;
    var im := d.ch[j];
    assert Sound(im);
    var pool: nat :| Structure(im.c, im.s, pool) && Accounts(im.c, im.s) && OnDisk(im.c, im.s);
    WakeToRules(d, j, b, err, ready, |ready|, pool);
    var x := WakeTo(d, j, b, err, ready, |ready|);
    RulesSame(x, Awoken(d, j, b, err, ready));
    RulesTrans(d, x, Awoken(d, j, b, err, ready));
  }

  /** An act leaves every request as it is, new or pending, or decided. */
  lemma ActRules(d: Stack, a: Act)
    requires StackOk(d) && CanAct(d, a)
    ensures Rules(d, Acted(d, a))
  {
    hide Guests;
    hide Sound;
    hide Started;
    hide Moved;
    hide Finished;
    hide Awoken;
    hide E.Decided;
    hide T.Settle;
    match a
    case Start(v, ready) => StartRules(d, v, ready);
    case GiveUp(v) => GiveUpRules(d, v);
    case Other(j, step) => MovedReqs(d, j, step);
    case Finish(j, n, err) => FinishRules(d, j, n, err);
    case Wake(j, b, err, ready) => WakeRules(d, j, b, err, ready);
    case _ =>
  }

  lemma MovedReqs(d: Stack, j: nat, step: Step)
    requires j < |d.ch| && Enabled(d.ch[j].s, step)
    ensures Moved(d, j, step).reqs == d.reqs
  {
    hide Next;
    hide SparedBy;
  }

  /** The request was decided when state k was left. */
  ghost predicate DecidedAt(ds: seq<Stack>, k: nat, i: nat, v: nat)
    requires k < i < |ds| && v in ds[i].reqs
  {
    E.Decided(ds[i].reqs[v], ds[k].stopping, v in ds[k].late)
  }

  lemma {:induction false} AllDecided(ds: seq<Stack>, acts: seq<Act>, i: nat, v: nat)
    requires StackRun(ds, acts) && i < |ds| && v in ds[i].reqs
    requires ds[i].reqs[v].where == T.Failed || ds[i].reqs[v].where == T.Completed
    ensures exists k :: 0 <= k < i && DecidedAt(ds, k, i, v)
    decreases i
  {
    hide StackOk;
    hide Acted;
    hide CanAct;
    hide E.Decided;
    if i > 0 {
      RunOk(ds, acts, i - 1);
      ActRules(ds[i - 1], acts[i - 1]);
      assert ds[i - 1 + 1] == Acted(ds[i - 1], acts[i - 1]);
      if DecidedAt(ds, i - 1, i, v) {
      } else {
        AllDecided(ds, acts, i - 1, v);
        var k :| 0 <= k < i - 1 && DecidedAt(ds, k, i - 1, v);
        assert DecidedAt(ds, k, i, v);
      }
    }
  }

  /** Which failed reads are tried again. In every run: a read that has completed with an error
      has one that does not pass, or at some moment of the run it was late or the disk was going
      down; and one that is to be tried again has an error that may pass. */
  lemma {:induction false} RetryLaw(ds: seq<Stack>, acts: seq<Act>, i: nat, v: nat)
    requires StackRun(ds, acts) && i < |ds| && v in ds[i].reqs
    ensures var r := ds[i].reqs[v];
            && (r.where == T.Completed && r.error !in {0, T.EPERM, T.ENOSYS, T.ESTALE, T.ENOSPC} ==>
                 exists k :: 0 <= k < i && (ds[k].stopping || v in ds[k].late))
            && (r.where == T.Failed ==> r.error !in {0, T.EPERM, T.ENOSYS, T.ESTALE, T.ENOSPC})
            && (r.where == T.Failed ==> exists k :: 0 <= k < i && !ds[k].stopping && v !in ds[k].late)
  {
    hide StackRun;
    if ds[i].reqs[v].where == T.Failed || ds[i].reqs[v].where == T.Completed {
      AllDecided(ds, acts, i, v);
      var k :| 0 <= k < i && DecidedAt(ds, k, i, v);
    }
  }
}
