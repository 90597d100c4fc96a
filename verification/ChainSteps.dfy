/** What happens to a virtual disk and its chain: a read is issued, a driver takes a step of
    its own, a read of the file completes. */
module ChainSteps {
  import opened VhdTypes
  import opened VhdEngine
  import opened VhdInvariants
  import opened VhdStructure
  import opened VhdSafety
  import opened VhdAccounting
  import opened VhdDisk
  import opened VhdServing
  import opened VhdTracking
  import opened VhdTheorems
  import opened VhdReads
  import opened VhdReadback
  import opened VhdMoments
  import opened VhdStill
  import opened VhdChain
  import opened VhdTickets
  import opened ChainTickets
  import opened ChainStack
  import T = TapdiskVbd
  import V = VirtualDisk

  /* ---- a read is issued ---- */

  predicate Asks(d: Stack, v: nat, ready: bool)
    requires v in d.reqs
  {
    T.CheckRequest(EnvOf(d, v), d.reqs[v].(error := 0), ready) == 0
  }

  /** tapdisk_vbd_issue_request for a new or failed read. */
  ghost function Started(d: Stack, v: nat, ready: bool): Stack
    requires v in d.reqs && |d.ch| > 0
  {
    var r := d.reqs[v].(error := 0);
    var (ch', plans) := PiecePlans(d.ch, ready, r, |r.iov|);
    d.(ch := if Asks(d, v, ready) then ch' else d.ch,
       reqs := d.reqs[v := T.Issue(EnvOf(d, v), r, ready, plans)],
       tickets := d.tickets + if Asks(d, v, ready) then PiecesTickets(d.ch, ready, v, r, |r.iov|) else [],
       seen := d.seen[v := HoldsOf(d.ch)],
       steady := if StillFor(d.ch, r) then d.steady + {v} else d.steady - {v})
  }

  lemma {:induction false} IssuedParts(sizes: seq<nat>, v: nat, r: T.VReq, k: nat, plans: seq<T.Plan>, q: T.Piece,
          l: nat)
    requires T.PlansFit(sizes, r, plans) && k <= |r.iov| && q in T.AllPieces(sizes, v, r, k, plans) && T.Covers(q, l)
    ensures r.sec <= l < r.sec + T.Total(r.iov[..k])
    decreases k
  {
    hide T.Pieces;
    hide T.Fits;
    hide T.Length;
    hide T.Total;
    if k > 0 {
      T.TotalTake(r.iov, k - 1);
      var sec := r.sec + T.Total(r.iov[..k - 1]);
      if q in T.AllPieces(sizes, v, r, k - 1, plans) {
        IssuedParts(sizes, v, r, k - 1, plans, q, l);
      } else if !T.Within(l, sec, T.Length(plans[k - 1])) {
        T.PiecesWithin(sizes, v, 0, sec, plans[k - 1], l);
      }
    }
  }

  /** The chain is fair to a read of sectors that are still. */
  lemma StillFair(ch: Chain, j: nat, sec: nat, n: nat)
    requires SoundFrom(ch, j) && forall l: nat :: sec <= l < sec + n ==> StillAt(ch, l)
    ensures Fair(ch, HoldsOf(ch), j, sec, n)
  {
    hide Recover;
    hide Structure;
    hide OnDisk;
    hide Accounts;
    hide Still;
    hide Unwritten;
    forall i, l: nat | j <= i < |ch| && sec <= l < sec + n ensures Unwritten(ch[i].c, ch[i].s, l) {
      assert Sound(ch[i]) && StillAt(ch, l);
      var pool: nat :| Structure(ch[i].c, ch[i].s, pool) && Accounts(ch[i].c, ch[i].s) && OnDisk(ch[i].c, ch[i].s);
      StillUnwritten(ch[i].c, ch[i].s, l, pool);
    }
  }

  /** How the drivers answer a read that is issued, as far as it is steady. */
  ghost predicate Answered(d: Stack, v: nat, ready: bool)
    requires v in d.reqs && |d.ch| > 0
  {
    var r := d.reqs[v].(error := 0);
    var (ch', plans) := PiecePlans(d.ch, ready, r, |r.iov|);
    && T.PlansFit(Sizes(d.ch), r, plans) && V.HonestPlans(NOTHING, Sizes(d.ch), r, plans)
    && (StillFor(d.ch, r) ==> V.HonestPlans(HoldsOf(d.ch), Sizes(d.ch), r, plans))
    && AllRead(d.ch, ch') && SoundFrom(ch', 0)
  }

  lemma StartAnswered(d: Stack, v: nat, ready: bool)
    requires v in d.reqs && |d.ch| > 0 && SoundFrom(d.ch, 0)
    ensures Answered(d, v, ready)
  {
    hide Sound;
    hide Fair;
    hide AllRead;
    hide PiecePlans;
    hide StillAt;
    hide T.PlansFit;
    hide V.HonestPlans;
    var r := d.reqs[v].(error := 0);
    ChainAnswers(d.ch, ready, r, HoldsOf(d.ch));
    if StillFor(d.ch, r) { StillFair(d.ch, 0, r.sec, T.Total(r.iov)); }
  }

  /** The virtual disk's side of an issue, before the chain has gone on. */
  ghost function StartedHere(d: Stack, v: nat, ready: bool): Stack
    requires v in d.reqs && |d.ch| > 0
  {
    Started(d, v, ready).(ch := d.ch)
  }

  lemma {:induction false} StartHeld(d: Stack, v: nat, ready: bool)
    requires v in d.reqs && |d.ch| > 0
    ensures var r := d.reqs[v].(error := 0);
            var plans := PiecePlans(d.ch, ready, r, |r.iov|).1;
            HeldPieces(Started(d, v, ready).tickets) ==
              HeldPieces(d.tickets) + V.IssuedPieces(EnvOf(d, v), v, r, ready, plans)
  {
    hide PiecePlans;
    hide PiecesTickets;
    hide T.AllPieces;
    hide T.Issue;
    hide StillFor;
    var r := d.reqs[v].(error := 0);
    var plans := PiecePlans(d.ch, ready, r, |r.iov|).1;
    assert plans[..|r.iov|] == plans;
    PiecesTicketsHeld(d.ch, ready, v, r, |r.iov|, plans, Sizes(d.ch));
    ChainTickets.HeldAdd(d.tickets, if Asks(d, v, ready) then PiecesTickets(d.ch, ready, v, r, |r.iov|) else []);
  }

  lemma StartAccounts(d: Stack, v: nat, ready: bool)
    requires Guests(d) && v in d.reqs && |d.ch| > 0 && d.reqs[v].where != T.Pending && Answered(d, v, ready)
    ensures var d' := StartedHere(d, v, ready);
            && V.AllAtRest(d'.reqs, HeldPieces(d'.tickets)) && V.PiecesOk(Sizes(d.ch), d'.reqs, HeldPieces(d'.tickets))
            && V.AllFilled(d'.seen, Sizes(d.ch), d'.reqs.Keys - d'.steady, d'.reqs, HeldPieces(d'.tickets))
  {
    hide V.AllAtRest;
    hide V.PiecesOk;
    hide PiecePlans;
    hide PiecesTickets;
    hide T.Issue;
    hide T.Filled;
    hide T.PlansFit;
    hide V.HonestPlans;
    hide V.IssuedPieces;
    hide StillAt;
    hide SteadyOk;
    hide AllLandedOk;
    hide AllPartOf;
    var (r, held, env) := (d.reqs[v].(error := 0), HeldPieces(d.tickets), EnvOf(d, v));
    var plans := PiecePlans(d.ch, ready, r, |r.iov|).1;
    var (reqs0, d') := (d.reqs[v := r], StartedHere(d, v, ready));
    var exempt := d'.reqs.Keys - d'.steady;
    V.ErrorCleared(d.reqs, held, Sizes(d.ch), v);
    StartHeld(d, v, ready);
    V.IssueQuiet(env, reqs0, v, held, ready, plans);
    assert v !in exempt ==> StillFor(d.ch, r);
    V.AllFilledAfterIssue(env, d.seen, HoldsOf(d.ch), exempt, reqs0, v, held, ready, plans);
    assert reqs0[v := T.Issue(env, r, ready, plans)] == d'.reqs;
  }

  lemma StartParts(d: Stack, v: nat, ready: bool)
    requires Guests(d) && v in d.reqs && |d.ch| > 0 && Answered(d, v, ready)
    ensures var d' := StartedHere(d, v, ready); AllPartOf(d'.reqs, HeldPieces(d'.tickets))
  {
    hide PiecePlans;
    hide PiecesTickets;
    hide T.Issue;
    hide T.Total;
    hide T.AllPieces;
    hide T.PlansFit;
    hide StillAt;
    var (r, d') := (d.reqs[v].(error := 0), StartedHere(d, v, ready));
    var plans := PiecePlans(d.ch, ready, r, |r.iov|).1;
    StartHeld(d, v, ready);
    IssueSame(EnvOf(d, v), r, ready, plans);
    assert AllPartOf(d.reqs, HeldPieces(d.tickets));
    forall q | q in HeldPieces(d'.tickets) ensures PartOf(d'.reqs, q) {
      if q in HeldPieces(d.tickets) {
        assert PartOf(d.reqs, q);
      } else {
        assert q in T.AllPieces(Sizes(d.ch), v, r, |r.iov|, plans);
        V.IssuedOf(EnvOf(d, v), v, r, ready, plans, v);
        T.NoTotal(r.iov);
        forall l: nat | T.Covers(q, l) ensures Of(d'.reqs[v], l) {
          IssuedParts(Sizes(d.ch), v, r, |r.iov|, plans, q, l);
        }
      }
    }
  }

  lemma IssueSame(env: T.Env, r: T.VReq, ready: bool, plans: seq<T.Plan>)
    requires T.PlansFit(env.sizes, r, plans)
    ensures T.SameRequest(r, T.Issue(env, r, ready, plans))
  {
    hide T.QueuePieces;
    hide T.Total;
    var r1 := T.Opened(r);
    if T.CheckRequest(env, r, ready) == 0 { T.QueuePiecesFrame(env, r1, |r.iov|, plans); }
  }

  /** What has been issued has failed, is awaited, or is zeroed. */
  lemma StartContent(d: Stack, v: nat, ready: bool, l: nat)
    requires v in d.reqs && |d.ch| > 0 && Answered(d, v, ready) && Of(d.reqs[v], l)
    ensures ContentOk(StartedHere(d, v, ready), v, l)
  {
    hide PiecePlans;
    hide PiecesTickets;
    hide T.Issue;
    hide T.Total;
    hide T.PlansFit;
    hide StillAt;
    var (r, env) := (d.reqs[v].(error := 0), EnvOf(d, v));
    var plans := PiecePlans(d.ch, ready, r, |r.iov|).1;
    var (r', ps) := (T.Issue(env, r, ready, plans), V.IssuedPieces(env, v, r, ready, plans));
    StartHeld(d, v, ready);
    T.IssueFills(env, NOTHING, r, v, ready, plans);
    IssueSame(env, r, ready, plans);
    NothingZero(Sizes(d.ch), 0, l);
    assert T.Right(NOTHING, Sizes(d.ch), r', ps, v, 0, l);
    if T.Awaited(ps, v, l) {
      var q :| q in ps && q.v == v && T.Covers(q, l);
      assert q in HeldPieces(StartedHere(d, v, ready).tickets);
    }
  }

  lemma StartSteady(d: Stack, v: nat, ready: bool, w: nat)
    requires Guests(d) && v in d.reqs && |d.ch| > 0 && Answered(d, v, ready) && w in StartedHere(d, v, ready).steady
    ensures SteadyOk(StartedHere(d, v, ready), w)
  {
    hide PiecePlans;
    hide PiecesTickets;
    hide T.Issue;
    hide T.Total;
    hide T.PlansFit;
    hide StillAt;
    hide ContentOk;
    hide Recover;
    var (r, d') := (d.reqs[v].(error := 0), StartedHere(d, v, ready));
    if w == v {
      IssueSame(EnvOf(d, v), r, ready, PiecePlans(d.ch, ready, r, |r.iov|).1);
      forall l: nat | Of(d'.reqs[v], l) ensures SteadyAt(d', v, l) { StartContent(d, v, ready, l); }
    } else {
      assert SteadyOk(d, w);
      forall l: nat | Of(d.reqs[w], l) ensures SteadyAt(d', w, l) {
        assert SteadyAt(d, w, l);
        StartHeld(d, v, ready);
        AwaitedMore(d, d', w, l);
      }
    }
  }

  /** A request that nothing has happened to, while others have got more tickets. */
  lemma AwaitedMore(d: Stack, d': Stack, w: nat, l: nat)
    requires w in d.reqs && w in d'.reqs && d'.reqs[w] == d.reqs[w] && d'.ch == d.ch && d'.data == d.data
    requires |d.tickets| <= |d'.tickets| && d'.tickets[..|d.tickets|] == d.tickets && ContentOk(d, w, l)
    ensures ContentOk(d', w, l)
  {
    hide Copy;
    if T.Awaited(HeldPieces(d.tickets), w, l) {
      var q :| q in HeldPieces(d.tickets) && q.v == w && T.Covers(q, l);
      var i :| 0 <= i < |d.tickets| && HeldPieces(d.tickets)[i] == q;
      assert HeldPieces(d'.tickets)[i] == q;
    }
  }

  lemma StartGuests(d: Stack, v: nat, ready: bool)
    requires StackOk(d) && v in d.reqs && d.reqs[v].where != T.Pending && Answered(d, v, ready)
    ensures Guests(StartedHere(d, v, ready))
  {
    hide V.AllAtRest;
    hide V.PiecesOk;
    hide V.AllFilled;
    hide PiecePlans;
    hide PiecesTickets;
    hide T.Issue;
    hide SteadyOk;
    hide AllPartOf;
    hide LandedOk;
    hide SoundFrom;
    var d' := StartedHere(d, v, ready);
    StartAccounts(d, v, ready);
    StartParts(d, v, ready);
    forall w | w in d'.steady ensures SteadyOk(d', w) { StartSteady(d, v, ready, w); }
    forall t, r | t in d'.tickets ensures LandedOk(d', t, r) {
      if t in d.tickets {
        StartLanded(d, v, ready, t, r);
      } else {
        StartUnlanded(d, v, ready, t, r);
      }
    }
  }

  lemma StartLanded(d: Stack, v: nat, ready: bool, t: Ticket, r: Req)
    requires StackOk(d) && v in d.reqs && t in d.tickets && d.reqs[v].where != T.Pending
    ensures LandedOk(StartedHere(d, v, ready), t, r)
  {
    hide PiecePlans;
    hide PiecesTickets;
    hide T.Issue;
    hide SteadyOk;
    hide Copy;
    assert LandedOk(d, t, r);
    assert t.q.v != v by {
      var i :| 0 <= i < |d.tickets| && d.tickets[i] == t;
      assert HeldPieces(d.tickets)[i] == t.q;
      assert t.q in HeldPieces(d.tickets);
      V.HeldPending(d.reqs, HeldPieces(d.tickets), i);
    }
  }

  lemma StartUnlanded(d: Stack, v: nat, ready: bool, t: Ticket, r: Req)
    requires StackOk(d) && v in d.reqs && Answered(d, v, ready) && t !in d.tickets
    requires t in Started(d, v, ready).tickets
    ensures LandedOk(StartedHere(d, v, ready), t, r)
  {
    hide PiecePlans;
    hide PiecesTickets;
    hide T.Issue;
    hide Guests;
    hide Sound;
    var q := d.reqs[v].(error := 0);
    var (ch', plans) := PiecePlans(d.ch, ready, q, |q.iov|);
    var ts := PiecesTickets(d.ch, ready, v, q, |q.iov|);
    StartHeld(d, v, ready);
    assert t in ts;
    if t.q.image < |d.ch| && r in d.ch[t.q.image].s.raw && r.op == OpRead {
      var k := Key(r.wid, r.sec, r.secs);
      PiecesDraw(d.ch, ready, v, q, |q.iov|, t.q.image, k);
      SoundAtMost(ch'[t.q.image]);
      TicketSecs(d, v, ready, t);
      NewTicket(d.ch, ch', ts, t, r);
    }
  }

  lemma SoundAtMost(im: Image)
    requires Sound(im)
    ensures AtMost(im.c, im.s)
  {
    hide Structure;
    hide OnDisk;
  }

  lemma TicketSecs(d: Stack, v: nat, ready: bool, t: Ticket)
    requires v in d.reqs && |d.ch| > 0 && Answered(d, v, ready) && t in Started(d, v, ready).tickets && t !in d.tickets
    ensures t.q.secs > 0
  {
    hide PiecePlans;
    hide PiecesTickets;
    hide T.Issue;
    hide T.PlansFit;
    hide V.IssuedPieces;
    var r := d.reqs[v].(error := 0);
    var plans := PiecePlans(d.ch, ready, r, |r.iov|).1;
    StartHeld(d, v, ready);
    V.IssuedOf(EnvOf(d, v), v, r, ready, plans, v);
    var i :| 0 <= i < |Started(d, v, ready).tickets| && Started(d, v, ready).tickets[i] == t;
    assert HeldPieces(Started(d, v, ready).tickets)[i] == t.q;
    assert i >= |d.tickets|;
  }

  /** Issuing a read keeps everything. */
  lemma StartOk(d: Stack, v: nat, ready: bool)
    requires StackOk(d) && v in d.reqs && d.reqs[v].where != T.Pending
    ensures StackOk(Started(d, v, ready))
  {
    hide PiecePlans;
    hide PiecesTickets;
    hide T.Issue;
    hide Guests;
    hide Sound;
    hide StillFor;
    StartAnswered(d, v, ready);
    StartGuests(d, v, ready);
    var (r, d') := (d.reqs[v].(error := 0), Started(d, v, ready));
    if Asks(d, v, ready) {
      forall x, l: nat {:trigger Leaves(d.ch, d'.ch, x, l)} | 0 <= x < |d.ch| ensures Leaves(d.ch, d'.ch, x, l) {
        PiecesLeave(d.ch, ready, r, |r.iov|, x, l);
      }
      ReadMoves(StartedHere(d, v, ready), d');
      forall j, k {:trigger Drawn(d'.tickets, j, k)} | 0 <= j < |d'.ch|
        ensures ReadsAt(d'.ch, j, k) == Drawn(d'.tickets, j, k)
      {
        PiecesDraw(d.ch, ready, v, r, |r.iov|, j, k);
        DrawnAdd(d.tickets, PiecesTickets(d.ch, ready, v, r, |r.iov|), j, k);
        assert Drawn(d.tickets, j, k) == ReadsAt(d.ch, j, k);
      }
    } else {
      assert d'.tickets == d.tickets;
    }
  }

  /* ---- a driver takes a step of its own ---- */

  ghost predicate SparedBy(r: T.VReq, step: Step) { forall l: nat :: Of(r, l) ==> Spared(step, l) }

  /** Something lands, or completes that is not a read, or a write comes in: reads of its
      sectors are not steady any more. */
  ghost function Moved(d: Stack, j: nat, step: Step): Stack
    requires j < |d.ch| && Enabled(d.ch[j].s, step)
  {
    d.(ch := SetState(d.ch, j, Next(d.ch[j].c, d.ch[j].s, step)),
       steady := set v | v in d.steady && v in d.reqs && SparedBy(d.reqs[v], step))
  }

  lemma StepSound(im: Image, step: Step)
    requires Sound(im) && Enabled(im.s, step) && Orderly(im.s, step)
    ensures Sound(im.(s := Next(im.c, im.s, step)))
  {
    hide Structure;
    hide Accounts;
    hide OnDisk;
    hide Next;
    var pool: nat :| Structure(im.c, im.s, pool) && Accounts(im.c, im.s) && OnDisk(im.c, im.s);
    StepOk(im.c, im.s, step, pool);
    StepAccounts(im.c, im.s, step, pool);
    StepOnDisk(im.c, im.s, step, pool);
  }

  /** Sector l of an image that takes a step without a write of it. */
  lemma ImageSteps(im: Image, step: Step, l: nat)
    requires Sound(im) && Enabled(im.s, step) && Spared(step, l) && Still(im.s, l)
    ensures Still(Next(im.c, im.s, step), l)
    ensures Recover(im.c, Next(im.c, im.s, step).media, l) == Recover(im.c, im.s.media, l)
  {
    hide Structure;
    hide Accounts;
    hide OnDisk;
    hide Tracked;
    hide Next;
    hide Recover;
    hide Still;
    var pool: nat :| Structure(im.c, im.s, pool) && Accounts(im.c, im.s) && OnDisk(im.c, im.s);
    StepStill(im.c, im.s, step, l);
    OnDiskTracked(im.c, im.s, pool);
    StepRecovers(im.c, im.s, step, l, pool);
  }

  lemma StepUndisturbed(ch: Chain, j: nat, step: Step, l: nat)
    requires j < |ch| && SoundFrom(ch, 0) && Enabled(ch[j].s, step) && Spared(step, l)
    ensures Undisturbed(ch, SetState(ch, j, Next(ch[j].c, ch[j].s, step)), l)
  {
    hide Sound;
    hide Next;
    hide Recover;
    hide Still;
    if StillAt(ch, l) { ImageSteps(ch[j], step, l); }
  }

  /** A read that lands finds what the image has. */
  lemma LandsCopy(im: Image, i: nat, x: nat)
    requires Sound(im) && Enabled(im.s, LandOther(i)) && im.s.raw[i].op == OpRead && x < im.s.raw[i].secs
    ensures var r := LandRaw(im.c, im.s, i).raw[i];
            |r.got| == r.secs && Copy(im, r.sec + x, r.got[x])
  {
    hide Structure;
    hide Accounts;
    hide OnDisk;
    hide Recover;
    var pool: nat :| Structure(im.c, im.s, pool) && Accounts(im.c, im.s) && OnDisk(im.c, im.s);
    RawReadAt(im.c, im.s, i, x, pool);
  }

  /** After a step, reads that have landed have found what the image has. */
  lemma MovedLanded(d: Stack, j: nat, step: Step, t: Ticket, r: Req)
    requires Guests(d) && SoundFrom(d.ch, 0) && j < |d.ch| && Enabled(d.ch[j].s, step) && t in d.tickets
    ensures LandedOk(Moved(d, j, step), t, r)
  {
    hide Sound;
    hide Next;
    hide Recover;
    hide Still;
    hide Guests;
    var d' := Moved(d, j, step);
    var x := t.q.image;
    if t.q.v in d'.steady && x < |d.ch| && r in d'.ch[x].s.raw && r.landed && r.op == OpRead &&
       For(t, x, Key(r.wid, r.sec, r.secs)) {
      StepLands(d.ch[j].c, d.ch[j].s, step);
      TicketStill(d, t);
      forall l: nat | r.sec <= l < r.sec + r.secs
        ensures Recover(d'.ch[x].c, d'.ch[x].s.media, l) == Recover(d.ch[x].c, d.ch[x].s.media, l)
      {
        assert T.Covers(t.q, l) && StillAt(d.ch, l) && Of(d.reqs[t.q.v], l);
        StepUndisturbed(d.ch, j, step, l);
      }
      if r in d.ch[x].s.raw {
        LandedKept(d, d', t, r);
      } else {
        forall n | 0 <= n < r.secs ensures |r.got| == r.secs && Copy(d'.ch[x], r.sec + n, r.got[n]) {
          LandsCopy(d.ch[j], step.i, n);
        }
        LandedLength(d.ch[j], step.i);
      }
    }
  }

  lemma LandedLength(im: Image, i: nat)
    requires i < |im.s.raw| && im.s.raw[i].op == OpRead
    ensures |LandRaw(im.c, im.s, i).raw[i].got| == im.s.raw[i].secs
  {
  }

  /** The sectors of a piece of a steady read are still. */
  lemma TicketStill(d: Stack, t: Ticket)
    requires Guests(d) && t in d.tickets && t.q.v in d.steady
    ensures forall l: nat :: T.Covers(t.q, l) ==> StillAt(d.ch, l) && t.q.v in d.reqs && Of(d.reqs[t.q.v], l)
  {
    hide V.AllAtRest;
    hide V.PiecesOk;
    hide V.AllFilled;
    hide AllLandedOk;
    hide StillAt;
    hide ContentOk;
    var i :| 0 <= i < |d.tickets| && d.tickets[i] == t;
    assert HeldPieces(d.tickets)[i] == t.q;
    assert t.q in HeldPieces(d.tickets) && PartOf(d.reqs, t.q) && SteadyOk(d, t.q.v);
    forall l: nat | T.Covers(t.q, l) ensures StillAt(d.ch, l) && Of(d.reqs[t.q.v], l) {
      assert SteadyAt(d, t.q.v, l);
    }
  }

  lemma OtherGuests(d: Stack, j: nat, step: Step)
    requires Guests(d) && SoundFrom(d.ch, 0) && j < |d.ch| && Enabled(d.ch[j].s, step)
    ensures Guests(Moved(d, j, step))
  {
    hide Guests;
    hide SoundFrom;
    hide Next;
    hide LandedOk;
    hide Undisturbed;
    hide Spared;
    var d' := Moved(d, j, step);
    SizesSet(d.ch, j, Next(d.ch[j].c, d.ch[j].s, step));
    forall v, l: nat | v in d'.steady && v in d.reqs && Of(d.reqs[v], l) ensures Undisturbed(d.ch, d'.ch, l) {
      StepUndisturbed(d.ch, j, step, l);
    }
    forall t, r | t in d.tickets ensures LandedOk(d', t, r) { MovedLanded(d, j, step, t, r); }
    ChainMoves(d, d');
  }

  lemma SizesSet(ch: Chain, j: nat, s: Vhd)
    requires j < |ch|
    ensures Sizes(SetState(ch, j, s)) == Sizes(ch)
  {
    assert forall i :: 0 <= i < |ch| ==> Sizes(SetState(ch, j, s))[i] == Sizes(ch)[i];
  }

  lemma OtherOk(d: Stack, j: nat, step: Step)
    requires StackOk(d) && j < |d.ch| && Enabled(d.ch[j].s, step) && Plain(d.ch[j].s, step) && Orderly(d.ch[j].s, step)
    ensures StackOk(Moved(d, j, step))
  {
    hide Guests;
    hide Sound;
    hide Next;
    hide Plain;
    hide Spared;
    var d' := Moved(d, j, step);
    OtherGuests(d, j, step);
    StepSound(d.ch[j], step);
    forall x, k {:trigger Drawn(d'.tickets, x, k)} | 0 <= x < |d'.ch|
      ensures ReadsAt(d'.ch, x, k) == Drawn(d'.tickets, x, k)
    {
      assert Drawn(d.tickets, x, k) == ReadsAt(d.ch, x, k);
      if x == j { PlainReadsAt(d.ch[j], step, k); }
    }
  }

  lemma PlainReadsAt(im: Image, step: Step, k: Key)
    requires Sound(im) && Enabled(im.s, step) && Plain(im.s, step)
    ensures Reads(im.c, Next(im.c, im.s, step), k) == Reads(im.c, im.s, k)
  {
    hide Structure;
    hide Accounts;
    hide OnDisk;
    hide Next;
    hide Plain;
    hide Reads;
    var pool: nat :| Structure(im.c, im.s, pool) && Accounts(im.c, im.s) && OnDisk(im.c, im.s);
    PlainReads(im.c, im.s, step, pool, k);
  }

  /* ---- a driver completes a read of the file ---- */

  ghost predicate IsHeld(d: Stack, j: nat, k: Key) {
    exists i :: 0 <= i < |d.tickets| && For(d.tickets[i], j, k) && d.tickets[i].q.v in d.reqs
  }

  ghost function Find(d: Stack, j: nat, k: Key): (i: nat)
    requires IsHeld(d, j, k)
    ensures i < |d.tickets| && For(d.tickets[i], j, k) && d.tickets[i].q.v in d.reqs
  {
    var i :| 0 <= i < |d.tickets| && For(d.tickets[i], j, k) && d.tickets[i].q.v in d.reqs;
    i
  }

  lemma {:induction false} HeldIs(d: Stack, j: nat, k: Key)
    requires Guests(d) && Drawn(d.tickets, j, k) > 0
    ensures IsHeld(d, j, k)
  {
    DrawnHas(d.tickets, j, k);
    var i :| 0 <= i < |d.tickets| && For(d.tickets[i], j, k);
    assert HeldPieces(d.tickets)[i] == d.tickets[i].q;
    assert d.tickets[i].q in HeldPieces(d.tickets);
  }

  /** The completion of read n of image j's file. */
  ghost function Finished(d: Stack, j: nat, n: nat, err: int): Stack
    requires j < |d.ch| && Enabled(d.ch[j].s, DoneOther(n, err))
  {
    var r := d.ch[j].s.raw[n];
    var k := Key(r.wid, r.sec, r.secs);
    var d1 := d.(ch := SetState(d.ch, j, Next(d.ch[j].c, d.ch[j].s, DoneOther(n, err))));
    if !IsHeld(d, j, k) then d1
    else
      var d2 := Dealt(d1, Find(d, j, k), T.Done(r.secs, err, T.End), []);
      if err == 0 then Store(d2, d.tickets[Find(d, j, k)].q.v, r.sec, r.got) else d2
  }

  /** What a driver says honestly of the images now, it says honestly of what they held when
      a steady read was issued. */
  lemma {:induction false} HonestSince(d: Stack, t: Ticket, sizes: seq<nat>, p: T.Plan)
    requires Guests(d) && t in d.tickets && t.q.v in d.steady && T.Length(p) == t.q.secs && t.q.image < |sizes|
    requires T.Fits(sizes, t.q.image, t.q.sec, p) && T.Honest(HoldsOf(d.ch), sizes, t.q.image, t.q.sec, p)
    ensures t.q.v in d.seen && T.Honest(d.seen[t.q.v], sizes, t.q.image, t.q.sec, p)
  {
    hide V.AllAtRest;
    hide V.PiecesOk;
    hide V.AllFilled;
    hide AllLandedOk;
    hide AllPartOf;
    hide HoldsOf;
    hide T.Honest;
    hide T.Fits;
    hide T.Length;
    hide ContentOk;
    hide StillAt;
    assert SteadyOk(d, t.q.v);
    var seen := d.seen[t.q.v];
    forall i: nat, l: nat | i >= t.q.image && t.q.sec <= l < t.q.sec + T.Length(p)
      ensures seen(i, l) == HoldsOf(d.ch)(i, l)
    {
      SeenIs(d, t, l);
    }
    HonestSame(HoldsOf(d.ch), seen, sizes, t.q.image, t.q.sec, p);
  }

  lemma SeenIs(d: Stack, t: Ticket, l: nat)
    requires Guests(d) && t in d.tickets && t.q.v in d.steady && T.Covers(t.q, l)
    ensures t.q.v in d.seen && forall i: nat :: d.seen[t.q.v](i, l) == HoldsOf(d.ch)(i, l)
  {
    hide HoldsOf;
    TicketStill(d, t);
    assert SteadyOk(d, t.q.v) && SteadyAt(d, t.q.v, l);
  }

  /** There is a ticket for every read that a driver holds. */
  lemma ReadHeld(d: Stack, j: nat, n: nat)
    requires StackOk(d) && j < |d.ch| && n < |d.ch[j].s.raw| && d.ch[j].s.raw[n].op == OpRead
    ensures var r := d.ch[j].s.raw[n]; IsHeld(d, j, Key(r.wid, r.sec, r.secs))
  {
    hide Guests;
    hide Sound;
    var r := d.ch[j].s.raw[n];
    var k := Key(r.wid, r.sec, r.secs);
    assert r in d.ch[j].s.raw;
    CountHas(d.ch[j].s.raw, r, k);
    assert Drawn(d.tickets, j, k) == ReadsAt(d.ch, j, k);
    HeldIs(d, j, k);
  }

  /** The chain after read n of image j has completed. */
  ghost function Gone(d: Stack, j: nat, n: nat, err: int): Stack
    requires j < |d.ch| && Enabled(d.ch[j].s, DoneOther(n, err))
  {
    d.(ch := SetState(d.ch, j, Next(d.ch[j].c, d.ch[j].s, DoneOther(n, err))))
  }

  lemma GoneGuests(d: Stack, j: nat, n: nat, err: int)
    requires StackOk(d) && j < |d.ch| && Enabled(d.ch[j].s, DoneOther(n, err))
    ensures Guests(Gone(d, j, n, err)) && Sizes(Gone(d, j, n, err).ch) == Sizes(d.ch)
    ensures Gone(d, j, n, err).ch[j].s.media == d.ch[j].s.media
  {
    hide Guests;
    hide Sound;
    SizesSet(d.ch, j, Next(d.ch[j].c, d.ch[j].s, DoneOther(n, err)));
    SteadyIn(d);
    var d1 := Moved(d, j, DoneOther(n, err));
    assert d1.steady == d.steady;
    assert d1 == Gone(d, j, n, err);
    hide Next;
    OtherGuests(d, j, DoneOther(n, err));
  }

  lemma SteadyIn(d: Stack)
    requires Guests(d)
    ensures d.steady <= d.reqs.Keys
  {
  }

  /** The completion is what the ticket allows. */
  lemma FinishDeals(d: Stack, j: nat, n: nat, err: int, i: nat)
    requires StackOk(d) && j < |d.ch| && Enabled(d.ch[j].s, DoneOther(n, err)) && d.ch[j].s.raw[n].op == OpRead
    requires var r := d.ch[j].s.raw[n];
             i < |d.tickets| && For(d.tickets[i], j, Key(r.wid, r.sec, r.secs)) && d.tickets[i].q.v in d.reqs
    ensures Deals(Gone(d, j, n, err), i, T.Done(d.ch[j].s.raw[n].secs, err, T.End), [])
  {
    hide Guests;
    hide Structure;
    hide Accounts;
    hide OnDisk;
    hide Next;
    hide T.Honest;
    hide Recover;
    var im := d.ch[j];
    assert Sound(im);
    var pool: nat :| Structure(im.c, im.s, pool) && Accounts(im.c, im.s) && OnDisk(im.c, im.s);
    var p := T.Done(im.s.raw[n].secs, err, T.End);
    SizesSet(d.ch, j, Next(im.c, im.s, DoneOther(n, err)));
    assert Holdings(d.ch, HoldsOf(d.ch));
    CompletionServed(d.ch, j, n, err, HoldsOf(d.ch), pool);
    if d.tickets[i].q.v in d.steady { HonestSince(d, d.tickets[i], Sizes(d.ch), p); }
    assert T.Pieces(Sizes(d.ch), d.tickets[i].q.v, j, d.tickets[i].q.sec, p) == [];
  }

  lemma FinishCopies(d: Stack, j: nat, n: nat, i: nat)
    requires StackOk(d) && j < |d.ch| && Enabled(d.ch[j].s, DoneOther(n, 0)) && d.ch[j].s.raw[n].op == OpRead
    requires var r := d.ch[j].s.raw[n];
             i < |d.tickets| && For(d.tickets[i], j, Key(r.wid, r.sec, r.secs)) && d.tickets[i].q.v in d.steady
    ensures var (r, im) := (d.ch[j].s.raw[n], Gone(d, j, n, 0).ch[j]);
            |r.got| == r.secs && forall x :: 0 <= x < r.secs ==> Copy(im, r.sec + x, r.got[x])
  {
    hide Sound;
    var r := d.ch[j].s.raw[n];
    assert r in d.ch[j].s.raw && d.tickets[i] in d.tickets;
    assert LandedOk(d, d.tickets[i], r);
    hide Guests;
    GoneGuests(d, j, n, 0);
  }

  lemma FinishGot(im: Image, n: nat)
    requires Sound(im) && Enabled(im.s, DoneOther(n, 0)) && im.s.raw[n].op == OpRead
    ensures |im.s.raw[n].got| == im.s.raw[n].secs
  {
    hide Structure;
    hide Accounts;
    hide OnDisk;
    hide Recover;
    var pool: nat :| Structure(im.c, im.s, pool) && Accounts(im.c, im.s) && OnDisk(im.c, im.s);
    RawRead(im.c, im.s, n, pool);
    RawReadAt(im.c, im.s, n, 0, pool);
  }

  lemma FinishGuests(d: Stack, j: nat, n: nat, err: int)
    requires StackOk(d) && j < |d.ch| && Enabled(d.ch[j].s, DoneOther(n, err)) && d.ch[j].s.raw[n].op == OpRead
    requires var r := d.ch[j].s.raw[n]; IsHeld(d, j, Key(r.wid, r.sec, r.secs))
    ensures Guests(Finished(d, j, n, err))
  {
    hide Guests;
    hide Sound;
    hide Next;
    hide Copy;
    hide Dealt;
    hide Deals;
    hide T.Honest;
    var r := d.ch[j].s.raw[n];
    var i := Find(d, j, Key(r.wid, r.sec, r.secs));
    var d1 := Gone(d, j, n, err);
    var p := T.Done(r.secs, err, T.End);
    GoneGuests(d, j, n, err);
    FinishDeals(d, j, n, err, i);
    if err == 0 {
      if d.tickets[i].q.v in d.steady { FinishCopies(d, j, n, i); }
      FinishGot(d.ch[j], n);
      CompletedGuests(d1, i, p, r.got);
    } else {
      FailedHonest(Sizes(d1.ch), j, r.sec, r.secs, err);
      ServedGuests(d1, i, p, []);
    }
  }

  lemma {:induction false} FailedHonest(sizes: seq<nat>, j: nat, sec: nat, n: nat, err: int)
    requires err != 0
    ensures T.Honest(NOTHING, sizes, j, sec, T.Done(n, err, T.End))
  {
  }

  lemma FinishOk(d: Stack, j: nat, n: nat, err: int)
    requires StackOk(d) && j < |d.ch| && Enabled(d.ch[j].s, DoneOther(n, err)) && d.ch[j].s.raw[n].op == OpRead
    ensures StackOk(Finished(d, j, n, err))
  {
    hide Guests;
    hide Sound;
    hide T.Deliver;
    ReadHeld(d, j, n);
    FinishGuests(d, j, n, err);
    var (r, d') := (d.ch[j].s.raw[n], Finished(d, j, n, err));
    var i := Find(d, j, Key(r.wid, r.sec, r.secs));
    StepSound(d.ch[j], DoneOther(n, err));
    forall x, k {:trigger Drawn(d'.tickets, x, k)} | 0 <= x < |d'.ch|
      ensures ReadsAt(d'.ch, x, k) == Drawn(d'.tickets, x, k)
    {
      assert Drawn(d.tickets, x, k) == ReadsAt(d.ch, x, k);
      DrawnWithout(d.tickets, i, x, k);
      assert ChainTickets.Without(d.tickets, i) + [] == ChainTickets.Without(d.tickets, i);
      DoneReads(d.ch[j].c, d.ch[j].s, n, err, k);
    }
  }
}
