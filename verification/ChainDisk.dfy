/** The virtual disk of VirtualDisk.dfy on top of a chain of VHD images: what the drivers do is
    what its methods ask for, so that it goes through the states of ChainRun.dfy. */
module ChainDisk {
  import opened VhdTypes
  import opened VhdEngine
  import opened VhdInvariants
  import opened VhdStructure
  import opened VhdAccounting
  import opened VhdDisk
  import opened VhdTheorems
  import opened VhdChain
  import opened VhdTickets
  import opened ChainTickets
  import opened ChainStack
  import opened ChainSteps
  import opened ChainWake
  import opened ChainRun
  import T = TapdiskVbd
  import V = VirtualDisk

  /** The object is in state d. */
  ghost predicate Mirrors(vbd: V.Vbd, d: Stack)
    reads vbd
  {
    && vbd.Valid() && vbd.sizes == Sizes(d.ch) && vbd.stopping == d.stopping && vbd.late == d.late
    && vbd.reqs == d.reqs && vbd.held == HeldPieces(d.tickets) && vbd.seen == d.seen
    && LooseOk(d.reqs, d.steady, vbd.loose)
  }

  /** Nothing is said of the buffers of reads that are not steady. */
  ghost predicate LooseOk(reqs: V.Requests, steady: set<nat>, loose: set<nat>) {
    forall v :: v in reqs && reqs[v].where != T.New ==> (v in loose <==> v !in steady)
  }

  /** tapdisk_vbd_queue_request, for a read. */
  method Join(vbd: V.Vbd, v: nat, sec: nat, iov: seq<nat>, ghost d: Stack)
    requires Mirrors(vbd, d) && StackOk(d) && CanAct(d, Act.Join(v, sec, iov))
    modifies vbd
    ensures Mirrors(vbd, Acted(d, Act.Join(v, sec, iov)))
  {
    hide V.Sum;
    hide V.AllFilled;
    hide V.AllAtRest;
    hide V.PiecesOk;
    hide Guests;
    hide Sound;
    vbd.QueueRequest(v, false, sec, iov);
  }

  /** A driver takes a step of its own; reads whose sectors it is asked to write are not
      steady any more. */
  ghost method Disturb(vbd: V.Vbd, j: nat, step: Step, d: Stack)
    requires Mirrors(vbd, d) && StackOk(d) && CanAct(d, Other(j, step))
    modifies vbd
    ensures Mirrors(vbd, Acted(d, Other(j, step)))
  {
    hide V.Sum;
    hide V.AllFilled;
    hide V.AllAtRest;
    hide V.PiecesOk;
    hide Next;
    hide SparedBy;
    hide Guests;
    hide Sound;
    SizesSet(d.ch, j, Next(d.ch[j].c, d.ch[j].s, step));
    vbd.Loosen(d.steady - Moved(d, j, step).steady);
  }

  /** A request of which drivers hold pieces is pending, and stays issued. */
  lemma DealtLoose(d: Stack, i: nat, p: T.Plan, ts: seq<Ticket>, loose: set<nat>)
    requires Deals(d, i, p, ts) && LooseOk(d.reqs, d.steady, loose) && d.tickets[i].q.secs > 0
    requires V.AllAtRest(d.reqs, HeldPieces(d.tickets))
    ensures d.reqs[d.tickets[i].q.v].where != T.New
    ensures LooseOk(Dealt(d, i, p, ts).reqs, d.steady, loose)
  {
    hide T.Deliver;
    hide T.Pieces;
    hide T.Fits;
    hide T.Honest;
    hide T.Length;
    hide V.AllAtRest;
    V.HeldPending(d.reqs, HeldPieces(d.tickets), i);
  }

  /** A driver deals with the piece of ticket i. */
  method Deal(vbd: V.Vbd, i: nat, p: T.Plan, ghost d: Stack, ghost ts: seq<Ticket>)
    requires Mirrors(vbd, d) && Deals(d, i, p, ts)
    modifies vbd
    ensures Mirrors(vbd, Dealt(d, i, p, ts))
  {
    hide T.Deliver;
    hide T.Pieces;
    hide T.Fits;
    hide T.Honest;
    hide T.Length;
    hide V.Sum;
    hide V.AllFilled;
    hide V.AllAtRest;
    hide LooseOk;
    assert vbd.held[i] == d.tickets[i].q && vbd.held[i] in vbd.held;
    DealtHeld(d, i, p, ts);
    DealtLoose(d, i, p, ts, vbd.loose);
    LooseAt(d, vbd.loose, vbd.held[i].v);
    vbd.Resume(i, p);
  }

  lemma LooseAt(d: Stack, loose: set<nat>, v: nat)
    requires LooseOk(d.reqs, d.steady, loose) && v in d.reqs && d.reqs[v].where != T.New
    ensures v in loose <==> v !in d.steady
  {
  }

  /** What stands when a read may be issued. */
  lemma {:induction false} IssueReady(d: Stack, v: nat, ready: bool)
    requires StackOk(d) && v in d.reqs
    ensures var r := d.reqs[v].(error := 0);
            var plans := PiecePlans(d.ch, ready, r, |r.iov|).1;
            && T.PlansFit(Sizes(d.ch), r, plans)
            && (StillFor(d.ch, r) ==> V.HonestPlans(HoldsOf(d.ch), Sizes(d.ch), r, plans))
  {
    hide T.PlansFit;
    hide V.HonestPlans;
    hide PiecePlans;
    hide Guests;
    hide Sound;
    hide StillFor;
    StartAnswered(d, v, ready);
  }

  lemma FilledCleared(seen: V.Seen, sizes: seq<nat>, loose: set<nat>, reqs: V.Requests, held: seq<T.Piece>, v: nat,
          r: T.VReq, loose': set<nat>)
    requires V.AllFilled(seen, sizes, loose, reqs, held) && loose - {v} <= loose'
    ensures V.FilledBut(seen, sizes, loose', reqs[v := r], held, v)
  {
    hide T.Filled;
  }

  /** The state after the issue. */
  lemma {:induction false} IssueState(d: Stack, v: nat, ready: bool)
    requires StackOk(d) && CanAct(d, Start(v, ready))
    ensures var (r, d') := (d.reqs[v].(error := 0), Acted(d, Start(v, ready)));
            var plans := PiecePlans(d.ch, ready, r, |r.iov|).1;
            && |plans| == |r.iov| && Sizes(d'.ch) == Sizes(d.ch) && d'.reqs.Keys == d.reqs.Keys
            && d'.reqs == d.reqs[v := T.Issue(EnvOf(d, v), r, ready, plans)] && d'.seen == d.seen[v := HoldsOf(d.ch)]
            && HeldPieces(d'.tickets) == HeldPieces(d.tickets) + V.IssuedPieces(EnvOf(d, v), v, r, ready, plans)
            && d'.steady == (if StillFor(d.ch, r) then d.steady + {v} else d.steady - {v})
            && d'.stopping == d.stopping && d'.late == d.late
  {
    hide T.PlansFit;
    hide V.HonestPlans;
    hide V.IssuedPieces;
    hide T.Issue;
    hide PiecePlans;
    hide PiecesTickets;
    hide Guests;
    hide Sound;
    hide OnlyRead;
    hide StillFor;
    StartAnswered(d, v, ready);
    StartHeld(d, v, ready);
    var ch' := Acted(d, Start(v, ready)).ch;
    if Asks(d, v, ready) { SizesSame(d.ch, ch'); }
  }

  lemma IssueLoose(reqs: V.Requests, steady: set<nat>, loose: set<nat>, v: nat, r: T.VReq, still: bool)
    requires LooseOk(reqs, steady, loose)
    ensures LooseOk(reqs[v := r], if still then steady + {v} else steady - {v},
              if still then loose - {v} else loose + {v})
  {
  }

  /** tapdisk_vbd_issue_request, with the error of an earlier try cleared: the drivers' plans
      are such that the request may be issued. */
  method Issue(vbd: V.Vbd, v: nat, ready: bool, plans: seq<T.Plan>, ghost d: Stack) returns (err: int)
    requires Mirrors(vbd, d) && StackOk(d) && CanAct(d, Start(v, ready))
    requires plans == PiecePlans(d.ch, ready, d.reqs[v].(error := 0), |d.reqs[v].iov|).1
    modifies vbd
    ensures Mirrors(vbd, Acted(d, Start(v, ready)))
    ensures |plans| == |d.reqs[v].iov| && err == V.IssueError(EnvOf(d, v), d.reqs[v].(error := 0), ready, plans)
  {
    hide T.Issue;
    hide LooseOk;
    hide T.PlansFit;
    hide V.IssueError;
    hide V.HonestPlans;
    hide V.IssuedPieces;
    hide V.FilledBut;
    hide V.AllFilled;
    hide V.Sum;
    hide V.AllAtRest;
    hide V.PiecesOk;
    hide PiecePlans;
    hide Started;
    hide Guests;
    hide Sound;
    hide StillFor;
    hide Asks;
    ghost var r, still := d.reqs[v].(error := 0), StillFor(d.ch, d.reqs[v].(error := 0));
    IssueReady(d, v, ready);
    IssueState(d, v, ready);
    V.ErrorCleared(vbd.reqs, vbd.held, vbd.sizes, v);
    ghost var loose := if still then vbd.loose - {v} else vbd.loose + {v};
    IssueLoose(d.reqs, d.steady, vbd.loose, v, T.Issue(EnvOf(d, v), r, ready, plans), still);
    FilledCleared(vbd.seen, vbd.sizes, vbd.loose, vbd.reqs, vbd.held, v, r, loose);
    vbd.SetReq(v, vbd.reqs[v].(error := 0));
    vbd.loose := loose;
    err := vbd.IssueRequest(v, ready, plans, HoldsOf(d.ch));
  }

  /** A driver has read its file. */
  method FinishRead(vbd: V.Vbd, i: nat, n: nat, err: int, ghost d: Stack, ghost j: nat, ghost k: nat)
    requires Mirrors(vbd, d) && StackOk(d) && CanAct(d, Finish(j, k, err)) && n == d.ch[j].s.raw[k].secs
    requires IsHeld(d, j, KeyOf(d.ch[j].s.raw[k])) && i == Find(d, j, KeyOf(d.ch[j].s.raw[k]))
    modifies vbd
    ensures Mirrors(vbd, Acted(d, Finish(j, k, err)))
  {
    hide Guests;
    hide Sound;
    hide Dealt;
    hide Next;
    hide Deals;
    GoneGuests(d, j, k, err);
    FinishDeals(d, j, k, err, i);
    Deal(vbd, i, T.Done(n, err, T.End), Gone(d, j, k, err), []);
  }

  /** A driver that has read a bitmap serves a read again that waited for it: with what
      stands in the chain by then. */
  method ServeAgain(vbd: V.Vbd, i: nat, p: T.Plan, ghost ready: bool, ghost d: Stack, ghost x: Stack, ghost j: nat,
          ghost b: nat, ghost k: nat, ghost pool: nat)
    requires Waking(d, j, b, pool) && k < |d.ch[j].s.cache[b].waiting| && Mid(d, x, j, b, 0, k)
    requires var r := d.ch[j].s.cache[b].waiting[k];
             && r.op == OpRead && IsHeld(x, j, KeyOf(r)) && i == Find(x, j, KeyOf(r))
             && p == ServeRead(Freed(x.ch, j), ready, j, r.wid, r.sec, r.secs).1
    requires Mirrors(vbd, x)
    modifies vbd
    ensures Mirrors(vbd, WakeOne(x, j, 0, ready, d.ch[j].s.cache[b].waiting[k]))
  {
    hide Structure;
    hide Accounts;
    hide OnDisk;
    hide StackOk;
    hide Guests;
    hide Sound;
    hide Deals;
    hide Dealt;
    hide MidReads;
    hide MidSpares;
    hide MidState;
    hide ServeRead;
    hide ServeTickets;
    ghost var (r, ch1) := (d.ch[j].s.cache[b].waiting[k], Freed(x.ch, j));
    ghost var ch2 := ServeRead(ch1, ready, j, r.wid, r.sec, r.secs).0;
    ghost var ts := ServeTickets(ch1, ready, x.tickets[i].q.v, j, r.wid, r.sec, r.secs);
    RouseDeals(d, x, j, b, ready, k, i, ch2, p, ts, pool);
    RouseServed(d, x, j, b, ready, k, i, ch2, p, ts, pool);
    RouseReads(x, j, ch2, HoldsOf(x.ch), Fair(ch1, HoldsOf(x.ch), j, r.sec, r.secs), r.wid, r.sec, r.secs, p);
    SizesSame(x.ch, ch2);
    Deal(vbd, i, p, x, ts);
    DealtChain(x, i, p, ts);
  }
}
