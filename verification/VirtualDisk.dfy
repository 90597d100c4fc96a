/** A virtual disk as the program has it: its requests, and its count of sectors that are
    pending, updated by issue, completion and forwarding. */
module VirtualDisk {
  import opened TapdiskEnds
  import opened TapdiskVbd
  import T = TapdiskVbd

  type Requests = map<nat, VReq>

  /** Sectors that all requests together wait for. */
  ghost function Sum(reqs: Requests): int
    decreases |reqs|
  {
    if reqs == map[] then 0
    else
      var v :| v in reqs;
      reqs[v].secsPending + Sum(reqs - {v})
  }

  lemma {:induction false} SumRemove(reqs: Requests, v: nat)
    requires v in reqs
    ensures Sum(reqs) == reqs[v].secsPending + Sum(reqs - {v})
    decreases |reqs|
  {
    var u :| u in reqs && Sum(reqs) == reqs[u].secsPending + Sum(reqs - {u});
    if u != v {
      SumRemove(reqs - {u}, v);
      SumRemove(reqs - {v}, u);
      assert reqs - {u} - {v} == reqs - {v} - {u};
    }
  }

  lemma SumUpdate(reqs: Requests, v: nat, r: VReq)
    requires v in reqs
    ensures Sum(reqs[v := r]) == Sum(reqs) - reqs[v].secsPending + r.secsPending
  {
    SumRemove(reqs, v);
    SumRemove(reqs[v := r], v);
    assert reqs[v := r] - {v} == reqs - {v};
  }

  lemma SumAdd(reqs: Requests, v: nat, r: VReq)
    requires v !in reqs
    ensures Sum(reqs[v := r]) == Sum(reqs) + r.secsPending
  {
    SumRemove(reqs[v := r], v);
    assert reqs[v := r] - {v} == reqs;
  }

  lemma PiecesNext(sizes: seq<nat>, v: nat, image: nat, sec: nat, p: Plan)
    ensures Pieces(sizes, v, image, sec, p) ==
      match p
      case End => []
      case Hold(n, rest) => [Piece(v, image, sec, n)] + Pieces(sizes, v, image, sec + n, rest)
      case Done(n, _, rest) => Pieces(sizes, v, image, sec + n, rest)
      case Forward(n, ready, inner, rest) =>
        (if ready && image + 1 < |sizes| then Pieces(sizes, v, image + 1, sec, inner) else [])
        + Pieces(sizes, v, image, sec + n, rest)
  {
  }

  lemma Chain(g: seq<Piece>, h: seq<Piece>, k: seq<Piece>)
    ensures g + h + k == g + (h + k)
  {
  }

  lemma Twice(reqs: Requests, v: nat, r: VReq, r': VReq)
    ensures reqs[v := r][v := r'] == reqs[v := r']
    ensures v in reqs ==> reqs[v := reqs[v]] == reqs
  {
  }

  ghost predicate PiecesOk(sizes: seq<nat>, reqs: Requests, held: seq<Piece>) {
    forall q :: q in held ==> q.v in reqs && q.secs > 0 && q.image < |sizes|
  }

  ghost predicate AllAtRest(reqs: Requests, held: seq<Piece>) {
    forall v {:trigger Quiet(reqs, held, v)} :: v in reqs ==> Quiet(reqs, held, v)
  }

  ghost predicate Quiet(reqs: Requests, held: seq<Piece>, v: nat)
    requires v in reqs
  {
    AtRest(reqs[v], Held(held, v))
  }

  /* ---- buffers ---- */

  /** For each request, what the images held when it was last issued. */
  type Seen = map<nat, Holds>

  ghost predicate FilledOne(seen: Seen, sizes: seq<nat>, r: VReq, held: seq<Piece>, v: nat) {
    v in seen && Filled(seen[v], sizes, r, held, v)
  }

  /** Every read that has been issued is filled right, or being filled: of request v
      alone nothing is said. */
  ghost predicate FilledBut(seen: Seen, sizes: seq<nat>, loose: set<nat>, reqs: Requests, held: seq<Piece>, v: nat) {
    forall w :: w in reqs && w !in loose && reqs[w].where != New && w != v ==> FilledOne(seen, sizes, reqs[w], held, w)
  }

  ghost predicate AllFilled(seen: Seen, sizes: seq<nat>, loose: set<nat>, reqs: Requests, held: seq<Piece>) {
    forall w :: w in reqs && w !in loose && reqs[w].where != New ==> FilledOne(seen, sizes, reqs[w], held, w)
  }

  /** The first image's driver answers all pieces of request r honestly. */
  ghost predicate HonestPlans(has: Holds, sizes: seq<nat>, r: VReq, plans: seq<Plan>) {
    |plans| == |r.iov| && forall i :: 0 <= i < |plans| ==> Honest(has, sizes, 0, r.sec + Total(r.iov[..i]), plans[i])
  }

  class Vbd {
    const sizes: seq<nat>       // of the images, from the first
    ghost var seen: Seen
    var stopping: bool          // TD_VBD_DEAD or TD_VBD_SHUTDOWN_REQUESTED
    var late: set<nat>          // requests past their timeout
    var reqs: Requests
    ghost var loose: set<nat>   // of the buffers of these requests nothing is said: those of writes, and those of reads
                                // of which a sector has been written since they were issued
    var secsPending: int
    var held: seq<Piece>        // what the drivers hold

    function EnvOf(v: nat): Env
      reads this
    {
      Env(sizes, stopping, v in late)
    }

    /** At rest: no submission frame is open. */
    ghost predicate Valid()
      reads this
    {
      Counted() && AllFilled(seen, sizes, loose, reqs, held)
    }

    ghost predicate Counted()
      reads this
    {
      PiecesOk(sizes, reqs, held) && AllAtRest(reqs, held) && secsPending == Sum(reqs)
    }

    /** Request v has become r, and the disk's count has followed. */
    twostate predicate Became(v: nat, r: VReq)
      reads this
    {
      v in old(reqs) && reqs == old(reqs)[v := r] &&
        secsPending == old(secsPending) - old(reqs)[v].secsPending + r.secsPending
    }

    constructor (sizes: seq<nat>)
      ensures Valid() && this.sizes == sizes && reqs == map[] && held == []
    {
      this.sizes, seen := sizes, map[];
      stopping, late, reqs, loose, secsPending, held := false, {}, map[], {}, 0, [];
    }

    /** tapdisk_vbd_queue_request. */
    method QueueRequest(v: nat, write: bool, sec: nat, iov: seq<nat>)
      requires Valid() && v !in reqs
      modifies this`reqs, this`loose
      ensures Valid() && reqs == old(reqs)[v := VReq(sec, iov, 0, 0, 0, New, map[], 0, 0)]
      ensures loose == if write then old(loose) + {v} else old(loose) - {v}
    {
      var r := VReq(sec, iov, 0, 0, 0, New, map[], 0, 0);
      SumAdd(reqs, v, r);
      NoneHeld(sizes, reqs, held, v);
      reqs, loose := reqs[v := r], if write then loose + {v} else loose - {v};
      forall w | w in reqs ensures Quiet(reqs, held, w) {
        if w != v { assert Quiet(old(reqs), held, w); }
      }
    }

    /** Of the buffers of requests vs nothing is said any more. */
    ghost method Loosen(vs: set<nat>)
      requires Valid()
      modifies this`loose
      ensures Valid() && loose == old(loose) + vs
    {
      loose := loose + vs;
    }

    /** tapdisk_vbd_complete_vbd_request. */
    method CompleteVbd(v: nat)
      requires v in reqs
      modifies this`reqs
      ensures Became(v, Settle(EnvOf(v), old(reqs)[v]))
      ensures if old(reqs)[v].submitting == 0 && old(reqs)[v].secsPending == 0
              then Decided(reqs[v], stopping, v in late) else reqs == old(reqs)
    {
      var r := reqs[v];
      if r.submitting == 0 && r.secsPending == 0 {
        var retry := r.error != 0 && ShouldRetry(EnvOf(v), r.error);
        reqs := reqs[v := r.(where := if retry then Failed else Completed, left := if r.where == Pending then r.left +
            1 else r.left)];
      }
      assert reqs == old(reqs)[v := reqs[v]];
    }

    /** __tapdisk_vbd_complete_td_request, for n sectors of request v. */
    method CompleteTd(v: nat, n: nat, res: int)
      requires v in reqs
      modifies this`reqs, this`secsPending
      ensures Became(v, T.CompleteTd(EnvOf(v), old(reqs)[v], n, res))
    {
      var err := Norm(res);
      secsPending := secsPending - n;
      var r := reqs[v].(secsPending := reqs[v].secsPending - n);
      if err != 0 { r := r.(error := if r.error != 0 then r.error else err); }
      reqs := reqs[v := r];
      CompleteVbd(v);
    }

    method SetReq(v: nat, r: VReq)
      requires v in reqs && r.secsPending == reqs[v].secsPending
      modifies this`reqs
      ensures Became(v, r)
    {
      reqs := reqs[v := r];
    }

    /** The driver of an image deals with the piece of request v at sec, span by span. */
    method Deliver(v: nat, image: nat, sec: nat, p: Plan)
      requires v in reqs && image < |sizes| && Fits(sizes, image, sec, p)
      modifies this`reqs, this`secsPending, this`held
      ensures Became(v, T.Deliver(EnvOf(v), old(reqs)[v], image, sec, p))
      ensures held == old(held) + Pieces(sizes, v, image, sec, p)
      decreases p, 0
    {
      hide T.CompleteTd;
      hide T.Reissue;
      hide Copied;
      hide FitsParent;
      hide Length;
      ghost var r0, r, env, h0 := reqs, reqs[v], EnvOf(v), held;
      PiecesNext(sizes, v, image, sec, p);
      hide Pieces;
      match p
      case End => assert reqs == reqs[v := reqs[v]];
      case Hold(n, rest) =>
        held := held + [Piece(v, image, sec, n)];
        Deliver(v, image, sec + n, rest);
        Chain(h0, [Piece(v, image, sec, n)], Pieces(sizes, v, image, sec + n, rest));
      case Done(n, res, rest) =>
        DoneTd(v, image, sec, n, res);
        Deliver(v, image, sec + n, rest);
        Twice(r0, v, T.CompleteTd(env, Copied(r, sec, n, image, res), n, res), reqs[v]);
      case Forward(n, ready, inner, rest) =>
        ghost var r1 := if ready then T.Reissue(env, r, image, sec, n, inner) else T.CompleteTd(env, r, n, EBUSY);
        ghost var ps := if ready && image + 1 < |sizes| then Pieces(sizes, v, image + 1, sec, inner) else [];
        ForwardTd(v, image, sec, n, ready, inner);
        Deliver(v, image, sec + n, rest);
        Twice(r0, v, r1, reqs[v]);
        Chain(h0, ps, Pieces(sizes, v, image, sec + n, rest));
    }

    /** td_complete_request, by a driver that has filled the buffer if it reports success. */
    method DoneTd(v: nat, image: nat, sec: nat, n: nat, res: int)
      requires v in reqs
      modifies this`reqs, this`secsPending
      ensures Became(v, T.CompleteTd(EnvOf(v), Copied(old(reqs)[v], sec, n, image, res), n, res))
    {
      hide T.CompleteTd;
      ghost var r0 := reqs;
      SetReq(v, Copied(reqs[v], sec, n, image, res));
      ghost var r1 := reqs[v];
      CompleteTd(v, n, res);
      Twice(r0, v, r1, reqs[v]);
    }

    /** tapdisk_vbd_forward_request. */
    method ForwardTd(v: nat, image: nat, sec: nat, n: nat, ready: bool, inner: Plan)
      requires v in reqs && if ready then FitsParent(sizes, image, sec, n, inner) else inner == End
      modifies this`reqs, this`secsPending, this`held
      ensures Became(v, if ready then T.Reissue(EnvOf(v), old(reqs)[v], image, sec, n, inner)
                        else T.CompleteTd(EnvOf(v), old(reqs)[v], n, EBUSY))
      ensures held == old(held) + if ready && image + 1 < |sizes| then Pieces(sizes, v, image + 1, sec, inner) else []
      decreases inner, 3
    {
      if ready { Reissue(v, image, sec, n, inner); } else { CompleteTd(v, n, EBUSY); }
    }

    /** Zero-fills n sectors of the buffer and completes them. */
    method ZeroTd(v: nat, sec: nat, n: nat)
      requires v in reqs
      modifies this`reqs, this`secsPending
      ensures Became(v, T.CompleteTd(EnvOf(v), Zeroed(old(reqs)[v], sec, n), n, 0))
    {
      hide T.CompleteTd;
      ghost var r0 := reqs;
      SetReq(v, Zeroed(reqs[v], sec, n));
      ghost var r1 := reqs[v];
      CompleteTd(v, n, 0);
      Twice(r0, v, r1, reqs[v]);
    }

    /** The middle of __tapdisk_vbd_reissue_td_request. */
    method AskParent(v: nat, image: nat, sec: nat, n: nat, inner: Plan)
      requires v in reqs && FitsParent(sizes, image, sec, n, inner)
      modifies this`reqs, this`secsPending, this`held
      ensures Became(v, T.AskParent(EnvOf(v), old(reqs)[v], image, sec, n, inner))
      ensures held == old(held) + if image + 1 < |sizes| then Pieces(sizes, v, image + 1, sec, inner) else []
      decreases inner, 1
    {
      hide T.CompleteTd;
      hide T.Deliver;
      hide Zeroed;
      ghost var r0 := reqs;
      if image + 1 >= |sizes| {
        ZeroTd(v, sec, n);
        return;
      }
      var secs := n;
      if sec + n > sizes[image + 1] {
        secs := if sizes[image + 1] > sec then sizes[image + 1] - sec else 0;
        ZeroTd(v, sec + secs, n - secs);
      }
      ghost var r1 := reqs[v];
      if secs > 0 { Deliver(v, image + 1, sec, inner); } else { assert inner == End; }
      Twice(r0, v, r1, reqs[v]);
    }

    /** __tapdisk_vbd_reissue_td_request. */
    method Reissue(v: nat, image: nat, sec: nat, n: nat, inner: Plan)
      requires v in reqs && FitsParent(sizes, image, sec, n, inner)
      modifies this`reqs, this`secsPending, this`held
      ensures Became(v, T.Reissue(EnvOf(v), old(reqs)[v], image, sec, n, inner))
      ensures held == old(held) + if image + 1 < |sizes| then Pieces(sizes, v, image + 1, sec, inner) else []
      decreases inner, 2
    {
      hide T.AskParent;
      hide T.CloseFrame;
      ghost var r0 := reqs;
      SetReq(v, reqs[v].(submitting := reqs[v].submitting + 1));
      ghost var r1 := reqs[v];
      AskParent(v, image, sec, n, inner);
      ghost var r2 := reqs[v];
      Twice(r0, v, r1, r2);
      CloseFrame(v);
      Twice(r0, v, r2, reqs[v]);
    }

    method CloseFrame(v: nat)
      requires v in reqs
      modifies this`reqs
      ensures Became(v, T.CloseFrame(EnvOf(v), old(reqs)[v]))
    {
      SetReq(v, reqs[v].(submitting := reqs[v].submitting - 1));
      if reqs[v].secsPending == 0 { CompleteVbd(v); }
    }

    /* ---- events ---- */

    /** The loop over the pieces of tapdisk_vbd_issue_request. */
    method QueuePieces(v: nat, plans: seq<Plan>)
      requires v in reqs && |sizes| > 0 && PlansFit(sizes, reqs[v], plans)
      requires reqs[v].sec + Total(reqs[v].iov) <= sizes[0]
      modifies this`reqs, this`secsPending, this`held
      ensures Became(v, T.QueuePieces(EnvOf(v), old(reqs)[v], |plans|, plans))
      ensures held == old(held) + AllPieces(sizes, v, old(reqs)[v], |plans|, plans)
    {
      hide Fits;
      hide Length;
      hide Total;
      hide QueueTd;
      hide Pieces;
      ghost var r0, r, env, h0 := reqs, reqs[v], EnvOf(v), held;
      var iov, sec := reqs[v].iov, reqs[v].sec;
      NoTotal(iov);
      Twice(r0, v, r, r);
      for i := 0 to |iov|
        invariant v in reqs && Became(v, T.QueuePieces(env, r, i, plans))
        invariant sec == r.sec + Total(iov[..i]) && held == h0 + AllPieces(sizes, v, r, i, plans)
      {
        ghost var r1 := reqs[v];
        TotalTake(iov, i);
        QueuePiece(v, sec, iov[i], plans[i]);
        Twice(r0, v, r1, reqs[v]);
        sec := sec + iov[i];
      }
    }

    method QueuePiece(v: nat, sec: nat, n: nat, p: Plan)
      requires v in reqs && |sizes| > 0 && Length(p) == n && Fits(sizes, 0, sec, p)
      requires n == 0 || sec + n <= sizes[0]
      modifies this`reqs, this`secsPending, this`held
      ensures Became(v, QueueTd(EnvOf(v), old(reqs)[v].(secsPending := old(reqs)[v].secsPending + n), sec, n, p))
      ensures held == old(held) + Pieces(sizes, v, 0, sec, p)
    {
      hide T.CompleteTd;
      hide T.Deliver;
      ghost var r0 := reqs;
      reqs := reqs[v := reqs[v].(secsPending := reqs[v].secsPending + n)];
      secsPending := secsPending + n;
      ghost var r1 := reqs[v];
      if n == 0 || sec + n > sizes[0] {
        CompleteTd(v, n, EINVAL);
      } else {
        Deliver(v, 0, sec, p);
      }
      Twice(r0, v, r1, reqs[v]);
    }

    /** tapdisk_vbd_issue_request. */
    method IssueRequest(v: nat, ready: bool, plans: seq<Plan>, ghost now: Holds) returns (err: int)
      requires Counted() && FilledBut(seen, sizes, loose, reqs, held, v)
      requires v in reqs && reqs[v].where != Pending && PlansFit(sizes, reqs[v], plans)
      requires v !in loose ==> HonestPlans(now, sizes, reqs[v], plans)
      modifies this`reqs, this`secsPending, this`held, this`seen
      ensures Valid() && seen == old(seen)[v := now]
      ensures reqs == old(reqs)[v := Issue(EnvOf(v), old(reqs)[v], ready, plans)]
      ensures held == old(held) + IssuedPieces(EnvOf(v), v, old(reqs)[v], ready, plans)
      ensures err == IssueError(EnvOf(v), old(reqs)[v], ready, plans)
      ensures if reqs[v].secsPending == 0 then Decided(reqs[v], stopping, v in late) else reqs[v].where == Pending
      ensures reqs[v].error ==
        if |sizes| == 0 then ENOSYS
        else if !ready then EAGAIN
        else if old(reqs)[v].sec + Total(old(reqs)[v].iov) > sizes[0] then EINVAL
        else Either(old(reqs)[v].error, PiecesError(old(reqs)[v], |plans|, plans))
    {
      hide T.CloseFrame;
      hide T.QueuePieces;
      hide AllPieces;
      hide Fits;
      hide Length;
      hide Total;
      hide Sum;
      hide FilledBut;
      hide AllFilled;
      hide HonestPlans;
      ghost var r0, r, env, h0 := reqs, reqs[v], EnvOf(v), held;
      IssueQuiet(env, r0, v, h0, ready, plans);
      NotPending(r0, h0, v);
      IssueDecides(env, r, v, ready, plans);
      IssueErrs(env, r, ready, plans);
      AllFilledAfterIssue(env, seen, now, loose, r0, v, h0, ready, plans);
      SumUpdate(r0, v, Issue(env, r, ready, plans));
      seen := seen[v := now];
      SetReq(v, Opened(reqs[v]));
      ghost var r1 := reqs[v];
      err := CheckRequest(EnvOf(v), reqs[v], ready);
      SamePieces(sizes, v, r, r1, plans);
      if err != 0 {
        SetReq(v, reqs[v].(error := err));
      } else {
        QueuePieces(v, plans);
      }
      ghost var r2 := reqs[v];
      Twice(r0, v, r1, r2);
      CloseFrame(v);
      Twice(r0, v, r2, reqs[v]);
      ClosedError(env, r2);
      assert reqs[v] == Issue(env, r, ready, plans);
      assert reqs == r0[v := reqs[v]];
      assert secsPending == Sum(reqs);
      assert held == h0 + IssuedPieces(env, v, r, ready, plans);
      if reqs[v].secsPending == 0 && err == 0 { err := reqs[v].error; }
    }

    /** A driver deals with a piece it holds: it completes it, forwards it, or splits it. */
    method Resume(i: nat, p: Plan)
      requires Valid() && i < |held| && Length(p) == held[i].secs && Fits(sizes, held[i].image, held[i].sec, p)
      requires held[i].v !in loose && held[i].v in seen ==>
                 Honest(seen[held[i].v], sizes, held[i].image, held[i].sec, p)
      modifies this`reqs, this`secsPending, this`held
      ensures Valid()
      ensures var q := old(held)[i];
              && q.v in old(reqs) && reqs == old(reqs)[q.v := T.Deliver(EnvOf(q.v), old(reqs)[q.v], q.image, q.sec, p)]
              && held == TapdiskVbd.Without(old(held), i) + Pieces(sizes, q.v, q.image, q.sec, p)
              && reqs[q.v].error == Either(old(reqs)[q.v].error, FirstError(p))
              && if reqs[q.v].secsPending == 0 then Decided(reqs[q.v], stopping, q.v in late)
                 else reqs[q.v].where == Pending
    {
      hide T.Deliver;
      hide Pieces;
      hide Sum;
      hide AllFilled;
      var q := held[i];
      assert q in held;
      ResumeQuiet(EnvOf(q.v), reqs, held, i, p);
      ResumeDecides(EnvOf(q.v), reqs, held, i, p);
      DeliverErrs(EnvOf(q.v), reqs[q.v], q.image, q.sec, p);
      AllFilledAfterResume(EnvOf(q.v), seen, loose, reqs, held, i, p);
      SumUpdate(reqs, q.v, T.Deliver(EnvOf(q.v), reqs[q.v], q.image, q.sec, p));
      held := TapdiskVbd.Without(held, i);
      Deliver(q.v, q.image, q.sec, p);
    }

    /** tapdisk_vbd_issue_new_requests: requests are issued in order, once each, until one
        fails without being completed. */
    method IssueNewRequests(queue: seq<nat>, answers: Answers, ghost now: Holds) returns (err: int, issued: nat)
      requires Valid() && Distinct(queue) && Answered(now, sizes, loose, reqs, answers)
      requires forall v :: v in queue ==> v in reqs && v in answers && reqs[v].where == New
      modifies this`reqs, this`secsPending, this`held, this`seen
      ensures Valid() && issued <= |queue| && (err == 0 ==> issued == |queue|)
      ensures err != 0 ==> issued > 0 && queue[issued - 1] in reqs && reqs[queue[issued - 1]].where != Completed
      ensures IssuedOnce(old(reqs), reqs, queue[..issued])
    {
      hide Issue;
      hide AllAtRest;
      hide PiecesOk;
      hide Sum;
      hide PlansFit;
      hide HonestPlans;
      hide Filled;
      IssuedNone(reqs, queue);
      forall v | v in queue ensures AtRest(reqs[v], 0) { NotPending(reqs, held, v); }
      for i := 0 to |queue|
        invariant Valid() && IssuedOnce(old(reqs), reqs, queue[..i])
      {
        var v := queue[i];
        IssuedNext(old(reqs), reqs, queue, i, EnvOf(v), answers[v].0, answers[v].1);
        err := IssueRequest(v, answers[v].0, answers[v].1, now);
        if err != 0 && reqs[v].where != Completed { return err, i + 1; }
      }
      assert queue[..|queue|] == queue;
      return 0, |queue|;
    }

    /** What tapdisk_vbd_reissue_failed_requests does with one request: it is left alone while
        it waits for sectors or backs off, is given up when the disk is being shut down, and
        is issued again otherwise. */
    method Retry(v: nat, ready: bool, plans: seq<Plan>, recent: bool, ghost now: Holds) returns (stop: bool)
      requires Valid() && v in reqs && reqs[v].where == Failed && PlansFit(sizes, reqs[v], plans)
      requires v !in loose ==> HonestPlans(now, sizes, reqs[v], plans)
      modifies this`reqs, this`secsPending, this`held, this`seen
      ensures Valid() && reqs == old(reqs)[v := RetryOne(EnvOf(v), old(reqs)[v], recent, ready, plans)]
      ensures stop == EndsPass(EnvOf(v), old(reqs)[v], recent, ready, plans)
      ensures var r := old(reqs)[v];
              if r.secsPending != 0 || (!stopping && r.error != EBUSY && recent) then reqs[v] == r
              else if stopping then reqs[v] == r.(where := Completed, left := reqs[v].left)
              else reqs[v].entered == r.entered + 1 &&
                   if reqs[v].secsPending == 0 then Decided(reqs[v], stopping, v in late) else reqs[v].where == Pending
    {
      hide Issue;
      hide IssueError;
      hide AllAtRest;
      hide PiecesOk;
      hide Sum;
      hide PlansFit;
      hide HonestPlans;
      hide Filled;
      ghost var r0 := reqs;
      ClearedPlans(now, sizes, reqs[v], plans);
      NotPending(reqs, held, v);
      var r := reqs[v];
      Twice(r0, v, r, r);
      if r.secsPending != 0 { return false; }
      if stopping {
        GivenUp(EnvOf(v), reqs, held, v);
        GivenUpFilled(EnvOf(v), seen, loose, reqs, held, v);
        CompleteVbd(v);
        return false;
      }
      if r.error != EBUSY && recent { return false; }
      ErrorCleared(reqs, held, sizes, v);
      SetReq(v, r.(error := 0));
      ghost var r1 := reqs[v];
      IssueEnters(EnvOf(v), r1, ready, plans);
      var err := IssueRequest(v, ready, plans, now);
      Twice(r0, v, r1, reqs[v]);
      return err != 0 && reqs[v].where != Completed;
    }

    /** tapdisk_vbd_reissue_failed_requests: the pass ends early when a request fails again
        without being completed. */
    method ReissueFailedRequests(queue: seq<nat>, answers: Answers, recent: set<nat>, ghost now: Holds)
      returns (ghost n: nat)
      requires Valid() && Distinct(queue) && Answered(now, sizes, loose, reqs, answers)
      requires forall v :: v in queue ==> v in reqs && v in answers && reqs[v].where == Failed
      modifies this`reqs, this`secsPending, this`held, this`seen
      ensures Valid() && n <= |queue| && reqs.Keys == old(reqs).Keys
      ensures forall v :: v in reqs && v !in queue[..n] ==> reqs[v] == old(reqs)[v]
      ensures forall i :: 0 <= i < n ==>
                var v := queue[i];
                reqs[v] == RetryOne(EnvOf(v), old(reqs)[v], v in recent, answers[v].0, answers[v].1)
      ensures forall i :: 0 <= i < n ==>
                var v := queue[i];
                EndsPass(EnvOf(v), old(reqs)[v], v in recent, answers[v].0, answers[v].1) ==> i == n - 1
      ensures n < |queue| ==>
                n > 0 && var v := queue[n - 1];
                EndsPass(EnvOf(v), old(reqs)[v], v in recent, answers[v].0, answers[v].1)
    {
      hide RetryOne;
      hide EndsPass;
      hide Valid;
      hide PlansFit;
      hide HonestPlans;
      hide Passed;
      hide EndsAt;
      n := 0;
      ghost var r0, pass := reqs, Pass(sizes, stopping, late, recent, answers, queue);
      forall v | v in queue ensures |answers[v].1| == |reqs[v].iov| { ClearedPlans(now, sizes, reqs[v], answers[v].1); }
      PassStarts(pass, r0);
      for i := 0 to |queue|
        invariant Valid() && n == i && Passed(pass, i, r0, reqs) && forall j :: 0 <= j < i ==> !EndsAt(pass, j, r0)
      {
        var v := queue[i];
        n := n + 1;
        PassAt(pass, i, r0, reqs);
        ghost var r1 := reqs;
        var stop := Retry(v, answers[v].0, answers[v].1, v in recent, now);
        PassNext(pass, i, r0, r1, reqs);
        if stop { break; }
      }
      PassEnds(pass, n, r0, reqs);
    }

    /** A read that has completed without error returns, for every sector, the copy of the
        youngest image that held it when the read was issued, or zeros where none did. */
    lemma {:induction false} ReadReturns(v: nat, l: nat)
      requires Valid() && v in reqs && v !in loose && reqs[v].where == Completed && reqs[v].error == 0
      requires reqs[v].sec <= l < reqs[v].sec + Total(reqs[v].iov)
      ensures v in seen && l in reqs[v].buf && reqs[v].buf[l] == SourceOf(seen[v], sizes, 0, l)
    {
      FilledReturns(seen[v], sizes, reqs, held, v, l);
    }
  }

  lemma {:induction false} NoneHeld(sizes: seq<nat>, reqs: Requests, held: seq<Piece>, v: nat)
    requires PiecesOk(sizes, reqs, held) && v !in reqs
    ensures Held(held, v) == 0
  {
    if held != [] {
      assert held[|held| - 1] in held;
      NoneHeld(sizes, reqs, held[..|held| - 1], v);
    }
  }

  /** A request of which a driver has dealt with the last piece is decided. */
  lemma ResumeDecides(env: Env, reqs: Requests, held: seq<Piece>, i: nat, p: Plan)
    requires AllAtRest(reqs, held) && PiecesOk(env.sizes, reqs, held) && i < |held|
    requires Length(p) == held[i].secs && Fits(env.sizes, held[i].image, held[i].sec, p)
    ensures held[i].v in reqs
    ensures var r' := T.Deliver(env, reqs[held[i].v], held[i].image, held[i].sec, p);
            if r'.secsPending == 0 then Decided(r', env.stopping, env.late) else r'.where == Pending
  {
    hide T.Deliver;
    hide Pieces;
    hide Held;
    var q := held[i];
    assert q in held;
    assert Quiet(reqs, held, q.v);
    HeldWithout(held, i, q.v);
    DeliverMoves(env, reqs[q.v], q.v, q.image, q.sec, p);
    DeliverDecides(env, reqs[q.v], q.v, q.image, q.sec, p);
  }

  /** What drivers hold of a request once it has been issued. */
  function IssuedPieces(env: Env, v: nat, r: VReq, ready: bool, plans: seq<Plan>): seq<Piece>
    requires |plans| == |r.iov|
  {
    if CheckRequest(env, r, ready) != 0 then [] else AllPieces(env.sizes, v, r, |r.iov|, plans)
  }

  lemma {:induction false} SamePieces(sizes: seq<nat>, v: nat, r: VReq, r1: VReq, plans: seq<Plan>)
    requires SameRequest(r, r1) && |plans| == |r.iov|
    ensures AllPieces(sizes, v, r1, |plans|, plans) == AllPieces(sizes, v, r, |plans|, plans)
    ensures PlansFit(sizes, r, plans) ==> PlansFit(sizes, r1, plans)
  {
    hide Pieces;
    hide Fits;
    hide Length;
    hide Total;
    PiecesSame(sizes, v, r, r1, |plans|, plans);
  }

  lemma ClosedError(env: Env, r: VReq)
    ensures var r' := T.CloseFrame(env, r); r'.secsPending == r.secsPending && r'.error == r.error
  {
  }

  /** After an issue every request is at rest again. */
  lemma IssueQuiet(env: Env, reqs: Requests, v: nat, held: seq<Piece>, ready: bool, plans: seq<Plan>)
    requires AllAtRest(reqs, held) && PiecesOk(env.sizes, reqs, held) && v in reqs && reqs[v].where != Pending
    requires PlansFit(env.sizes, reqs[v], plans)
    ensures var r' := Issue(env, reqs[v], ready, plans);
            var held' := held + IssuedPieces(env, v, reqs[v], ready, plans);
            AllAtRest(reqs[v := r'], held') && PiecesOk(env.sizes, reqs[v := r'], held')
  {
    var r := reqs[v];
    var ps := IssuedPieces(env, v, r, ready, plans);
    var reqs', held' := reqs[v := Issue(env, r, ready, plans)], held + ps;
    assert Quiet(reqs, held, v);
    IssueMoves(env, r, v, ready, plans);
    forall w | w in reqs' ensures Quiet(reqs', held', w) {
      assert Quiet(reqs, held, w);
      IssuedOf(env, v, r, ready, plans, w);
      HeldAdd(held, ps, w);
    }
    IssuedOf(env, v, r, ready, plans, v);
  }

  lemma {:induction false} IssuedOf(env: Env, v: nat, r: VReq, ready: bool, plans: seq<Plan>, w: nat)
    requires PlansFit(env.sizes, r, plans)
    ensures w != v ==> Held(IssuedPieces(env, v, r, ready, plans), w) == 0
    ensures forall q :: q in IssuedPieces(env, v, r, ready, plans) ==> q.v == v && q.secs > 0 && q.image < |env.sizes|
  {
    if CheckRequest(env, r, ready) == 0 { AllPiecesOf(env.sizes, v, r, |r.iov|, plans, w); }
  }

  lemma {:induction false} ResumeQuiet(env: Env, reqs: Requests, held: seq<Piece>, i: nat, p: Plan)
    requires AllAtRest(reqs, held) && PiecesOk(env.sizes, reqs, held) && i < |held|
    requires Length(p) == held[i].secs && Fits(env.sizes, held[i].image, held[i].sec, p)
    ensures var q := held[i];
            && q.v in reqs && q.image < |env.sizes|
            && var reqs' := reqs[q.v := T.Deliver(env, reqs[q.v], q.image, q.sec, p)];
               var held' := TapdiskVbd.Without(held, i) + Pieces(env.sizes, q.v, q.image, q.sec, p);
               AllAtRest(reqs', held') && PiecesOk(env.sizes, reqs', held')
  {
    hide T.Deliver;
    hide Pieces;
    hide Held;
    var q := held[i];
    assert q in held;
    var r := reqs[q.v];
    var ps, rest := Pieces(env.sizes, q.v, q.image, q.sec, p), TapdiskVbd.Without(held, i);
    hide TapdiskVbd.Without;
    var reqs', held' := reqs[q.v := T.Deliver(env, r, q.image, q.sec, p)], rest + ps;
    assert Quiet(reqs, held, q.v);
    HeldWithout(held, i, q.v);
    DeliverMoves(env, r, q.v, q.image, q.sec, p);
    PiecesOf(env.sizes, q.v, q.image, q.sec, p, q.v);
    forall w | w in reqs' ensures Quiet(reqs', held', w) {
      assert Quiet(reqs, held, w);
      HeldWithout(held, i, w);
      HeldAdd(rest, ps, w);
      PiecesOf(env.sizes, q.v, q.image, q.sec, p, w);
    }
  }

  ghost predicate Distinct(q: seq<nat>) { forall i, j :: 0 <= i < j < |q| ==> q[i] != q[j] }

  /** Whether the queue is ready when a request is issued, and how the first image's driver
      will deal with its pieces. */
  type Answers = map<nat, (bool, seq<Plan>)>

  ghost predicate Answered(has: Holds, sizes: seq<nat>, loose: set<nat>, reqs: Requests, answers: Answers) {
    forall v :: v in reqs && v in answers ==>
      PlansFit(sizes, reqs[v], answers[v].1) && (v !in loose ==> HonestPlans(has, sizes, reqs[v], answers[v].1))
  }

  /** The requests of q have been issued once; all others are as they were. */
  ghost predicate IssuedOnce(reqs: Requests, reqs': Requests, q: seq<nat>) {
    && reqs'.Keys == reqs.Keys
    && (forall v :: v in reqs && v !in q ==> reqs'[v] == reqs[v])
    && (forall v :: v in reqs && v in q ==> reqs'[v].entered == reqs[v].entered + 1 && SameRequest(reqs[v], reqs'[v]))
  }

  lemma NotPending(reqs: Requests, held: seq<Piece>, v: nat)
    requires AllAtRest(reqs, held) && v in reqs && reqs[v].where != Pending
    ensures AtRest(reqs[v], 0)
  {
    assert Quiet(reqs, held, v);
  }

  lemma IssuedNone(reqs: Requests, q: seq<nat>)
    ensures IssuedOnce(reqs, reqs, q[..0])
  {
  }

  lemma IssueEnters(env: Env, r: VReq, ready: bool, plans: seq<Plan>)
    requires AtRest(r, 0) && PlansFit(env.sizes, r, plans)
    ensures var r' := Issue(env, r, ready, plans); r'.entered == r.entered + 1 && SameRequest(r, r')
  {
    hide T.QueuePieces;
    hide AllPieces;
    hide Total;
    hide Fits;
    hide Length;
    var r1 := Opened(r);
    SamePieces(env.sizes, 0, r, r1, plans);
    if CheckRequest(env, r, ready) == 0 {
      QueuePiecesFrame(env, r1, |r.iov|, plans);
      QueuePiecesMoves(env, r1, 0, |r.iov|, plans);
    }
  }

  lemma IssuedNext(reqs0: Requests, reqs: Requests, queue: seq<nat>, i: nat, env: Env, ready: bool, plans: seq<Plan>)
    requires i < |queue| && Distinct(queue) && queue[i] in reqs0 && IssuedOnce(reqs0, reqs, queue[..i])
    requires AtRest(reqs0[queue[i]], 0) && PlansFit(env.sizes, reqs0[queue[i]], plans)
    ensures queue[i] in reqs && reqs[queue[i]] == reqs0[queue[i]]
    ensures IssuedOnce(reqs0, reqs[queue[i] := Issue(env, reqs[queue[i]], ready, plans)], queue[..i + 1])
  {
    assert queue[..i + 1] == queue[..i] + [queue[i]];
    assert queue[i] !in queue[..i];
    IssueEnters(env, reqs0[queue[i]], ready, plans);
  }

  /** The error that tapdisk_vbd_issue_request returns. */
  function IssueError(env: Env, r: VReq, ready: bool, plans: seq<Plan>): int
    requires |plans| == |r.iov|
  {
    var r' := Issue(env, r, ready, plans);
    if CheckRequest(env, r, ready) != 0 then CheckRequest(env, r, ready)
    else if r'.secsPending == 0 then r'.error else 0
  }

  /** A pass over the failed requests issues r again. */
  predicate Reissues(env: Env, r: VReq, recent: bool) {
    r.secsPending == 0 && !env.stopping && (r.error == EBUSY || !recent)
  }

  function RetryOne(env: Env, r: VReq, recent: bool, ready: bool, plans: seq<Plan>): VReq
    requires |plans| == |r.iov|
  {
    if Reissues(env, r, recent) then Issue(env, r.(error := 0), ready, plans)
    else if r.secsPending == 0 && env.stopping then Settle(env, r)
    else r
  }

  predicate EndsPass(env: Env, r: VReq, recent: bool, ready: bool, plans: seq<Plan>)
    requires |plans| == |r.iov|
  {
    Reissues(env, r, recent) && IssueError(env, r.(error := 0), ready, plans) != 0 &&
    Issue(env, r.(error := 0), ready, plans).where != Completed
  }

  /** What one pass over the failed requests goes by. */
  datatype Pass = Pass(
    sizes: seq<nat>, stopping: bool, late: set<nat>, recent: set<nat>, answers: Answers, queue: seq<nat>)

  ghost predicate CanPass(p: Pass, reqs: Requests) {
    Distinct(p.queue) &&
    forall v :: v in p.queue ==> v in reqs && v in p.answers && |p.answers[v].1| == |reqs[v].iov|
  }

  ghost predicate RetriedAt(p: Pass, i: nat, reqs: Requests, reqs': Requests)
    requires CanPass(p, reqs) && i < |p.queue| && reqs'.Keys == reqs.Keys
  {
    var v := p.queue[i];
    reqs'[v] == RetryOne(Env(p.sizes, p.stopping, v in p.late), reqs[v], v in p.recent, p.answers[v].0, p.answers[v].1)
  }

  ghost predicate EndsAt(p: Pass, i: nat, reqs: Requests)
    requires CanPass(p, reqs) && i < |p.queue|
  {
    var v := p.queue[i];
    EndsPass(Env(p.sizes, p.stopping, v in p.late), reqs[v], v in p.recent, p.answers[v].0, p.answers[v].1)
  }

  /** The first k requests have been retried. */
  ghost predicate Passed(p: Pass, k: nat, reqs: Requests, reqs': Requests) {
    && CanPass(p, reqs) && reqs'.Keys == reqs.Keys && k <= |p.queue|
    && (forall v :: v in reqs && v !in p.queue[..k] ==> reqs'[v] == reqs[v])
    && (forall i :: 0 <= i < k ==> RetriedAt(p, i, reqs, reqs'))
  }

  lemma PassStarts(p: Pass, reqs: Requests)
    requires CanPass(p, reqs)
    ensures Passed(p, 0, reqs, reqs)
  {
  }

  /** The next request is as it was when the pass began. */
  lemma PassAt(p: Pass, i: nat, reqs: Requests, reqs': Requests)
    requires i < |p.queue| && Passed(p, i, reqs, reqs')
    ensures CanPass(p, reqs) && p.queue[i] in reqs' && reqs'[p.queue[i]] == reqs[p.queue[i]]
    ensures EndsAt(p, i, reqs) ==
      var v := p.queue[i];
      EndsPass(Env(p.sizes, p.stopping, v in p.late), reqs'[v], v in p.recent, p.answers[v].0, p.answers[v].1)
  {
    assert p.queue[i] !in p.queue[..i];
  }

  lemma PassNext(p: Pass, i: nat, reqs: Requests, reqs1: Requests, reqs': Requests)
    requires i < |p.queue| && Passed(p, i, reqs, reqs1)
    requires p.queue[i] in reqs1 && p.queue[i] in p.answers && |p.answers[p.queue[i]].1| == |reqs1[p.queue[i]].iov|
    requires var v := p.queue[i];
             reqs' == reqs1[v := RetryOne(Env(p.sizes, p.stopping, v in p.late), reqs1[v], v in p.recent,
                                          p.answers[v].0, p.answers[v].1)]
    ensures Passed(p, i + 1, reqs, reqs')
  {
    hide RetryOne;
    PassAt(p, i, reqs, reqs1);
    assert p.queue[..i + 1] == p.queue[..i] + [p.queue[i]];
    forall j | 0 <= j < i ensures RetriedAt(p, j, reqs, reqs') { assert RetriedAt(p, j, reqs, reqs1); }
  }

  lemma PassEnds(p: Pass, k: nat, reqs: Requests, reqs': Requests)
    requires Passed(p, k, reqs, reqs')
    ensures CanPass(p, reqs) && k <= |p.queue| && reqs'.Keys == reqs.Keys
    ensures forall v :: v in reqs && v !in p.queue[..k] ==> reqs'[v] == reqs[v]
    ensures forall i :: 0 <= i < k ==>
              var v := p.queue[i];
              reqs'[v] == RetryOne(Env(p.sizes, p.stopping, v in p.late), reqs[v], v in p.recent,
                                   p.answers[v].0, p.answers[v].1)
    ensures forall i :: 0 <= i < |p.queue| ==>
              var v := p.queue[i];
              EndsAt(p, i, reqs) == EndsPass(Env(p.sizes, p.stopping, v in p.late), reqs[v], v in p.recent,
                                             p.answers[v].0, p.answers[v].1)
  {
    hide RetryOne;
    hide EndsPass;
    forall i | 0 <= i < k
      ensures var v := p.queue[i];
              reqs'[v] == RetryOne(Env(p.sizes, p.stopping, v in p.late), reqs[v], v in p.recent,
                                   p.answers[v].0, p.answers[v].1)
    {
      assert RetriedAt(p, i, reqs, reqs');
    }
  }

  lemma ClearedPlans(has: Holds, sizes: seq<nat>, r: VReq, plans: seq<Plan>)
    ensures PlansFit(sizes, r, plans) ==> |plans| == |r.iov|
    ensures PlansFit(sizes, r, plans) ==> PlansFit(sizes, r.(error := 0), plans)
    ensures HonestPlans(has, sizes, r, plans) ==> HonestPlans(has, sizes, r.(error := 0), plans)
  {
    hide Fits;
    hide Honest;
    hide Length;
    hide Total;
  }

  lemma GivenUp(env: Env, reqs: Requests, held: seq<Piece>, v: nat)
    requires AllAtRest(reqs, held) && v in reqs && reqs[v].where == Failed
    ensures AllAtRest(reqs[v := Settle(env, reqs[v])], held) && Settle(env, reqs[v]).secsPending == reqs[v].secsPending
    ensures PiecesOk(env.sizes, reqs, held) ==> PiecesOk(env.sizes, reqs[v := Settle(env, reqs[v])], held)
    ensures Sum(reqs[v := Settle(env, reqs[v])]) == Sum(reqs)
  {
    var reqs' := reqs[v := Settle(env, reqs[v])];
    forall w | w in reqs' ensures Quiet(reqs', held, w) { assert Quiet(reqs, held, w); }
    SumUpdate(reqs, v, Settle(env, reqs[v]));
  }

  lemma ErrorCleared(reqs: Requests, held: seq<Piece>, sizes: seq<nat>, v: nat)
    requires AllAtRest(reqs, held) && PiecesOk(sizes, reqs, held) && v in reqs
    ensures var reqs' := reqs[v := reqs[v].(error := 0)];
            AllAtRest(reqs', held) && PiecesOk(sizes, reqs', held) && Sum(reqs') == Sum(reqs)
  {
    var reqs' := reqs[v := reqs[v].(error := 0)];
    forall w | w in reqs' ensures Quiet(reqs', held, w) { assert Quiet(reqs, held, w); }
    SumUpdate(reqs, v, reqs[v].(error := 0));
  }

  /* ---- what a guest reads ---- */

  lemma {:induction false} FilledReturns(has: Holds, sizes: seq<nat>, reqs: Requests, held: seq<Piece>, v: nat, l: nat)
    requires AllAtRest(reqs, held) && PiecesOk(sizes, reqs, held) && v in reqs
    requires Filled(has, sizes, reqs[v], held, v) && reqs[v].where != Pending && reqs[v].error == 0
    requires reqs[v].sec <= l < reqs[v].sec + Total(reqs[v].iov)
    ensures l in reqs[v].buf && reqs[v].buf[l] == SourceOf(has, sizes, 0, l)
  {
    assert Quiet(reqs, held, v);
    assert Right(has, sizes, reqs[v], held, v, 0, l);
    NothingHeld(sizes, reqs, held, v);
  }

  lemma {:induction false} NothingHeld(sizes: seq<nat>, reqs: Requests, held: seq<Piece>, v: nat)
    requires PiecesOk(sizes, reqs, held) && Held(held, v) == 0
    ensures forall q :: q in held ==> q.v != v
  {
    forall q | q in held ensures q.v != v {
      var i :| 0 <= i < |held| && held[i] == q;
      HeldWithout(held, i, v);
    }
  }

  /** Only the pieces that are held of a request matter to whether it is filled. */
  lemma SamePiecesFilled(has: Holds, sizes: seq<nat>, r: VReq, held: seq<Piece>, held': seq<Piece>, w: nat)
    requires Filled(has, sizes, r, held, w)
    requires forall q: Piece :: q.v == w ==> (q in held <==> q in held')
    ensures Filled(has, sizes, r, held', w)
  {
    forall l: nat | r.sec <= l < r.sec + Total(r.iov) ensures Right(has, sizes, r, held', w, 0, l) {
      RightKept(has, sizes, r, held, r, held', w, 0, l);
    }
  }

  /** An issue fills its read right and leaves the others right. */
  lemma AllFilledAfterIssue(env: Env, seen: Seen, now: Holds, loose: set<nat>, reqs: Requests, v: nat,
        held: seq<Piece>, ready: bool, plans: seq<Plan>)
    requires AllAtRest(reqs, held) && PiecesOk(env.sizes, reqs, held) && v in reqs && reqs[v].where != Pending
    requires PlansFit(env.sizes, reqs[v], plans) && (v !in loose ==> HonestPlans(now, env.sizes, reqs[v], plans))
    requires FilledBut(seen, env.sizes, loose, reqs, held, v)
    ensures AllFilled(seen[v := now], env.sizes, loose, reqs[v := Issue(env, reqs[v], ready, plans)],
                      held + IssuedPieces(env, v, reqs[v], ready, plans))
  {
    hide Filled;
    hide Issue;
    hide AllPieces;
    hide Fits;
    hide Length;
    hide Total;
    hide Honest;
    var r, ps := reqs[v], IssuedPieces(env, v, reqs[v], ready, plans);
    var reqs', held', seen' := reqs[v := Issue(env, r, ready, plans)], held + ps, seen[v := now];
    IssuedOf(env, v, r, ready, plans, v);
    forall w | w in reqs' && w !in loose && reqs'[w].where != New
      ensures FilledOne(seen', env.sizes, reqs'[w], held', w)
    {
      if w == v {
        IssueFills(env, now, r, v, ready, plans);
        assert Quiet(reqs, held, v);
        NothingHeld(env.sizes, reqs, held, v);
        SamePiecesFilled(now, env.sizes, reqs'[v], ps, held', v);
      } else {
        assert FilledOne(seen, env.sizes, reqs[w], held, w);
        SamePiecesFilled(seen[w], env.sizes, reqs[w], held, held', w);
      }
    }
  }

  /** So does a driver that deals with a piece it held. */
  lemma {:induction false} AllFilledAfterResume(env: Env, seen: Seen, loose: set<nat>, reqs: Requests, held: seq<Piece>,
          i: nat, p: Plan)
    requires AllFilled(seen, env.sizes, loose, reqs, held) && PiecesOk(env.sizes, reqs, held) && AllAtRest(reqs, held)
    requires i < |held| && Length(p) == held[i].secs && Fits(env.sizes, held[i].image, held[i].sec, p)
    requires held[i].v !in loose && held[i].v in seen ==>
               Honest(seen[held[i].v], env.sizes, held[i].image, held[i].sec, p)
    ensures var q := held[i];
            && q.v in reqs && q.image < |env.sizes|
            && AllFilled(seen, env.sizes, loose, reqs[q.v := T.Deliver(env, reqs[q.v], q.image, q.sec, p)],
                         TapdiskVbd.Without(held, i) + Pieces(env.sizes, q.v, q.image, q.sec, p))
  {
    hide Filled;
    hide T.Deliver;
    hide Pieces;
    var q := held[i];
    assert q in held;
    var ps, rest := Pieces(env.sizes, q.v, q.image, q.sec, p), TapdiskVbd.Without(held, i);
    var reqs', held' := reqs[q.v := T.Deliver(env, reqs[q.v], q.image, q.sec, p)], rest + ps;
    PiecesOf(env.sizes, q.v, q.image, q.sec, p, q.v);
    assert held == held[..i] + [q] + held[i + 1..];
    HeldPending(reqs, held, i);
    forall w | w in reqs' && w !in loose && reqs'[w].where != New
      ensures FilledOne(seen, env.sizes, reqs'[w], held', w)
    {
      if w == q.v {
        assert FilledOne(seen, env.sizes, reqs[w], held, w);
        ResumeFills(env, seen[w], reqs[q.v], held, i, p);
      } else {
        assert FilledOne(seen, env.sizes, reqs[w], held, w);
        SamePiecesFilled(seen[w], env.sizes, reqs[w], held, held', w);
      }
    }
  }

  lemma HeldPending(reqs: Requests, held: seq<Piece>, i: nat)
    requires AllAtRest(reqs, held) && i < |held| && held[i].v in reqs && held[i].secs > 0
    ensures reqs[held[i].v].where == Pending
  {
    assert Quiet(reqs, held, held[i].v);
    HeldWithout(held, i, held[i].v);
  }

  lemma GivenUpFilled(env: Env, seen: Seen, loose: set<nat>, reqs: Requests, held: seq<Piece>, v: nat)
    requires AllFilled(seen, env.sizes, loose, reqs, held) && v in reqs && reqs[v].where != New
    ensures AllFilled(seen, env.sizes, loose, reqs[v := Settle(env, reqs[v])], held)
  {
    var r, reqs' := reqs[v], reqs[v := Settle(env, reqs[v])];
    forall w | w in reqs' && w !in loose && reqs'[w].where != New
      ensures FilledOne(seen, env.sizes, reqs'[w], held, w)
    {
      assert FilledOne(seen, env.sizes, reqs[w], held, w);
      if w == v {
        forall l: nat | r.sec <= l < r.sec + Total(r.iov)
          ensures Right(seen[v], env.sizes, reqs'[v], held, v, 0, l)
        {
          RightKept(seen[v], env.sizes, r, held, reqs'[v], held, v, 0, l);
        }
      }
    }
  }
}
