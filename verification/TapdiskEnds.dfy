/** How a request of a virtual disk ends: with which error, and whether it is tried again. */
module TapdiskEnds {
  import opened TapdiskVbd

  /** A request of which nothing is outstanding is to be tried again just if it has failed,
      with an error that may pass, on a disk that goes on, before its timeout. */
  predicate Decided(r: VReq, stopping: bool, late: bool) {
    r.where == if r.error !in {0, EPERM, ENOSYS, ESTALE, ENOSPC} && !stopping && !late then Failed else Completed
  }

  lemma SettleDecides(env: Env, r: VReq)
    ensures var r' := Settle(env, r);
            && r' == r.(where := r'.where, left := r'.left)
            && (r.submitting == 0 && r.secsPending == 0 ==> Decided(r', env.stopping, env.late))
            && (r.submitting != 0 || r.secsPending != 0 ==> r' == r)
  {
  }

  /** A request that a driver's plan leaves with nothing to wait for is decided. */
  lemma {:induction false} DeliverDecides(env: Env, r: VReq, v: nat, image: nat, sec: nat, p: Plan)
    requires Live(r) && r.submitting == 0 && p != End
    requires r.secsPending >= Length(p) && Fits(env.sizes, image, sec, p) && image < |env.sizes|
    ensures var r' := Deliver(env, r, image, sec, p);
            r'.secsPending == 0 ==> Decided(r', env.stopping, env.late)
    decreases p
  {
    hide HeldBy;
    hide Settle;
    HeldParts(env, v, image, sec, p);
    DeliverMoves(env, r, v, image, sec, p);
    match p
    case Hold(n, rest) =>
    case Done(n, res, rest) =>
      var r0 := Copied(r, sec, n, image, res);
      var r1 := CompleteTd(env, r0, n, res);
      CompleteMoves(env, r0, n, res);
      SettleDecides(env, r0.(secsPending := r0.secsPending - n, error := First(r0.error, Norm(res))));
      if rest != End {
        DeliverRest(env, r, r1, v, image, sec, n, 0, rest);
        DeliverDecides(env, r1, v, image, sec + n, rest);
      }
    case Forward(n, ready, inner, rest) =>
      var h := if ready then InnerHeld(env, v, image, sec, inner) else 0;
      var r1 := if ready then Reissue(env, r, image, sec, n, inner) else CompleteTd(env, r, n, EBUSY);
      if ready {
        ReissueMoves(env, r, v, image, sec, n, inner);
        ReissueDecides(env, r, v, image, sec, n, inner);
      } else {
        CompleteMoves(env, r, n, EBUSY);
        SettleDecides(env, r.(secsPending := r.secsPending - n, error := First(r.error, Norm(EBUSY))));
      }
      if rest != End {
        DeliverRest(env, r, r1, v, image, sec, n, h, rest);
        DeliverDecides(env, r1, v, image, sec + n, rest);
      }
  }

  lemma ReissueDecides(env: Env, r: VReq, v: nat, image: nat, sec: nat, n: nat, inner: Plan)
    requires Live(r) && r.submitting == 0 && r.secsPending >= n > 0 && image < |env.sizes|
    requires FitsParent(env.sizes, image, sec, n, inner)
    ensures var r' := Reissue(env, r, image, sec, n, inner);
            r'.secsPending == 0 ==> Decided(r', env.stopping, env.late)
  {
    hide AskParent;
    hide Settle;
    hide InnerHeld;
    var r1 := r.(submitting := r.submitting + 1);
    AskParentMoves(env, r1, v, image, sec, n, inner);
    var r2 := AskParent(env, r1, image, sec, n, inner);
    SettleDecides(env, r2.(submitting := r2.submitting - 1));
  }

  /** So is one that an issue leaves with nothing to wait for; any other is pending. */
  lemma IssueDecides(env: Env, r: VReq, v: nat, ready: bool, plans: seq<Plan>)
    requires PlansFit(env.sizes, r, plans) && AtRest(r, 0)
    ensures var r' := Issue(env, r, ready, plans);
            if r'.secsPending == 0 then Decided(r', env.stopping, env.late) else r'.where == Pending
  {
    hide QueuePieces;
    hide Settle;
    hide AllPieces;
    IssueMoves(env, r, v, ready, plans);
    var r1 := Opened(r);
    var err := CheckRequest(env, r, ready);
    if err == 0 { IssueFrame(env, r, v, ready, plans); }
    var r2 := if err != 0 then r1.(error := err) else QueuePieces(env, r1, |r.iov|, plans);
    SettleDecides(env, r2.(submitting := r2.submitting - 1));
  }

  /** The frame of an issue stays open while the pieces are queued. */
  lemma IssueFrame(env: Env, r: VReq, v: nat, ready: bool, plans: seq<Plan>)
    requires PlansFit(env.sizes, r, plans) && AtRest(r, 0) && CheckRequest(env, r, ready) == 0
    ensures QueuePieces(env, Opened(r), |r.iov|, plans).submitting == 1
  {
    hide QueuePieces;
    PiecesSame(env.sizes, v, r, Opened(r), |r.iov|, plans);
    QueuePiecesMoves(env, Opened(r), v, |r.iov|, plans);
  }

  /* ---- which error ---- */

  /** The first error that a driver's plan comes to. */
  function FirstError(p: Plan): int {
    match p
    case End => 0
    case Hold(_, rest) => FirstError(rest)
    case Done(_, res, rest) => if res < 0 then res else if res > 0 then -res else FirstError(rest)
    case Forward(_, ready, inner, rest) =>
      if !ready then EBUSY else if FirstError(inner) != 0 then FirstError(inner) else FirstError(rest)
  }

  function Either(a: int, b: int): int { if a != 0 then a else b }

  /** The request keeps its error; if it has none, it gets the first one of the plan. */
  lemma {:induction false} DeliverErrs(env: Env, r: VReq, image: nat, sec: nat, p: Plan)
    requires Fits(env.sizes, image, sec, p) && image < |env.sizes|
    ensures Deliver(env, r, image, sec, p).error == Either(r.error, FirstError(p))
    decreases p, 0
  {
    match p
    case End =>
    case Hold(n, rest) => DeliverErrs(env, r, image, sec + n, rest);
    case Done(n, res, rest) =>
      DeliverErrs(env, CompleteTd(env, Copied(r, sec, n, image, res), n, res), image, sec + n, rest);
    case Forward(n, ready, inner, rest) =>
      var r1 := if ready then Reissue(env, r, image, sec, n, inner) else CompleteTd(env, r, n, EBUSY);
      if ready { ReissueErrs(env, r, image, sec, n, inner); }
      DeliverErrs(env, r1, image, sec + n, rest);
  }

  lemma {:induction false} ReissueErrs(env: Env, r: VReq, image: nat, sec: nat, n: nat, inner: Plan)
    requires FitsParent(env.sizes, image, sec, n, inner) && image < |env.sizes|
    ensures Reissue(env, r, image, sec, n, inner).error == Either(r.error, FirstError(inner))
    decreases inner, 1
  {
    hide Fits;
    hide Length;
    hide CompleteTd;
    hide Settle;
    hide Zeroed;
    var r1 := r.(submitting := r.submitting + 1);
    if image + 1 < |env.sizes| {
      NoLength(env.sizes, image + 1, sec, inner);
      var m := Cut(sec, n, env.sizes[image + 1]);
      var r2 := if sec + n > env.sizes[image + 1] then CompleteTd(env, Zeroed(r1, sec + m, n - m), n - m, 0) else r1;
      ZeroErrs(env, Zeroed(r1, sec + m, n - m), n - m);
      DeliverErrs(env, r2, image + 1, sec, inner);
    } else {
      ZeroErrs(env, Zeroed(r1, sec, n), n);
    }
    ClosesErrs(env, AskParent(env, r1, image, sec, n, inner));
    ZeroedErrs(r1);
  }

  lemma ZeroErrs(env: Env, r: VReq, n: nat)
    ensures CompleteTd(env, r, n, 0).error == r.error
  {
  }

  lemma ZeroedErrs(r: VReq)
    ensures forall sec: nat, n: nat :: Zeroed(r, sec, n).error == r.error
  {
  }

  /** The first error that issuing the first k pieces comes to. */
  function PiecesError(r: VReq, k: nat, plans: seq<Plan>): int
    requires k <= |r.iov| && k <= |plans|
  {
    if k == 0 then 0
    else Either(PiecesError(r, k - 1, plans), if r.iov[k - 1] == 0 then EINVAL else FirstError(plans[k - 1]))
  }

  lemma {:induction false} PiecesErrs(env: Env, r: VReq, k: nat, plans: seq<Plan>)
    requires PlansFit(env.sizes, r, plans) && |env.sizes| > 0 && k <= |r.iov| && r.sec + Total(r.iov) <= env.sizes[0]
    ensures QueuePieces(env, r, k, plans).error == Either(r.error, PiecesError(r, k, plans))
    decreases k
  {
    hide Fits;
    hide Length;
    hide Total;
    hide Settle;
    if k > 0 {
      PiecesErrs(env, r, k - 1, plans);
      TotalTake(r.iov, k - 1);
      var r1 := QueuePieces(env, r, k - 1, plans);
      var sec, n := r.sec + Total(r.iov[..k - 1]), r.iov[k - 1];
      DeliverErrs(env, r1.(secsPending := r1.secsPending + n), 0, sec, plans[k - 1]);
      EmptyErrs(env, r1.(secsPending := r1.secsPending + n), n);
    }
  }

  lemma EmptyErrs(env: Env, r: VReq, n: nat)
    ensures CompleteTd(env, r, n, EINVAL).error == Either(r.error, EINVAL)
  {
  }

  /** The error of an issue: that of the checks, or the first one of its pieces. */
  lemma IssueErrs(env: Env, r: VReq, ready: bool, plans: seq<Plan>)
    requires PlansFit(env.sizes, r, plans)
    ensures Issue(env, r, ready, plans).error ==
      if |env.sizes| == 0 then ENOSYS
      else if !ready then EAGAIN
      else if r.sec + Total(r.iov) > env.sizes[0] then EINVAL
      else Either(r.error, PiecesError(r, |r.iov|, plans))
  {
    hide QueuePieces;
    hide Total;
    hide Settle;
    var r1 := Opened(r);
    if CheckRequest(env, r, ready) == 0 {
      OpenedErrs(r, |r.iov|, plans);
      PiecesErrs(env, r1, |r.iov|, plans);
    }
    ClosesErrs(env, if CheckRequest(env, r, ready) != 0 then r1.(error := CheckRequest(env, r, ready))
                    else QueuePieces(env, r1, |r.iov|, plans));
  }

  lemma {:induction false} OpenedErrs(r: VReq, k: nat, plans: seq<Plan>)
    requires k <= |r.iov| && k <= |plans|
    ensures PiecesError(Opened(r), k, plans) == PiecesError(r, k, plans)
    decreases k
  {
    if k > 0 { OpenedErrs(r, k - 1, plans); }
  }

  lemma ClosesErrs(env: Env, r: VReq)
    ensures CloseFrame(env, r).error == r.error
  {
  }
}
