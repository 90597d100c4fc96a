/** Requests of a virtual disk over its chain of images (drivers/tapdisk-vbd.c): issue,
    forward to the parent, split at the parent's end, complete, retry. How an image's
    driver answers a piece of a request is a plan; secondary images are disabled. */
module TapdiskVbd {

  const EPERM := -1
  const EAGAIN := -11
  const EBUSY := -16
  const EINVAL := -22
  const ENOSPC := -28
  const ENOSYS := -38
  const ESTALE := -116

  /** Where a sector of a buffer comes from: nowhere yet, an image, or memset. */
  datatype Source = Zero | From(image: nat)

  datatype Where = New | Pending | Failed | Completed

  /** td_vbd_request. `entered` and `left` count the moves onto and off the pending list. */
  datatype VReq = VReq(
    sec: nat, iov: seq<nat>, secsPending: int, submitting: int, error: int,
    where: Where, buf: map<nat, Source>, entered: nat, left: nat)

  /** What a driver does with a piece, span by span from the front: keep it for later,
      complete it, or forward it to the parent image, whose driver then has its own plan.
      `ready` is tapdisk_vbd_queue_ready at that moment. */
  datatype Plan =
    | End
    | Hold(n: nat, rest: Plan)
    | Done(n: nat, res: int, rest: Plan)
    | Forward(n: nat, ready: bool, inner: Plan, rest: Plan)

  /** A piece of request v that the driver of an image holds. */
  datatype Piece = Piece(v: nat, image: nat, sec: nat, secs: nat)

  /** Sizes of the images from the first, leaf, image on, and what decides on retries. */
  datatype Env = Env(sizes: seq<nat>, stopping: bool, late: bool)

  /* ---- what the program does to one request ---- */

  predicate ShouldRetry(env: Env, error: int) {
    !env.stopping && error != EPERM && error != ENOSYS && error != ESTALE && error != ENOSPC && !env.late
  }

  function First(a: int, b: int): int { if a != 0 then a else b }

  function Norm(res: int): int { if res <= 0 then res else -res }

  /** tapdisk_vbd_complete_vbd_request. */
  function Settle(env: Env, r: VReq): VReq {
    if r.submitting == 0 && r.secsPending == 0
    then r.(where := if r.error != 0 && ShouldRetry(env, r.error) then Failed else Completed,
            left := if r.where == Pending then r.left + 1 else r.left)
    else r
  }

  /** __tapdisk_vbd_complete_td_request. */
  function CompleteTd(env: Env, r: VReq, n: nat, res: int): VReq {
    Settle(env, r.(secsPending := r.secsPending - n, error := First(r.error, Norm(res))))
  }

  function Fill(b: map<nat, Source>, sec: nat, n: nat, x: Source): map<nat, Source> {
    b + map l | sec <= l < sec + n && Within(l, sec, n) :: x
  }

  predicate Within(l: nat, sec: nat, n: nat) { sec <= l < sec + n }

  /** A driver that completes a read without error has filled the buffer. */
  function Copied(r: VReq, sec: nat, n: nat, image: nat, res: int): VReq {
    if Norm(res) == 0 then r.(buf := Fill(r.buf, sec, n, From(image))) else r
  }

  /** Sectors of [sec, sec + n) that lie within an image of that size. */
  function Cut(sec: nat, n: nat, size: nat): (m: nat)
    ensures m <= n && (sec + m <= size || m == 0)
    ensures m == n || sec + m == size || (m == 0 && size <= sec)
  {
    if sec + n > size then (if size > sec then size - sec else 0) else n
  }

  /** Sectors a plan deals with. */
  function Length(p: Plan): nat {
    match p
    case End => 0
    case Hold(n, rest) => n + Length(rest)
    case Done(n, _, rest) => n + Length(rest)
    case Forward(n, _, _, rest) => n + Length(rest)
  }

  /** td_queue_read and td_queue_write: the image's driver deals with the piece at
      `sec`; then the spans' completions and forwards run, nested. */
  function Deliver(env: Env, r: VReq, image: nat, sec: nat, p: Plan): VReq
    decreases p, 0
  {
    match p
    case End => r
    case Hold(n, rest) => Deliver(env, r, image, sec + n, rest)
    case Done(n, res, rest) =>
      Deliver(env, CompleteTd(env, Copied(r, sec, n, image, res), n, res), image, sec + n, rest)
    case Forward(n, ready, inner, rest) =>
      var r1 := if ready then Reissue(env, r, image, sec, n, inner) else CompleteTd(env, r, n, EBUSY);
      Deliver(env, r1, image, sec + n, rest)
  }

  /** What image does not hold, its parent is asked for; past the last image, and past
      the end of the parent, there are zeros. */
  function AskParent(env: Env, r: VReq, image: nat, sec: nat, n: nat, inner: Plan): VReq
    decreases inner, 1
  {
    if image + 1 >= |env.sizes| then CompleteTd(env, Zeroed(r, sec, n), n, 0)
    else
      var m := Cut(sec, n, env.sizes[image + 1]);
      var r1 := if sec + n > env.sizes[image + 1] then CompleteTd(env, Zeroed(r, sec + m, n - m), n - m, 0) else r;
      if m > 0 then Deliver(env, r1, image + 1, sec, inner) else r1
  }

  function Zeroed(r: VReq, sec: nat, n: nat): VReq { r.(buf := Fill(r.buf, sec, n, Zero)) }

  /** The end of a submission frame. */
  function CloseFrame(env: Env, r: VReq): VReq {
    var r1 := r.(submitting := r.submitting - 1);
    if r1.secsPending == 0 then Settle(env, r1) else r1
  }

  /** __tapdisk_vbd_reissue_td_request. */
  function Reissue(env: Env, r: VReq, image: nat, sec: nat, n: nat, inner: Plan): VReq
    decreases inner, 2
  {
    CloseFrame(env, AskParent(env, r.(submitting := r.submitting + 1), image, sec, n, inner))
  }

  /* ---- plans that drivers may have ---- */

  /** Every sector of the piece is dealt with, in spans of at least one sector. */
  predicate Fits(sizes: seq<nat>, image: nat, sec: nat, p: Plan)
    decreases p, 0
  {
    match p
    case End => true
    case Hold(n, rest) => n > 0 && Fits(sizes, image, sec + n, rest)
    case Done(n, _, rest) => n > 0 && Fits(sizes, image, sec + n, rest)
    case Forward(n, ready, inner, rest) =>
      n > 0 && Fits(sizes, image, sec + n, rest) &&
      if ready then FitsParent(sizes, image, sec, n, inner) else inner == End
  }

  /** The parent's plan deals with the part of the piece that the parent has. */
  predicate FitsParent(sizes: seq<nat>, image: nat, sec: nat, n: nat, inner: Plan)
    decreases inner, 1
  {
    if image + 1 < |sizes|
    then Length(inner) == Cut(sec, n, sizes[image + 1]) && Fits(sizes, image + 1, sec, inner)
    else inner == End
  }

  /** The pieces that drivers hold after the plan. */
  function Pieces(sizes: seq<nat>, v: nat, image: nat, sec: nat, p: Plan): seq<Piece>
    decreases p
  {
    match p
    case End => []
    case Hold(n, rest) => [Piece(v, image, sec, n)] + Pieces(sizes, v, image, sec + n, rest)
    case Done(n, _, rest) => Pieces(sizes, v, image, sec + n, rest)
    case Forward(n, ready, inner, rest) =>
      (if ready && image + 1 < |sizes| then Pieces(sizes, v, image + 1, sec, inner) else [])
      + Pieces(sizes, v, image, sec + n, rest)
  }

  function Held(h: seq<Piece>, v: nat): nat {
    if h == [] then 0 else Held(h[..|h| - 1], v) + (if h[|h| - 1].v == v then h[|h| - 1].secs else 0)
  }

  lemma {:induction false} HeldAdd(g: seq<Piece>, h: seq<Piece>, v: nat)
    ensures Held(g + h, v) == Held(g, v) + Held(h, v)
  {
    if h == [] {
      assert g + h == g;
    } else {
      HeldAdd(g, h[..|h| - 1], v);
      assert (g + h)[..|g + h| - 1] == g + h[..|h| - 1];
    }
  }

  lemma {:induction false} PiecesOf(sizes: seq<nat>, v: nat, image: nat, sec: nat, p: Plan, w: nat)
    requires Fits(sizes, image, sec, p) && image < |sizes|
    ensures Held(Pieces(sizes, v, image, sec, p), v) <= Length(p)
    ensures w != v ==> Held(Pieces(sizes, v, image, sec, p), w) == 0
    ensures forall q :: q in Pieces(sizes, v, image, sec, p) ==> q.v == v && q.secs > 0 && q.image < |sizes|
    decreases p
  {
    match p
    case End =>
    case Hold(n, rest) =>
      PiecesOf(sizes, v, image, sec + n, rest, w);
      HeldAdd([Piece(v, image, sec, n)], Pieces(sizes, v, image, sec + n, rest), v);
      HeldAdd([Piece(v, image, sec, n)], Pieces(sizes, v, image, sec + n, rest), w);
      assert [Piece(v, image, sec, n)][..0] == [];
    case Done(n, _, rest) => PiecesOf(sizes, v, image, sec + n, rest, w);
    case Forward(n, ready, inner, rest) =>
      PiecesOf(sizes, v, image, sec + n, rest, w);
      if ready && image + 1 < |sizes| {
        PiecesOf(sizes, v, image + 1, sec, inner, w);
        HeldAdd(Pieces(sizes, v, image + 1, sec, inner), Pieces(sizes, v, image, sec + n, rest), v);
        HeldAdd(Pieces(sizes, v, image + 1, sec, inner), Pieces(sizes, v, image, sec + n, rest), w);
      } else {
        assert [] + Pieces(sizes, v, image, sec + n, rest) == Pieces(sizes, v, image, sec + n, rest);
      }
  }

  /* ---- accounting ---- */

  /** A request on the pending list that still has sectors to wait for, or whose
      submission frames are open. */
  predicate Live(r: VReq) {
    r.where == Pending && r.left + 1 == r.entered && (r.submitting > 0 || (r.submitting == 0 && r.secsPending > 0))
  }

  /** r' is r after `n` more of its sectors have been completed: still pending while
      something is outstanding, and otherwise off the list, once. */
  predicate Moved(r: VReq, r': VReq, n: nat) {
    && r'.sec == r.sec && r'.iov == r.iov && r'.submitting == r.submitting && r'.entered == r.entered
    && r'.secsPending == r.secsPending - n && (r.error != 0 ==> r'.error == r.error)
    && if r.submitting > 0 || r'.secsPending > 0 then r'.where == Pending && r'.left == r.left
       else r'.where != Pending && r'.where != New && r'.left == r.left + 1
  }

  /** However deeply completions nest, delivering a plan accounts for all its sectors but
      those that drivers hold, and takes the request off the pending list exactly when
      nothing is outstanding and no frame is open. */
  lemma {:induction false} DeliverMoves(env: Env, r: VReq, v: nat, image: nat, sec: nat, p: Plan)
    requires Live(r) && r.secsPending >= Length(p) && Fits(env.sizes, image, sec, p) && image < |env.sizes|
    ensures HeldBy(env, v, image, sec, p) <= Length(p)
    ensures p != End ==> Moved(r, Deliver(env, r, image, sec, p), Length(p) - HeldBy(env, v, image, sec, p))
    decreases p, 0
  {
    hide HeldBy;
    hide Settle;
    HeldParts(env, v, image, sec, p);
    match p
    case End =>
    case Hold(n, rest) =>
      HeldParts(env, v, image, sec + n, rest);
      if rest != End { DeliverMoves(env, r, v, image, sec + n, rest); }
    case Done(n, res, rest) =>
      var r1 := CompleteTd(env, Copied(r, sec, n, image, res), n, res);
      CompleteMoves(env, Copied(r, sec, n, image, res), n, res);
      DeliverRest(env, r, r1, v, image, sec, n, 0, rest);
      HeldParts(env, v, image, sec + n, rest);
      if rest != End { DeliverMoves(env, r1, v, image, sec + n, rest); }
    case Forward(n, ready, inner, rest) =>
      if ready { ReissueMoves(env, r, v, image, sec, n, inner); } else { CompleteMoves(env, r, n, EBUSY); }
      var h := if ready then InnerHeld(env, v, image, sec, inner) else 0;
      var r1 := if ready then Reissue(env, r, image, sec, n, inner) else CompleteTd(env, r, n, EBUSY);
      DeliverRest(env, r, r1, v, image, sec, n, h, rest);
      HeldParts(env, v, image, sec + n, rest);
      if rest != End { DeliverMoves(env, r1, v, image, sec + n, rest); }
  }

  ghost function HeldBy(env: Env, v: nat, image: nat, sec: nat, p: Plan): nat {
    Held(Pieces(env.sizes, v, image, sec, p), v)
  }

  lemma HeldParts(env: Env, v: nat, image: nat, sec: nat, p: Plan)
    requires Fits(env.sizes, image, sec, p) && image < |env.sizes|
    ensures HeldBy(env, v, image, sec, p) ==
      match p
      case End => 0
      case Hold(n, rest) => n + HeldBy(env, v, image, sec + n, rest)
      case Done(n, _, rest) => HeldBy(env, v, image, sec + n, rest)
      case Forward(n, ready, inner, rest) =>
        (if ready then InnerHeld(env, v, image, sec, inner) else 0) + HeldBy(env, v, image, sec + n, rest)
    ensures HeldBy(env, v, image, sec, p) <= Length(p)
  {
    PiecesOf(env.sizes, v, image, sec, p, v);
    match p
    case End =>
    case Hold(n, rest) =>
      HeldAdd([Piece(v, image, sec, n)], Pieces(env.sizes, v, image, sec + n, rest), v);
      assert [Piece(v, image, sec, n)][..0] == [];
    case Done(n, res, rest) =>
    case Forward(n, ready, inner, rest) =>
      var tail := Pieces(env.sizes, v, image, sec + n, rest);
      HeldAdd(if ready && image + 1 < |env.sizes| then Pieces(env.sizes, v, image + 1, sec, inner) else [], tail, v);
  }

  lemma CompleteMoves(env: Env, r: VReq, n: nat, res: int)
    requires Live(r) && r.secsPending >= n
    ensures Moved(r, CompleteTd(env, r, n, res), n)
    ensures r.submitting > 0 || r.secsPending > n ==> Live(CompleteTd(env, r, n, res))
  {
  }

  /** The rest of the plan finds the request still pending. */
  lemma DeliverRest(env: Env, r: VReq, r1: VReq, v: nat, image: nat, sec: nat, n: nat, h: nat, rest: Plan)
    requires Live(r) && h <= n && Moved(r, r1, n - h) && r.secsPending >= n + Length(rest)
    requires Fits(env.sizes, image, sec + n, rest)
    ensures rest != End ==> Live(r1) && r1.secsPending >= Length(rest)
  {
  }

  function InnerHeld(env: Env, v: nat, image: nat, sec: nat, inner: Plan): nat {
    if image + 1 < |env.sizes| then Held(Pieces(env.sizes, v, image + 1, sec, inner), v) else 0
  }

  lemma {:induction false} ReissueMoves(env: Env, r: VReq, v: nat, image: nat, sec: nat, n: nat, inner: Plan)
    requires Live(r) && r.secsPending >= n > 0 && image < |env.sizes| && FitsParent(env.sizes, image, sec, n, inner)
    ensures var h := InnerHeld(env, v, image, sec, inner);
            h <= n && Moved(r, Reissue(env, r, image, sec, n, inner), n - h)
    decreases inner, 2
  {
    hide Settle;
    hide Pieces;
    var r1 := r.(submitting := r.submitting + 1);
    AskParentMoves(env, r1, v, image, sec, n, inner);
    FrameCloses(env, r, AskParent(env, r1, image, sec, n, inner), n - InnerHeld(env, v, image, sec, inner));
  }

  lemma {:induction false} AskParentMoves(env: Env, r: VReq, v: nat, image: nat, sec: nat, n: nat, inner: Plan)
    requires Live(r) && r.submitting > 0 && r.secsPending >= n > 0 && image < |env.sizes|
    requires FitsParent(env.sizes, image, sec, n, inner)
    ensures var h := InnerHeld(env, v, image, sec, inner);
            h <= n && Moved(r, AskParent(env, r, image, sec, n, inner), n - h)
    decreases inner, 1
  {
    hide Settle;
    hide CompleteTd;
    hide Pieces;
    hide HeldBy;
    hide InnerHeld;
    hide Fits;
    hide Length;
    hide Deliver;
    InnerHeldIs(env, v, image, sec, inner);
    if image + 1 < |env.sizes| {
      NoLength(env.sizes, image + 1, sec, inner);
      var m := Cut(sec, n, env.sizes[image + 1]);
      var clone := Zeroed(r, sec + m, n - m);
      var r1 := if sec + n > env.sizes[image + 1] then CompleteTd(env, clone, n - m, 0) else r;
      if sec + n > env.sizes[image + 1] { CompleteMoves(env, clone, n - m, 0); }
      DeliverMoves(env, r1, v, image + 1, sec, inner);
    } else {
      CompleteMoves(env, Zeroed(r, sec, n), n, 0);
    }
  }

  lemma {:induction false} NoLength(sizes: seq<nat>, image: nat, sec: nat, p: Plan)
    requires Fits(sizes, image, sec, p)
    ensures Length(p) == 0 <==> p == End
  {
  }

  lemma InnerHeldIs(env: Env, v: nat, image: nat, sec: nat, inner: Plan)
    ensures InnerHeld(env, v, image, sec, inner) ==
            if image + 1 < |env.sizes| then HeldBy(env, v, image + 1, sec, inner) else 0
    ensures inner == End ==> InnerHeld(env, v, image, sec, inner) == 0
  {
  }

  /** Closing a submission frame takes the request off the list if it was the last thing. */
  lemma FrameCloses(env: Env, r: VReq, r2: VReq, n: nat)
    requires Live(r) && Moved(r.(submitting := r.submitting + 1), r2, n) && r.secsPending >= n
    ensures Moved(r, CloseFrame(env, r2), n)
  {
  }

  /* ---- what a read returns ---- */

  type Holds = (nat, nat) -> bool

  /** The youngest image from `image` on that holds sector l; zeros if none does, or if
      an image on the way ends before l. */
  function SourceOf(has: Holds, sizes: seq<nat>, image: nat, l: nat): Source
    decreases |sizes| - image
  {
    if has(image, l) then From(image)
    else if image + 1 >= |sizes| || l >= sizes[image + 1] then Zero
    else SourceOf(has, sizes, image + 1, l)
  }

  /** A driver completes without error only sectors its image holds, and forwards only
      sectors its image does not hold. */
  ghost predicate Honest(has: Holds, sizes: seq<nat>, image: nat, sec: nat, p: Plan)
    decreases p
  {
    match p
    case End => true
    case Hold(n, rest) => Honest(has, sizes, image, sec + n, rest)
    case Done(n, res, rest) =>
      (Norm(res) == 0 ==> forall l :: sec <= l < sec + n ==> has(image, l)) && Honest(has, sizes, image, sec + n, rest)
    case Forward(n, ready, inner, rest) =>
      (forall l :: sec <= l < sec + n ==> !has(image, l)) && Honest(has, sizes, image, sec + n, rest) &&
      Honest(has, sizes, image + 1, sec, inner)
  }

  predicate Covers(q: Piece, l: nat) { q.sec <= l < q.sec + q.secs }

  /** Drivers that hold sector l of request v have images that should give it. */
  ghost predicate Sound(has: Holds, sizes: seq<nat>, h: seq<Piece>, v: nat, image: nat, l: nat) {
    forall q :: q in h && q.v == v && Covers(q, l) ==>
      SourceOf(has, sizes, q.image, l) == SourceOf(has, sizes, image, l)
  }

  ghost predicate Awaited(h: seq<Piece>, v: nat, l: nat) { exists q :: q in h && q.v == v && Covers(q, l) }

  /** Sector l is right, or on its way to be: it has the contents that image `image`
      should give, or a driver that should give the same holds it, or the request failed. */
  ghost predicate Right(has: Holds, sizes: seq<nat>, r: VReq, h: seq<Piece>, v: nat, image: nat, l: nat) {
    r.error != 0 ||
    (Sound(has, sizes, h, v, image, l) &&
     (Awaited(h, v, l) || (l in r.buf && r.buf[l] == SourceOf(has, sizes, image, l))))
  }

  /** Sector l of the buffer is untouched, and errors stay. */
  predicate Kept(r: VReq, r': VReq, l: nat) {
    (l in r.buf <==> l in r'.buf) && (l in r.buf ==> r'.buf[l] == r.buf[l]) && (r.error != 0 ==> r'.error != 0)
  }

  lemma {:induction false} DeliverKeeps(env: Env, r: VReq, image: nat, sec: nat, p: Plan, l: nat)
    requires !Within(l, sec, Length(p)) && Fits(env.sizes, image, sec, p) && image < |env.sizes|
    ensures Kept(r, Deliver(env, r, image, sec, p), l)
    decreases p, 0
  {
    match p
    case End =>
    case Hold(n, rest) => DeliverKeeps(env, r, image, sec + n, rest, l);
    case Done(n, res, rest) => DeliverKeeps(env, CompleteTd(env, Copied(r, sec, n, image, res), n, res), image, sec + n,
        rest, l);
    case Forward(n, ready, inner, rest) =>
      var r1 := if ready then Reissue(env, r, image, sec, n, inner) else CompleteTd(env, r, n, EBUSY);
      if ready { AskParentKeeps(env, r.(submitting := r.submitting + 1), image, sec, n, inner, l); }
      assert Kept(r, r1, l);
      DeliverKeeps(env, r1, image, sec + n, rest, l);
  }

  lemma {:induction false} AskParentKeeps(env: Env, r: VReq, image: nat, sec: nat, n: nat, inner: Plan, l: nat)
    requires !Within(l, sec, n) && FitsParent(env.sizes, image, sec, n, inner) && image < |env.sizes|
    ensures Kept(r, AskParent(env, r, image, sec, n, inner), l)
    decreases inner, 1
  {
    hide Settle;
    hide CompleteTd;
    hide Zeroed;
    if image + 1 < |env.sizes| {
      var m := Cut(sec, n, env.sizes[image + 1]);
      ZeroedAt(r, sec + m, n - m, l);
      CompleteKeeps(env, Zeroed(r, sec + m, n - m), n - m, 0, l);
      var r1 := if sec + n > env.sizes[image + 1] then CompleteTd(env, Zeroed(r, sec + m, n - m), n - m, 0) else r;
      DeliverKeeps(env, r1, image + 1, sec, inner, l);
    } else {
      ZeroedAt(r, sec, n, l);
      CompleteKeeps(env, Zeroed(r, sec, n), n, 0, l);
    }
  }

  lemma ZeroedAt(r: VReq, sec: nat, n: nat, l: nat)
    ensures !Within(l, sec, n) ==> Kept(r, Zeroed(r, sec, n), l)
    ensures Within(l, sec, n) ==> l in Zeroed(r, sec, n).buf && Zeroed(r, sec, n).buf[l] == Zero
  {
  }

  lemma {:induction false} PiecesWithin(sizes: seq<nat>, v: nat, image: nat, sec: nat, p: Plan, l: nat)
    requires Fits(sizes, image, sec, p) && !Within(l, sec, Length(p))
    ensures forall q :: q in Pieces(sizes, v, image, sec, p) ==> !Covers(q, l)
    decreases p
  {
    match p
    case End =>
    case Hold(n, rest) => PiecesWithin(sizes, v, image, sec + n, rest, l);
    case Done(n, _, rest) => PiecesWithin(sizes, v, image, sec + n, rest, l);
    case Forward(n, ready, inner, rest) =>
      PiecesWithin(sizes, v, image, sec + n, rest, l);
      if ready && image + 1 < |sizes| { PiecesWithin(sizes, v, image + 1, sec, inner, l); }
  }

  /** Delivering an honest plan makes every sector of it right. */
  lemma {:induction false} DeliverFills(env: Env, has: Holds, r: VReq, v: nat, image: nat, sec: nat, p: Plan, l: nat)
    requires Within(l, sec, Length(p)) && Fits(env.sizes, image, sec, p) && image < |env.sizes| &&
             Honest(has, env.sizes, image, sec, p)
    ensures Right(has, env.sizes, Deliver(env, r, image, sec, p), Pieces(env.sizes, v, image, sec, p), v, image, l)
    decreases p, 1
  {
    hide Settle;
    var h := Pieces(env.sizes, v, image, sec, p);
    match p
    case End =>
    case Hold(n, rest) =>
      var first, tail := Piece(v, image, sec, n), Pieces(env.sizes, v, image, sec + n, rest);
      if l < sec + n {
        PiecesWithin(env.sizes, v, image, sec + n, rest, l);
        assert first in h && Covers(first, l);
      } else {
        DeliverFills(env, has, r, v, image, sec + n, rest, l);
        RightKept(has, env.sizes, Deliver(env, r, image, sec, p), tail, Deliver(env, r, image, sec, p), h, v, image, l);
      }
    case Done(n, res, rest) =>
      var r1 := CompleteTd(env, Copied(r, sec, n, image, res), n, res);
      CompleteKeeps(env, Copied(r, sec, n, image, res), n, res, l);
      if l < sec + n {
        PiecesWithin(env.sizes, v, image, sec + n, rest, l);
        DeliverKeeps(env, r1, image, sec + n, rest, l);
      } else {
        DeliverFills(env, has, r1, v, image, sec + n, rest, l);
      }
    case Forward(n, ready, inner, rest) => ForwardFills(env, has, r, v, image, sec, p, l);
  }

  lemma {:induction false} ForwardFills(env: Env, has: Holds, r: VReq, v: nat, image: nat, sec: nat, p: Plan, l: nat)
    requires p.Forward? && Within(l, sec, Length(p)) && Fits(env.sizes, image, sec, p) && image < |env.sizes| &&
             Honest(has, env.sizes, image, sec, p)
    ensures Right(has, env.sizes, Deliver(env, r, image, sec, p), Pieces(env.sizes, v, image, sec, p), v, image, l)
    decreases p, 0
  {
    hide Settle;
    hide Right;
    var Forward(n, ready, inner, rest) := p;
    var r1 := if ready then Reissue(env, r, image, sec, n, inner) else CompleteTd(env, r, n, EBUSY);
    var first := if ready && image + 1 < |env.sizes| then Pieces(env.sizes, v, image + 1, sec, inner) else [];
    var tail := Pieces(env.sizes, v, image, sec + n, rest);
    var r' := Deliver(env, r1, image, sec + n, rest);
    if l < sec + n {
      if ready {
        AskParentFills(env, has, r.(submitting := r.submitting + 1), v, image, sec, n, inner, l);
        CloseKeeps(env, AskParent(env, r.(submitting := r.submitting + 1), image, sec, n, inner), l);
        RightKept(has, env.sizes, AskParent(env, r.(submitting := r.submitting + 1), image, sec, n, inner), first, r1,
            first, v, image, l);
      } else {
        CompleteKeeps(env, r, n, EBUSY, l);
        RightError(has, env.sizes, r1, first, v, image, l);
      }
      PiecesWithin(env.sizes, v, image, sec + n, rest, l);
      DeliverKeeps(env, r1, image, sec + n, rest, l);
      RightKept(has, env.sizes, r1, first, r', first + tail, v, image, l);
    } else {
      DeliverFills(env, has, r1, v, image, sec + n, rest, l);
      if ready && image + 1 < |env.sizes| { PiecesWithin(env.sizes, v, image + 1, sec, inner, l); }
      RightKept(has, env.sizes, r', tail, r', first + tail, v, image, l);
    }
  }

  lemma RightError(has: Holds, sizes: seq<nat>, r: VReq, h: seq<Piece>, v: nat, image: nat, l: nat)
    requires r.error != 0
    ensures Right(has, sizes, r, h, v, image, l)
  {
  }

  lemma CompleteKeeps(env: Env, r: VReq, n: nat, res: int, l: nat)
    ensures Kept(r, CompleteTd(env, r, n, res), l) && (Norm(res) != 0 ==> CompleteTd(env, r, n, res).error != 0)
  {
  }

  lemma CloseKeeps(env: Env, r: VReq, l: nat)
    ensures Kept(r, CloseFrame(env, r), l)
  {
  }

  lemma {:induction false} AskParentFills(env: Env, has: Holds, r: VReq, v: nat, image: nat, sec: nat, n: nat,
          inner: Plan, l: nat)
    requires Within(l, sec, n) && FitsParent(env.sizes, image, sec, n, inner) && image < |env.sizes|
    requires !has(image, l) && Honest(has, env.sizes, image + 1, sec, inner)
    ensures var h := if image + 1 < |env.sizes| then Pieces(env.sizes, v, image + 1, sec, inner) else [];
            Right(has, env.sizes, AskParent(env, r, image, sec, n, inner), h, v, image, l)
    decreases inner, 2
  {
    hide Settle;
    hide CompleteTd;
    hide Zeroed;
    if image + 1 < |env.sizes| {
      var m := Cut(sec, n, env.sizes[image + 1]);
      ZeroedAt(r, sec + m, n - m, l);
      var r1 := if sec + n > env.sizes[image + 1] then CompleteTd(env, Zeroed(r, sec + m, n - m), n - m, 0) else r;
      if l < sec + m {
        DeliverFills(env, has, r1, v, image + 1, sec, inner, l);
      } else {
        CompleteKeeps(env, Zeroed(r, sec + m, n - m), n - m, 0, l);
        DeliverKeeps(env, r1, image + 1, sec, inner, l);
        PiecesWithin(env.sizes, v, image + 1, sec, inner, l);
      }
    } else {
      ZeroedAt(r, sec, n, l);
      CompleteKeeps(env, Zeroed(r, sec, n), n, 0, l);
    }
  }

  /* ---- issuing a request ---- */

  function Total(iov: seq<nat>): nat {
    if iov == [] then 0 else Total(iov[..|iov| - 1]) + iov[|iov| - 1]
  }

  /** tapdisk_vbd_check_queue and tapdisk_image_check_request. */
  function CheckRequest(env: Env, r: VReq, ready: bool): int {
    if |env.sizes| == 0 then ENOSYS
    else if !ready then EAGAIN
    else if r.sec + Total(r.iov) > env.sizes[0] then EINVAL
    else 0
  }

  /** td_queue_read and td_queue_write, with their check of the piece. */
  function QueueTd(env: Env, r: VReq, sec: nat, n: nat, p: Plan): VReq
    requires |env.sizes| > 0
  {
    if n == 0 || sec + n > env.sizes[0] then CompleteTd(env, r, n, EINVAL) else Deliver(env, r, 0, sec, p)
  }

  /** The first k pieces of a request have been queued. */
  function QueuePieces(env: Env, r: VReq, k: nat, plans: seq<Plan>): VReq
    requires |env.sizes| > 0 && k <= |r.iov| && k <= |plans|
    decreases k
  {
    if k == 0 then r
    else
      var r1 := QueuePieces(env, r, k - 1, plans);
      QueueTd(env, r1.(secsPending := r1.secsPending + r.iov[k - 1]),
              r.sec + Total(r.iov[..k - 1]), r.iov[k - 1], plans[k - 1])
  }

  function Opened(r: VReq): VReq { r.(submitting := 1, where := Pending, entered := r.entered + 1) }

  /** tapdisk_vbd_issue_request. */
  function Issue(env: Env, r: VReq, ready: bool, plans: seq<Plan>): VReq
    requires |r.iov| <= |plans|
  {
    var r1 := Opened(r);
    var err := CheckRequest(env, r, ready);
    CloseFrame(env, if err != 0 then r1.(error := err) else QueuePieces(env, r1, |r.iov|, plans))
  }

  ghost predicate PlansFit(sizes: seq<nat>, r: VReq, plans: seq<Plan>) {
    |plans| == |r.iov| &&
    forall i :: 0 <= i < |r.iov| ==>
      Length(plans[i]) == r.iov[i] && Fits(sizes, 0, r.sec + Total(r.iov[..i]), plans[i])
  }

  /** The pieces that drivers hold after the first k plans. */
  function AllPieces(sizes: seq<nat>, v: nat, r: VReq, k: nat, plans: seq<Plan>): seq<Piece>
    requires k <= |r.iov| && k <= |plans|
  {
    if k == 0 then []
    else AllPieces(sizes, v, r, k - 1, plans) + Pieces(sizes, v, 0, r.sec + Total(r.iov[..k - 1]), plans[k - 1])
  }

  /** A request with no frame open: on the pending list just while drivers hold sectors
      of it, which are those it waits for. */
  predicate AtRest(r: VReq, held: nat) {
    && r.submitting == 0 && r.secsPending == held
    && (r.where == Pending <==> held > 0)
    && r.entered == r.left + if r.where == Pending then 1 else 0
  }

  lemma {:induction false} TotalTake(iov: seq<nat>, k: nat)
    requires k < |iov|
    ensures Total(iov[..k + 1]) == Total(iov[..k]) + iov[k]
    ensures Total(iov[..k]) + iov[k] <= Total(iov)
    decreases |iov|
  {
    assert iov[..k + 1][..k] == iov[..k];
    if k == |iov| - 1 {
      assert iov[..k + 1] == iov;
    } else {
      TotalTake(iov[..|iov| - 1], k);
      assert iov[..|iov| - 1][..k] == iov[..k];
    }
  }

  lemma {:induction false} QueuePiecesMoves(env: Env, r: VReq, v: nat, k: nat, plans: seq<Plan>)
    requires Live(r) && r.submitting == 1 && r.secsPending == 0 && |env.sizes| > 0
    requires PlansFit(env.sizes, r, plans) && r.sec + Total(r.iov) <= env.sizes[0] && k <= |r.iov|
    ensures var r' := QueuePieces(env, r, k, plans);
            && Live(r') && r'.submitting == 1 && r'.entered == r.entered && r'.sec == r.sec && r'.iov == r.iov
            && r'.secsPending == Held(AllPieces(env.sizes, v, r, k, plans), v)
            && (r.error != 0 ==> r'.error == r.error)
    decreases k
  {
    hide QueueTd;
    hide Pieces;
    hide Held;
    hide Fits;
    hide Length;
    hide Total;
    if k > 0 {
      QueuePiecesMoves(env, r, v, k - 1, plans);
      var sec, n, p := r.sec + Total(r.iov[..k - 1]), r.iov[k - 1], plans[k - 1];
      var r1 := QueuePieces(env, r, k - 1, plans);
      TotalTake(r.iov, k - 1);
      HeldAdd(AllPieces(env.sizes, v, r, k - 1, plans), Pieces(env.sizes, v, 0, sec, p), v);
      QueueTdMoves(env, r1.(secsPending := r1.secsPending + n), v, sec, n, p);
    } else {
      NoPieces(v);
    }
  }

  lemma {:induction false} NoPieces(v: nat)
    ensures Held([], v) == 0
  {
  }

  lemma {:induction false} QueueTdMoves(env: Env, r: VReq, v: nat, sec: nat, n: nat, p: Plan)
    requires Live(r) && r.submitting > 0 && |env.sizes| > 0 && Length(p) == n && Fits(env.sizes, 0, sec, p)
    requires sec + n <= env.sizes[0] && r.secsPending >= n
    ensures var h := Held(Pieces(env.sizes, v, 0, sec, p), v);
            h <= n && Moved(r, QueueTd(env, r, sec, n, p), n - h)
  {
    DeliverMoves(env, r, v, 0, sec, p);
    CompleteMoves(env, r, n, EINVAL);
  }

  /** Issuing leaves the request pending exactly if drivers hold some of it; if not, it
      has left the pending list, once. */
  lemma {:induction false} IssueMoves(env: Env, r: VReq, v: nat, ready: bool, plans: seq<Plan>)
    requires AtRest(r, 0) && PlansFit(env.sizes, r, plans)
    ensures var h := if CheckRequest(env, r, ready) != 0 then 0
              else Held(AllPieces(env.sizes, v, r, |r.iov|, plans), v);
            AtRest(Issue(env, r, ready, plans), h)
  {
    hide QueuePieces;
    hide AllPieces;
    hide Total;
    hide Fits;
    hide Length;
    hide Held;
    var r1 := Opened(r);
    assert r1.sec == r.sec && r1.iov == r.iov;
    if CheckRequest(env, r, ready) == 0 {
      QueuePiecesMoves(env, r1, v, |r.iov|, plans);
      PiecesSame(env.sizes, v, r, r1, |r.iov|, plans);
    }
  }

  lemma {:induction false} PiecesSame(sizes: seq<nat>, v: nat, r: VReq, r1: VReq, k: nat, plans: seq<Plan>)
    requires r1.iov == r.iov && r1.sec == r.sec && k <= |r.iov| && k <= |plans|
    ensures AllPieces(sizes, v, r1, k, plans) == AllPieces(sizes, v, r, k, plans)
  {
    if k > 0 { PiecesSame(sizes, v, r, r1, k - 1, plans); }
  }

  lemma {:induction false} AllPiecesOf(sizes: seq<nat>, v: nat, r: VReq, k: nat, plans: seq<Plan>, w: nat)
    requires |sizes| > 0 && PlansFit(sizes, r, plans) && k <= |r.iov|
    ensures w != v ==> Held(AllPieces(sizes, v, r, k, plans), w) == 0
    ensures forall q :: q in AllPieces(sizes, v, r, k, plans) ==> q.v == v && q.secs > 0 && q.image < |sizes|
  {
    if k > 0 {
      AllPiecesOf(sizes, v, r, k - 1, plans, w);
      var ps := Pieces(sizes, v, 0, r.sec + Total(r.iov[..k - 1]), plans[k - 1]);
      PiecesOf(sizes, v, 0, r.sec + Total(r.iov[..k - 1]), plans[k - 1], w);
      HeldAdd(AllPieces(sizes, v, r, k - 1, plans), ps, w);
    }
  }

  lemma RightKept(has: Holds, sizes: seq<nat>, r: VReq, h: seq<Piece>, r': VReq, h': seq<Piece>, v: nat, image: nat,
          l: nat)
    requires Right(has, sizes, r, h, v, image, l) && Kept(r, r', l)
    requires forall q: Piece :: q.v == v && Covers(q, l) ==> (q in h <==> q in h')
    ensures Right(has, sizes, r', h', v, image, l)
  {
    if Awaited(h, v, l) {
      var q :| q in h && q.v == v && Covers(q, l);
      assert q in h';
    }
  }

  /** Pieces that come of another part of the request change nothing for sector l. */
  lemma RightJoin(has: Holds, sizes: seq<nat>, r: VReq, h: seq<Piece>, g: seq<Piece>, v: nat, image: nat, l: nat)
    requires Right(has, sizes, r, h, v, image, l) && Sound(has, sizes, g, v, image, l)
    ensures Right(has, sizes, r, g + h, v, image, l)
  {
    if Awaited(h, v, l) {
      var q :| q in h && q.v == v && Covers(q, l);
      assert q in g + h;
    }
  }

  /** Every sector of the request is right, or on its way to be. */
  ghost predicate Filled(has: Holds, sizes: seq<nat>, r: VReq, h: seq<Piece>, v: nat) {
    forall l: nat :: r.sec <= l < r.sec + Total(r.iov) ==> Right(has, sizes, r, h, v, 0, l)
  }

  lemma {:induction false} QueueTdKeeps(env: Env, r: VReq, sec: nat, n: nat, p: Plan, l: nat)
    requires |env.sizes| > 0 && Length(p) == n && Fits(env.sizes, 0, sec, p) && !Within(l, sec, n)
    ensures Kept(r, QueueTd(env, r, sec, n, p), l)
  {
    DeliverKeeps(env, r, 0, sec, p, l);
    CompleteKeeps(env, r, n, EINVAL, l);
  }

  lemma {:induction false} QueuePiecesFills(env: Env, has: Holds, r: VReq, v: nat, k: nat, plans: seq<Plan>, l: nat)
    requires |env.sizes| > 0 && PlansFit(env.sizes, r, plans) && r.sec + Total(r.iov) <= env.sizes[0] && k <= |r.iov|
    requires forall i :: 0 <= i < |plans| ==> Honest(has, env.sizes, 0, r.sec + Total(r.iov[..i]), plans[i])
    requires r.sec <= l < r.sec + Total(r.iov[..k])
    ensures Right(has, env.sizes, QueuePieces(env, r, k, plans), AllPieces(env.sizes, v, r, k, plans), v, 0, l)
    decreases k
  {
    hide Total;
    hide Honest;
    hide Fits;
    hide Right;
    hide Deliver;
    hide Pieces;
    hide Length;
    hide Covers;
    if k > 0 {
      var sec, n, p := r.sec + Total(r.iov[..k - 1]), r.iov[k - 1], plans[k - 1];
      var r1 := QueuePieces(env, r, k - 1, plans);
      var r2 := r1.(secsPending := r1.secsPending + n);
      TotalTake(r.iov, k - 1);
      if l < sec {
        QueuePiecesFills(env, has, r, v, k - 1, plans, l);
        QueueTdKeeps(env, r2, sec, n, p, l);
        PiecesWithin(env.sizes, v, 0, sec, p, l);
        RightKept(has, env.sizes, r1, AllPieces(env.sizes, v, r, k - 1, plans), QueuePieces(env, r, k, plans),
                  AllPieces(env.sizes, v, r, k, plans), v, 0, l);
      } else {
        DeliverFills(env, has, r2, v, 0, sec, p, l);
        AllPiecesWithin(env.sizes, v, r, k - 1, plans, l);
        RightKept(has, env.sizes, Deliver(env, r2, 0, sec, p), Pieces(env.sizes, v, 0, sec, p),
            QueuePieces(env, r, k, plans),
                  AllPieces(env.sizes, v, r, k, plans), v, 0, l);
      }
    } else {
      NoTotal(r.iov);
    }
  }

  lemma {:induction false} AllPiecesWithin(sizes: seq<nat>, v: nat, r: VReq, k: nat, plans: seq<Plan>, l: nat)
    requires PlansFit(sizes, r, plans) && k <= |r.iov| && l >= r.sec + Total(r.iov[..k])
    ensures forall q :: q in AllPieces(sizes, v, r, k, plans) ==> !Covers(q, l)
  {
    hide Pieces;
    hide Length;
    hide Fits;
    hide Total;
    if k > 0 {
      TotalTake(r.iov, k - 1);
      AllPiecesWithin(sizes, v, r, k - 1, plans, l);
      PiecesWithin(sizes, v, 0, r.sec + Total(r.iov[..k - 1]), plans[k - 1], l);
    }
  }

  lemma NoTotal(iov: seq<nat>)
    ensures Total(iov[..0]) == 0 && iov[..|iov|] == iov
  {
  }

  lemma RightFailed(has: Holds, sizes: seq<nat>, r: VReq, h: seq<Piece>, v: nat)
    requires r.error != 0
    ensures Filled(has, sizes, r, h, v)
  {
  }

  /** Issuing a read with honest drivers makes every sector of it right. */
  lemma {:induction false} IssueFills(env: Env, has: Holds, r: VReq, v: nat, ready: bool, plans: seq<Plan>)
    requires PlansFit(env.sizes, r, plans)
    requires forall i :: 0 <= i < |plans| ==> Honest(has, env.sizes, 0, r.sec + Total(r.iov[..i]), plans[i])
    ensures var h := if CheckRequest(env, r, ready) != 0 then [] else AllPieces(env.sizes, v, r, |r.iov|, plans);
            Filled(has, env.sizes, Issue(env, r, ready, plans), h, v)
  {
    hide Total;
    hide Honest;
    hide Right;
    hide QueuePieces;
    hide Settle;
    var r1 := Opened(r);
    var r' := Issue(env, r, ready, plans);
    assert r1.sec == r.sec && r1.iov == r.iov;
    if CheckRequest(env, r, ready) == 0 {
      var r2 := QueuePieces(env, r1, |r.iov|, plans);
      QueuePiecesFrame(env, r1, |r.iov|, plans);
      NoTotal(r.iov);
      PiecesSame(env.sizes, v, r, r1, |r.iov|, plans);
      CloseFrame'(env, r2);
      forall l: nat | r.sec <= l < r.sec + Total(r.iov)
        ensures Right(has, env.sizes, r', AllPieces(env.sizes, v, r, |r.iov|, plans), v, 0, l)
      {
        QueuePiecesFills(env, has, r1, v, |r.iov|, plans, l);
        CloseKeeps(env, r2, l);
        RightKept(has, env.sizes, r2, AllPieces(env.sizes, v, r, |r.iov|, plans), r',
            AllPieces(env.sizes, v, r, |r.iov|, plans), v, 0, l);
      }
    } else {
      CloseFrame'(env, r1.(error := CheckRequest(env, r, ready)));
      RightFailed(has, env.sizes, r', [], v);
    }
  }

  lemma CloseFrame'(env: Env, r: VReq)
    ensures var r' := CloseFrame(env, r); r'.sec == r.sec && r'.iov == r.iov && r'.error == r.error
  {
  }

  /** No step changes what a request asks for. */
  predicate SameRequest(r: VReq, r': VReq) { r'.sec == r.sec && r'.iov == r.iov }

  lemma {:induction false} DeliverSame(env: Env, r: VReq, image: nat, sec: nat, p: Plan)
    ensures SameRequest(r, Deliver(env, r, image, sec, p))
    decreases p, 0
  {
    match p
    case End =>
    case Hold(n, rest) => DeliverSame(env, r, image, sec + n, rest);
    case Done(n, res, rest) => DeliverSame(env, CompleteTd(env, Copied(r, sec, n, image, res), n, res), image, sec + n,
        rest);
    case Forward(n, ready, inner, rest) =>
      var r1 := if ready then Reissue(env, r, image, sec, n, inner) else CompleteTd(env, r, n, EBUSY);
      if ready { AskParentSame(env, r.(submitting := r.submitting + 1), image, sec, n, inner); }
      DeliverSame(env, r1, image, sec + n, rest);
  }

  lemma {:induction false} AskParentSame(env: Env, r: VReq, image: nat, sec: nat, n: nat, inner: Plan)
    ensures SameRequest(r, AskParent(env, r, image, sec, n, inner))
    decreases inner, 1
  {
    if image + 1 < |env.sizes| {
      var m := Cut(sec, n, env.sizes[image + 1]);
      var r1 := if sec + n > env.sizes[image + 1] then CompleteTd(env, Zeroed(r, sec + m, n - m), n - m, 0) else r;
      DeliverSame(env, r1, image + 1, sec, inner);
    }
  }

  lemma {:induction false} QueuePiecesFrame(env: Env, r: VReq, k: nat, plans: seq<Plan>)
    requires |env.sizes| > 0 && k <= |r.iov| && k <= |plans|
    ensures SameRequest(r, QueuePieces(env, r, k, plans))
    decreases k
  {
    if k > 0 {
      QueuePiecesFrame(env, r, k - 1, plans);
      var r1 := QueuePieces(env, r, k - 1, plans);
      DeliverSame(env, r1.(secsPending := r1.secsPending + r.iov[k - 1]), 0, r.sec + Total(r.iov[..k - 1]),
          plans[k - 1]);
    }
  }

  /* ---- a driver takes up a piece it holds ---- */

  function Without(h: seq<Piece>, i: nat): seq<Piece>
    requires i < |h|
  {
    h[..i] + h[i + 1..]
  }

  lemma {:induction false} HeldWithout(h: seq<Piece>, i: nat, v: nat)
    requires i < |h|
    ensures Held(h, v) == Held(Without(h, i), v) + if h[i].v == v then h[i].secs else 0
  {
    HeldAdd(h[..i], h[i + 1..], v);
    HeldAdd(h[..i] + [h[i]], h[i + 1..], v);
    HeldAdd(h[..i], [h[i]], v);
    assert h == h[..i] + [h[i]] + h[i + 1..];
    assert [h[i]][..0] == [];
  }

  /** When a driver deals with piece i of what it holds, the sectors of the request stay
      right, or on their way to be. */
  lemma {:induction false} ResumeFills(env: Env, has: Holds, r: VReq, h: seq<Piece>, i: nat, p: Plan)
    requires i < |h| && h[i].image < |env.sizes| && Length(p) == h[i].secs && Fits(env.sizes, h[i].image, h[i].sec, p)
    requires Honest(has, env.sizes, h[i].image, h[i].sec, p) && Filled(has, env.sizes, r, h, h[i].v)
    ensures var q := h[i];
            Filled(has, env.sizes, Deliver(env, r, q.image, q.sec, p),
                   Without(h, i) + Pieces(env.sizes, q.v, q.image, q.sec, p), q.v)
  {
    var q := h[i];
    var r' := Deliver(env, r, q.image, q.sec, p);
    var ps := Pieces(env.sizes, q.v, q.image, q.sec, p);
    DeliverSame(env, r, q.image, q.sec, p);
    forall l: nat | r.sec <= l < r.sec + Total(r.iov) ensures Right(has, env.sizes, r', Without(h, i) + ps, q.v, 0, l) {
      ResumeRight(env, has, r, h, i, p, l);
    }
  }

  lemma {:induction false} ResumeRight(env: Env, has: Holds, r: VReq, h: seq<Piece>, i: nat, p: Plan, l: nat)
    requires i < |h| && h[i].image < |env.sizes| && Length(p) == h[i].secs && Fits(env.sizes, h[i].image, h[i].sec, p)
    requires Honest(has, env.sizes, h[i].image, h[i].sec, p) && Right(has, env.sizes, r, h, h[i].v, 0, l)
    ensures var q := h[i];
            Right(has, env.sizes, Deliver(env, r, q.image, q.sec, p),
                  Without(h, i) + Pieces(env.sizes, q.v, q.image, q.sec, p), q.v, 0, l)
  {
    var q := h[i];
    var r' := Deliver(env, r, q.image, q.sec, p);
    var ps := Pieces(env.sizes, q.v, q.image, q.sec, p);
    var rest := Without(h, i);
    if r.error != 0 {
      DeliverError(env, r, q.image, q.sec, p);
    } else if Covers(q, l) {
      DeliverFills(env, has, r, q.v, q.image, q.sec, p, l);
      assert SourceOf(has, env.sizes, q.image, l) == SourceOf(has, env.sizes, 0, l);
      assert Right(has, env.sizes, r', ps, q.v, 0, l);
      RightJoin(has, env.sizes, r', ps, rest, q.v, 0, l);
    } else {
      PiecesWithin(env.sizes, q.v, q.image, q.sec, p, l);
      DeliverKeeps(env, r, q.image, q.sec, p, l);
      forall x: Piece | x.v == q.v && Covers(x, l) ensures x in h <==> x in rest + ps {
        assert x in h ==> x in rest by { assert h == h[..i] + [q] + h[i + 1..]; }
      }
      RightKept(has, env.sizes, r, h, r', rest + ps, q.v, 0, l);
    }
  }

  lemma {:induction false} DeliverError(env: Env, r: VReq, image: nat, sec: nat, p: Plan)
    requires r.error != 0 && Fits(env.sizes, image, sec, p) && image < |env.sizes|
    ensures Deliver(env, r, image, sec, p).error != 0
  {
    DeliverKeeps(env, r, image, sec, p, sec + Length(p));
  }
}
