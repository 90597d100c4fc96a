/** A virtual disk over a chain of images that the VHD driver serves: its state, what is kept
    of it, and what a driver's dealing with a piece of a read does to the buffers. */
module ChainStack {
  import opened VhdTypes
  import opened VhdEngine
  import opened VhdInvariants
  import opened VhdStructure
  import opened VhdAccounting
  import opened VhdDisk
  import opened VhdTheorems
  import opened VhdMoments
  import opened VhdStill
  import opened VhdChain
  import opened VhdTickets
  import opened ChainTickets
  import T = TapdiskVbd
  import V = VirtualDisk

  /** The images with the states of their drivers, the reads of the virtual disk, and the
      pieces of them that drivers hold. `seen` says what the images held when a read was
      issued, and `data` what completed pieces have brought. A read is steady as long as,
      since it was issued, no write of its sectors has been in flight. */
  datatype Stack = Stack(
    ch: Chain, reqs: V.Requests, tickets: seq<Ticket>, seen: V.Seen,
    data: map<nat, map<nat, Sector>>, steady: set<nat>, stopping: bool, late: set<nat>)

  function EnvOf(d: Stack, v: nat): T.Env { T.Env(Sizes(d.ch), d.stopping, v in d.late) }

  ghost function HoldsOf(ch: Chain): T.Holds {
    (j: nat, l: nat) => j < |ch| && Recover(ch[j].c, ch[j].s.media, l).Present?
  }

  predicate Of(r: T.VReq, l: nat) { r.sec <= l < r.sec + T.Total(r.iov) }

  /** No driver has a write of sector l on its lists. */
  ghost predicate StillAt(ch: Chain, l: nat) { forall i :: 0 <= i < |ch| ==> Still(ch[i].s, l) }

  ghost predicate StillFor(ch: Chain, r: T.VReq) { forall l: nat :: Of(r, l) ==> StillAt(ch, l) }

  /** Contents x are what can be recovered of sector l from the image. */
  ghost predicate Copy(im: Image, l: nat, x: Sector) {
    var f := Recover(im.c, im.s.media, l);
    f.Present? && x == Data(f.w, l)
  }

  /* ---- what is kept ---- */

  /** Sector l of request v has failed, is awaited, or is there: zeros, or a copy of what the
      image has. */
  ghost predicate ContentOk(d: Stack, v: nat, l: nat)
    requires v in d.reqs
  {
    var r := d.reqs[v];
    r.error != 0 || T.Awaited(HeldPieces(d.tickets), v, l) ||
    (l in r.buf && match r.buf[l]
     case Zero => true
     case From(x) => x < |d.ch| && v in d.data && l in d.data[v] && Copy(d.ch[x], l, d.data[v][l]))
  }

  ghost predicate SteadyAt(d: Stack, v: nat, l: nat)
    requires v in d.reqs && v in d.seen
  {
    && StillAt(d.ch, l) && (forall i: nat :: d.seen[v](i, l) == HoldsOf(d.ch)(i, l))
    && ContentOk(d, v, l)
  }

  ghost predicate SteadyOk(d: Stack, v: nat) {
    v in d.reqs && v in d.seen && forall l: nat :: Of(d.reqs[v], l) ==> SteadyAt(d, v, l)
  }

  /** A read of a steady request that has landed has found what the image has. */
  ghost predicate LandedOk(d: Stack, t: Ticket, r: Req) {
    t.q.v in d.steady && t.q.image < |d.ch| && r in d.ch[t.q.image].s.raw && r.landed && r.op == OpRead &&
    For(t, t.q.image, Key(r.wid, r.sec, r.secs)) ==>
      |r.got| == r.secs && forall x :: 0 <= x < r.secs ==> Copy(d.ch[t.q.image], r.sec + x, r.got[x])
  }

  /** The piece is part of what its request asks for. */
  ghost predicate PartOf(reqs: V.Requests, q: T.Piece) {
    q.v in reqs ==> forall l: nat :: T.Covers(q, l) ==> Of(reqs[q.v], l)
  }

  ghost predicate AllPartOf(reqs: V.Requests, held: seq<T.Piece>) { forall q :: q in held ==> PartOf(reqs, q) }

  ghost predicate AllLandedOk(d: Stack) { forall t, r :: t in d.tickets ==> LandedOk(d, t, r) }

  /** The virtual disk's side: its accounts, and its buffers as far as reads are steady. */
  ghost predicate Guests(d: Stack) {
    && V.AllAtRest(d.reqs, HeldPieces(d.tickets)) && V.PiecesOk(Sizes(d.ch), d.reqs, HeldPieces(d.tickets))
    && AllPartOf(d.reqs, HeldPieces(d.tickets)) && d.steady <= d.reqs.Keys
    && V.AllFilled(d.seen, Sizes(d.ch), d.reqs.Keys - d.steady, d.reqs, HeldPieces(d.tickets))
    && (forall v :: v in d.steady ==> SteadyOk(d, v))
    && AllLandedOk(d)
  }

  /** The drivers' side: what they hold for the virtual disk is what it has tickets for. */
  ghost predicate Drivers(d: Stack) {
    |d.ch| > 0 && SoundFrom(d.ch, 0) &&
    forall j, k {:trigger Drawn(d.tickets, j, k)} :: 0 <= j < |d.ch| ==> ReadsAt(d.ch, j, k) == Drawn(d.tickets, j, k)
  }

  ghost predicate StackOk(d: Stack) { Drivers(d) && Guests(d) }

  /* ---- the drivers go on ---- */

  /** What is still stays still, and keeps its contents. */
  ghost predicate Undisturbed(ch: Chain, ch': Chain, l: nat) {
    && |ch'| == |ch| && (StillAt(ch, l) ==> StillAt(ch', l))
    && (StillAt(ch, l) ==> forall i :: 0 <= i < |ch| ==>
         Recover(ch'[i].c, ch'[i].s.media, l) == Recover(ch[i].c, ch[i].s.media, l))
  }

  lemma SteadyMoves(d: Stack, d': Stack, v: nat, l: nat)
    requires d' == d.(ch := d'.ch, steady := d'.steady) && v in d.reqs && v in d.seen
    requires SteadyAt(d, v, l) && Undisturbed(d.ch, d'.ch, l)
    ensures SteadyAt(d', v, l)
  {
    hide Recover;
    hide Still;
    assert forall i: nat :: HoldsOf(d'.ch)(i, l) == HoldsOf(d.ch)(i, l);
  }

  /** The chain has gone on without disturbing the reads that are still called steady. */
  lemma ChainMoves(d: Stack, d': Stack)
    requires Guests(d) && d' == d.(ch := d'.ch, steady := d'.steady) && d'.steady <= d.steady
    requires |d'.ch| == |d.ch| && Sizes(d'.ch) == Sizes(d.ch)
    requires forall v, l: nat :: v in d'.steady && v in d.reqs && Of(d.reqs[v], l) ==> Undisturbed(d.ch, d'.ch, l)
    requires forall t, r :: t in d.tickets ==> LandedOk(d', t, r)
    ensures Guests(d')
  {
    hide T.Filled;
    hide T.Total;
    hide LandedOk;
    hide Undisturbed;
    hide V.AllAtRest;
    hide V.PiecesOk;
    forall v | v in d'.steady ensures SteadyOk(d', v) {
      assert SteadyOk(d, v);
      forall l: nat | Of(d.reqs[v], l) ensures SteadyAt(d', v, l) { SteadyMoves(d, d', v, l); }
    }
    forall w | w in d'.reqs && w !in d'.reqs.Keys - d'.steady && d'.reqs[w].where != T.New
      ensures V.FilledOne(d'.seen, Sizes(d'.ch), d'.reqs[w], HeldPieces(d'.tickets), w)
    {
      assert w in d.steady;
    }
  }

  /** Reads that had landed before have found what is there. */
  lemma LandedKept(d: Stack, d': Stack, t: Ticket, r: Req)
    requires Guests(d) && t in d.tickets && |d'.ch| == |d.ch|
    requires t.q.image < |d.ch| && r in d.ch[t.q.image].s.raw && t.q.v in d'.steady ==> t.q.v in d.steady
    requires t.q.v in d'.steady && t.q.image < |d.ch| && r in d.ch[t.q.image].s.raw ==>
      forall l: nat :: r.sec <= l < r.sec + r.secs ==>
        Recover(d'.ch[t.q.image].c, d'.ch[t.q.image].s.media, l) ==
          Recover(d.ch[t.q.image].c, d.ch[t.q.image].s.media, l)
    requires r.landed && t.q.image < |d.ch| && r in d'.ch[t.q.image].s.raw ==> r in d.ch[t.q.image].s.raw
    ensures LandedOk(d', t, r)
  {
    hide Recover;
    assert LandedOk(d, t, r);
  }

  /* ---- a driver deals with a piece ---- */

  /** The driver of the image deals with the piece of ticket i by plan p, and gives out
      tickets ts for what it and those below it keep. */
  function Dealt(d: Stack, i: nat, p: T.Plan, ts: seq<Ticket>): Stack
    requires i < |d.tickets| && d.tickets[i].q.v in d.reqs
  {
    var q := d.tickets[i].q;
    d.(reqs := d.reqs[q.v := T.Deliver(EnvOf(d, q.v), d.reqs[q.v], q.image, q.sec, p)],
       tickets := ChainTickets.Without(d.tickets, i) + ts)
  }

  /** Ticket i can be dealt with by plan p. */
  ghost predicate Deals(d: Stack, i: nat, p: T.Plan, ts: seq<Ticket>) {
    i < |d.tickets| && var q := d.tickets[i].q;
    && q.v in d.reqs && T.Length(p) == q.secs && T.Fits(Sizes(d.ch), q.image, q.sec, p)
    && (q.v in d.steady && q.v in d.seen ==> T.Honest(d.seen[q.v], Sizes(d.ch), q.image, q.sec, p))
    && HeldPieces(ts) == T.Pieces(Sizes(d.ch), q.v, q.image, q.sec, p)
  }

  lemma {:induction false} DealtHeld(d: Stack, i: nat, p: T.Plan, ts: seq<Ticket>)
    requires Deals(d, i, p, ts)
    ensures var q := d.tickets[i].q;
            HeldPieces(Dealt(d, i, p, ts).tickets) ==
              T.Without(HeldPieces(d.tickets), i) + T.Pieces(Sizes(d.ch), q.v, q.image, q.sec, p)
  {
  }

  /** The virtual disk's accounts and buffers after a deal. */
  lemma DealtAccounts(d: Stack, i: nat, p: T.Plan, ts: seq<Ticket>)
    requires Deals(d, i, p, ts) && Guests(d)
    ensures var d' := Dealt(d, i, p, ts);
            && V.AllAtRest(d'.reqs, HeldPieces(d'.tickets)) && V.PiecesOk(Sizes(d.ch), d'.reqs, HeldPieces(d'.tickets))
            && V.AllFilled(d.seen, Sizes(d.ch), d'.reqs.Keys - d.steady, d'.reqs, HeldPieces(d'.tickets))
  {
    hide V.AllAtRest;
    hide V.PiecesOk;
    hide V.AllFilled;
    hide T.Deliver;
    hide T.Pieces;
    hide T.Honest;
    hide T.Fits;
    hide T.Length;
    hide SteadyOk;
    hide AllLandedOk;
    hide AllPartOf;
    var (q, held) := (d.tickets[i].q, HeldPieces(d.tickets));
    var env := EnvOf(d, q.v);
    DealtHeld(d, i, p, ts);
    V.ResumeQuiet(env, d.reqs, held, i, p);
    V.AllFilledAfterResume(env, d.seen, d.reqs.Keys - d.steady, d.reqs, held, i, p);
    assert Dealt(d, i, p, ts).reqs.Keys == d.reqs.Keys;
  }

  lemma DealtParts(d: Stack, i: nat, p: T.Plan, ts: seq<Ticket>)
    requires Deals(d, i, p, ts) && AllPartOf(d.reqs, HeldPieces(d.tickets))
    requires V.PiecesOk(Sizes(d.ch), d.reqs, HeldPieces(d.tickets))
    ensures var d' := Dealt(d, i, p, ts); AllPartOf(d'.reqs, HeldPieces(d'.tickets))
  {
    hide T.Deliver;
    hide T.Pieces;
    hide T.Honest;
    hide T.Fits;
    hide T.Total;
    hide T.Length;
    var (q, d') := (d.tickets[i].q, Dealt(d, i, p, ts));
    var ps := T.Pieces(Sizes(d.ch), q.v, q.image, q.sec, p);
    DealtHeld(d, i, p, ts);
    T.DeliverSame(EnvOf(d, q.v), d.reqs[q.v], q.image, q.sec, p);
    assert HeldPieces(d.tickets)[i] == q && q in HeldPieces(d.tickets);
    T.PiecesOf(Sizes(d.ch), q.v, q.image, q.sec, p, q.v);
    forall x | x in HeldPieces(d'.tickets) ensures PartOf(d'.reqs, x) {
      if x in ps {
        assert PartOf(d.reqs, q);
        forall l: nat | T.Covers(x, l) ensures Of(d'.reqs[q.v], l) {
          if !T.Covers(q, l) { T.PiecesWithin(Sizes(d.ch), q.v, q.image, q.sec, p, l); }
        }
      } else {
        assert x in HeldPieces(d.tickets) && PartOf(d.reqs, x);
      }
    }
  }

  predicate DataKept(d: Stack, d': Stack, w: nat, l: nat) {
    w in d.data && l in d.data[w] ==> w in d'.data && l in d'.data[w] && d'.data[w][l] == d.data[w][l]
  }

  /** Sectors outside the piece keep what they have; so do other requests. */
  lemma DealtElsewhere(d: Stack, i: nat, p: T.Plan, ts: seq<Ticket>, d': Stack, w: nat, l: nat)
    requires Deals(d, i, p, ts) && d' == Dealt(d, i, p, ts).(data := d'.data) && w in d.reqs
    requires ContentOk(d, w, l) && !(w == d.tickets[i].q.v && T.Covers(d.tickets[i].q, l))
    requires d.tickets[i].q.image < |d.ch|
    requires DataKept(d, d', w, l)
    ensures ContentOk(d', w, l)
  {
    hide T.Deliver;
    hide T.Pieces;
    hide T.Honest;
    hide T.Fits;
    hide T.Length;
    hide Copy;
    var (q, held) := (d.tickets[i].q, HeldPieces(d.tickets));
    DealtHeld(d, i, p, ts);
    if T.Awaited(held, w, l) {
      var x :| x in held && x.v == w && T.Covers(x, l);
      assert held == held[..i] + [q] + held[i + 1..];
      assert x in T.Without(held, i);
      assert x in HeldPieces(d'.tickets);
    }
    if w == q.v { T.DeliverKeeps(EnvOf(d, w), d.reqs[w], q.image, q.sec, p, l); }
  }

  lemma {:induction false} NothingZero(sizes: seq<nat>, image: nat, l: nat)
    ensures T.SourceOf(NOTHING, sizes, image, l) == T.Zero
    decreases |sizes| - image
  {
    if image + 1 < |sizes| && l < sizes[image + 1] { NothingZero(sizes, image + 1, l); }
  }

  /** Sectors of the piece fail, are awaited again, or are zeroed, if nothing is completed. */
  lemma {:induction false} DealtHere(d: Stack, i: nat, p: T.Plan, ts: seq<Ticket>, l: nat)
    requires Deals(d, i, p, ts) && T.Covers(d.tickets[i].q, l) && d.tickets[i].q.image < |d.ch|
    requires var q := d.tickets[i].q; T.Honest(NOTHING, Sizes(d.ch), q.image, q.sec, p)
    ensures ContentOk(Dealt(d, i, p, ts), d.tickets[i].q.v, l)
  {
    hide T.Deliver;
    hide T.Pieces;
    hide T.Honest;
    hide T.Fits;
    hide T.Length;
    var q := d.tickets[i].q;
    var (r', ps) := (T.Deliver(EnvOf(d, q.v), d.reqs[q.v], q.image, q.sec, p),
                     T.Pieces(Sizes(d.ch), q.v, q.image, q.sec, p));
    T.DeliverFills(EnvOf(d, q.v), NOTHING, d.reqs[q.v], q.v, q.image, q.sec, p, l);
    NothingZero(Sizes(d.ch), q.image, l);
    DealtHeld(d, i, p, ts);
    assert T.Right(NOTHING, Sizes(d.ch), r', ps, q.v, q.image, l);
    if T.Awaited(ps, q.v, l) {
      var x :| x in ps && x.v == q.v && T.Covers(x, l);
      assert x in HeldPieces(Dealt(d, i, p, ts).tickets);
    }
  }

  /** A deal that leaves the sectors of the piece right keeps all. */
  lemma DealtGuests(d: Stack, i: nat, p: T.Plan, ts: seq<Ticket>, d': Stack)
    requires Deals(d, i, p, ts) && d' == Dealt(d, i, p, ts).(data := d'.data)
    requires forall w, l: nat :: !(w == d.tickets[i].q.v && T.Covers(d.tickets[i].q, l)) ==> DataKept(d, d', w, l)
    requires forall l: nat :: T.Covers(d.tickets[i].q, l) && d.tickets[i].q.v in d.steady ==>
               ContentOk(d', d.tickets[i].q.v, l)
    requires forall t, r :: t in ts ==> LandedOk(d', t, r)
    requires Guests(d)
    ensures Guests(d')
  {
    hide T.Deliver;
    hide T.Total;
    hide V.AllAtRest;
    hide V.AllFilled;
    hide ContentOk;
    hide Recover;
    hide Still;
    hide T.Honest;
    hide T.Fits;
    hide T.Length;
    hide T.Pieces;
    var q := d.tickets[i].q;
    DealtAccounts(d, i, p, ts);
    DealtParts(d, i, p, ts);
    assert q == HeldPieces(d.tickets)[i] && q in HeldPieces(d.tickets);
    T.DeliverSame(EnvOf(d, q.v), d.reqs[q.v], q.image, q.sec, p);
    forall w | w in d'.steady ensures SteadyOk(d', w) {
      assert SteadyOk(d, w);
      forall l: nat | Of(d'.reqs[w], l) ensures SteadyAt(d', w, l) {
        assert SteadyAt(d, w, l);
        if !(w == q.v && T.Covers(q, l)) { DealtElsewhere(d, i, p, ts, d', w, l); }
      }
    }
    forall t, r | t in d'.tickets ensures LandedOk(d', t, r) {
      if t !in ts { assert t in d.tickets && LandedOk(d, t, r); }
    }
  }

  /** The data that a completed read of the file has brought. */
  function Store(d: Stack, v: nat, sec: nat, got: seq<Sector>): Stack {
    var m := if v in d.data then d.data[v] else map[];
    d.(data := d.data[v := m + map l | sec <= l < sec + |got| && T.Within(l, sec, |got|) :: got[l - sec]])
  }

  /** The image has completed the piece, and given what it has. */
  lemma CompletedGuests(d: Stack, i: nat, p: T.Plan, got: seq<Sector>)
    requires Deals(d, i, p, []) && p == T.Done(d.tickets[i].q.secs, 0, T.End) && |got| == p.n
    requires d.tickets[i].q.image < |d.ch|
    requires var q := d.tickets[i].q;
             q.v in d.steady ==> forall x :: 0 <= x < q.secs ==> Copy(d.ch[q.image], q.sec + x, got[x])
    requires Guests(d)
    ensures var q := d.tickets[i].q; Guests(Store(Dealt(d, i, p, []), q.v, q.sec, got))
  {
    hide Guests;
    hide Copy;
    hide T.Settle;
    var q := d.tickets[i].q;
    var d' := Store(Dealt(d, i, p, []), q.v, q.sec, got);
    forall l: nat | T.Covers(q, l) && q.v in d.steady ensures ContentOk(d', q.v, l) {
      assert got[l - q.sec] == d'.data[q.v][l] && Copy(d.ch[q.image], q.sec + (l - q.sec), got[l - q.sec]);
      CompletedBuf(EnvOf(d, q.v), d.reqs[q.v], q.image, q.sec, q.secs, l);
    }
    hide ContentOk;
    hide T.Deliver;
    hide Deals;
    DealtGuests(d, i, p, [], d');
  }

  lemma {:induction false} CompletedBuf(env: T.Env, r: T.VReq, image: nat, sec: nat, n: nat, l: nat)
    requires sec <= l < sec + n
    ensures var r' := T.Deliver(env, r, image, sec, T.Done(n, 0, T.End));
            l in r'.buf && r'.buf[l] == T.From(image)
  {
  }

  /** The driver has failed, forwarded or kept the sectors of the piece. */
  lemma {:induction false} ServedGuests(d: Stack, i: nat, p: T.Plan, ts: seq<Ticket>)
    requires Deals(d, i, p, ts) && d.tickets[i].q.image < |d.ch|
    requires var q := d.tickets[i].q; T.Honest(NOTHING, Sizes(d.ch), q.image, q.sec, p)
    requires forall t, r :: t in ts ==> LandedOk(d, t, r)
    requires Guests(d)
    ensures Guests(Dealt(d, i, p, ts))
  {
    hide Guests;
    hide LandedOk;
    var q := d.tickets[i].q;
    forall l: nat | T.Covers(q, l) ensures ContentOk(Dealt(d, i, p, ts), q.v, l) { DealtHere(d, i, p, ts, l); }
    forall t, r | t in ts ensures LandedOk(Dealt(d, i, p, ts), t, r) { LandedSame(d, Dealt(d, i, p, ts), t, r); }
    hide ContentOk;
    hide T.Deliver;
    hide Deals;
    DealtGuests(d, i, p, ts, Dealt(d, i, p, ts));
  }

  lemma LandedSame(d: Stack, d': Stack, t: Ticket, r: Req)
    requires LandedOk(d, t, r) && d'.ch == d.ch && d'.steady == d.steady
    ensures LandedOk(d', t, r)
  {
  }

  /* ---- reads of the chain disturb nothing ---- */

  /** Image x's driver has got no write of sector l, and no read has landed. */
  ghost predicate Leaves(ch: Chain, ch': Chain, x: nat, l: nat)
    requires x < |ch| == |ch'|
  {
    (Still(ch[x].s, l) ==> Still(ch'[x].s, l)) && NoneLanded(ch[x].s, ch'[x].s)
  }

  lemma LeavesTrans(a: Chain, b: Chain, d: Chain, x: nat, l: nat)
    requires x < |a| == |b| == |d| && Leaves(a, b, x, l) && Leaves(b, d, x, l)
    ensures Leaves(a, d, x, l)
  {
    hide Still;
  }

  lemma LeavesSet(ch: Chain, j: nat, t: Vhd, x: nat, l: nat)
    requires j < |ch| && x < |ch| && (Still(ch[j].s, l) ==> Still(t, l)) && NoneLanded(ch[j].s, t)
    ensures Leaves(ch, SetState(ch, j, t), x, l)
  {
    hide Still;
  }

  lemma {:induction false} ServeLeaves(ch: Chain, ready: bool, j: nat, wid: nat, sec: nat, n: nat, x: nat, l: nat)
    requires j < |ch| && x < |ch|
    ensures Leaves(ch, ServeRead(ch, ready, j, wid, sec, n).0, x, l)
    decreases |ch| - j, n
  {
    hide Still;
    hide Leaves;
    hide ReadTurn;
    hide Forwards;
    hide AskBelow;
    var s := ch[j].s;
    if n == 0 {
      LeavesSet(ch, j, s, x, l);
      assert SetState(ch, j, s) == ch;
    } else {
      var (t, k, err) := ReadTurn(ch[j].c, s, wid, sec, n);
      if Still(s, l) { TurnStill(ch[j].c, s, false, wid, sec, n, l); }
      ReadTurnNone(ch[j].c, s, wid, sec, n);
      LeavesSet(ch, j, t, x, l);
      var ch1 := SetState(ch, j, t);
      var ch' := ServeRead(ch, ready, j, wid, sec, n).0;
      if err != 0 {
        var t1 := Emit(t, VhdTypes.Done(false, wid, sec, n, err));
        if Still(t, l) { SameStill(t, t1, l); }
        LeavesSet(ch1, j, t1, x, l);
        assert SetState(ch1, j, t1) == ch';
        LeavesTrans(ch, ch1, ch', x, l);
      } else if Forwards(ch[j].c, s, sec) {
        var ch2 := AskBelow(ch1, ready, j, sec, k).0;
        BelowLeaves(ch1, ready, j, sec, k, x, l);
        ServeLeaves(ch2, ready, j, wid, sec + k, n - k, x, l);
        LeavesTrans(ch, ch1, ch2, x, l);
        LeavesTrans(ch, ch2, ch', x, l);
      } else {
        ServeLeaves(ch1, ready, j, wid, sec + k, n - k, x, l);
        LeavesTrans(ch, ch1, ch', x, l);
      }
    }
  }

  lemma {:induction false} BelowLeaves(ch: Chain, ready: bool, j: nat, sec: nat, n: nat, x: nat, l: nat)
    requires j < |ch| && x < |ch|
    ensures Leaves(ch, AskBelow(ch, ready, j, sec, n).0, x, l)
    decreases |ch| - j, 0
  {
    hide Still;
    if ready && j + 1 < |ch| {
      var m := T.Cut(sec, n, ch[j + 1].size);
      if m > 0 { AskLeaves(ch, ready, j + 1, sec, m, x, l); }
    }
  }

  lemma {:induction false} AskLeaves(ch: Chain, ready: bool, j: nat, sec: nat, n: nat, x: nat, l: nat)
    requires j < |ch| && x < |ch|
    ensures Leaves(ch, Ask(ch, ready, j, sec, n).0, x, l)
    decreases |ch| - j, n + 1
  {
    hide Still;
    hide Leaves;
    hide ServeRead;
    var s := ch[j].s;
    var s1 := Emit(s, Issue(false, sec, n));
    if Still(s, l) { SameStill(s, s1, l); }
    LeavesSet(ch, j, s1, x, l);
    ServeLeaves(SetState(ch, j, s1), ready, j, |s.log|, sec, n, x, l);
    LeavesTrans(ch, SetState(ch, j, s1), Ask(ch, ready, j, sec, n).0, x, l);
  }

  lemma {:induction false} PiecesLeave(ch: Chain, ready: bool, r: T.VReq, k: nat, x: nat, l: nat)
    requires |ch| > 0 && x < |ch| && k <= |r.iov|
    ensures Leaves(ch, PiecePlans(ch, ready, r, k).0, x, l)
    decreases k
  {
    hide Still;
    hide Ask;
    hide T.Total;
    if k > 0 {
      PiecesLeave(ch, ready, r, k - 1, x, l);
      var ch1 := PiecePlans(ch, ready, r, k - 1).0;
      var sec, n := r.sec + T.Total(r.iov[..k - 1]), r.iov[k - 1];
      if n > 0 { AskLeaves(ch1, ready, 0, sec, n, x, l); }
      LeavesTrans(ch, ch1, PiecePlans(ch, ready, r, k).0, x, l);
    }
  }

  /** The chain has only been read. */
  lemma ReadMoves(d: Stack, d': Stack)
    requires Guests(d) && d' == d.(ch := d'.ch) && AllRead(d.ch, d'.ch)
    requires forall x, l: nat {:trigger Leaves(d.ch, d'.ch, x, l)} :: 0 <= x < |d.ch| ==> Leaves(d.ch, d'.ch, x, l)
    ensures Guests(d')
  {
    hide Guests;
    hide Still;
    hide Recover;
    hide LandedOk;
    SizesSame(d.ch, d'.ch);
    forall x | 0 <= x < |d.ch| ensures d'.ch[x].c == d.ch[x].c && d'.ch[x].s.media == d.ch[x].s.media {
      assert Alike(d.ch[x], d'.ch[x]);
    }
    forall v, l: nat | v in d'.steady && v in d.reqs && Of(d.reqs[v], l) ensures Undisturbed(d.ch, d'.ch, l) {
      forall x | 0 <= x < |d.ch| && StillAt(d.ch, l) ensures Still(d'.ch[x].s, l) {
        assert Leaves(d.ch, d'.ch, x, l);
      }
    }
    forall t, r | t in d.tickets ensures LandedOk(d', t, r) {
      if t.q.image < |d.ch| { assert Leaves(d.ch, d'.ch, t.q.image, 0); }
      LandedKept(d, d', t, r);
    }
    ChainMoves(d, d');
  }

  /* ---- new tickets ---- */

  /** What the driver of an image already held it has no new ticket for. */
  lemma {:induction false} NewTicket(ch: Chain, ch': Chain, ts: seq<Ticket>, t: Ticket, r: Req)
    requires |ch'| == |ch| && t in ts && t.q.image < |ch| && t.q.secs > 0
    requires r in ch[t.q.image].s.raw && r.op == OpRead
    requires var (x, k) := (t.q.image, Key(r.wid, r.sec, r.secs));
             ReadsAt(ch', x, k) == ReadsAt(ch, x, k) + Drawn(ts, x, k) && AtMost(ch'[x].c, ch'[x].s)
    ensures !For(t, t.q.image, Key(r.wid, r.sec, r.secs))
  {
    hide AtMost;
    var (x, k) := (t.q.image, Key(r.wid, r.sec, r.secs));
    if For(t, x, k) {
      CountHas(ch[x].s.raw, r, k);
      DrawnIn(ts, t, x, k);
      ReadsOnce(ch'[x].c, ch'[x].s, k);
    }
  }

  lemma {:induction false} DrawnIn(ts: seq<Ticket>, t: Ticket, j: nat, k: Key)
    requires t in ts && For(t, j, k)
    ensures Drawn(ts, j, k) > 0
  {
    if t != ts[|ts| - 1] { DrawnIn(ts[..|ts| - 1], t, j, k); }
  }
}
