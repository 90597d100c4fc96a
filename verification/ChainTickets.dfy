/** Which driver of a chain holds which pieces of a read: every piece that the virtual disk
    counts as held is one read on the lists of one driver, and the other way round. */
module ChainTickets {
  import opened VhdTypes
  import opened VhdEngine
  import opened VhdInvariants
  import opened VhdAccounting
  import opened VhdDisk
  import opened VhdServing
  import opened VhdChain
  import opened VhdTickets
  import T = TapdiskVbd
  import V = VirtualDisk

  /** A piece that is held, with the number that the image's driver has given its request. */
  datatype Ticket = Ticket(q: T.Piece, wid: nat)

  predicate For(t: Ticket, j: nat, k: Key) {
    t.q.image == j && t.wid == k.wid && t.q.sec == k.sec && t.q.secs == k.secs
  }

  /** How many tickets there are for read k at image j. */
  ghost function Drawn(ts: seq<Ticket>, j: nat, k: Key): nat {
    if ts == [] then 0 else Drawn(ts[..|ts| - 1], j, k) + if For(ts[|ts| - 1], j, k) then 1 else 0
  }

  function HeldPieces(ts: seq<Ticket>): (h: seq<T.Piece>)
    ensures |h| == |ts| && forall i :: 0 <= i < |ts| ==> h[i] == ts[i].q
  {
    seq(|ts|, i requires 0 <= i < |ts| => ts[i].q)
  }

  lemma {:induction false} DrawnAdd(a: seq<Ticket>, b: seq<Ticket>, j: nat, k: Key)
    ensures Drawn(a + b, j, k) == Drawn(a, j, k) + Drawn(b, j, k)
  {
    if b == [] {
      assert a + b == a;
    } else {
      DrawnAdd(a, b[..|b| - 1], j, k);
      assert (a + b)[..|a + b| - 1] == a + b[..|b| - 1];
    }
  }

  lemma {:induction false} DrawnOne(t: Ticket, j: nat, k: Key)
    ensures Drawn([t], j, k) == if For(t, j, k) then 1 else 0
  {
    assert [t][..0] == [];
  }

  function Without(ts: seq<Ticket>, i: nat): seq<Ticket>
    requires i < |ts|
  {
    ts[..i] + ts[i + 1..]
  }

  lemma {:induction false} DrawnWithout(ts: seq<Ticket>, i: nat, j: nat, k: Key)
    requires i < |ts|
    ensures Drawn(ts, j, k) == Drawn(Without(ts, i), j, k) + if For(ts[i], j, k) then 1 else 0
  {
    DrawnAdd(ts[..i], ts[i + 1..], j, k);
    DrawnAdd(ts[..i] + [ts[i]], ts[i + 1..], j, k);
    DrawnAdd(ts[..i], [ts[i]], j, k);
    DrawnOne(ts[i], j, k);
    assert ts == ts[..i] + [ts[i]] + ts[i + 1..];
  }

  lemma {:induction false} DrawnHas(ts: seq<Ticket>, j: nat, k: Key)
    requires Drawn(ts, j, k) > 0
    ensures exists i :: 0 <= i < |ts| && For(ts[i], j, k)
  {
    if !For(ts[|ts| - 1], j, k) {
      DrawnHas(ts[..|ts| - 1], j, k);
      var i :| 0 <= i < |ts| - 1 && For(ts[..|ts| - 1][i], j, k);
      assert For(ts[i], j, k);
    }
  }

  /* ---- the tickets of a read ---- */

  /** The tickets that image j's driver and those below it give out while they serve request
      wid, for request v of the virtual disk. */
  ghost function ServeTickets(ch: Chain, ready: bool, v: nat, j: nat, wid: nat, sec: nat, n: nat): seq<Ticket>
    requires j < |ch|
    decreases |ch| - j, n
  {
    if n == 0 then []
    else
      var (s1, k, err) := ReadTurn(ch[j].c, ch[j].s, wid, sec, n);
      var ch1 := SetState(ch, j, s1);
      if err != 0 then []
      else if Forwards(ch[j].c, ch[j].s, sec) then
        BelowTickets(ch1, ready, v, j, sec, k) +
        ServeTickets(AskBelow(ch1, ready, j, sec, k).0, ready, v, j, wid, sec + k, n - k)
      else [Ticket(T.Piece(v, j, sec, k), wid)] + ServeTickets(ch1, ready, v, j, wid, sec + k, n - k)
  }

  ghost function BelowTickets(ch: Chain, ready: bool, v: nat, j: nat, sec: nat, n: nat): seq<Ticket>
    requires j < |ch|
    decreases |ch| - j, 0
  {
    if !ready || j + 1 >= |ch| then []
    else
      var m := T.Cut(sec, n, ch[j + 1].size);
      if m == 0 then [] else AskTickets(ch, ready, v, j + 1, sec, m)
  }

  ghost function AskTickets(ch: Chain, ready: bool, v: nat, j: nat, sec: nat, n: nat): seq<Ticket>
    requires j < |ch|
    decreases |ch| - j, n + 1
  {
    var s := ch[j].s;
    ServeTickets(SetState(ch, j, Emit(s, Issue(false, sec, n))), ready, v, j, |s.log|, sec, n)
  }

  ghost function PieceTickets(ch: Chain, ready: bool, v: nat, sec: nat, n: nat): seq<Ticket>
    requires |ch| > 0
  {
    if n == 0 then [] else AskTickets(ch, ready, v, 0, sec, n)
  }

  /** The tickets for the first k pieces of request v. */
  ghost function PiecesTickets(ch: Chain, ready: bool, v: nat, r: T.VReq, k: nat): seq<Ticket>
    requires |ch| > 0 && k <= |r.iov|
  {
    if k == 0 then []
    else
      PiecesTickets(ch, ready, v, r, k - 1) +
      PieceTickets(PiecePlans(ch, ready, r, k - 1).0, ready, v, r.sec + T.Total(r.iov[..k - 1]), r.iov[k - 1])
  }

  /* ---- they are the pieces that the plan leaves with the drivers ---- */

  lemma HeldAdd(a: seq<Ticket>, b: seq<Ticket>)
    ensures HeldPieces(a + b) == HeldPieces(a) + HeldPieces(b)
  {
  }

  lemma {:induction false} ServeTicketsHeld(
        ch: Chain, ready: bool, v: nat, j: nat, wid: nat, sec: nat, n: nat, sizes: seq<nat>)
    requires j < |ch| == |sizes|
    ensures var p := ServeRead(ch, ready, j, wid, sec, n).1;
            HeldPieces(ServeTickets(ch, ready, v, j, wid, sec, n)) == T.Pieces(sizes, v, j, sec, p)
    decreases |ch| - j, n
  {
    hide ReadTurn;
    hide Forwards;
    hide AskBelow;
    hide BelowTickets;
    V.PiecesNext(sizes, v, j, sec, ServeRead(ch, ready, j, wid, sec, n).1);
    hide T.Pieces;
    if n > 0 {
      var (s1, k, err) := ReadTurn(ch[j].c, ch[j].s, wid, sec, n);
      var ch1 := SetState(ch, j, s1);
      if err == 0 {
        if Forwards(ch[j].c, ch[j].s, sec) {
          BelowTicketsHeld(ch1, ready, v, j, sec, k, sizes);
          var ch2 := AskBelow(ch1, ready, j, sec, k).0;
          ServeTicketsHeld(ch2, ready, v, j, wid, sec + k, n - k, sizes);
          HeldAdd(BelowTickets(ch1, ready, v, j, sec, k), ServeTickets(ch2, ready, v, j, wid, sec + k, n - k));
        } else {
          ServeTicketsHeld(ch1, ready, v, j, wid, sec + k, n - k, sizes);
          HeldAdd([Ticket(T.Piece(v, j, sec, k), wid)], ServeTickets(ch1, ready, v, j, wid, sec + k, n - k));
        }
      }
    }
  }

  lemma {:induction false} BelowTicketsHeld(
        ch: Chain, ready: bool, v: nat, j: nat, sec: nat, n: nat, sizes: seq<nat>)
    requires j < |ch| == |sizes|
    ensures var p := AskBelow(ch, ready, j, sec, n).1;
            HeldPieces(BelowTickets(ch, ready, v, j, sec, n)) ==
            if ready && j + 1 < |sizes| then T.Pieces(sizes, v, j + 1, sec, p) else []
    decreases |ch| - j, 0
  {
    if ready && j + 1 < |ch| {
      var m := T.Cut(sec, n, ch[j + 1].size);
      if m > 0 { AskTicketsHeld(ch, ready, v, j + 1, sec, m, sizes); }
    }
  }

  lemma {:induction false} AskTicketsHeld(ch: Chain, ready: bool, v: nat, j: nat, sec: nat, n: nat, sizes: seq<nat>)
    requires j < |ch| == |sizes|
    ensures HeldPieces(AskTickets(ch, ready, v, j, sec, n)) == T.Pieces(sizes, v, j, sec, Ask(ch, ready, j, sec, n).1)
    decreases |ch| - j, n + 1
  {
    var s := ch[j].s;
    ServeTicketsHeld(SetState(ch, j, Emit(s, Issue(false, sec, n))), ready, v, j, |s.log|, sec, n, sizes);
  }

  lemma {:induction false} PiecesTicketsHeld(ch: Chain, ready: bool, v: nat, r: T.VReq, k: nat, plans: seq<T.Plan>,
          sizes: seq<nat>)
    requires |ch| > 0 && k <= |r.iov| && |sizes| == |ch| && k <= |plans| && PiecePlans(ch, ready, r, k).1 == plans[..k]
    ensures HeldPieces(PiecesTickets(ch, ready, v, r, k)) == T.AllPieces(sizes, v, r, k, plans)
    decreases k
  {
    hide T.Total;
    hide Ask;
    hide AskTickets;
    if k > 0 {
      var (ch1, ps) := PiecePlans(ch, ready, r, k - 1);
      assert ps == plans[..k][..k - 1] == plans[..k - 1];
      PiecesTicketsHeld(ch, ready, v, r, k - 1, plans, sizes);
      var sec, n := r.sec + T.Total(r.iov[..k - 1]), r.iov[k - 1];
      if n > 0 { AskTicketsHeld(ch1, ready, v, 0, sec, n, sizes); }
      assert plans[k - 1] == PiecePlan(ch1, ready, sec, n).1;
      HeldAdd(PiecesTickets(ch, ready, v, r, k - 1), PieceTickets(ch1, ready, v, sec, n));
    }
  }

  /* ---- and they are the reads that the drivers hold ---- */

  ghost function ReadsAt(ch: Chain, x: nat, k: Key): nat
    requires x < |ch|
  {
    Reads(ch[x].c, ch[x].s, k)
  }

  lemma {:induction false} ServeDraws(ch: Chain, ready: bool, v: nat, j: nat, wid: nat, sec: nat, n: nat, rs: seq<Req>,
          pool: nat, x: nat, k: Key)
    requires j < |ch| && x < |ch| && SoundFrom(ch, j + 1) && Serving(ch[j].c, ch[j].s, wid, sec, n, rs, pool)
    ensures var (ch', p) := ServeRead(ch, ready, j, wid, sec, n);
            ReadsAt(ch', x, k) == ReadsAt(ch, x, k) + Drawn(ServeTickets(ch, ready, v, j, wid, sec, n), x, k)
    decreases |ch| - j, n
  {
    hide Serving;
    hide Sound;
    hide Forwards;
    hide ReadTurn;
    hide Reads;
    hide AskedBelow;
    hide AskBelow;
    hide BelowTickets;
    hide Fair;
    var (c, s) := (ch[j].c, ch[j].s);
    if n > 0 {
      var (t, m, err) := ReadTurn(c, s, wid, sec, n);
      ServingTurn(c, s, wid, sec, n, rs, pool, k);
      if err != 0 {
        EmitReads(c, t, Done(false, wid, sec, n, err), k);
      } else {
        var ch1 := SetState(ch, j, t);
        TurnServing(c, s, wid, sec, n, rs, pool);
        if Forwards(c, s, sec) {
          AskBelowOk(ch1, ready, j, sec, m, NOTHING);
          BelowDraws(ch1, ready, v, j, sec, m, x, k);
          var (ch2, inner) := AskBelow(ch1, ready, j, sec, m);
          AskedReads(ch1, ch2, ready, NOTHING, Fair(ch1, NOTHING, j + 1, sec, m), j, sec, m, inner);
          ServeDraws(ch2, ready, v, j, wid, sec + m, n - m, rs, pool, x, k);
          DrawnAdd(BelowTickets(ch1, ready, v, j, sec, m), ServeTickets(ch2, ready, v, j, wid, sec + m, n - m), x, k);
        } else {
          ServeDraws(ch1, ready, v, j, wid, sec + m, n - m, rs, pool, x, k);
          var first := Ticket(T.Piece(v, j, sec, m), wid);
          DrawnAdd([first], ServeTickets(ch1, ready, v, j, wid, sec + m, n - m), x, k);
          DrawnOne(first, x, k);
        }
      }
    }
  }

  lemma ServingTurn(c: Config, s: Vhd, wid: nat, sec: nat, n: nat, rs: seq<Req>, pool: nat, k: Key)
    requires 0 < n && Serving(c, s, wid, sec, n, rs, pool)
    ensures var (t, m, err) := ReadTurn(c, s, wid, sec, n);
            Reads(c, t, k) == Reads(c, s, k) +
              if err == 0 && !Forwards(c, s, sec) && k == Key(wid, sec, m) then 1 else 0
  {
    TurnReads(c, s, wid, sec, n, pool, k);
  }

  lemma {:induction false} BelowDraws(
        ch: Chain, ready: bool, v: nat, j: nat, sec: nat, n: nat, x: nat, k: Key)
    requires j < |ch| && x < |ch| && SoundFrom(ch, j + 1)
    ensures var ch' := AskBelow(ch, ready, j, sec, n).0;
            ReadsAt(ch', x, k) == ReadsAt(ch, x, k) + Drawn(BelowTickets(ch, ready, v, j, sec, n), x, k)
    decreases |ch| - j, 0
  {
    hide Sound;
    hide Reads;
    if ready && j + 1 < |ch| {
      var m := T.Cut(sec, n, ch[j + 1].size);
      if m > 0 { AskDraws(ch, ready, v, j + 1, sec, m, x, k); }
    }
  }

  lemma {:induction false} AskDraws(ch: Chain, ready: bool, v: nat, j: nat, sec: nat, n: nat, x: nat, k: Key)
    requires j < |ch| && x < |ch| && SoundFrom(ch, j)
    ensures var ch' := Ask(ch, ready, j, sec, n).0;
            ReadsAt(ch', x, k) == ReadsAt(ch, x, k) + Drawn(AskTickets(ch, ready, v, j, sec, n), x, k)
    decreases |ch| - j, n + 1
  {
    hide Structure;
    hide Accounts;
    hide OnDisk;
    hide InHand;
    hide Reads;
    var (c, s) := (ch[j].c, ch[j].s);
    assert Sound(ch[j]);
    var pool: nat :| Structure(c, s, pool) && Accounts(c, s) && OnDisk(c, s);
    RequestInHand(c, s, false, sec, n, pool);
    EmitReads(c, s, Issue(false, sec, n), k);
    ServeDraws(SetState(ch, j, Emit(s, Issue(false, sec, n))), ready, v, j, |s.log|, sec, n, [], pool, x, k);
  }

  lemma {:induction false} PieceDraws(ch: Chain, ready: bool, v: nat, sec: nat, n: nat, x: nat, k: Key)
    requires |ch| > 0 && x < |ch| && SoundFrom(ch, 0)
    ensures var ch' := PiecePlan(ch, ready, sec, n).0;
            |ch'| == |ch| && ReadsAt(ch', x, k) == ReadsAt(ch, x, k) + Drawn(PieceTickets(ch, ready, v, sec, n), x, k)
  {
    hide SoundFrom;
    hide ReadsAt;
    hide Ask;
    hide AskTickets;
    if n > 0 { AskDraws(ch, ready, v, 0, sec, n, x, k); }
  }

  lemma {:induction false} PiecesDraw(ch: Chain, ready: bool, v: nat, r: T.VReq, n: nat, x: nat, k: Key)
    requires |ch| > 0 && x < |ch| && n <= |r.iov| && SoundFrom(ch, 0)
    ensures var ch' := PiecePlans(ch, ready, r, n).0;
            ReadsAt(ch', x, k) == ReadsAt(ch, x, k) + Drawn(PiecesTickets(ch, ready, v, r, n), x, k)
    decreases n
  {
    hide SoundFrom;
    hide ReadsAt;
    hide T.Total;
    hide PiecePlan;
    hide PieceTickets;
    hide AllRead;
    hide PlanAt;
    hide Fair;
    hide Drawn;
    if n > 0 {
      PiecesDraw(ch, ready, v, r, n - 1, x, k);
      PiecesAnswered(ch, ready, r, n - 1, NOTHING);
      var ch1 := PiecePlans(ch, ready, r, n - 1).0;
      var sec, m := r.sec + T.Total(r.iov[..n - 1]), r.iov[n - 1];
      PieceDraws(ch1, ready, v, sec, m, x, k);
      DrawnAdd(PiecesTickets(ch, ready, v, r, n - 1), PieceTickets(ch1, ready, v, sec, m), x, k);
    } else {
      DrawnNone(x, k);
    }
  }

  lemma {:induction false} DrawnNone(x: nat, k: Key)
    ensures Drawn([], x, k) == 0
  {
  }
}
