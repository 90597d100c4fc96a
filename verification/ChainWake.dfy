/** A driver has read a bitmap: the requests that waited for it are served again, one after
    another, reads with the help of the images below. */
module ChainWake {
  import opened VhdTypes
  import opened VhdEngine
  import opened VhdInvariants
  import opened VhdStructure
  import opened VhdSafety
  import opened VhdAccounting
  import opened VhdDisk
  import opened VhdServing
  import opened VhdTracking
  import opened VhdTheorems
  import opened VhdReads
  import VhdLanding
  import opened VhdMoments
  import opened VhdStill
  import opened VhdChain
  import opened VhdTickets
  import opened ChainTickets
  import opened ChainStack
  import opened ChainSteps
  import T = TapdiskVbd

  function KeyOf(r: Req): Key { Key(r.wid, r.sec, r.secs) }

  /** The chain with one request of image j's pool free again. */
  function Freed(ch: Chain, j: nat): Chain
    requires j < |ch|
  {
    SetState(ch, j, ch[j].s.(free := ch[j].s.free + 1))
  }

  /** What becomes of one request that has waited. */
  ghost function WakeOne(d: Stack, j: nat, err: int, ready: bool, r: Req): (d': Stack)
    requires j < |d.ch|
    ensures |d'.ch| == |d.ch|
  {
    var ch1 := Freed(d.ch, j);
    if err != 0 then
      if r.op == OpRead && IsHeld(d, j, KeyOf(r)) then
        Dealt(d, Find(d, j, KeyOf(r)), T.Done(r.secs, err, T.End), [])
      else d
    else if r.op != OpRead then
      d.(ch := SetState(ch1, j, Serve(ch1[j].c, ch1[j].s, true, r.wid, r.sec, r.secs)))
    else
      var (ch2, p) := ServeRead(ch1, ready, j, r.wid, r.sec, r.secs);
      if IsHeld(d, j, KeyOf(r)) then
        var i := Find(d, j, KeyOf(r));
        Dealt(d, i, p, ServeTickets(ch1, ready, d.tickets[i].q.v, j, r.wid, r.sec, r.secs)).(ch := ch2)
      else d.(ch := ch2)
  }

  /** After the first i of the requests that waited at block b of image j. */
  ghost function WakeTo(d: Stack, j: nat, b: nat, err: int, ready: seq<bool>, i: nat): (d': Stack)
    requires j < |d.ch| && b in d.ch[j].s.cache && i <= |d.ch[j].s.cache[b].waiting| == |ready|
    ensures |d'.ch| == |d.ch|
    decreases i
  {
    var (c, s) := (d.ch[j].c, d.ch[j].s);
    if i == 0 then
      d.(ch := SetState(d.ch, j, if err == 0 then BitmapLoaded(c, s, b) else FinishBitmapRead(c, s, b, err)))
    else WakeOne(WakeTo(d, j, b, err, ready, i - 1), j, err, ready[i - 1], s.cache[b].waiting[i - 1])
  }

  /** finish_bitmap_read at image j. */
  ghost function Awoken(d: Stack, j: nat, b: nat, err: int, ready: seq<bool>): Stack
    requires j < |d.ch| && b in d.ch[j].s.cache && |d.ch[j].s.cache[b].waiting| == |ready|
  {
    var x := WakeTo(d, j, b, err, ready, |ready|);
    if err == 0 then x.(ch := SetState(x.ch, j, UnlockCached(x.ch[j].s, b))) else x
  }

  /* ---- what is kept in between ---- */

  ghost predicate Waking(d: Stack, j: nat, b: nat, pool: nat) {
    && StackOk(d) && j < |d.ch| && b in d.ch[j].s.cache && d.ch[j].s.cache[b].reading
    && var im := d.ch[j];
       Structure(im.c, im.s, pool) && Accounts(im.c, im.s) && OnDisk(im.c, im.s)
  }

  /** The state of image j's driver after i requests. */
  ghost function MidState(d: Stack, j: nat, b: nat, err: int, i: nat): Vhd
    requires j < |d.ch| && b in d.ch[j].s.cache && i <= |d.ch[j].s.cache[b].waiting|
  {
    var (c, s) := (d.ch[j].c, d.ch[j].s);
    if err == 0 then Replay(c, BitmapLoaded(c, s, b), s.cache[b].waiting[..i]) else FinishBitmapRead(c, s, b, err)
  }

  /** The requests that are still to come are held, besides what is on the lists. */
  ghost predicate MidReads(x: Stack, j: nat, rs: seq<Req>) {
    forall y, k {:trigger Drawn(x.tickets, y, k)} :: 0 <= y < |x.ch| ==>
      ReadsAt(x.ch, y, k) + (if y == j then Count(rs, k) else 0) == Drawn(x.tickets, y, k)
  }

  /** No write among the requests is of a sector of a steady read. */
  ghost predicate MidSpares(x: Stack, rs: seq<Req>) {
    forall v, l: nat :: v in x.steady && v in x.reqs && Of(x.reqs[v], l) ==> Spares(rs, l)
  }

  ghost predicate SameFile(im: Image, im': Image) { im'.c == im.c && im'.s.media == im.s.media }

  ghost predicate Mid(d: Stack, x: Stack, j: nat, b: nat, err: int, i: nat)
    requires j < |d.ch| && b in d.ch[j].s.cache && i <= |d.ch[j].s.cache[b].waiting|
  {
    && |x.ch| == |d.ch| && Sizes(x.ch) == Sizes(d.ch) && x.ch[j].c == d.ch[j].c
    && (forall y :: 0 <= y < |x.ch| && y != j ==> Sound(x.ch[y]) && SameFile(d.ch[y], x.ch[y]))
    && x.ch[j].s == MidState(d, j, b, err, i)
    && Guests(x) && MidReads(x, j, d.ch[j].s.cache[b].waiting[i..])
    && MidSpares(x, d.ch[j].s.cache[b].waiting)
  }

  /* ---- the bitmap is there, or not ---- */

  /** The driver of image j goes on without a read landing, or a write of a sector that is
      still, or a change of what can be recovered of one. */
  lemma ImageMoves(d: Stack, j: nat, t: Vhd)
    requires Guests(d) && j < |d.ch| && NoneLanded(d.ch[j].s, t)
    requires forall v, l: nat :: v in d.steady && v in d.reqs && Of(d.reqs[v], l) && Still(d.ch[j].s, l) ==>
               Still(t, l) && Recover(d.ch[j].c, t.media, l) == Recover(d.ch[j].c, d.ch[j].s.media, l)
    ensures Guests(d.(ch := SetState(d.ch, j, t)))
  {
    hide Guests;
    hide Still;
    hide Recover;
    hide LandedOk;
    var d' := d.(ch := SetState(d.ch, j, t));
    SizesSet(d.ch, j, t);
    forall v, l: nat | v in d.steady && v in d.reqs && Of(d.reqs[v], l) ensures Undisturbed(d.ch, d'.ch, l) {
    }
    forall tk, r | tk in d.tickets ensures LandedOk(d', tk, r) {
      if tk.q.v in d.steady { TicketStill(d, tk); }
      if tk.q.v in d.steady && tk.q.image < |d.ch| && r in d'.ch[tk.q.image].s.raw && r.landed && r.op == OpRead &&
         For(tk, tk.q.image, KeyOf(r)) {
        forall l: nat | r.sec <= l < r.sec + r.secs
          ensures Recover(d'.ch[tk.q.image].c, d'.ch[tk.q.image].s.media, l) ==
                    Recover(d.ch[tk.q.image].c, d.ch[tk.q.image].s.media, l)
        {
          assert T.Covers(tk.q, l) && StillAt(d.ch, l);
        }
        LandedKept(d, d', tk, r);
      } else {
        NotLanded(d', tk, r);
      }
    }
    SteadyIn(d);
    ChainMoves(d, d');
  }

  lemma NotLanded(d: Stack, t: Ticket, r: Req)
    requires !(t.q.v in d.steady && t.q.image < |d.ch| && r in d.ch[t.q.image].s.raw && r.landed && r.op == OpRead &&
                For(t, t.q.image, KeyOf(r)))
    ensures LandedOk(d, t, r)
  {
  }

  /** All that waits at a block is of the block. */
  lemma {:induction false} WaitingCount(c: Config, s: Vhd, b: nat, k: Key, pool: nat)
    requires b in s.cache && Structure(c, s, pool)
    ensures k.sec / c.spb != b ==> Count(s.cache[b].waiting, k) == 0
  {
    assert BlockOk(c, s, b);
    var rs := s.cache[b].waiting;
    assert forall r :: r in rs ==> WaitingOk(c, b, r);
    if k.sec / c.spb != b { NoneIs(rs, k); }
  }

  lemma {:induction false} NoneIs(rs: seq<Req>, k: Key)
    requires forall r :: r in rs ==> !Is(r, k)
    ensures Count(rs, k) == 0
  {
    if rs != [] { NoneIs(rs[..|rs| - 1], k); }
  }

  /** The requests that waited are off the driver's lists. */
  lemma {:induction false} MidStart(c: Config, s: Vhd, b: nat, err: int, k: Key, l: nat, pool: nat)
    requires b in s.cache && s.cache[b].reading && Structure(c, s, pool)
    ensures var t := if err == 0 then BitmapLoaded(c, s, b) else FinishBitmapRead(c, s, b, err);
            && Reads(c, t, k) + Count(s.cache[b].waiting, k) == Reads(c, s, k)
            && t.media == s.media && t.raw == s.raw && (Still(s, l) ==> Still(t, l))
  {
    hide Replay;
    WaitingCount(c, s, b, k, pool);
    hide Structure;
    var t := if err == 0 then BitmapLoaded(c, s, b) else FinishBitmapRead(c, s, b, err);
    assert forall x :: x != b ==> WaitingOf(t, x) == WaitingOf(s, x);
    if Still(s, l) { BmSparesOf(s, b, l); }
  }

  lemma BmSparesOf(s: Vhd, b: nat, l: nat)
    requires Still(s, l) && b in s.cache
    ensures Spares(s.cache[b].tx.reqs, l) && Spares(s.cache[b].queue, l) && Spares(s.cache[b].waiting, l)
  {
  }

  lemma StartReads(d: Stack, x: Stack, j: nat, b: nat, err: int, pool: nat)
    requires Waking(d, j, b, pool)
    requires var (c, s) := (d.ch[j].c, d.ch[j].s);
             var t := if err == 0 then BitmapLoaded(c, s, b) else FinishBitmapRead(c, s, b, err);
             x == d.(ch := SetState(d.ch, j, t))
    ensures MidReads(x, j, d.ch[j].s.cache[b].waiting) && MidSpares(x, d.ch[j].s.cache[b].waiting)
  {
    hide Structure;
    hide Accounts;
    hide OnDisk;
    hide Guests;
    hide Sound;
    hide Still;
    hide Spares;
    hide BitmapLoaded;
    hide FinishBitmapRead;
    var (c, s) := (d.ch[j].c, d.ch[j].s);
    var rs := s.cache[b].waiting;
    forall y, k {:trigger Drawn(x.tickets, y, k)} | 0 <= y < |x.ch|
      ensures ReadsAt(x.ch, y, k) + (if y == j then Count(rs, k) else 0) == Drawn(x.tickets, y, k)
    {
      assert Drawn(d.tickets, y, k) == ReadsAt(d.ch, y, k);
      MidStart(c, s, b, err, k, 0, pool);
    }
    forall v, l: nat | v in x.steady && v in x.reqs && Of(x.reqs[v], l) ensures Spares(rs, l) {
      SteadyStill(d, v, l);
      BmSparesOf(s, b, l);
    }
  }

  lemma StartMoves(d: Stack, j: nat, b: nat, err: int, t: Vhd, pool: nat)
    requires Waking(d, j, b, pool)
    requires var (c, s) := (d.ch[j].c, d.ch[j].s);
             t == if err == 0 then BitmapLoaded(c, s, b) else FinishBitmapRead(c, s, b, err)
    ensures Guests(d.(ch := SetState(d.ch, j, t)))
  {
    hide Structure;
    hide Accounts;
    hide OnDisk;
    hide Guests;
    hide Sound;
    hide Recover;
    hide Still;
    hide BitmapLoaded;
    hide FinishBitmapRead;
    var (c, s) := (d.ch[j].c, d.ch[j].s);
    MidStart(c, s, b, err, Key(0, 0, 0), 0, pool);
    SameNone(s, t);
    forall v, l: nat | v in d.steady && v in d.reqs && Of(d.reqs[v], l) && Still(s, l)
      ensures Still(t, l) && Recover(c, t.media, l) == Recover(c, s.media, l)
    {
      MidStart(c, s, b, err, Key(0, 0, 0), l, pool);
    }
    ImageMoves(d, j, t);
  }

  lemma {:induction false} WakeStart(d: Stack, j: nat, b: nat, err: int, ready: seq<bool>, pool: nat)
    requires Waking(d, j, b, pool) && |d.ch[j].s.cache[b].waiting| == |ready|
    ensures Mid(d, WakeTo(d, j, b, err, ready, 0), j, b, err, 0)
  {
    hide Structure;
    hide Accounts;
    hide OnDisk;
    hide Guests;
    hide Sound;
    hide MidReads;
    hide MidSpares;
    hide BitmapLoaded;
    hide FinishBitmapRead;
    var (c, s) := (d.ch[j].c, d.ch[j].s);
    var t := if err == 0 then BitmapLoaded(c, s, b) else FinishBitmapRead(c, s, b, err);
    assert s.cache[b].waiting[..0] == [] && s.cache[b].waiting[0..] == s.cache[b].waiting;
    SizesSet(d.ch, j, t);
    StartMoves(d, j, b, err, t, pool);
    StartReads(d, WakeTo(d, j, b, err, ready, 0), j, b, err, pool);
  }

  lemma SteadyStill(d: Stack, v: nat, l: nat)
    requires Guests(d) && v in d.steady && v in d.reqs && Of(d.reqs[v], l)
    ensures StillAt(d.ch, l)
  {
    assert SteadyOk(d, v) && SteadyAt(d, v, l);
  }

  /* ---- one request after another ---- */

  lemma {:induction false} MidNext(rs: seq<Req>, i: nat, k: Key)
    requires i < |rs|
    ensures Count(rs[i..], k) == Count(rs[i + 1..], k) + if Is(rs[i], k) then 1 else 0
  {
    CountAdd([rs[i]], rs[i + 1..], k);
    CountOne(rs[i], k);
    assert rs[i..] == [rs[i]] + rs[i + 1..];
  }

  /** A read that is still to come has a ticket. */
  lemma ComingHeld(d: Stack, x: Stack, j: nat, b: nat, err: int, i: nat)
    requires j < |d.ch| && b in d.ch[j].s.cache && i < |d.ch[j].s.cache[b].waiting| && Mid(d, x, j, b, err, i)
    requires d.ch[j].s.cache[b].waiting[i].op == OpRead
    ensures IsHeld(x, j, KeyOf(d.ch[j].s.cache[b].waiting[i]))
  {
    hide Guests;
    hide Sound;
    hide MidState;
    var rs := d.ch[j].s.cache[b].waiting;
    var k := KeyOf(rs[i]);
    MidNext(rs, i, k);
    assert Drawn(x.tickets, j, k) == ReadsAt(x.ch, j, k) + Count(rs[i..], k);
    HeldIs(x, j, k);
  }

  /** The tickets after the read's own has been dealt with. */
  lemma {:induction false} MidDrawn(x: Stack, x': Stack, j: nat, rs: seq<Req>, i: nat, n: nat, ts: seq<Ticket>)
    requires i < |rs| && rs[i].op == OpRead && MidReads(x, j, rs[i..]) && |x'.ch| == |x.ch|
    requires n < |x.tickets| && For(x.tickets[n], j, KeyOf(rs[i]))
    requires x'.tickets == ChainTickets.Without(x.tickets, n) + ts
    requires forall y, k {:trigger Drawn(ts, y, k)} :: 0 <= y < |x.ch| ==>
               ReadsAt(x'.ch, y, k) == ReadsAt(x.ch, y, k) + Drawn(ts, y, k)
    ensures MidReads(x', j, rs[i + 1..])
  {
    hide ReadsAt;
    forall y, k {:trigger Drawn(x'.tickets, y, k)} | 0 <= y < |x'.ch|
      ensures ReadsAt(x'.ch, y, k) + (if y == j then Count(rs[i + 1..], k) else 0) == Drawn(x'.tickets, y, k)
    {
      assert Drawn(x.tickets, y, k) == ReadsAt(x.ch, y, k) + (if y == j then Count(rs[i..], k) else 0);
      MidNext(rs, i, k);
      DrawnWithout(x.tickets, n, y, k);
      DrawnAdd(ChainTickets.Without(x.tickets, n), ts, y, k);
      assert ReadsAt(x'.ch, y, k) == ReadsAt(x.ch, y, k) + Drawn(ts, y, k);
    }
  }

  lemma DealtSpares(x: Stack, n: nat, p: T.Plan, ts: seq<Ticket>, x': Stack, rs: seq<Req>)
    requires n < |x.tickets| && x.tickets[n].q.v in x.reqs && MidSpares(x, rs)
    requires x' == Dealt(x, n, p, ts).(ch := x'.ch)
    ensures MidSpares(x', rs)
  {
    hide T.Deliver;
    hide Spares;
    hide T.Total;
    var q := x.tickets[n].q;
    T.DeliverSame(EnvOf(x, q.v), x.reqs[q.v], q.image, q.sec, p);
  }

  /** The bitmap could not be read: the request fails. */
  lemma WakeFail(d: Stack, x: Stack, j: nat, b: nat, err: int, ready: bool, i: nat)
    requires j < |d.ch| && b in d.ch[j].s.cache && i < |d.ch[j].s.cache[b].waiting| && Mid(d, x, j, b, err, i)
    requires err != 0 && d.ch[j].s.cache[b].waiting[i].secs > 0
    ensures Mid(d, WakeOne(x, j, err, ready, d.ch[j].s.cache[b].waiting[i]), j, b, err, i + 1)
  {
    hide Guests;
    hide Sound;
    hide MidReads;
    hide MidSpares;
    hide Dealt;
    var rs := d.ch[j].s.cache[b].waiting;
    var r := rs[i];
    if r.op == OpRead {
      ComingHeld(d, x, j, b, err, i);
      var n := Find(x, j, KeyOf(r));
      var p := T.Done(r.secs, err, T.End);
      FailedHonest(Sizes(x.ch), j, r.sec, r.secs, err);
      FailDeals(x, n, r.secs, err);
      ServedGuests(x, n, p, []);
      DealtChain(x, n, p, []);
      DealtSpares(x, n, p, [], Dealt(x, n, p, []), rs);
      MidDrawn(x, Dealt(x, n, p, []), j, rs, i, n, []);
    } else {
      SkipReads(x, j, rs, i);
    }
  }

  lemma DealtChain(x: Stack, n: nat, p: T.Plan, ts: seq<Ticket>)
    requires n < |x.tickets| && x.tickets[n].q.v in x.reqs
    ensures var x' := Dealt(x, n, p, ts);
            x'.ch == x.ch && x'.steady == x.steady && x'.tickets == ChainTickets.Without(x.tickets, n) + ts
  {
  }

  lemma SkipReads(x: Stack, j: nat, rs: seq<Req>, i: nat)
    requires i < |rs| && rs[i].op != OpRead && MidReads(x, j, rs[i..])
    ensures MidReads(x, j, rs[i + 1..])
  {
    hide ReadsAt;
    forall y, k {:trigger Drawn(x.tickets, y, k)} | 0 <= y < |x.ch|
      ensures ReadsAt(x.ch, y, k) + (if y == j then Count(rs[i + 1..], k) else 0) == Drawn(x.tickets, y, k)
    {
      assert Drawn(x.tickets, y, k) == ReadsAt(x.ch, y, k) + (if y == j then Count(rs[i..], k) else 0);
      MidNext(rs, i, k);
    }
  }

  lemma FailDeals(x: Stack, n: nat, secs: nat, err: int)
    requires n < |x.tickets| && x.tickets[n].q.v in x.reqs && x.tickets[n].q.secs == secs > 0 && err != 0
    ensures Deals(x, n, T.Done(secs, err, T.End), [])
  {
    var p := T.Done(secs, err, T.End);
    assert T.Pieces(Sizes(x.ch), x.tickets[n].q.v, x.tickets[n].q.image, x.tickets[n].q.sec, p) == [];
    assert T.Fits(Sizes(x.ch), x.tickets[n].q.image, x.tickets[n].q.sec, p);
  }

  /** Image j's driver just before request i is served again. */
  lemma {:induction false} WokenOk(c: Config, s: Vhd, b: nat, i: nat, pool: nat)
    requires b in s.cache && s.cache[b].reading && i < |s.cache[b].waiting|
    requires Structure(c, s, pool) && Accounts(c, s) && OnDisk(c, s)
    ensures var (u, n) := (Woken(c, s, b, i), WokenPool(s, b, i, pool));
            Structure(c, u, n) && OnDisk(c, u) && AtMost(c, u)
    ensures AtMost(c, Replay(c, BitmapLoaded(c, s, b), s.cache[b].waiting[..i + 1]))
  {
    hide Structure;
    hide Accounts;
    hide OnDisk;
    hide AtMost;
    hide Pending;
    hide BitmapLoaded;
    hide Replay;
    WokenAt(c, s, b, i, pool);
    WokenAt(c, s, b, i + 1, pool);
    var rs := s.cache[b].waiting;
    var (u, u1) := (Replay(c, BitmapLoaded(c, s, b), rs[..i]), Replay(c, BitmapLoaded(c, s, b), rs[..i + 1]));
    FreeOk(c, u, pool - |rs| + i);
    VhdLanding.PoolsD(c, u, u.(free := u.free + 1));
    PendingAtMost(c, u, u.(free := u.free + 1), rs[i..]);
    PendingAtMost(c, u1, u1, rs[i + 1..]);
  }

  lemma PendingAtMost(c: Config, s: Vhd, t: Vhd, rs: seq<Req>)
    requires Pending(c, s, rs) && t == s.(free := t.free)
    ensures AtMost(c, t)
  {
    forall w: nat, l: nat ensures VhdAccounting.Total(c, t, w, l) <= if Issued(t.log, w, l) then 1 else 0 {
      assert VhdAccounting.Total(c, s, w, l) + CountReqs(rs, w, l) <= if Issued(s.log, w, l) then 1 else 0;
    }
  }

  /** A write that waited is served. */
  lemma WakeWrite(d: Stack, x: Stack, j: nat, b: nat, ready: bool, i: nat, pool: nat)
    requires Waking(d, j, b, pool) && i < |d.ch[j].s.cache[b].waiting| && Mid(d, x, j, b, 0, i)
    requires d.ch[j].s.cache[b].waiting[i].op == OpWrite
    ensures Mid(d, WakeOne(x, j, 0, ready, d.ch[j].s.cache[b].waiting[i]), j, b, 0, i + 1)
  {
    hide Structure;
    hide Accounts;
    hide OnDisk;
    hide StackOk;
    hide Guests;
    hide Sound;
    hide Still;
    hide Recover;
    hide Serve;
    hide Replay;
    hide MidReads;
    hide MidSpares;
    hide BitmapLoaded;
    var (c, s) := (d.ch[j].c, d.ch[j].s);
    var rs := s.cache[b].waiting;
    var (r, u) := (rs[i], Woken(c, s, b, i));
    WokenOk(c, s, b, i, pool);
    ReplayStep(c, BitmapLoaded(c, s, b), rs, i);
    var t := Serve(c, u, true, r.wid, r.sec, r.secs);
    SizesSet(x.ch, j, t);
    WriteMoves(x, j, u, r, t, rs, WokenPool(s, b, i, pool));
    WriteReads(x, j, u, r, t, rs, i, WokenPool(s, b, i, pool));
    assert SetState(Freed(x.ch, j), j, t) == SetState(x.ch, j, t);
    MidSparesSame(x, x.(ch := SetState(x.ch, j, t)), rs);
  }

  lemma MidSparesSame(x: Stack, x': Stack, rs: seq<Req>)
    requires MidSpares(x, rs) && x'.reqs == x.reqs && x'.steady == x.steady
    ensures MidSpares(x', rs)
  {
  }

  lemma {:induction false} WriteMoves(x: Stack, j: nat, u: Vhd, r: Req, t: Vhd, rs: seq<Req>, pool: nat)
    requires j < |x.ch| && u == x.ch[j].s.(free := u.free) && r in rs && r.op == OpWrite && MidSpares(x, rs)
    requires var c := x.ch[j].c;
             t == Serve(c, u, true, r.wid, r.sec, r.secs) && Structure(c, u, pool) && OnDisk(c, u)
    requires Guests(x)
    ensures Guests(x.(ch := SetState(x.ch, j, t)))
  {
    hide Guests;
    hide Structure;
    hide OnDisk;
    hide Tracked;
    hide Serve;
    hide Still;
    hide Recover;
    hide SameFiles;
    var c := x.ch[j].c;
    OnDiskTracked(c, u, pool);
    ServeFiles(c, u, true, r.wid, r.sec, r.secs, pool);
    ServeNone(c, u, true, r.wid, r.sec, r.secs);
    SameNone(x.ch[j].s, u);
    NoneTrans(x.ch[j].s, u, t);
    forall v, l: nat | v in x.steady && v in x.reqs && Of(x.reqs[v], l) && Still(x.ch[j].s, l)
      ensures Still(t, l) && Recover(c, t.media, l) == Recover(c, x.ch[j].s.media, l)
    {
      SameStill(x.ch[j].s, u, l);
      assert Spares(rs, l) && !Has(r, l);
      ServeStill(c, u, true, r.wid, r.sec, r.secs, l);
      FilesRecover(c, u.media, t.media, l);
    }
    ImageMoves(x, j, t);
  }

  lemma {:induction false} WriteReads(x: Stack, j: nat, u: Vhd, r: Req, t: Vhd, rs: seq<Req>, i: nat, pool: nat)
    requires j < |x.ch| && u == x.ch[j].s.(free := u.free) && i < |rs| && r == rs[i] && r.op == OpWrite
    requires t == Serve(x.ch[j].c, u, true, r.wid, r.sec, r.secs) && Structure(x.ch[j].c, u, pool)
    requires MidReads(x, j, rs[i..])
    ensures MidReads(x.(ch := SetState(x.ch, j, t)), j, rs[i + 1..])
  {
    hide Structure;
    hide Serve;
    hide SameHeld;
    WriteHeld(x.ch[j].c, u, r.wid, r.sec, r.secs, pool);
    SkipReads(x, j, rs, i);
    var x' := x.(ch := SetState(x.ch, j, t));
    forall y, k {:trigger Drawn(x'.tickets, y, k)} | 0 <= y < |x'.ch|
      ensures ReadsAt(x'.ch, y, k) + (if y == j then Count(rs[i + 1..], k) else 0) == Drawn(x'.tickets, y, k)
    {
      assert Drawn(x.tickets, y, k) == ReadsAt(x.ch, y, k) + (if y == j then Count(rs[i + 1..], k) else 0);
      HeldReads(x.ch[j].c, u, t, k);
    }
  }

  /** Image j's driver serves the read again, with the images below: the chain before. */
  ghost predicate Rouses(
        d: Stack, x: Stack, j: nat, b: nat, ready: bool, i: nat, n: nat, ch2: Chain, p: T.Plan, ts: seq<Ticket>)
    requires j < |d.ch| && b in d.ch[j].s.cache && i < |d.ch[j].s.cache[b].waiting| && |x.ch| == |d.ch|
  {
    var r := d.ch[j].s.cache[b].waiting[i];
    var ch1 := Freed(x.ch, j);
    && n < |x.tickets| && For(x.tickets[n], j, KeyOf(r)) && x.tickets[n].q.v in x.reqs && r.op == OpRead
    && (ch2, p) == ServeRead(ch1, ready, j, r.wid, r.sec, r.secs)
    && ts == ServeTickets(ch1, ready, x.tickets[n].q.v, j, r.wid, r.sec, r.secs)
  }

  /** The sectors of a steady read's piece are still in all images: the chain is fair. */
  lemma RouseFair(x: Stack, j: nat, t: Ticket, pool: nat)
    requires Guests(x) && j < |x.ch| && t in x.tickets && t.q.v in x.steady
    requires forall y :: 0 <= y < |x.ch| && y != j ==> Sound(x.ch[y])
    requires var u := x.ch[j].s; Structure(x.ch[j].c, u.(free := u.free + 1), pool)
    ensures Fair(Freed(x.ch, j), HoldsOf(x.ch), j, t.q.sec, t.q.secs)
  {
    hide Guests;
    hide Recover;
    hide Structure;
    hide Accounts;
    hide OnDisk;
    hide Still;
    hide Unwritten;
    var ch1 := Freed(x.ch, j);
    TicketStill(x, t);
    forall y, l: nat | j <= y < |ch1| && t.q.sec <= l < t.q.sec + t.q.secs ensures Unwritten(ch1[y].c, ch1[y].s, l) {
      assert T.Covers(t.q, l) && StillAt(x.ch, l);
      if y == j {
        SameStill(x.ch[j].s, ch1[j].s, l);
        StillUnwritten(ch1[j].c, ch1[j].s, l, pool);
      } else {
        assert Sound(x.ch[y]);
        var m: nat :| Structure(ch1[y].c, ch1[y].s, m) && Accounts(ch1[y].c, ch1[y].s) && OnDisk(ch1[y].c, ch1[y].s);
        StillUnwritten(ch1[y].c, ch1[y].s, l, m);
      }
    }
  }

  /** The chain as WokenServed has it. */
  lemma SetTwice(ch: Chain, j: nat, s: Vhd, t: Vhd)
    requires j < |ch|
    ensures SetState(SetState(ch, j, s), j, t) == SetState(ch, j, t)
  {
  }

  lemma RouseServed(d: Stack, x: Stack, j: nat, b: nat, ready: bool, i: nat, n: nat, ch2: Chain, p: T.Plan,
          ts: seq<Ticket>, pool: nat)
    requires Waking(d, j, b, pool) && i < |d.ch[j].s.cache[b].waiting| && Mid(d, x, j, b, 0, i)
    requires Rouses(d, x, j, b, ready, i, n, ch2, p, ts)
    ensures |ch2| == |x.ch| &&
            var r := d.ch[j].s.cache[b].waiting[i];
            Served(Freed(x.ch, j), ch2, HoldsOf(x.ch), Fair(Freed(x.ch, j), HoldsOf(x.ch), j, r.sec, r.secs), j,
                   r.wid, r.sec, r.secs, p)
    ensures ch2[j].s == MidState(d, j, b, 0, i + 1)
    ensures forall y :: 0 <= y < |ch2| ==> AtMost(ch2[y].c, ch2[y].s)
    ensures forall y :: 0 <= y < |ch2| && y != j ==> Sound(ch2[y])
  {
    hide Structure;
    hide Accounts;
    hide OnDisk;
    hide AtMost;
    hide StackOk;
    hide Guests;
    hide Sound;
    hide Fair;
    hide HonestIf;
    hide OnlyRead;
    hide AllHeld;
    hide Events;
    hide T.Fits;
    hide T.Length;
    hide Serve;
    hide Replay;
    hide ServeRead;
    hide MidReads;
    hide MidSpares;
    hide BitmapLoaded;
    var (c, s) := (d.ch[j].c, d.ch[j].s);
    var ch0 := SetState(x.ch, j, s);
    SetTwice(x.ch, j, s, Woken(c, s, b, i));
    WokenServed(ch0, ready, j, b, i, HoldsOf(x.ch), pool);
    WokenOk(c, s, b, i, pool);
    forall y | 0 <= y < |ch2| ensures AtMost(ch2[y].c, ch2[y].s) && (y != j ==> Sound(ch2[y])) {
      assert Alike(Freed(x.ch, j)[y], ch2[y]);
      if y != j { SoundAtMost(ch2[y]); }
    }
  }

  lemma {:induction false} RouseDeals(d: Stack, x: Stack, j: nat, b: nat, ready: bool, i: nat, n: nat, ch2: Chain,
          p: T.Plan,
          ts: seq<Ticket>, pool: nat)
    requires Waking(d, j, b, pool) && i < |d.ch[j].s.cache[b].waiting| && Mid(d, x, j, b, 0, i)
    requires Rouses(d, x, j, b, ready, i, n, ch2, p, ts)
    ensures Deals(x, n, p, ts) && T.Honest(NOTHING, Sizes(x.ch), j, x.tickets[n].q.sec, p)
    ensures x.tickets[n].q.image == j
  {
    hide Structure;
    hide Accounts;
    hide OnDisk;
    hide AtMost;
    hide StackOk;
    hide Guests;
    hide Sound;
    hide Fair;
    hide OnlyRead;
    hide AllHeld;
    hide Events;
    hide T.Fits;
    hide T.Honest;
    hide T.Length;
    hide T.Pieces;
    hide Serve;
    hide Replay;
    hide ServeRead;
    hide ServeTickets;
    hide MidReads;
    hide MidSpares;
    hide BitmapLoaded;
    var (t, ch1) := (x.tickets[n], Freed(x.ch, j));
    assert t in x.tickets;
    RouseServed(d, x, j, b, ready, i, n, ch2, p, ts, pool);
    SizesSet(x.ch, j, ch1[j].s);
    if t.q.v in x.steady {
      WokenOk(d.ch[j].c, d.ch[j].s, b, i, pool);
      RouseFair(x, j, t, WokenPool(d.ch[j].s, b, i, pool));
      HonestSince(x, t, Sizes(x.ch), p);
    }
    ServeTicketsHeld(ch1, ready, t.q.v, j, t.wid, t.q.sec, t.q.secs, Sizes(x.ch));
  }

  lemma {:induction false} RouseDraws(d: Stack, x: Stack, j: nat, b: nat, ready: bool, i: nat, n: nat, ch2: Chain,
          p: T.Plan,
          ts: seq<Ticket>, pool: nat, y: nat, k: Key)
    requires Waking(d, j, b, pool) && i < |d.ch[j].s.cache[b].waiting| && Mid(d, x, j, b, 0, i)
    requires Rouses(d, x, j, b, ready, i, n, ch2, p, ts) && y < |x.ch|
    ensures |ch2| == |x.ch| && ReadsAt(ch2, y, k) == ReadsAt(x.ch, y, k) + Drawn(ts, y, k)
  {
    hide Structure;
    hide Accounts;
    hide OnDisk;
    hide StackOk;
    hide Guests;
    hide Sound;
    hide Serving;
    hide Replay;
    hide ServeRead;
    hide ServeTickets;
    hide MidReads;
    hide MidSpares;
    hide BitmapLoaded;
    var (c, s) := (d.ch[j].c, d.ch[j].s);
    var (r, ch1) := (s.cache[b].waiting[i], Freed(x.ch, j));
    WokenServing(c, s, b, i, pool);
    ServeDraws(ch1, ready, x.tickets[n].q.v, j, r.wid, r.sec, r.secs, s.cache[b].waiting[i + 1..],
      WokenPool(s, b, i, pool), y, k);
  }

  lemma RouseNew(d: Stack, x: Stack, j: nat, b: nat, ready: bool, i: nat, n: nat, ch2: Chain, p: T.Plan,
          ts: seq<Ticket>, pool: nat, t: Ticket, r: Req)
    requires Waking(d, j, b, pool) && i < |d.ch[j].s.cache[b].waiting| && Mid(d, x, j, b, 0, i)
    requires Rouses(d, x, j, b, ready, i, n, ch2, p, ts) && t in ts
    ensures LandedOk(x, t, r)
  {
    hide Structure;
    hide Accounts;
    hide OnDisk;
    hide AtMost;
    hide StackOk;
    hide Guests;
    hide Sound;
    hide Served;
    hide Rouses;
    hide MidReads;
    hide MidSpares;
    hide MidState;
    if t.q.image < |x.ch| && r in x.ch[t.q.image].s.raw && r.op == OpRead {
      RouseServed(d, x, j, b, ready, i, n, ch2, p, ts, pool);
      RouseDeals(d, x, j, b, ready, i, n, ch2, p, ts, pool);
      RouseDraws(d, x, j, b, ready, i, n, ch2, p, ts, pool, t.q.image, KeyOf(r));
      TicketPositive(x, n, p, ts, t);
      NewTicket(x.ch, ch2, ts, t, r);
    }
  }

  lemma TicketPositive(x: Stack, n: nat, p: T.Plan, ts: seq<Ticket>, t: Ticket)
    requires Deals(x, n, p, ts) && t in ts && x.tickets[n].q.image < |x.ch|
    ensures t.q.secs > 0
  {
    hide T.Fits;
    hide T.Honest;
    hide T.Length;
    var q := x.tickets[n].q;
    T.PiecesOf(Sizes(x.ch), q.v, q.image, q.sec, p, q.v);
    hide T.Pieces;
    var i :| 0 <= i < |ts| && ts[i] == t;
    assert HeldPieces(ts)[i] == t.q;
    assert t.q in HeldPieces(ts);
  }

  /** Serving the read again, the chain has only been read. */
  lemma RouseLeaves(d: Stack, x: Stack, j: nat, b: nat, ready: bool, i: nat, n: nat, ch2: Chain, p: T.Plan,
          ts: seq<Ticket>, y: nat, l: nat)
    requires j < |d.ch| && b in d.ch[j].s.cache && i < |d.ch[j].s.cache[b].waiting| && |x.ch| == |d.ch|
    requires Rouses(d, x, j, b, ready, i, n, ch2, p, ts) && y < |x.ch|
    ensures |ch2| == |x.ch| && Leaves(x.ch, ch2, y, l)
  {
    hide Still;
    hide Leaves;
    hide ServeRead;
    hide ServeTickets;
    var (r, ch1) := (d.ch[j].s.cache[b].waiting[i], Freed(x.ch, j));
    var u := x.ch[j].s.(free := x.ch[j].s.free + 1);
    if Still(x.ch[j].s, l) { SameStill(x.ch[j].s, u, l); }
    SameNone(x.ch[j].s, u);
    LeavesSet(x.ch, j, u, y, l);
    ServeLeaves(ch1, ready, j, r.wid, r.sec, r.secs, y, l);
    LeavesTrans(x.ch, ch1, ch2, y, l);
  }

  /** A read that waited is served again. */
  lemma WakeRead(d: Stack, x: Stack, j: nat, b: nat, ready: bool, i: nat, pool: nat)
    requires Waking(d, j, b, pool) && i < |d.ch[j].s.cache[b].waiting| && Mid(d, x, j, b, 0, i)
    requires d.ch[j].s.cache[b].waiting[i].op == OpRead
    ensures Mid(d, WakeOne(x, j, 0, ready, d.ch[j].s.cache[b].waiting[i]), j, b, 0, i + 1)
  {
    hide Structure;
    hide Accounts;
    hide OnDisk;
    hide AtMost;
    hide StackOk;
    hide Guests;
    hide Sound;
    hide Deals;
    hide Dealt;
    hide MidReads;
    hide MidSpares;
    hide MidState;
    hide LandedOk;
    hide Leaves;
    hide Served;
    hide OnlyRead;
    hide ServeRead;
    hide ServeTickets;
    var rs := d.ch[j].s.cache[b].waiting;
    var (r, ch1) := (rs[i], Freed(x.ch, j));
    ComingHeld(d, x, j, b, 0, i);
    var n := Find(x, j, KeyOf(r));
    var (ch2, p) := ServeRead(ch1, ready, j, r.wid, r.sec, r.secs);
    var ts := ServeTickets(ch1, ready, x.tickets[n].q.v, j, r.wid, r.sec, r.secs);
    var d1 := Dealt(x, n, p, ts);
    RouseServed(d, x, j, b, ready, i, n, ch2, p, ts, pool);
    RouseDeals(d, x, j, b, ready, i, n, ch2, p, ts, pool);
    forall t, q | t in ts ensures LandedOk(x, t, q) { RouseNew(d, x, j, b, ready, i, n, ch2, p, ts, pool, t, q); }
    ServedGuests(x, n, p, ts);
    DealtChain(x, n, p, ts);
    forall y, l: nat {:trigger Leaves(x.ch, ch2, y, l)} | 0 <= y < |x.ch| ensures Leaves(x.ch, ch2, y, l) {
      RouseLeaves(d, x, j, b, ready, i, n, ch2, p, ts, y, l);
    }
    RouseReads(x, j, ch2, HoldsOf(x.ch), Fair(ch1, HoldsOf(x.ch), j, r.sec, r.secs), r.wid, r.sec, r.secs, p);
    ReadMoves(d1, d1.(ch := ch2));
    DealtSpares(x, n, p, ts, d1.(ch := ch2), rs);
    forall y, k {:trigger Drawn(ts, y, k)} | 0 <= y < |x.ch|
      ensures ReadsAt(ch2, y, k) == ReadsAt(x.ch, y, k) + Drawn(ts, y, k)
    {
      RouseDraws(d, x, j, b, ready, i, n, ch2, p, ts, pool, y, k);
    }
    MidDrawn(x, d1.(ch := ch2), j, rs, i, n, ts);
    SizesSame(x.ch, ch2);
    forall y | 0 <= y < |x.ch| ensures SameFile(x.ch[y], ch2[y]) { AlikeFile(x.ch[y], ch2[y]); }
  }

  lemma AlikeFile(im: Image, im': Image)
    requires Alike(im, im')
    ensures SameFile(im, im')
  {
  }

  lemma RouseReads(x: Stack, j: nat, ch2: Chain, has: T.Holds, fair: bool, wid: nat, sec: nat, n: nat, p: T.Plan)
    requires j < |x.ch| == |ch2| && Served(Freed(x.ch, j), ch2, has, fair, j, wid, sec, n, p)
    ensures AllRead(x.ch, ch2)
  {
    hide OnlyRead;
    var u := x.ch[j].s.(free := x.ch[j].s.free + 1);
    SameReads(x.ch[j].s, u);
    SetStateRead(x.ch, j, u);
    AllReadTrans(x.ch, Freed(x.ch, j), ch2);
  }

  /* ---- all of them ---- */

  lemma WaiterShape(c: Config, s: Vhd, b: nat, i: nat, pool: nat)
    requires b in s.cache && i < |s.cache[b].waiting| && Structure(c, s, pool)
    ensures var r := s.cache[b].waiting[i]; r.secs > 0 && (r.op == OpRead || r.op == OpWrite)
  {
    assert BlockOk(c, s, b) && s.cache[b].waiting[i] in s.cache[b].waiting;
  }

  lemma {:induction false} WakeAll(d: Stack, j: nat, b: nat, err: int, ready: seq<bool>, i: nat, pool: nat)
    requires Waking(d, j, b, pool) && i <= |d.ch[j].s.cache[b].waiting| == |ready|
    ensures Mid(d, WakeTo(d, j, b, err, ready, i), j, b, err, i)
    decreases i
  {
    hide Mid;
    hide WakeOne;
    hide Structure;
    hide Accounts;
    hide OnDisk;
    hide StackOk;
    if i == 0 {
      WakeStart(d, j, b, err, ready, pool);
    } else {
      WakeAll(d, j, b, err, ready, i - 1, pool);
      var x := WakeTo(d, j, b, err, ready, i - 1);
      WakeNext(d, x, j, b, err, ready[i - 1], i - 1, pool);
    }
  }

  lemma WakeNext(d: Stack, x: Stack, j: nat, b: nat, err: int, ready: bool, i: nat, pool: nat)
    requires Waking(d, j, b, pool) && i < |d.ch[j].s.cache[b].waiting| && Mid(d, x, j, b, err, i)
    ensures |x.ch| == |d.ch| && Mid(d, WakeOne(x, j, err, ready, d.ch[j].s.cache[b].waiting[i]), j, b, err, i + 1)
  {
    hide Guests;
    hide Sound;
    hide MidReads;
    hide MidSpares;
    hide MidState;
    hide WakeOne;
    hide Structure;
    hide Accounts;
    hide OnDisk;
    hide StackOk;
    WaiterShape(d.ch[j].c, d.ch[j].s, b, i, pool);
    var r := d.ch[j].s.cache[b].waiting[i];
    if err != 0 {
      WakeFail(d, x, j, b, err, ready, i);
    } else if r.op == OpRead {
      WakeRead(d, x, j, b, ready, i, pool);
    } else {
      WakeWrite(d, x, j, b, ready, i, pool);
    }
  }

  lemma UnlockRest(s: Vhd, b: nat, l: nat)
    ensures var t := UnlockCached(s, b);
            t.raw == s.raw && t.media == s.media && (forall x :: WaitingOf(t, x) == WaitingOf(s, x)) &&
            (Still(s, l) ==> Still(t, l))
  {
    if Still(s, l) { UnlockStill(s, b, l); }
  }

  lemma UnlockGuests(x: Stack, j: nat, b: nat)
    requires Guests(x) && j < |x.ch|
    ensures Guests(x.(ch := SetState(x.ch, j, UnlockCached(x.ch[j].s, b))))
  {
    hide Guests;
    hide Still;
    hide Recover;
    hide UnlockCached;
    var t := UnlockCached(x.ch[j].s, b);
    UnlockRest(x.ch[j].s, b, 0);
    SameNone(x.ch[j].s, t);
    forall v, l: nat | v in x.steady && v in x.reqs && Of(x.reqs[v], l) && Still(x.ch[j].s, l)
      ensures Still(t, l) && Recover(x.ch[j].c, t.media, l) == Recover(x.ch[j].c, x.ch[j].s.media, l)
    {
      UnlockRest(x.ch[j].s, b, l);
    }
    ImageMoves(x, j, t);
  }

  /** In the end image j's driver is where its step leads. */
  lemma {:induction false} AwokenState(d: Stack, j: nat, b: nat, err: int, ready: seq<bool>)
    requires j < |d.ch| && Enabled(d.ch[j].s, DoneBitmapRead(b, err)) && |d.ch[j].s.cache[b].waiting| == |ready|
    requires var x := WakeTo(d, j, b, err, ready, |ready|);
             x.ch[j].s == MidState(d, j, b, err, |ready|) && x.ch[j].c == d.ch[j].c
    ensures Awoken(d, j, b, err, ready).ch[j].s == Next(d.ch[j].c, d.ch[j].s, DoneBitmapRead(b, err))
  {
    hide BitmapLoaded;
    hide Replay;
    hide UnlockCached;
    hide WakeTo;
    assert d.ch[j].s.cache[b].waiting[..|ready|] == d.ch[j].s.cache[b].waiting;
  }

  lemma AwokenHeld(s: Vhd, c: Config, b: nat, k: Key)
    ensures Reads(c, UnlockCached(s, b), k) == Reads(c, s, k)
  {
    hide UnlockCached;
    hide SameHeld;
    UnlockRest(s, b, 0);
    HeldSame(s, UnlockCached(s, b));
    HeldReads(c, s, UnlockCached(s, b), k);
  }

  lemma {:induction false} MidEnd(x: Stack, j: nat, rs: seq<Req>, y: nat, k: Key)
    requires MidReads(x, j, rs[|rs|..]) && y < |x.ch|
    ensures ReadsAt(x.ch, y, k) == Drawn(x.tickets, y, k)
  {
    hide ReadsAt;
    assert Drawn(x.tickets, y, k) == ReadsAt(x.ch, y, k) + (if y == j then Count(rs[|rs|..], k) else 0);
  }

  /** A bitmap that has been read, or not, leaves all in order. */
  lemma AwokenOk(d: Stack, j: nat, b: nat, err: int, ready: seq<bool>)
    requires StackOk(d) && j < |d.ch| && Enabled(d.ch[j].s, DoneBitmapRead(b, err))
    requires |d.ch[j].s.cache[b].waiting| == |ready|
    ensures StackOk(Awoken(d, j, b, err, ready))
    ensures var ch' := Awoken(d, j, b, err, ready).ch;
            && |ch'| == |d.ch| && ch'[j] == d.ch[j].(s := Next(d.ch[j].c, d.ch[j].s, DoneBitmapRead(b, err)))
            && Sizes(ch') == Sizes(d.ch) && forall y :: 0 <= y < |d.ch| && y != j ==> SameFile(d.ch[y], ch'[y])
  {
    hide Structure;
    hide Accounts;
    hide OnDisk;
    hide Guests;
    hide Next;
    hide WakeTo;
    hide MidReads;
    hide MidSpares;
    hide MidState;
    hide UnlockCached;
    var im := d.ch[j];
    assert Sound(im);
    var pool: nat :| Structure(im.c, im.s, pool) && Accounts(im.c, im.s) && OnDisk(im.c, im.s);
    WakeAll(d, j, b, err, ready, |ready|, pool);
    var x := WakeTo(d, j, b, err, ready, |ready|);
    var d' := Awoken(d, j, b, err, ready);
    AwokenState(d, j, b, err, ready);
    StepSound(im, DoneBitmapRead(b, err));
    UnlockGuests(x, j, b);
    hide Sound;
    forall y, k {:trigger Drawn(d'.tickets, y, k)} | 0 <= y < |d'.ch|
      ensures ReadsAt(d'.ch, y, k) == Drawn(d'.tickets, y, k)
    {
      MidEnd(x, j, im.s.cache[b].waiting, y, k);
      AwokenHeld(x.ch[j].s, x.ch[j].c, b, k);
    }
  }
}
