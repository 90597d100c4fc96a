/** A sector that an image holds can be read: some run of the virtual disk completes a read of
    it without error, with the data. */
module ChainStored {
  import opened VhdTypes
  import opened VhdEngine
  import opened VhdTurns
  import opened VhdTheorems
  import opened VhdStill
  import opened VhdChain
  import opened VhdTickets
  import opened ChainTickets
  import opened ChainStack
  import opened ChainSteps
  import opened ChainWake
  import opened ChainRun
  import T = TapdiskVbd

  ghost predicate Takes(d: Stack, a: Act, d': Stack) { |d.ch| > 0 && CanAct(d, a) && d' == Acted(d, a) }

  /** The driver keeps a read of one sector that it does not know to be missing. */
  lemma {:induction false} ServeHeld(ch: Chain, v: nat, wid: nat, sec: nat)
    requires |ch| == 1 && !Missing(ch[0].c, ch[0].s, sec) && ReadRefusal(ch[0].c, ch[0].s, sec) == 0
    ensures var t := ReadTurn(ch[0].c, ch[0].s, wid, sec, 1).0;
            && ReadDone(ch[0].c, ch[0].s, t, wid, sec, 1) && FileSame(ch[0].s, t)
            && ServeRead(ch, true, 0, wid, sec, 1) == (SetState(ch, 0, t), T.Hold(1, T.End))
            && ServeTickets(ch, true, v, 0, wid, sec, 1) == [Ticket(T.Piece(v, 0, sec, 1), wid)]
  {
    var (c, s) := (ch[0].c, ch[0].s);
    ReadRefuses(c, s, wid, sec, 1);
    ReadDoes(c, s, wid, sec, 1);
    var (t, k, err) := ReadTurn(c, s, wid, sec, 1);
    assert !Forwards(c, s, sec);
    hide ReadTurn;
    hide Forwards;
    hide ReadRefusal;
    hide ReadDone;
    hide FileSame;
    assert k == 1 && err == 0;
    var ch1 := SetState(ch, 0, t);
    assert ServeRead(ch1, true, 0, wid, sec + 1, 0) == (ch1, T.End);
    assert ServeTickets(ch1, true, v, 0, wid, sec + 1, 0) == [];
  }

  /** The request waits for its only sector. */
  predicate Awaits(d: Stack, v: nat, sec: nat, wid: nat) {
    && v in d.reqs && d.tickets == [Ticket(T.Piece(v, 0, sec, 1), wid)]
    && var r := d.reqs[v];
       r.where == T.Pending && r.secsPending == 1 && r.submitting == 0 && r.error == 0
  }

  /** Its read is on its way to the file. */
  predicate Sent(d: Stack, v: nat, sec: nat, wid: nat, addr: int) {
    Awaits(d, v, sec, wid) && |d.ch| == 1 && d.ch[0].s.raw == [ReadOf(wid, sec, 1, addr)]
  }

  lemma {:induction false} SentCompletes(d: Stack, v: nat, sec: nat, wid: nat, addr: int)
    requires Sent(d, v, sec, wid, addr)
    ensures CanAct(d, Other(0, LandOther(0)))
    ensures var d1 := Acted(d, Other(0, LandOther(0)));
            Takes(d, Other(0, LandOther(0)), d1) && |d1.ch| == 1 && CanAct(d1, Finish(0, 0, 0)) &&
            var d2 := Acted(d1, Finish(0, 0, 0));
            Takes(d1, Finish(0, 0, 0), d2) && v in d2.reqs && d2.reqs[v].where == T.Completed && d2.reqs[v].error == 0
  {
    var d1 := Acted(d, Other(0, LandOther(0)));
    var k := Key(wid, sec, 1);
    assert d1.ch[0].s.raw[0].landed;
    assert For(d1.tickets[0], 0, k);
    assert Find(d1, 0, k) == 0;
  }

  /* ---- the read is issued ---- */

  const ONE: seq<nat> := [1]

  function Fresh(sec: nat): T.VReq { T.VReq(sec, ONE, 0, 0, 0, T.New, map[], 0, 0) }

  /** A read of one sector is about to be issued, and the driver will keep it. */
  ghost predicate Ready(d: Stack, v: nat, sec: nat) {
    && |d.ch| == 1 && v in d.reqs && d.reqs[v] == Fresh(sec) && d.tickets == [] && sec < d.ch[0].size
    && !Missing(d.ch[0].c, d.ch[0].s, sec) && ReadRefusal(d.ch[0].c, d.ch[0].s, sec) == 0
  }

  ghost function Told(s: Vhd, sec: nat): Vhd { Emit(s, Issue(false, sec, 1)) }

  lemma {:induction false} KeptPlan(ch: Chain, v: nat, sec: nat)
    requires |ch| == 1 && !Missing(ch[0].c, ch[0].s, sec) && ReadRefusal(ch[0].c, ch[0].s, sec) == 0
    ensures var (s, wid) := (Told(ch[0].s, sec), |ch[0].s.log|);
            var t := ReadTurn(ch[0].c, s, wid, sec, 1).0;
            && ReadDone(ch[0].c, s, t, wid, sec, 1) && FileSame(s, t)
            && PiecePlans(ch, true, Fresh(sec), 1) == (SetState(ch, 0, t), [T.Hold(1, T.End)])
            && PiecesTickets(ch, true, v, Fresh(sec), 1) == [Ticket(T.Piece(v, 0, sec, 1), wid)]
  {
    hide ReadTurn;
    hide ServeRead;
    hide ServeTickets;
    hide ReadDone;
    hide FileSame;
    var (s, wid, r) := (Told(ch[0].s, sec), |ch[0].s.log|, Fresh(sec));
    var ch1 := SetState(ch, 0, s);
    ServeHeld(ch1, v, wid, sec);
    var t := ReadTurn(ch[0].c, s, wid, sec, 1).0;
    assert SetState(ch1, 0, t) == SetState(ch, 0, t);
    assert r.iov[..0] == [] && PiecePlans(ch, true, r, 0) == (ch, []) && PiecesTickets(ch, true, v, r, 0) == [];
    assert Ask(ch, true, 0, sec, 1) == (SetState(ch, 0, t), T.Hold(1, T.End));
    assert PiecePlans(ch, true, r, 1).1 == [T.Hold(1, T.End)];
    assert AskTickets(ch, true, v, 0, sec, 1) == [Ticket(T.Piece(v, 0, sec, 1), wid)];
  }

  lemma {:induction false} KeptIssue(env: T.Env, sec: nat)
    requires |env.sizes| == 1 && sec < env.sizes[0]
    ensures T.CheckRequest(env, Fresh(sec), true) == 0
    ensures var r' := T.Issue(env, Fresh(sec), true, [T.Hold(1, T.End)]);
            r'.where == T.Pending && r'.secsPending == 1 && r'.submitting == 0 && r'.error == 0
  {
  }

  lemma {:induction false} StartKept(d: Stack, v: nat, sec: nat)
    requires Ready(d, v, sec)
    ensures CanAct(d, Start(v, true))
    ensures var (s, wid) := (Told(d.ch[0].s, sec), |d.ch[0].s.log|);
            var (t, d') := (ReadTurn(d.ch[0].c, s, wid, sec, 1).0, Acted(d, Start(v, true)));
            && ReadDone(d.ch[0].c, s, t, wid, sec, 1) && FileSame(s, t)
            && d'.ch == SetState(d.ch, 0, t) && Awaits(d', v, sec, wid)
  {
    hide ReadTurn;
    hide ReadDone;
    hide FileSame;
    hide PiecePlans;
    hide PiecesTickets;
    hide T.Issue;
    hide T.CheckRequest;
    hide Told;
    var r := Fresh(sec);
    KeptPlan(d.ch, v, sec);
    KeptIssue(EnvOf(d, v), sec);
    assert r.(error := 0) == r;
  }

  /* ---- its bitmap has to be read first ---- */

  /** The read waits for the bitmap of its block, which has its bit on the disk. */
  ghost predicate Parks(d: Stack, v: nat, sec: nat, wid: nat) {
    Awaits(d, v, sec, wid) && |d.ch| == 1 && d.ch[0].s.raw == [] &&
    var (c, s, b) := (d.ch[0].c, d.ch[0].s, sec / d.ch[0].c.spb);
    && b <= c.maxBat && b in s.bat && b in s.cache && s.cache[b].reading
    && s.cache[b].waiting == [ReadOf(wid, sec, 1, 0)]
    && sec % c.spb in BitsAt(s.media.disk, s.bat[b])
  }

  lemma LoadedStored(c: Config, s: Vhd, sec: nat)
    requires var b := sec / c.spb;
             && b <= c.maxBat && b in s.bat && b in s.cache && s.cache[b].reading
             && sec % c.spb in BitsAt(s.media.disk, s.bat[b])
    ensures var t := BitmapLoaded(c, s, sec / c.spb);
            var u := t.(free := t.free + 1);
            && Stored(c, u, sec) && !Missing(c, u, sec) && ReadRefusal(c, u, sec) == 0
            && u.raw == s.raw && u.bat == s.bat
  {
    assert InRange(sec % c.spb, 0, c.spb);
  }

  /** The request that waited is served again, and its read goes out. */
  lemma {:induction false} OneSends(d: Stack, v: nat, sec: nat, wid: nat)
    requires Awaits(d, v, sec, wid) && |d.ch| == 1 && d.ch[0].s.raw == []
    requires var (c, s) := (d.ch[0].c, d.ch[0].s);
             var u := s.(free := s.free + 1);
             Stored(c, u, sec) && !Missing(c, u, sec) && ReadRefusal(c, u, sec) == 0
    ensures var (c, s, b) := (d.ch[0].c, d.ch[0].s, sec / d.ch[0].c.spb);
            Sent(WakeOne(d, 0, 0, true, ReadOf(wid, sec, 1, 0)), v, sec, wid, s.bat[b] + c.bmSecs + sec % c.spb)
  {
    hide ReadTurn;
    hide ServeRead;
    hide ServeTickets;
    hide Stored;
    hide Missing;
    hide ReadRefusal;
    var r := ReadOf(wid, sec, 1, 0);
    ServeHeld(Freed(d.ch, 0), v, wid, sec);
    assert For(d.tickets[0], 0, KeyOf(r)) && Find(d, 0, KeyOf(r)) == 0;
  }

  lemma {:induction false} WakeSends(d: Stack, v: nat, sec: nat, wid: nat)
    requires Parks(d, v, sec, wid)
    ensures var (c, s, b) := (d.ch[0].c, d.ch[0].s, sec / d.ch[0].c.spb);
            CanAct(d, Wake(0, b, 0, [true])) &&
            Sent(Acted(d, Wake(0, b, 0, [true])), v, sec, wid, s.bat[b] + c.bmSecs + sec % c.spb)
  {
    hide BitmapLoaded;
    hide Stored;
    hide Missing;
    hide ReadRefusal;
    hide WakeOne;
    var (c, s, b) := (d.ch[0].c, d.ch[0].s, sec / d.ch[0].c.spb);
    LoadedStored(c, s, sec);
    var d0 := WakeTo(d, 0, b, 0, [true], 0);
    OneSends(d0, v, sec, wid);
    assert WakeTo(d, 0, b, 0, [true], 1) == WakeOne(d0, 0, 0, true, ReadOf(wid, sec, 1, 0));
  }

  /* ---- all of it ---- */

  /** The acts by which the sector is read: through its bitmap, unless the block is full. */
  ghost function Reading(d: Stack, v: nat, sec: nat): seq<Act>
    requires |d.ch| == 1
  {
    var b := sec / d.ch[0].c.spb;
    [Join(v, sec, ONE), Start(v, true)] +
    (if b in d.ch[0].s.batmap then [] else [Wake(0, b, 0, [true])]) +
    [Other(0, LandOther(0)), Finish(0, 0, 0)]
  }

  ghost predicate HasSector(d: Stack, sec: nat) {
    && |d.ch| == 1 && d.ch[0].s.free > 0 && sec < d.ch[0].size && sec / d.ch[0].c.spb <= d.ch[0].c.maxBat
    && Recover(d.ch[0].c, d.ch[0].s.media, sec).Present?
  }

  lemma OpenedReady(im: Image, pool: nat, sec: nat)
    requires Opened(im.c, im.s, pool) && im.s.free > 0 && sec / im.c.spb <= im.c.maxBat
    requires Recover(im.c, im.s.media, sec).Present?
    ensures var (c, s, b) := (im.c, im.s, sec / im.c.spb);
            && !Missing(c, s, sec) && ReadRefusal(c, s, sec) == 0 && Still(s, sec)
            && s.cache == map[] && s.raw == [] && b in s.bat
            && sec % c.spb in BitsAt(s.media.disk, s.bat[b])
  {
  }

  lemma JoinReady(d: Stack, v: nat, sec: nat)
    requires Begins(d) && HasSector(d, sec)
    ensures CanAct(d, Join(v, sec, ONE))
    ensures var d1 := Acted(d, Join(v, sec, ONE)); Ready(d1, v, sec) && StillFor(d1.ch, d1.reqs[v]) && d1.ch == d.ch
    ensures var (c, s, b) := (d.ch[0].c, d.ch[0].s, sec / d.ch[0].c.spb);
            && s.cache == map[] && s.raw == [] && b in s.bat && b <= c.maxBat
            && sec % c.spb in BitsAt(s.media.disk, s.bat[b])
  {
    hide Missing;
    hide ReadRefusal;
    hide Recover;
    hide Still;
    hide Opened;
    var pool: nat :| Opened(d.ch[0].c, d.ch[0].s, pool);
    OpenedReady(d.ch[0], pool, sec);
    var d1 := Acted(d, Join(v, sec, ONE));
    assert T.Total(ONE) == 1 by { assert ONE[..0] == []; }
    assert d1.reqs[v] == Fresh(sec);
    forall l: nat | Of(d1.reqs[v], l) ensures StillAt(d1.ch, l) { assert l == sec; }
  }

  /** After the issue, the read is on its way to the file, or waits for its bitmap. */
  lemma {:induction false} StartedHow(d: Stack, v: nat, sec: nat)
    requires Ready(d, v, sec)
    requires var (c, s, b) := (d.ch[0].c, d.ch[0].s, sec / d.ch[0].c.spb);
             && s.cache == map[] && s.raw == [] && b in s.bat && b <= c.maxBat
             && sec % c.spb in BitsAt(s.media.disk, s.bat[b])
    ensures CanAct(d, Start(v, true))
    ensures var (d', s, b) := (Acted(d, Start(v, true)), d.ch[0].s, sec / d.ch[0].c.spb);
            && |d'.ch| == 1 && d'.ch[0].c == d.ch[0].c
            && if b in s.batmap then exists addr :: Sent(d', v, sec, |s.log|, addr)
               else Parks(d', v, sec, |s.log|) && d'.ch[0].s.bat == s.bat
  {
    hide ReadTurn;
    hide ReadRefusal;
    hide Acted;
    hide BitsAt;
    StartKept(d, v, sec);
    var (c, s, b) := (d.ch[0].c, d.ch[0].s, sec / d.ch[0].c.spb);
    if b in s.batmap {
      assert Sent(Acted(d, Start(v, true)), v, sec, |s.log|, s.bat[b] + c.bmSecs + sec % c.spb);
    }
  }

  ghost predicate Ended(d: Stack, v: nat) {
    v in d.reqs && d.reqs[v].where == T.Completed && d.reqs[v].error == 0
  }

  ghost predicate Path(ds: seq<Stack>, acts: seq<Act>) {
    |ds| == |acts| + 1 && forall i :: 0 <= i < |acts| ==> Takes(ds[i], acts[i], ds[i + 1])
  }

  /** From the issue on. */
  lemma {:induction false} IssueGoes(d: Stack, v: nat, sec: nat) returns (ds: seq<Stack>)
    requires Ready(d, v, sec)
    requires var (c, s, b) := (d.ch[0].c, d.ch[0].s, sec / d.ch[0].c.spb);
             && s.cache == map[] && s.raw == [] && b in s.bat && b <= c.maxBat
             && sec % c.spb in BitsAt(s.media.disk, s.bat[b])
    ensures Path(ds, Reading(d, v, sec)[1..]) && ds[0] == d && Ended(ds[|ds| - 1], v)
  {
    hide Missing;
    hide ReadRefusal;
    hide Parks;
    hide Acted;
    hide CanAct;
    hide BitsAt;
    hide Awaits;
    var (s, b) := (d.ch[0].s, sec / d.ch[0].c.spb);
    StartedHow(d, v, sec);
    var d2 := Acted(d, Start(v, true));
    assert Takes(d, Start(v, true), d2);
    if b in s.batmap {
      var addr :| Sent(d2, v, sec, |s.log|, addr);
      SentCompletes(d2, v, sec, |s.log|, addr);
      var d3 := Acted(d2, Other(0, LandOther(0)));
      ds := [d, d2, d3, Acted(d3, Finish(0, 0, 0))];
      assert Reading(d, v, sec)[1..] == [Start(v, true), Other(0, LandOther(0)), Finish(0, 0, 0)];
    } else {
      WakeSends(d2, v, sec, |s.log|);
      var d3 := Acted(d2, Wake(0, b, 0, [true]));
      assert Takes(d2, Wake(0, b, 0, [true]), d3);
      var addr :| Sent(d3, v, sec, |s.log|, addr);
      SentCompletes(d3, v, sec, |s.log|, addr);
      var d4 := Acted(d3, Other(0, LandOther(0)));
      ds := [d, d2, d3, d4, Acted(d4, Finish(0, 0, 0))];
      assert Reading(d, v, sec)[1..] ==
             [Start(v, true), Wake(0, b, 0, [true]), Other(0, LandOther(0)), Finish(0, 0, 0)];
    }
  }

  /** The acts after the issue leave the read alone. */
  lemma {:induction false} ReadingSpares(d: Stack, v: nat, sec: nat, i: nat, r: T.VReq)
    requires |d.ch| == 1 && 1 < i < |Reading(d, v, sec)|
    ensures !Unsettles(Reading(d, v, sec)[i], v, r)
  {
  }

  lemma {:induction false} PathRuns(d: Stack, rest: seq<Stack>, a: Act, acts: seq<Act>)
    requires Begins(d) && |rest| > 0 && Takes(d, a, rest[0]) && Path(rest, acts)
    ensures StackRun([d] + rest, [a] + acts)
  {
    hide Begins;
    hide CanAct;
    hide Acted;
    var (ds, all) := ([d] + rest, [a] + acts);
    forall i | 0 <= i < |all|
      ensures |ds[i].ch| > 0 && CanAct(ds[i], all[i]) && ds[i + 1] == Acted(ds[i], all[i])
    {
      if i > 0 { assert Takes(rest[i - 1], acts[i - 1], rest[i - 1 + 1]); }
    }
  }

  /** A sector that the file of a freshly opened image holds can be read: there is a run in
      which a read of it completes without error and gives its data. */
  lemma {:induction false} SomeStoredRead(d: Stack, v: nat, sec: nat) returns (ds: seq<Stack>, acts: seq<Act>)
    requires Begins(d) && HasSector(d, sec)
    ensures StackRun(ds, acts) && ds[0] == d
    ensures var e := ds[|acts|];
            && v in e.reqs && e.reqs[v].where == T.Completed && e.reqs[v].error == 0 && Of(e.reqs[v], sec)
            && Gives(e, v, sec, Data(Recover(d.ch[0].c, d.ch[0].s.media, sec).w, sec))
  {
    hide Begins;
    hide Acted;
    hide CanAct;
    hide StillFor;
    hide Gives;
    hide BitsAt;
    JoinReady(d, v, sec);
    var d1 := Acted(d, Join(v, sec, ONE));
    assert T.Total(ONE) == 1 by { assert ONE[..0] == []; }
    var rest := IssueGoes(d1, v, sec);
    acts := Reading(d, v, sec);
    ds := [d] + rest;
    assert acts == [Join(v, sec, ONE)] + Reading(d1, v, sec)[1..];
    PathRuns(d, rest, Join(v, sec, ONE), Reading(d1, v, sec)[1..]);
    hide StackRun;
    hide Reading;
    forall k | 1 < k < |acts| ensures !Unsettles(acts[k], v, ds[1].reqs[v]) {
      ReadingSpares(d, v, sec, k, ds[1].reqs[v]);
    }
    hide Unsettles;
    GuestReads(ds, acts, 1, |acts|, v, sec);
    SteadyStays(ds, acts, 1, |acts|, v, sec);
    assert Shown(ds[|acts|].ch, 0, sec) == Shown(d.ch, 0, sec);
  }
}
