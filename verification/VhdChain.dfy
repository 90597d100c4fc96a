/** A chain of images that are all served by the VHD driver: what the drivers do with the
    pieces of a read is a plan that fits the images, and an honest one. */
module VhdChain {
  import opened VhdTypes
  import opened VhdEngine
  import opened VhdInvariants
  import opened VhdStructure
  import opened VhdSafety
  import opened VhdAccounting
  import opened VhdDisk
  import opened VhdLanding
  import opened VhdServing
  import opened VhdTheorems
  import opened VhdReads
  import opened VhdReadback
  import T = TapdiskVbd
  import V = VirtualDisk

  /** An image of a virtual disk, of `size` sectors, with the state of its driver. */
  datatype Image = Image(c: Config, size: nat, s: Vhd)

  type Chain = seq<Image>

  function Sizes(ch: Chain): (r: seq<nat>)
    ensures |r| == |ch| && forall i :: 0 <= i < |ch| ==> r[i] == ch[i].size
  {
    seq(|ch|, i requires 0 <= i < |ch| => ch[i].size)
  }

  function SetState(ch: Chain, j: nat, s: Vhd): Chain
    requires j < |ch|
  {
    ch[j := ch[j].(s := s)]
  }

  /* ---- a read, over the chain ---- */

  /** A turn at sector sec forwards its span. */
  predicate Forwards(c: Config, s: Vhd, sec: nat) {
    var hit := ReadBitmapCache(c, s, sec, false).1;
    hit == BatClear || hit == BitClear
  }

  /** vhd_queue_read at image j, which asks its parents while it runs: the chain afterwards,
      and what has become of the sectors. `ready` is tapdisk_vbd_queue_ready. */
  ghost function ServeRead(ch: Chain, ready: bool, j: nat, wid: nat, sec: nat, n: nat): (r: (Chain, T.Plan))
    requires j < |ch|
    ensures |r.0| == |ch|
    decreases |ch| - j, n
  {
    if n == 0 then (ch, T.End)
    else
      var (s1, k, err) := ReadTurn(ch[j].c, ch[j].s, wid, sec, n);
      if err != 0 then (SetState(ch, j, Emit(s1, Done(false, wid, sec, n, err))), T.Done(n, err, T.End))
      else if Forwards(ch[j].c, ch[j].s, sec) then
        var (ch1, inner) := AskBelow(SetState(ch, j, s1), ready, j, sec, k);
        var (ch2, rest) := ServeRead(ch1, ready, j, wid, sec + k, n - k);
        (ch2, T.Forward(k, ready, inner, rest))
      else
        var (ch1, rest) := ServeRead(SetState(ch, j, s1), ready, j, wid, sec + k, n - k);
        (ch1, T.Hold(k, rest))
  }

  /** Image j's parent is asked for what it has of a forwarded span. */
  ghost function AskBelow(ch: Chain, ready: bool, j: nat, sec: nat, n: nat): (r: (Chain, T.Plan))
    requires j < |ch|
    ensures |r.0| == |ch|
    decreases |ch| - j, 0
  {
    if !ready || j + 1 >= |ch| then (ch, T.End)
    else
      var m := T.Cut(sec, n, ch[j + 1].size);
      if m == 0 then (ch, T.End) else Ask(ch, ready, j + 1, sec, m)
  }

  /** A new request to image j's driver. */
  ghost function Ask(ch: Chain, ready: bool, j: nat, sec: nat, n: nat): (r: (Chain, T.Plan))
    requires j < |ch|
    ensures |r.0| == |ch|
    decreases |ch| - j, n + 1
  {
    var s := ch[j].s;
    ServeRead(SetState(ch, j, Emit(s, Issue(false, sec, n))), ready, j, |s.log|, sec, n)
  }

  /** One piece: image 0 is asked, unless the piece is empty. */
  ghost function PiecePlan(ch: Chain, ready: bool, sec: nat, n: nat): (x: (Chain, T.Plan))
    requires |ch| > 0
    ensures |x.0| == |ch|
  {
    if n == 0 then (ch, T.End) else Ask(ch, ready, 0, sec, n)
  }

  /** The pieces of a request are handed to the first image in turn. */
  ghost function PiecePlans(ch: Chain, ready: bool, r: T.VReq, k: nat): (x: (Chain, seq<T.Plan>))
    requires |ch| > 0 && k <= |r.iov|
    ensures |x.0| == |ch| && |x.1| == k
  {
    if k == 0 then (ch, [])
    else
      var (ch1, ps) := PiecePlans(ch, ready, r, k - 1);
      var (ch2, p) := PiecePlan(ch1, ready, r.sec + T.Total(r.iov[..k - 1]), r.iov[k - 1]);
      (ch2, ps + [p])
  }

  /* ---- what is known of the images ---- */

  /** What every state of an orderly run of the driver satisfies. */
  ghost predicate Sound(im: Image) {
    exists pool: nat :: Structure(im.c, im.s, pool) && Accounts(im.c, im.s) && OnDisk(im.c, im.s)
  }

  ghost predicate SoundFrom(ch: Chain, j: nat) { forall i :: j <= i < |ch| ==> Sound(ch[i]) }

  /** No transaction is writing any of [sec, sec + n). */
  ghost predicate Calm(im: Image, sec: nat, n: nat) {
    forall l: nat :: sec <= l < sec + n ==> Unwritten(im.c, im.s, l)
  }

  ghost predicate CalmFrom(ch: Chain, j: nat, sec: nat, n: nat) { forall i :: j <= i < |ch| ==> Calm(ch[i], sec, n) }

  /** `has` says which sectors can be recovered from the files. */
  ghost predicate Holdings(ch: Chain, has: T.Holds) {
    forall j: nat, l: nat :: j < |ch| ==> (has(j, l) <==> Recover(ch[j].c, ch[j].s.media, l).Present?)
  }

  /** No transaction of the images from j on is writing these sectors, and `has` says what
      they hold. */
  ghost predicate Fair(ch: Chain, has: T.Holds, j: nat, sec: nat, n: nat) {
    CalmFrom(ch, j, sec, n) && Holdings(ch, has)
  }

  const NOTHING: T.Holds := (j, l) => false

  /** The plan is honest if the driver is fair, and in any case completes nothing without
      error: a driver that is asked for sectors only fails, forwards or keeps them. */
  ghost predicate HonestIf(fair: bool, has: T.Holds, sizes: seq<nat>, j: nat, sec: nat, p: T.Plan) {
    (fair ==> T.Honest(has, sizes, j, sec, p)) && T.Honest(NOTHING, sizes, j, sec, p)
  }

  /** From s to t there have been reads only: the file and the transactions are the same. */
  ghost predicate OnlyRead(s: Vhd, t: Vhd) {
    t.media == s.media &&
    forall b :: b in t.cache ==> (b in s.cache && t.cache[b].tx == s.cache[b].tx) || t.cache[b].tx == InitTx
  }

  ghost predicate Alike(a: Image, b: Image) { b.c == a.c && b.size == a.size && OnlyRead(a.s, b.s) }

  ghost predicate AllRead(ch: Chain, ch': Chain) {
    |ch'| == |ch| && forall i :: 0 <= i < |ch| ==> Alike(ch[i], ch'[i])
  }

  lemma AllReadTrans(a: Chain, b: Chain, d: Chain)
    requires AllRead(a, b) && AllRead(b, d)
    ensures AllRead(a, d)
  {
    forall i | 0 <= i < |a| ensures Alike(a[i], d[i]) { assert Alike(a[i], b[i]) && Alike(b[i], d[i]); }
  }

  lemma StaysUnwritten(c: Config, s: Vhd, t: Vhd, l: nat)
    requires OnlyRead(s, t) && Unwritten(c, s, l)
    ensures Unwritten(c, t, l)
  {
  }

  /** Reads leave what the files hold as it is, and calm sectors calm. */
  lemma AllReadKeeps(ch: Chain, ch': Chain, has: T.Holds, j: nat, sec: nat, n: nat)
    requires AllRead(ch, ch') && Holdings(ch, has) && CalmFrom(ch, j, sec, n)
    ensures Holdings(ch', has) && CalmFrom(ch', j, sec, n) && Sizes(ch') == Sizes(ch)
  {
    hide Recover;
    forall i, l: nat | 0 <= i < |ch|
      ensures has(i, l) <==> Recover(ch'[i].c, ch'[i].s.media, l).Present?
    {
      assert Alike(ch[i], ch'[i]);
    }
    forall i | j <= i < |ch'| ensures Calm(ch'[i], sec, n) {
      assert Alike(ch[i], ch'[i]) && Calm(ch[i], sec, n);
      forall l: nat | sec <= l < sec + n ensures Unwritten(ch'[i].c, ch'[i].s, l) {
        StaysUnwritten(ch[i].c, ch[i].s, ch'[i].s, l);
      }
    }
    forall i | 0 <= i < |ch| ensures Sizes(ch')[i] == Sizes(ch)[i] { assert Alike(ch[i], ch'[i]); }
  }

  /** So part of a fair chain is fair after reads. */
  lemma FairPart(ch: Chain, ch': Chain, has: T.Holds, j: nat, sec: nat, n: nat, i: nat, sec': nat, n': nat)
    requires AllRead(ch, ch') && j <= i && sec <= sec' && sec' + n' <= sec + n
    ensures Fair(ch, has, j, sec, n) ==> Fair(ch', has, i, sec', n')
  {
    hide CalmFrom;
    hide Holdings;
    if Fair(ch, has, j, sec, n) {
      AllReadKeeps(ch, ch', has, j, sec, n);
      CalmPart(ch', j, sec, n, i, sec', n');
    }
  }

  lemma SetStateRead(ch: Chain, j: nat, t: Vhd)
    requires j < |ch| && OnlyRead(ch[j].s, t)
    ensures AllRead(ch, SetState(ch, j, t))
  {
  }

  lemma CalmPart(ch: Chain, j: nat, sec: nat, n: nat, i: nat, sec': nat, n': nat)
    requires CalmFrom(ch, j, sec, n) && j <= i && sec <= sec' && sec' + n' <= sec + n
    ensures CalmFrom(ch, i, sec', n')
  {
    hide Unwritten;
    forall x | i <= x < |ch| ensures Calm(ch[x], sec', n') { assert Calm(ch[x], sec, n); }
  }

  /* ---- one turn ---- */

  lemma TurnOnlyReads(c: Config, s: Vhd, wid: nat, sec: nat, n: nat)
    requires 0 < n
    ensures OnlyRead(s, ReadTurn(c, s, wid, sec, n).0)
  {
    hide ReadBitmapCache;
    hide ScheduleBitmapRead;
    hide QueueRequest;
    hide ScheduleDataRead;
    hide OnlyRead;
    var (s1, hit) := ReadBitmapCache(c, s, sec, false);
    var (t, k, _) := ReadTurn(c, s, wid, sec, n);
    TouchReads(c, s, sec);
    match hit
    case OutOfRange =>
    case BatLocked => SameReads(s1, t); ReadTrans(s, s1, t);
    case BatClear => SameReads(s1, t); ReadTrans(s, s1, t);
    case BitClear => SameReads(s1, t); ReadTrans(s, s1, t);
    case BitSet =>
      DataReadReads(c, s1, Piece(false, wid, sec, k));
      ReadTrans(s, s1, t);
    case NotCached =>
      InstallReads(c, s1, sec / c.spb);
      var s2 := ScheduleBitmapRead(c, s1, sec / c.spb).0;
      ReadTrans(s, s1, s2);
      if t != s2 {
        QueueReads(c, s2, Piece(false, wid, sec, ToBlockEnd(c, sec, n)));
        ReadTrans(s, s2, t);
      }
    case ReadPending =>
      QueueReads(c, s1, Piece(false, wid, sec, k));
      ReadTrans(s, s1, t);
  }

  lemma ReadTrans(r: Vhd, s: Vhd, t: Vhd)
    requires OnlyRead(r, s) && OnlyRead(s, t)
    ensures OnlyRead(r, t)
  {
  }

  lemma SameReads(s: Vhd, t: Vhd)
    requires t.media == s.media && t.cache == s.cache
    ensures OnlyRead(s, t)
  {
  }

  lemma TouchReads(c: Config, s: Vhd, sec: nat)
    ensures OnlyRead(s, ReadBitmapCache(c, s, sec, false).0)
  {
  }

  lemma QueueReads(c: Config, s: Vhd, r: Req)
    ensures OnlyRead(s, QueueRequest(c, s, r).0)
  {
  }

  lemma DataReadReads(c: Config, s: Vhd, r: Req)
    ensures OnlyRead(s, ScheduleDataRead(c, s, r).0)
  {
  }

  lemma InstallReads(c: Config, s: Vhd, b: nat)
    ensures OnlyRead(s, ScheduleBitmapRead(c, s, b).0)
    ensures ScheduleBitmapRead(c, s, b).0.log == s.log && ScheduleBitmapRead(c, s, b).0.raw == s.raw
  {
  }

  /** What a turn adds to the history. */
  lemma TurnLogs(c: Config, s: Vhd, wid: nat, sec: nat, n: nat)
    requires 0 < n
    ensures var (t, k, err) := ReadTurn(c, s, wid, sec, n);
            t.log == if err == 0 && Forwards(c, s, sec) then s.log + [Forward(wid, sec, k)] else s.log
  {
    hide InstallBitmap;
    var s1 := ReadBitmapCache(c, s, sec, false).0;
    InstallReads(c, s1, sec / c.spb);
  }

  /** A turn forwards only what the file does not hold. */
  lemma TurnHonest(c: Config, s: Vhd, wid: nat, sec: nat, n: nat, l: nat, pool: nat)
    requires 0 < n && Unwritten(c, s, l) && Forwards(c, s, sec)
    requires var (_, k, err) := ReadTurn(c, s, wid, sec, n); err == 0 && sec <= l < sec + k
    requires Structure(c, s, pool) && OnDisk(c, s)
    ensures Recover(c, s.media, l) == Absent
  {
    hide Structure;
    hide OnDisk;
    hide Recover;
    hide Unwritten;
    hide ReadTurn;
    hide Forwards;
    hide Parked;
    hide ReadsSector;
    ReadTurnReads(c, s, wid, sec, n, l, pool);
    TurnLogs(c, s, wid, sec, n);
  }

  /** The driver holds the piece: a read of the file, or parked until the bitmap is there. */
  ghost predicate HeldIn(c: Config, s: Vhd, wid: nat, sec: nat, n: nat) {
    Parked(c, s, Piece(false, wid, sec, n)) ||
    exists r :: r in s.raw && r.op == OpRead && r.wid == wid && r.sec == sec && r.secs == n
  }

  /** What s has on its lists is still there. */
  ghost predicate Keeps(s: Vhd, t: Vhd) {
    (forall r :: r in s.raw ==> r in t.raw) &&
    (forall b :: b in s.cache && s.cache[b].reading ==>
      b in t.cache && t.cache[b].reading && forall r :: r in s.cache[b].waiting ==> r in t.cache[b].waiting)
  }

  lemma KeepsTrans(r: Vhd, s: Vhd, t: Vhd)
    requires Keeps(r, s) && Keeps(s, t)
    ensures Keeps(r, t)
  {
  }

  lemma KeepsHeld(c: Config, s: Vhd, t: Vhd, wid: nat, sec: nat, n: nat)
    requires Keeps(s, t) && HeldIn(c, s, wid, sec, n)
    ensures HeldIn(c, t, wid, sec, n)
  {
  }

  lemma InstallKeeps(c: Config, s: Vhd, b: nat, pool: nat)
    requires b in s.bat && b !in s.cache && Structure(c, s, pool)
    ensures Keeps(s, ScheduleBitmapRead(c, s, b).0)
  {
    hide Structure;
    assert Check(s, true) == s;
    var bm := InitBm.(reading := true, locked := true);
    if s.bmFree == 0 && InstallBitmap(c, s, b, bm).1 == 0 {
      var v := Evicted(c, s, b, bm, pool);
      hide InstallBitmap;
    }
  }

  lemma QueueKeeps(c: Config, s: Vhd, r: Req)
    ensures Keeps(s, QueueRequest(c, s, r).0)
    ensures QueueRequest(c, s, r).1 == 0 && r.sec / c.spb in s.cache && s.cache[r.sec / c.spb].reading ==>
              Parked(c, QueueRequest(c, s, r).0, r)
  {
  }

  lemma TouchKeeps(c: Config, s: Vhd, sec: nat)
    ensures Keeps(s, ReadBitmapCache(c, s, sec, false).0)
  {
  }

  lemma SameKeeps(s: Vhd, t: Vhd)
    requires t.cache == s.cache && forall r :: r in s.raw ==> r in t.raw
    ensures Keeps(s, t)
  {
  }

  /** A turn keeps what the driver holds, and its span is added if it is not forwarded. */
  lemma TurnKeeps(c: Config, s: Vhd, wid: nat, sec: nat, n: nat, pool: nat)
    requires 0 < n && Structure(c, s, pool)
    ensures var (t, k, err) := ReadTurn(c, s, wid, sec, n);
            Keeps(s, t) && (err == 0 && !Forwards(c, s, sec) ==> HeldIn(c, t, wid, sec, k))
  {
    hide Structure;
    hide Keeps;
    hide QueueRequest;
    hide ScheduleBitmapRead;
    hide Parked;
    var (s1, hit) := ReadBitmapCache(c, s, sec, false);
    var (t, k, err) := ReadTurn(c, s, wid, sec, n);
    TouchKeeps(c, s, sec);
    match hit
    case OutOfRange =>
    case BatLocked =>
    case BatClear => SameKeeps(s1, t); KeepsTrans(s, s1, t);
    case BitClear => SameKeeps(s1, t); KeepsTrans(s, s1, t);
    case BitSet =>
      SameKeeps(s1, t);
      KeepsTrans(s, s1, t);
      if err == 0 { assert t.raw[|s1.raw|] in t.raw; }
    case NotCached =>
      ReadBitmapCacheOk(c, s, sec, false, pool);
      InstallKeeps(c, s1, sec / c.spb, pool);
      InstalledRead(c, s1, sec / c.spb);
      var s2 := ScheduleBitmapRead(c, s1, sec / c.spb).0;
      KeepsTrans(s, s1, s2);
      QueueKeeps(c, s2, Piece(false, wid, sec, ToBlockEnd(c, sec, n)));
      if t != s2 { KeepsTrans(s, s2, t); }
    case ReadPending =>
      QueueKeeps(c, s1, Piece(false, wid, sec, k));
      KeepsTrans(s, s1, t);
  }

  lemma {:induction false} ServeKeeps(c: Config, s: Vhd, wid: nat, sec: nat, n: nat, pool: nat)
    requires Structure(c, s, pool)
    ensures Keeps(s, Serve(c, s, false, wid, sec, n))
    decreases n
  {
    hide Structure;
    hide ReadTurn;
    hide WriteTurn;
    hide Keeps;
    if n == 0 {
      SameKeeps(s, s);
    } else {
      TurnKeeps(c, s, wid, sec, n, pool);
      var (t, k, err) := ReadTurn(c, s, wid, sec, n);
      var u := Serve(c, s, false, wid, sec, n);
      if err != 0 {
        SameKeeps(t, u);
      } else {
        TurnOk(c, s, false, wid, sec, n, pool);
        ServeKeeps(c, t, wid, sec + k, n - k, pool);
      }
      KeepsTrans(s, t, u);
    }
  }

  /* ---- the whole read ---- */

  /** The spans of a plan that are held are on the driver's lists. */
  ghost predicate AllHeld(c: Config, s: Vhd, wid: nat, sec: nat, p: T.Plan)
    decreases p
  {
    match p
    case End => true
    case Hold(n, rest) => HeldIn(c, s, wid, sec, n) && AllHeld(c, s, wid, sec + n, rest)
    case Done(n, _, rest) => AllHeld(c, s, wid, sec + n, rest)
    case Forward(n, _, _, rest) => AllHeld(c, s, wid, sec + n, rest)
  }

  /** The answers and forwards of a plan, as the driver's history has them. */
  function Events(p: T.Plan, wid: nat, sec: nat): seq<Ev> {
    match p
    case End => []
    case Hold(n, rest) => Events(rest, wid, sec + n)
    case Done(n, res, rest) => [Ev.Done(false, wid, sec, n, res)] + Events(rest, wid, sec + n)
    case Forward(n, _, _, rest) => [Ev.Forward(wid, sec, n)] + Events(rest, wid, sec + n)
  }

  /** Plan p, with chain ch' after it, is what image j's driver does with [sec, sec + n):
      every sector is dealt with, honestly if the chain is fair, and the driver's history and
      lists say the same. */
  ghost predicate Served(
        ch: Chain, ch': Chain, has: T.Holds, fair: bool, j: nat, wid: nat, sec: nat, n: nat, p: T.Plan)
    requires j < |ch| && |ch'| == |ch|
  {
    && T.Length(p) == n && T.Fits(Sizes(ch), j, sec, p) && HonestIf(fair, has, Sizes(ch), j, sec, p)
    && ch'[j].s == Serve(ch[j].c, ch[j].s, false, wid, sec, n) && ch'[j].s.log == ch[j].s.log + Events(p, wid, sec)
    && AllHeld(ch[j].c, ch'[j].s, wid, sec, p)
    && (forall i :: 0 <= i < j ==> ch'[i] == ch[i]) && AllRead(ch, ch') && SoundFrom(ch', j + 1)
  }

  /** The driver of image j is in the middle of request wid, with [sec, sec + n) to come. */
  ghost predicate Serving(c: Config, s: Vhd, wid: nat, sec: nat, n: nat, rs: seq<Req>, pool: nat) {
    && Wid(s.log, wid, false) && InHand(c, s, wid, sec, n, rs)
    && Structure(c, s, pool) && OnDisk(c, s)
  }

  /** A turn leaves the driver serving the rest. */
  lemma TurnServing(c: Config, s: Vhd, wid: nat, sec: nat, n: nat, rs: seq<Req>, pool: nat)
    requires 0 < n && Serving(c, s, wid, sec, n, rs, pool)
    ensures var (t, k, err) := ReadTurn(c, s, wid, sec, n);
            err == 0 ==> Serving(c, t, wid, sec + k, n - k, rs, pool)
  {
    hide Structure;
    hide OnDisk;
    hide InHand;
    hide ReadTurn;
    InHandAtMost(c, s, wid, sec, n, rs);
    ReadTurnD(c, s, wid, sec, n, pool);
    TurnOk(c, s, false, wid, sec, n, pool);
    TurnGoes(c, s, false, wid, sec, n, pool);
    TurnInHand(c, s, false, wid, sec, n, rs, pool);
    var t := ReadTurn(c, s, wid, sec, n).0;
    assert t.log[wid] == s.log[wid];
  }

  lemma SpanHonest(c: Config, s: Vhd, wid: nat, sec: nat, n: nat, rs: seq<Req>, pool: nat)
    requires 0 < n && Serving(c, s, wid, sec, n, rs, pool) && Forwards(c, s, sec) && ReadTurn(c, s, wid, sec, n).2 == 0
    requires forall l: nat :: sec <= l < sec + n ==> Unwritten(c, s, l)
    ensures var k := ReadTurn(c, s, wid, sec, n).1;
            forall l: nat :: sec <= l < sec + k ==> Recover(c, s.media, l) == Absent
  {
    hide Structure;
    hide OnDisk;
    hide InHand;
    hide Recover;
    hide Unwritten;
    hide Forwards;
    hide ReadTurn;
    var k := ReadTurn(c, s, wid, sec, n).1;
    forall l: nat | sec <= l < sec + k ensures Recover(c, s.media, l) == Absent {
      TurnHonest(c, s, wid, sec, n, l, pool);
    }
  }

  /** The plan of a read of any length, over any number of images. */
  lemma {:induction false} ServeReadOk(
        ch: Chain, ready: bool, j: nat, wid: nat, sec: nat, n: nat, rs: seq<Req>, pool: nat, has: T.Holds)
    requires j < |ch| && SoundFrom(ch, j + 1) && Serving(ch[j].c, ch[j].s, wid, sec, n, rs, pool)
    ensures var (ch', p) := ServeRead(ch, ready, j, wid, sec, n);
            Served(ch, ch', has, Fair(ch, has, j, sec, n), j, wid, sec, n, p)
    decreases |ch| - j, n
  {
    hide Serving;
    hide Sound;
    hide Fair;
    hide Forwards;
    hide ReadTurn;
    hide Served;
    hide AskedBelow;
    var (c, s) := (ch[j].c, ch[j].s);
    var (ch', p) := ServeRead(ch, ready, j, wid, sec, n);
    var fair := Fair(ch, has, j, sec, n);
    if n == 0 {
      NothingServed(ch, has, fair, j, wid, sec);
    } else {
      var (t, k, err) := ReadTurn(c, s, wid, sec, n);
      if err != 0 {
        FailedServed(ch, has, fair, j, wid, sec, n);
      } else {
        var ch1 := SetState(ch, j, t);
        TurnOnlyReads(c, s, wid, sec, n);
        SetStateRead(ch, j, t);
        TurnServing(c, s, wid, sec, n, rs, pool);
        if Forwards(c, s, sec) {
          FairPart(ch, ch1, has, j, sec, n, j + 1, sec, k);
          AskBelowOk(ch1, ready, j, sec, k, has);
          var (ch2, inner) := AskBelow(ch1, ready, j, sec, k);
          AskedReads(ch1, ch2, ready, has, Fair(ch1, has, j + 1, sec, k), j, sec, k, inner);
          AllReadTrans(ch, ch1, ch2);
          FairPart(ch, ch2, has, j, sec, n, j, sec + k, n - k);
          ServeReadOk(ch2, ready, j, wid, sec + k, n - k, rs, pool, has);
          AskedIf(ch1, ch2, ready, has, Fair(ch1, has, j + 1, sec, k), fair, j, sec, k, inner);
          ServedIf(ch2, has, Fair(ch2, has, j, sec + k, n - k), fair, j, wid, sec + k, n - k,
            ServeRead(ch2, ready, j, wid, sec + k, n - k));
          ForwardServed(ch, ready, has, j, wid, sec, n, rs, pool);
        } else {
          FairPart(ch, ch1, has, j, sec, n, j, sec + k, n - k);
          ServeReadOk(ch1, ready, j, wid, sec + k, n - k, rs, pool, has);
          ServedIf(ch1, has, Fair(ch1, has, j, sec + k, n - k), fair, j, wid, sec + k, n - k,
            ServeRead(ch1, ready, j, wid, sec + k, n - k));
          HoldServed(ch, ready, has, fair, j, wid, sec, n, rs, pool);
        }
      }
    }
  }

  /** To be honest in more cases is to be honest in fewer. */
  lemma ServedIf(ch: Chain, has: T.Holds, fair: bool, fair': bool, j: nat, wid: nat, sec: nat, n: nat,
        r: (Chain, T.Plan))
    requires j < |ch| && |r.0| == |ch| && Served(ch, r.0, has, fair, j, wid, sec, n, r.1) && (fair' ==> fair)
    ensures Served(ch, r.0, has, fair', j, wid, sec, n, r.1)
  {
  }

  lemma AskedIf(
        ch: Chain, ch': Chain, ready: bool, has: T.Holds, fair: bool, fair': bool, j: nat, sec: nat, n: nat, p: T.Plan)
    requires j < |ch| && |ch'| == |ch| && AskedBelow(ch, ch', ready, has, fair, j, sec, n, p) && (fair' ==> fair)
    ensures AskedBelow(ch, ch', ready, has, fair', j, sec, n, p)
  {
  }

  lemma AskedReads(ch: Chain, ch': Chain, ready: bool, has: T.Holds, fair: bool, j: nat, sec: nat, n: nat, p: T.Plan)
    requires j < |ch| && |ch'| == |ch| && AskedBelow(ch, ch', ready, has, fair, j, sec, n, p)
    ensures AllRead(ch, ch') && SoundFrom(ch', j + 1) && ch'[j] == ch[j]
  {
  }

  lemma NothingServed(ch: Chain, has: T.Holds, fair: bool, j: nat, wid: nat, sec: nat)
    requires j < |ch| && SoundFrom(ch, j + 1)
    ensures Served(ch, ch, has, fair, j, wid, sec, 0, T.End)
  {
    hide Sound;
    assert ch[j].s.log + [] == ch[j].s.log;
  }

  lemma FailedServed(ch: Chain, has: T.Holds, fair: bool, j: nat, wid: nat, sec: nat, n: nat)
    requires j < |ch| && SoundFrom(ch, j + 1) && n > 0 && ReadTurn(ch[j].c, ch[j].s, wid, sec, n).2 != 0
    ensures var (t, _, err) := ReadTurn(ch[j].c, ch[j].s, wid, sec, n);
            Served(ch, SetState(ch, j, Emit(t, Ev.Done(false, wid, sec, n, err))), has, fair, j, wid, sec, n,
                T.Done(n, err, T.End))
  {
    hide Sound;
    hide ReadTurn;
    var (t, _, err) := ReadTurn(ch[j].c, ch[j].s, wid, sec, n);
    TurnOnlyReads(ch[j].c, ch[j].s, wid, sec, n);
    TurnLogs(ch[j].c, ch[j].s, wid, sec, n);
    var t1 := Emit(t, Ev.Done(false, wid, sec, n, err));
    SameReads(t, t1);
    ReadTrans(ch[j].s, t, t1);
    SetStateRead(ch, j, t1);
    var p := T.Done(n, err, T.End);
    assert Events(p, wid, sec) == [Ev.Done(false, wid, sec, n, err)];
    assert T.Length(p) == n;
    assert T.Fits(Sizes(ch), j, sec, p);
    assert T.Honest(has, Sizes(ch), j, sec, p);
    assert T.Honest(NOTHING, Sizes(ch), j, sec, p);
    assert AllHeld(ch[j].c, t1, wid, sec, p);
    assert t1 == Serve(ch[j].c, ch[j].s, false, wid, sec, n);
  }

  /** What AskBelow does for a forwarded span. */
  ghost predicate AskedBelow(
        ch: Chain, ch': Chain, ready: bool, has: T.Holds, fair: bool, j: nat, sec: nat, n: nat, p: T.Plan)
    requires j < |ch| && |ch'| == |ch|
  {
    && (if ready then T.FitsParent(Sizes(ch), j, sec, n, p) else p == T.End)
    && HonestIf(fair, has, Sizes(ch), j + 1, sec, p)
    && (forall i :: 0 <= i <= j ==> ch'[i] == ch[i]) && AllRead(ch, ch') && SoundFrom(ch', j + 1)
  }

  lemma {:induction false} AskBelowOk(ch: Chain, ready: bool, j: nat, sec: nat, n: nat, has: T.Holds)
    requires j < |ch| && SoundFrom(ch, j + 1)
    ensures var (ch', p) := AskBelow(ch, ready, j, sec, n);
            AskedBelow(ch, ch', ready, has, Fair(ch, has, j + 1, sec, n), j, sec, n, p)
    decreases |ch| - j, 0
  {
    hide Sound;
    hide Fair;
    hide Ask;
    AllReadSame(ch);
    if ready && j + 1 < |ch| {
      var m := T.Cut(sec, n, ch[j + 1].size);
      if m > 0 {
        FairPart(ch, ch, has, j + 1, sec, n, j + 1, sec, m);
        AskOk(ch, ready, j + 1, sec, m, has);
      }
    }
  }

  /** What a new request to image j does. */
  ghost predicate Asked(ch: Chain, ch': Chain, has: T.Holds, fair: bool, j: nat, sec: nat, n: nat, p: T.Plan)
    requires j < |ch| && |ch'| == |ch|
  {
    var (c, s) := (ch[j].c, ch[j].s);
    && T.Length(p) == n && T.Fits(Sizes(ch), j, sec, p) && HonestIf(fair, has, Sizes(ch), j, sec, p)
    && ch'[j].s == Next(c, s, Request(false, sec, n))
    && ch'[j].s.log == s.log + [Issue(false, sec, n)] + Events(p, |s.log|, sec)
    && AllHeld(c, ch'[j].s, |s.log|, sec, p)
    && (forall i :: 0 <= i < j ==> ch'[i] == ch[i]) && AllRead(ch, ch') && SoundFrom(ch', j)
  }

  lemma {:induction false} AskOk(ch: Chain, ready: bool, j: nat, sec: nat, n: nat, has: T.Holds)
    requires j < |ch| && SoundFrom(ch, j)
    ensures var (ch', p) := Ask(ch, ready, j, sec, n); Asked(ch, ch', has, Fair(ch, has, j, sec, n), j, sec, n, p)
    decreases |ch| - j, n + 1
  {
    hide Structure;
    hide Accounts;
    hide OnDisk;
    hide InHand;
    hide Fair;
    hide Serve;
    hide ServeRead;
    hide Served;
    hide OnlyRead;
    var (c, s) := (ch[j].c, ch[j].s);
    assert Sound(ch[j]);
    var pool: nat :| Structure(c, s, pool) && Accounts(c, s) && OnDisk(c, s);
    RequestInHand(c, s, false, sec, n, pool);
    var s1 := Emit(s, Issue(false, sec, n));
    var ch1 := SetState(ch, j, s1);
    SameReads(s, s1);
    SetStateRead(ch, j, s1);
    SizesSame(ch, ch1);
    FairPart(ch, ch1, has, j, sec, n, j, sec, n);
    ServeReadOk(ch1, ready, j, |s.log|, sec, n, [], pool, has);
    var fair := Fair(ch, has, j, sec, n);
    var (ch', p) := ServeRead(ch1, ready, j, |s.log|, sec, n);
    ServedIf(ch1, has, Fair(ch1, has, j, sec, n), fair, j, |s.log|, sec, n, (ch', p));
    AskedServed(ch, ch1, ch', has, fair, j, sec, n, p, pool);
  }

  lemma AskedServed(
        ch: Chain, ch1: Chain, ch': Chain, has: T.Holds, fair: bool, j: nat, sec: nat, n: nat, p: T.Plan, pool: nat)
    requires j < |ch| && ch1 == SetState(ch, j, Emit(ch[j].s, Issue(false, sec, n))) && |ch'| == |ch|
    requires Served(ch1, ch', has, fair, j, |ch[j].s.log|, sec, n, p) && Sizes(ch1) == Sizes(ch)
    requires Structure(ch[j].c, ch[j].s, pool) && Accounts(ch[j].c, ch[j].s) && OnDisk(ch[j].c, ch[j].s)
    ensures Asked(ch, ch', has, fair, j, sec, n, p)
  {
    hide Structure;
    hide Accounts;
    hide OnDisk;
    hide Serve;
    hide OnlyRead;
    hide T.Fits;
    hide T.Honest;
    hide T.Length;
    hide Events;
    hide AllHeld;
    var (c, s) := (ch[j].c, ch[j].s);
    var step := Request(false, sec, n);
    StepOk(c, s, step, pool);
    StepAccounts(c, s, step, pool);
    StepOnDisk(c, s, step, pool);
    assert ch'[j].s == Next(c, s, step);
    SameReads(s, Emit(s, Issue(false, sec, n)));
    SetStateRead(ch, j, Emit(s, Issue(false, sec, n)));
    AllReadTrans(ch, ch1, ch');
    assert Alike(ch[j], ch'[j]);
    assert Sound(ch'[j]);
  }

  lemma ForwardHonest(fair: bool, has: T.Holds, sizes: seq<nat>, j: nat, sec: nat, k: nat, ready: bool, inner: T.Plan,
          rest: T.Plan)
    requires HonestIf(fair, has, sizes, j + 1, sec, inner) && HonestIf(fair, has, sizes, j, sec + k, rest)
    requires fair ==> forall l: nat :: sec <= l < sec + k ==> !has(j, l)
    ensures HonestIf(fair, has, sizes, j, sec, T.Forward(k, ready, inner, rest))
  {
  }

  /** What the file does not hold, by what `has` says of it. */
  lemma SpanNotHeld(ch: Chain, has: T.Holds, j: nat, wid: nat, sec: nat, n: nat, rs: seq<Req>, pool: nat)
    requires j < |ch| && n > 0 && Forwards(ch[j].c, ch[j].s, sec) && ReadTurn(ch[j].c, ch[j].s, wid, sec, n).2 == 0
    requires Serving(ch[j].c, ch[j].s, wid, sec, n, rs, pool)
    ensures var k := ReadTurn(ch[j].c, ch[j].s, wid, sec, n).1;
            Fair(ch, has, j, sec, n) ==> forall l: nat :: sec <= l < sec + k ==> !has(j, l)
  {
    hide Serving;
    hide Recover;
    hide Unwritten;
    hide Forwards;
    hide ReadTurn;
    if Fair(ch, has, j, sec, n) {
      assert Calm(ch[j], sec, n);
      SpanHonest(ch[j].c, ch[j].s, wid, sec, n, rs, pool);
    }
  }

  lemma ForwardServed(
        ch: Chain, ready: bool, has: T.Holds, j: nat, wid: nat, sec: nat, n: nat, rs: seq<Req>, pool: nat)
    requires j < |ch| && n > 0 && Forwards(ch[j].c, ch[j].s, sec)
    requires Serving(ch[j].c, ch[j].s, wid, sec, n, rs, pool)
    requires var (t, k, err) := ReadTurn(ch[j].c, ch[j].s, wid, sec, n);
             var ch1 := SetState(ch, j, t);
             var (ch2, inner) := AskBelow(ch1, ready, j, sec, k);
             var (ch', rest) := ServeRead(ch2, ready, j, wid, sec + k, n - k);
             var fair := Fair(ch, has, j, sec, n);
             && err == 0 && AskedBelow(ch1, ch2, ready, has, fair, j, sec, k, inner)
             && Served(ch2, ch', has, fair, j, wid, sec + k, n - k, rest)
    ensures var (ch', p) := ServeRead(ch, ready, j, wid, sec, n);
            Served(ch, ch', has, Fair(ch, has, j, sec, n), j, wid, sec, n, p)
  {
    hide Sound;
    hide Serving;
    hide OnlyRead;
    hide Fair;
    hide HonestIf;
    hide Forwards;
    hide ReadTurn;
    hide Serve;
    hide HeldIn;
    var (c, s) := (ch[j].c, ch[j].s);
    ServeNext(c, s, wid, sec, n);
    var (t, k, _) := ReadTurn(c, s, wid, sec, n);
    var ch1 := SetState(ch, j, t);
    SpanNotHeld(ch, has, j, wid, sec, n, rs, pool);
    TurnLogs(c, s, wid, sec, n);
    TurnOnlyReads(c, s, wid, sec, n);
    SetStateRead(ch, j, t);
    var (ch2, inner) := AskBelow(ch1, ready, j, sec, k);
    var (ch', rest) := ServeRead(ch2, ready, j, wid, sec + k, n - k);
    SizesSame(ch, ch1);
    SizesSame(ch1, ch2);
    AllReadTrans(ch, ch1, ch2);
    AllReadTrans(ch, ch2, ch');
    var p := T.Forward(k, ready, inner, rest);
    ForwardHonest(Fair(ch, has, j, sec, n), has, Sizes(ch), j, sec, k, ready, inner, rest);
    assert s.log + [Ev.Forward(wid, sec, k)] + Events(rest, wid, sec + k) == s.log + Events(p, wid, sec);
  }

  lemma ServeNext(c: Config, s: Vhd, wid: nat, sec: nat, n: nat)
    requires n > 0
    ensures var (t, k, err) := ReadTurn(c, s, wid, sec, n);
            err == 0 ==> Serve(c, s, false, wid, sec, n) == Serve(c, t, false, wid, sec + k, n - k)
  {
    hide ReadTurn;
  }

  lemma SizesSame(ch: Chain, ch': Chain)
    requires AllRead(ch, ch')
    ensures Sizes(ch') == Sizes(ch)
  {
    forall i | 0 <= i < |ch| ensures Sizes(ch')[i] == Sizes(ch)[i] { assert Alike(ch[i], ch'[i]); }
  }

  lemma HoldServed(
        ch: Chain, ready: bool, has: T.Holds, fair: bool, j: nat, wid: nat, sec: nat, n: nat, rs: seq<Req>, pool: nat)
    requires j < |ch| && n > 0 && !Forwards(ch[j].c, ch[j].s, sec)
    requires Serving(ch[j].c, ch[j].s, wid, sec, n, rs, pool)
    requires var (t, k, err) := ReadTurn(ch[j].c, ch[j].s, wid, sec, n);
             var ch1 := SetState(ch, j, t);
             var (ch', rest) := ServeRead(ch1, ready, j, wid, sec + k, n - k);
             err == 0 && Served(ch1, ch', has, fair, j, wid, sec + k, n - k, rest)
    ensures var (ch', p) := ServeRead(ch, ready, j, wid, sec, n); Served(ch, ch', has, fair, j, wid, sec, n, p)
  {
    hide Sound;
    hide OnlyRead;
    hide Forwards;
    hide ReadTurn;
    hide Structure;
    hide OnDisk;
    hide InHand;
    hide Serve;
    hide HeldIn;
    hide Keeps;
    var (c, s) := (ch[j].c, ch[j].s);
    var (t, k, _) := ReadTurn(c, s, wid, sec, n);
    var ch1 := SetState(ch, j, t);
    TurnKeeps(c, s, wid, sec, n, pool);
    TurnOk(c, s, false, wid, sec, n, pool);
    ServeKeeps(c, t, wid, sec + k, n - k, pool);
    KeepsHeld(c, t, Serve(c, t, false, wid, sec + k, n - k), wid, sec, k);
    ServeNext(c, s, wid, sec, n);
    TurnLogs(c, s, wid, sec, n);
    TurnOnlyReads(c, s, wid, sec, n);
    SetStateRead(ch, j, t);
    SizesSame(ch, ch1);
    AllReadTrans(ch, ch1, ServeRead(ch1, ready, j, wid, sec + k, n - k).0);
  }

  /* ---- a request of the virtual disk ---- */

  /** Over a chain of sound images the pieces of a read have plans that fit, so that it may
      be issued; and they are honest if no write of its sectors is in flight. */
  lemma {:induction false} ChainAnswers(ch: Chain, ready: bool, r: T.VReq, has: T.Holds)
    requires |ch| > 0 && SoundFrom(ch, 0)
    ensures var (ch', plans) := PiecePlans(ch, ready, r, |r.iov|);
            && T.PlansFit(Sizes(ch), r, plans) && V.HonestPlans(NOTHING, Sizes(ch), r, plans)
            && (Fair(ch, has, 0, r.sec, T.Total(r.iov)) ==> V.HonestPlans(has, Sizes(ch), r, plans))
            && AllRead(ch, ch') && SoundFrom(ch', 0)
  {
    hide Sound;
    hide Fair;
    hide AllRead;
    hide PiecePlans;
    PiecesAnswered(ch, ready, r, |r.iov|, has);
  }

  ghost predicate PlanAt(fair: bool, has: T.Holds, sizes: seq<nat>, r: T.VReq, i: nat, p: T.Plan)
    requires i < |r.iov|
  {
    var sec := r.sec + T.Total(r.iov[..i]);
    T.Length(p) == r.iov[i] && T.Fits(sizes, 0, sec, p) && HonestIf(fair, has, sizes, 0, sec, p)
  }

  lemma {:induction false} PieceAnswered(ch: Chain, ready: bool, sec: nat, n: nat, has: T.Holds)
    requires |ch| > 0 && SoundFrom(ch, 0)
    ensures var (ch', p) := PiecePlan(ch, ready, sec, n);
            && T.Length(p) == n && T.Fits(Sizes(ch), 0, sec, p)
            && HonestIf(Fair(ch, has, 0, sec, n), has, Sizes(ch), 0, sec, p)
            && AllRead(ch, ch') && SoundFrom(ch', 0)
  {
    hide Sound;
    hide Fair;
    hide Ask;
    hide AllHeld;
    hide Events;
    hide Next;
    if n > 0 { AskOk(ch, ready, 0, sec, n, has); } else { AllReadSame(ch); }
  }

  lemma {:induction false} PiecesAnswered(ch: Chain, ready: bool, r: T.VReq, k: nat, has: T.Holds)
    requires k <= |r.iov| && |ch| > 0 && SoundFrom(ch, 0)
    ensures var (ch', plans) := PiecePlans(ch, ready, r, k);
            var fair := Fair(ch, has, 0, r.sec, T.Total(r.iov));
            && (forall i :: 0 <= i < k ==> PlanAt(fair, has, Sizes(ch), r, i, plans[i]))
            && AllRead(ch, ch') && SoundFrom(ch', 0)
    decreases k
  {
    hide SoundFrom;
    hide Fair;
    hide AllRead;
    hide PiecePlan;
    hide PlanAt;
    hide T.Total;
    if k > 0 {
      PiecesAnswered(ch, ready, r, k - 1, has);
      var (ch1, ps) := PiecePlans(ch, ready, r, k - 1);
      var sec, n := r.sec + T.Total(r.iov[..k - 1]), r.iov[k - 1];
      var (ch', plans) := PiecePlans(ch, ready, r, k);
      T.TotalTake(r.iov, k - 1);
      FairPart(ch, ch1, has, 0, r.sec, T.Total(r.iov), 0, sec, n);
      PieceAnswered(ch1, ready, sec, n, has);
      SizesSame(ch, ch1);
      AllReadTrans(ch, ch1, ch');
      PlanIs(Fair(ch, has, 0, r.sec, T.Total(r.iov)), has, Sizes(ch), r, k - 1, plans[k - 1]);
      assert forall i :: 0 <= i < k - 1 ==> plans[i] == ps[i];
    } else {
      AllReadSame(ch);
    }
  }

  lemma {:induction false} PlanIs(fair: bool, has: T.Holds, sizes: seq<nat>, r: T.VReq, i: nat, p: T.Plan)
    requires i < |r.iov| && T.Length(p) == r.iov[i]
    requires var sec := r.sec + T.Total(r.iov[..i]);
             T.Fits(sizes, 0, sec, p) && HonestIf(fair, has, sizes, 0, sec, p)
    ensures PlanAt(fair, has, sizes, r, i, p)
  {
  }

  lemma AllReadSame(ch: Chain)
    ensures AllRead(ch, ch)
  {
  }

  /** Any state of an orderly run will do. */
  lemma RunIsSound(c: Config, states: seq<Vhd>, steps: seq<Step>, pool: nat, i: nat, size: nat)
    requires Run(c, states, steps) && Opened(c, states[0], pool) && i < |states|
    requires OrderlyTo(states, steps, i)
    ensures Sound(Image(c, size, states[i]))
  {
    hide Structure;
    hide Accounts;
    hide OnDisk;
    RunStructure(c, states, steps, pool, i);
    RunOnDisk(c, states, steps, pool, i);
  }

  /** Only what the images hold of its own sectors matters to whether a plan is honest. */
  lemma {:induction false} HonestSame(has: T.Holds, has': T.Holds, sizes: seq<nat>, j: nat, sec: nat, p: T.Plan)
    requires T.Fits(sizes, j, sec, p) && T.Honest(has, sizes, j, sec, p) && j < |sizes|
    requires forall i: nat, l: nat :: i >= j && sec <= l < sec + T.Length(p) ==> has'(i, l) == has(i, l)
    ensures T.Honest(has', sizes, j, sec, p)
    decreases p
  {
    match p
    case End =>
    case Hold(n, rest) => HonestSame(has, has', sizes, j, sec + n, rest);
    case Done(n, _, rest) => HonestSame(has, has', sizes, j, sec + n, rest);
    case Forward(n, ready, inner, rest) =>
      HonestSame(has, has', sizes, j, sec + n, rest);
      if ready && j + 1 < |sizes| { HonestSame(has, has', sizes, j + 1, sec, inner); }
  }

  /* ---- a driver deals with a piece it holds ---- */

  /** What read k of the file has found is current. */
  ghost predicate AllCurrent(s: Vhd, k: nat)
    requires k < |s.raw|
  {
    var r := s.raw[k];
    r.wid < |s.log| && |r.got| == r.secs &&
    forall i :: 0 <= i < r.secs ==> Current(s.log, r.got[i], r.wid, r.sec + i)
  }

  /** A read of the file completes: the image held the sectors, and if there was no error
      the data is current. */
  lemma {:induction false} CompletionServed(ch: Chain, j: nat, k: nat, err: int, has: T.Holds, pool: nat)
    requires j < |ch| && Holdings(ch, has) && Enabled(ch[j].s, DoneOther(k, err)) && ch[j].s.raw[k].op == OpRead
    requires Structure(ch[j].c, ch[j].s, pool) && OnDisk(ch[j].c, ch[j].s)
    ensures var (s, r) := (ch[j].s, ch[j].s.raw[k]);
            var p := T.Done(r.secs, err, T.End);
            && T.Length(p) == r.secs && T.Fits(Sizes(ch), j, r.sec, p) && T.Honest(has, Sizes(ch), j, r.sec, p)
            && Next(ch[j].c, s, DoneOther(k, err)).log == s.log + Events(p, r.wid, r.sec)
            && (err == 0 ==> AllCurrent(s, k))
  {
    hide Recover;
    hide Structure;
    hide OnDisk;
    hide AllCurrent;
    hide Next;
    var (c, s) := (ch[j].c, ch[j].s);
    var r := s.raw[k];
    var p := T.Done(r.secs, err, T.End);
    RawRead(c, s, k, pool);
    if err == 0 { CompletionCurrent(c, s, k, err, pool); }
    CompletionLog(c, s, k, err);
    forall l: nat | r.sec <= l < r.sec + r.secs ensures has(j, l) { RawReadAt(c, s, k, l - r.sec, pool); }
    assert T.Length(p) == r.secs;
    assert T.Fits(Sizes(ch), j, r.sec, p);
    assert T.Honest(has, Sizes(ch), j, r.sec, p);
    assert Events(p, r.wid, r.sec) == [Ev.Done(false, r.wid, r.sec, r.secs, err)];
  }

  lemma CompletionCurrent(c: Config, s: Vhd, k: nat, err: int, pool: nat)
    requires Enabled(s, DoneOther(k, err)) && s.raw[k].op == OpRead && err == 0
    requires Structure(c, s, pool) && OnDisk(c, s)
    ensures AllCurrent(s, k)
  {
    hide Structure;
    hide OnDisk;
    hide Recover;
    hide Current;
    RawRead(c, s, k, pool);
    RawReadAt(c, s, k, 0, pool);
    forall i | 0 <= i < s.raw[k].secs ensures Current(s.log, s.raw[k].got[i], s.raw[k].wid, s.raw[k].sec + i) {
      RawReadAt(c, s, k, i, pool);
    }
  }

  lemma CompletionLog(c: Config, s: Vhd, k: nat, err: int)
    requires Enabled(s, DoneOther(k, err)) && s.raw[k].op == OpRead
    ensures var r := s.raw[k];
            Next(c, s, DoneOther(k, err)).log == s.log + [Ev.Done(false, r.wid, r.sec, r.secs, err)]
  {
    assert Next(c, s, DoneOther(k, err)).log == s.log + DoneEvs([s.raw[k].(err := err)], 0);
  }

  lemma RawRead(c: Config, s: Vhd, k: nat, pool: nat)
    requires k < |s.raw| && s.raw[k].op == OpRead && Structure(c, s, pool)
    ensures s.raw[k].secs > 0
  {
    assert s.raw[k] in s.raw && RawShape(c, s.raw[k]);
  }

  /** The state in which the i-th of the reads and writes that waited for the bitmap of
      block b is served again. */
  ghost function Woken(c: Config, s: Vhd, b: nat, i: nat): Vhd
    requires b in s.cache && i <= |s.cache[b].waiting|
  {
    var u := Replay(c, BitmapLoaded(c, s, b), s.cache[b].waiting[..i]);
    u.(free := u.free + 1)
  }

  lemma {:induction false} ReplayTo(c: Config, s: Vhd, rs: seq<Req>, i: nat, pool: nat)
    requires |rs| <= pool && i <= |rs| && Pending(c, s, rs)
    requires forall r :: r in rs ==> Wid(s.log, r.wid, r.op == OpWrite)
    requires Structure(c, s, pool - |rs|) && OnDisk(c, s)
    ensures var u := Replay(c, s, rs[..i]);
            && Structure(c, u, pool - |rs| + i) && OnDisk(c, u) && Pending(c, u, rs[i..])
            && forall r :: r in rs[i..] ==> Wid(u.log, r.wid, r.op == OpWrite)
    decreases i
  {
    hide Structure;
    hide OnDisk;
    hide Serve;
    hide InHand;
    hide Total;
    if i == 0 {
      assert rs[0..] == rs && rs[..0] == [];
    } else {
      var r := rs[0];
      var s1 := s.(free := s.free + 1);
      FreeOk(c, s, pool - |rs|);
      PoolsD(c, s, s1);
      FirstInHand(c, s, rs);
      ServeD(c, s1, r.op == OpWrite, r.wid, r.sec, r.secs, rs[1..], pool - |rs| + 1);
      ServeOk(c, s1, r.op == OpWrite, r.wid, r.sec, r.secs, pool - |rs| + 1);
      ServeGoes(c, s1, r.op == OpWrite, r.wid, r.sec, r.secs, pool - |rs| + 1);
      ServeInHand(c, s1, r.op == OpWrite, r.wid, r.sec, r.secs, rs[1..], pool - |rs| + 1);
      var t := Serve(c, s1, r.op == OpWrite, r.wid, r.sec, r.secs);
      forall q | q in rs[1..] ensures Wid(t.log, q.wid, q.op == OpWrite) {
        assert q in rs && t.log[q.wid] == s.log[q.wid];
      }
      ReplayTo(c, t, rs[1..], i - 1, pool);
      assert rs[..i][1..] == rs[1..][..i - 1] && rs[i..] == rs[1..][i - 1..];
    }
  }

  lemma {:induction false} ReplayStep(c: Config, s: Vhd, rs: seq<Req>, i: nat)
    requires i < |rs|
    ensures var u := Replay(c, s, rs[..i]);
            Replay(c, s, rs[..i + 1]) ==
              Serve(c, u.(free := u.free + 1), rs[i].op == OpWrite, rs[i].wid, rs[i].sec, rs[i].secs)
    decreases i
  {
    hide Serve;
    var t := Serve(c, s.(free := s.free + 1), rs[0].op == OpWrite, rs[0].wid, rs[0].sec, rs[0].secs);
    assert rs[..i + 1][1..] == rs[1..][..i];
    if i == 0 {
      assert rs[1..][..0] == [];
    } else {
      assert rs[..i][1..] == rs[1..][..i - 1];
      ReplayStep(c, t, rs[1..], i - 1);
    }
  }

  /** A read that waited for a bitmap is served again, whatever has been served before it,
      and honestly if the chain is fair by then. */
  lemma WokenServed(ch: Chain, ready: bool, j: nat, b: nat, i: nat, has: T.Holds, pool: nat)
    requires j < |ch| && SoundFrom(ch, j + 1) && b in ch[j].s.cache && ch[j].s.cache[b].reading
    requires i < |ch[j].s.cache[b].waiting| && ch[j].s.cache[b].waiting[i].op == OpRead
    requires Structure(ch[j].c, ch[j].s, pool) && Accounts(ch[j].c, ch[j].s) && OnDisk(ch[j].c, ch[j].s)
    ensures var (c, s) := (ch[j].c, ch[j].s);
            var r := s.cache[b].waiting[i];
            var ch1 := SetState(ch, j, Woken(c, s, b, i));
            var (ch', p) := ServeRead(ch1, ready, j, r.wid, r.sec, r.secs);
            && Served(ch1, ch', has, Fair(ch1, has, j, r.sec, r.secs), j, r.wid, r.sec, r.secs, p)
            && ch'[j].s == Replay(c, BitmapLoaded(c, s, b), s.cache[b].waiting[..i + 1])
  {
    hide Sound;
    hide Fair;
    hide ServeRead;
    hide Replay;
    hide Serving;
    hide Accounts;
    hide Structure;
    hide OnDisk;
    hide AllHeld;
    hide Serve;
    hide OnlyRead;
    hide HonestIf;
    hide T.Fits;
    hide T.Length;
    hide Events;
    hide BitmapLoaded;
    var (c, s) := (ch[j].c, ch[j].s);
    var r := s.cache[b].waiting[i];
    var ch1 := SetState(ch, j, Woken(c, s, b, i));
    WokenServing(c, s, b, i, pool);
    ServeReadOk(ch1, ready, j, r.wid, r.sec, r.secs, s.cache[b].waiting[i + 1..], WokenPool(s, b, i, pool), has);
    ReplayStep(c, BitmapLoaded(c, s, b), s.cache[b].waiting, i);
  }

  /** The number of pool requests that the lists share out by then. */
  function WokenPool(s: Vhd, b: nat, i: nat, pool: nat): nat
    requires b in s.cache
  {
    if |s.cache[b].waiting| <= pool + i then pool + i + 1 - |s.cache[b].waiting| else 0
  }

  /** Image j's driver between two of the requests that are served again. */
  lemma {:induction false} WokenAt(c: Config, s: Vhd, b: nat, i: nat, pool: nat)
    requires b in s.cache && s.cache[b].reading && i <= |s.cache[b].waiting|
    requires Structure(c, s, pool) && Accounts(c, s) && OnDisk(c, s)
    ensures var rs := s.cache[b].waiting;
            var u := Replay(c, BitmapLoaded(c, s, b), rs[..i]);
            && |rs| <= pool && Structure(c, u, pool - |rs| + i) && OnDisk(c, u) && Pending(c, u, rs[i..])
            && forall r :: r in rs[i..] ==> Wid(u.log, r.wid, r.op == OpWrite)
  {
    hide Structure;
    hide Accounts;
    hide Total;
    hide Pending;
    hide BitmapLoaded;
    hide Replay;
    AtMostOf(c, s);
    var rs := s.cache[b].waiting;
    forall r | r in rs ensures Wid(s.log, r.wid, r.op == OpWrite) { assert WaitD(s.log, s.cache[b]); }
    hide OnDisk;
    hide AtMost;
    LoadedD(c, s, b, pool);
    LoadedPending(c, s, b, pool);
    BitmapLoadedOk(c, s, b, pool);
    LoadedLog(c, s, b);
    ReplayTo(c, BitmapLoaded(c, s, b), rs, i, pool);
  }

  lemma WokenServing(c: Config, s: Vhd, b: nat, i: nat, pool: nat)
    requires b in s.cache && s.cache[b].reading && i < |s.cache[b].waiting| && s.cache[b].waiting[i].op == OpRead
    requires Structure(c, s, pool) && Accounts(c, s) && OnDisk(c, s)
    ensures var r := s.cache[b].waiting[i];
            Serving(c, Woken(c, s, b, i), r.wid, r.sec, r.secs, s.cache[b].waiting[i + 1..], WokenPool(s, b, i, pool))
  {
    hide Structure;
    hide Accounts;
    hide OnDisk;
    hide Total;
    hide InHand;
    hide Pending;
    hide BitmapLoaded;
    hide Replay;
    WokenAt(c, s, b, i, pool);
    var rs := s.cache[b].waiting;
    var u := Replay(c, BitmapLoaded(c, s, b), rs[..i]);
    assert rs[i..][0] == rs[i] && rs[i..][1..] == rs[i + 1..] && rs[i] in rs[i..];
    FirstInHand(c, u, rs[i..]);
    FreeOk(c, u, pool - |rs| + i);
    PoolsD(c, u, u.(free := u.free + 1));
  }

  lemma LoadedLog(c: Config, s: Vhd, b: nat)
    requires b in s.cache
    ensures BitmapLoaded(c, s, b).log == s.log
  {
  }
}
