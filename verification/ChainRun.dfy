/** Runs of a virtual disk over a chain of images: reads are queued, issued, answered, parked,
    forwarded, completed, failed and issued again, while the drivers do everything else they
    do, writes included. What a read gives the guest is what the images have. */
module ChainRun {
  import opened VhdTypes
  import opened VhdEngine
  import opened VhdInvariants
  import opened VhdStructure
  import opened VhdAccounting
  import opened VhdServing
  import opened VhdTracking
  import opened VhdTheorems
  import opened VhdStill
  import opened VhdChain
  import opened VhdTickets
  import opened ChainTickets
  import opened ChainStack
  import opened ChainSteps
  import opened ChainWake
  import T = TapdiskVbd
  import V = VirtualDisk

  datatype Act =
    | Join(v: nat, sec: nat, iov: seq<nat>)
    | Start(v: nat, ready: bool)
    | GiveUp(v: nat)
    | Other(j: nat, step: Step)
    | Finish(j: nat, n: nat, err: int)
    | Wake(j: nat, b: nat, err: int, readies: seq<bool>)
    | Change(stopping: bool, late: set<nat>)

  /** The guest queues a read; a new or failed one is issued, or given up when the disk is
      going down; a driver takes a step that is not about a read of the guest, writes and
      landings included; a driver completes a read of its file, or of a bitmap, with requests
      waiting; what decides on retries changes. */
  ghost predicate CanAct(d: Stack, a: Act) {
    match a
    case Join(v, _, _) => v !in d.reqs
    case Start(v, _) => v in d.reqs && (d.reqs[v].where == T.New || d.reqs[v].where == T.Failed)
    case GiveUp(v) => v in d.reqs && d.reqs[v].where == T.Failed && d.stopping
    case Other(j, step) =>
      j < |d.ch| && Enabled(d.ch[j].s, step) && Plain(d.ch[j].s, step) && Orderly(d.ch[j].s, step)
    case Finish(j, n, err) => j < |d.ch| && Enabled(d.ch[j].s, DoneOther(n, err)) && d.ch[j].s.raw[n].op == OpRead
    case Wake(j, b, err, ready) =>
      j < |d.ch| && Enabled(d.ch[j].s, DoneBitmapRead(b, err)) && |d.ch[j].s.cache[b].waiting| == |ready|
    case Change(_, _) => true
  }

  ghost function Acted(d: Stack, a: Act): Stack
    requires |d.ch| > 0 && CanAct(d, a)
  {
    match a
    case Join(v, sec, iov) => d.(reqs := d.reqs[v := T.VReq(sec, iov, 0, 0, 0, T.New, map[], 0, 0)])
    case Start(v, ready) => Started(d, v, ready)
    case GiveUp(v) => d.(reqs := d.reqs[v := T.Settle(EnvOf(d, v), d.reqs[v])])
    case Other(j, step) => Moved(d, j, step)
    case Finish(j, n, err) => Finished(d, j, n, err)
    case Wake(j, b, err, ready) => Awoken(d, j, b, err, ready)
    case Change(stopping, late) => d.(stopping := stopping, late := late)
  }

  /** Images as they are opened, and a virtual disk without requests. */
  ghost predicate Begins(d: Stack) {
    && |d.ch| > 0 && d.reqs == map[] && d.tickets == [] && d.steady == {}
    && forall j :: 0 <= j < |d.ch| ==> exists pool: nat :: Opened(d.ch[j].c, d.ch[j].s, pool)
  }

  ghost predicate StackRun(ds: seq<Stack>, acts: seq<Act>) {
    && |ds| == |acts| + 1 && Begins(ds[0])
    && forall i :: 0 <= i < |acts| ==> |ds[i].ch| > 0 && CanAct(ds[i], acts[i]) && ds[i + 1] == Acted(ds[i], acts[i])
  }

  /* ---- every state of every run is in order ---- */

  lemma OpenedSound(im: Image, pool: nat)
    requires Opened(im.c, im.s, pool)
    ensures Sound(im) && forall k :: Reads(im.c, im.s, k) == 0
  {
    hide Sound;
    hide Structure;
    RunIsSound(im.c, [im.s], [], pool, 0, im.size);
  }

  lemma BeginOk(d: Stack)
    requires Begins(d)
    ensures StackOk(d)
  {
    hide Sound;
    hide Opened;
    forall j | 0 <= j < |d.ch| ensures Sound(d.ch[j]) && forall k :: Reads(d.ch[j].c, d.ch[j].s, k) == 0 {
      var pool: nat :| Opened(d.ch[j].c, d.ch[j].s, pool);
      OpenedSound(d.ch[j], pool);
    }
    assert HeldPieces(d.tickets) == [];
  }

  lemma JoinOk(d: Stack, v: nat, sec: nat, iov: seq<nat>)
    requires StackOk(d) && v !in d.reqs
    ensures StackOk(Acted(d, Join(v, sec, iov)))
  {
    hide Sound;
    hide T.Filled;
    hide LandedOk;
    hide T.Total;
    var (d', held) := (Acted(d, Join(v, sec, iov)), HeldPieces(d.tickets));
    V.NoneHeld(Sizes(d.ch), d.reqs, held, v);
    forall w | w in d'.reqs ensures V.Quiet(d'.reqs, held, w) {
      if w != v { assert V.Quiet(d.reqs, held, w); }
    }
    forall q | q in held ensures PartOf(d'.reqs, q) { assert PartOf(d.reqs, q); }
    forall w | w in d'.reqs && w !in d'.reqs.Keys - d.steady && d'.reqs[w].where != T.New
      ensures V.FilledOne(d.seen, Sizes(d.ch), d'.reqs[w], held, w)
    {
      assert w in d.reqs && w !in d.reqs.Keys - d.steady;
    }
    forall w | w in d.steady ensures SteadyOk(d', w) { RequestSame(d, d', w); }
    forall t, r | t in d'.tickets ensures LandedOk(d', t, r) {
      assert LandedOk(d, t, r);
      LandedSame(d, d', t, r);
    }
  }

  /** Nothing has happened to request w. */
  lemma RequestSame(d: Stack, d': Stack, w: nat)
    requires SteadyOk(d, w) && w in d'.reqs && d'.reqs[w] == d.reqs[w]
    requires d'.ch == d.ch && d'.seen == d.seen && d'.tickets == d.tickets && d'.data == d.data
    ensures SteadyOk(d', w)
  {
    hide Copy;
    forall l: nat | Of(d'.reqs[w], l) ensures SteadyAt(d', w, l) { assert SteadyAt(d, w, l); }
  }

  lemma GiveUpOk(d: Stack, v: nat)
    requires StackOk(d) && CanAct(d, GiveUp(v))
    ensures StackOk(Acted(d, GiveUp(v)))
  {
    hide Sound;
    hide V.AllAtRest;
    hide V.PiecesOk;
    hide V.AllFilled;
    hide LandedOk;
    hide SteadyOk;
    hide T.Settle;
    var (d', held, env) := (Acted(d, GiveUp(v)), HeldPieces(d.tickets), EnvOf(d, v));
    V.GivenUp(env, d.reqs, held, v);
    V.GivenUpFilled(env, d.seen, d.reqs.Keys - d.steady, d.reqs, held, v);
    assert d'.reqs.Keys == d.reqs.Keys;
    SettleSame(env, d.reqs[v]);
    forall q | q in held ensures PartOf(d'.reqs, q) { assert PartOf(d.reqs, q); }
    forall w | w in d.steady ensures SteadyOk(d', w) {
      assert SteadyOk(d, w);
      SettledOk(d, d', v, w);
    }
    forall t, r | t in d'.tickets ensures LandedOk(d', t, r) {
      assert LandedOk(d, t, r);
      LandedSame(d, d', t, r);
    }
  }

  lemma SettleSame(env: T.Env, r: T.VReq)
    ensures T.Settle(env, r) == r.(where := T.Settle(env, r).where, left := T.Settle(env, r).left)
  {
  }

  lemma SettledOk(d: Stack, d': Stack, v: nat, w: nat)
    requires v in d.reqs && SteadyOk(d, w) && d' == d.(reqs := d.reqs[v := T.Settle(EnvOf(d, v), d.reqs[v])])
    ensures SteadyOk(d', w)
  {
    hide Copy;
    hide T.Settle;
    SettleSame(EnvOf(d, v), d.reqs[v]);
    forall l: nat | Of(d'.reqs[w], l) ensures SteadyAt(d', w, l) { assert SteadyAt(d, w, l); }
  }

  lemma ChangeOk(d: Stack, stopping: bool, late: set<nat>)
    requires StackOk(d)
    ensures StackOk(Acted(d, Change(stopping, late)))
  {
    hide Sound;
    hide V.AllAtRest;
    hide V.PiecesOk;
    hide V.AllFilled;
    hide LandedOk;
    var d' := Acted(d, Change(stopping, late));
    forall w | w in d.steady ensures SteadyOk(d', w) { RequestSame(d, d', w); }
    forall t, r | t in d'.tickets ensures LandedOk(d', t, r) {
      assert LandedOk(d, t, r);
      LandedSame(d, d', t, r);
    }
  }

  lemma ActOk(d: Stack, a: Act)
    requires StackOk(d) && CanAct(d, a)
    ensures StackOk(Acted(d, a))
  {
    hide Guests;
    hide Sound;
    hide Started;
    hide Moved;
    hide Finished;
    hide Awoken;
    match a
    case Join(v, sec, iov) => JoinOk(d, v, sec, iov);
    case Start(v, ready) => StartOk(d, v, ready);
    case GiveUp(v) => GiveUpOk(d, v);
    case Other(j, step) => OtherOk(d, j, step);
    case Finish(j, n, err) => FinishOk(d, j, n, err);
    case Wake(j, b, err, ready) => AwokenOk(d, j, b, err, ready);
    case Change(stopping, late) => ChangeOk(d, stopping, late);
  }

  lemma {:induction false} RunOk(ds: seq<Stack>, acts: seq<Act>, i: nat)
    requires StackRun(ds, acts) && i < |ds|
    ensures StackOk(ds[i])
    decreases i
  {
    hide StackOk;
    hide Begins;
    hide CanAct;
    hide Acted;
    if i == 0 {
      BeginOk(ds[0]);
    } else {
      RunOk(ds, acts, i - 1);
      assert CanAct(ds[i - 1], acts[i - 1]) && ds[i - 1 + 1] == Acted(ds[i - 1], acts[i - 1]);
      ActOk(ds[i - 1], acts[i - 1]);
    }
  }

  /* ---- what a read gives ---- */

  /** What the chain has of sector l from image j on: the data of the youngest image that has
      it, or zeros. */
  ghost function Shown(ch: Chain, j: nat, l: nat): Sector
    requires j < |ch|
    decreases |ch| - j
  {
    var f := Recover(ch[j].c, ch[j].s.media, l);
    if f.Present? then Data(f.w, l)
    else if j + 1 < |ch| && l < ch[j + 1].size then Shown(ch, j + 1, l)
    else Zero
  }

  /** The buffer of request v has x for sector l: zeros, or data that a file gave. */
  ghost predicate Gives(d: Stack, v: nat, l: nat, x: Sector)
    requires v in d.reqs
  {
    l in d.reqs[v].buf && match d.reqs[v].buf[l]
    case Zero => x == Sector.Zero
    case From(_) => v in d.data && l in d.data[v] && d.data[v][l] == x
  }

  lemma {:induction false} SourceShown(ch: Chain, j: nat, l: nat)
    requires j < |ch|
    ensures match T.SourceOf(HoldsOf(ch), Sizes(ch), j, l)
            case Zero => Shown(ch, j, l) == Zero
            case From(x) => j <= x < |ch| && Copy(ch[x], l, Shown(ch, j, l))
    decreases |ch| - j
  {
    hide Recover;
    if j + 1 < |ch| { SourceShown(ch, j + 1, l); }
  }

  lemma {:induction false} SourceSame(has: T.Holds, has': T.Holds, sizes: seq<nat>, j: nat, l: nat)
    requires forall i: nat :: has'(i, l) == has(i, l)
    ensures T.SourceOf(has', sizes, j, l) == T.SourceOf(has, sizes, j, l)
    decreases |sizes| - j
  {
    if j + 1 < |sizes| { SourceSame(has, has', sizes, j + 1, l); }
  }

  /** A steady read that has completed without error gives, for every sector, what the images
      have of it. */
  lemma {:induction false} ReadGives(d: Stack, v: nat, l: nat)
    requires StackOk(d) && v in d.steady && v in d.reqs && Of(d.reqs[v], l)
    requires d.reqs[v].where == T.Completed && d.reqs[v].error == 0
    ensures Gives(d, v, l, Shown(d.ch, 0, l))
  {
    hide Recover;
    hide Sound;
    hide HoldsOf;
    hide StillAt;
    hide V.AllAtRest;
    hide V.PiecesOk;
    hide T.Filled;
    hide T.Total;
    hide T.SourceOf;
    hide Shown;
    var (r, held) := (d.reqs[v], HeldPieces(d.tickets));
    assert SteadyOk(d, v) && SteadyAt(d, v, l);
    assert v !in d.reqs.Keys - d.steady;
    assert V.FilledOne(d.seen, Sizes(d.ch), r, held, v);
    V.FilledReturns(d.seen[v], Sizes(d.ch), d.reqs, held, v, l);
    SourceSame(HoldsOf(d.ch), d.seen[v], Sizes(d.ch), 0, l);
    SourceShown(d.ch, 0, l);
    NoneAwaited(d, v);
  }

  lemma NoneAwaited(d: Stack, v: nat)
    requires V.AllAtRest(d.reqs, HeldPieces(d.tickets)) && V.PiecesOk(Sizes(d.ch), d.reqs, HeldPieces(d.tickets))
    requires v in d.reqs && d.reqs[v].where != T.Pending
    ensures forall l: nat :: !T.Awaited(HeldPieces(d.tickets), v, l)
  {
    assert V.Quiet(d.reqs, HeldPieces(d.tickets), v);
    V.NothingHeld(Sizes(d.ch), d.reqs, HeldPieces(d.tickets), v);
  }

  /* ---- reads stay steady ---- */

  /** Read v is issued, or a write of one of its sectors comes in. */
  ghost predicate Unsettles(a: Act, v: nat, r: T.VReq) {
    (a.Start? && a.v == v) || (a.Other? && !SparedBy(r, a.step))
  }

  ghost predicate SameFound(ch: Chain, ch': Chain, l: nat) {
    && |ch'| == |ch| && Sizes(ch') == Sizes(ch)
    && forall x :: 0 <= x < |ch| ==>
         Recover(ch'[x].c, ch'[x].s.media, l) == Recover(ch[x].c, ch[x].s.media, l)
  }

  lemma {:induction false} ShownSame(ch: Chain, ch': Chain, j: nat, l: nat)
    requires SameFound(ch, ch', l) && j < |ch|
    ensures Shown(ch', j, l) == Shown(ch, j, l)
    decreases |ch| - j
  {
    hide Recover;
    if j + 1 < |ch| {
      ShownSame(ch, ch', j + 1, l);
      assert Sizes(ch')[j + 1] == Sizes(ch)[j + 1];
    }
  }

  /** Request v of d' is request v of d, further on, and as steady. */
  ghost predicate Onward(d: Stack, d': Stack, v: nat) {
    v in d.reqs && v in d'.reqs && T.SameRequest(d.reqs[v], d'.reqs[v]) && (v in d.steady ==> v in d'.steady)
  }

  lemma FilesFound(ch: Chain, ch': Chain, l: nat)
    requires |ch'| == |ch| && Sizes(ch') == Sizes(ch)
    requires forall x :: 0 <= x < |ch| ==> SameFile(ch[x], ch'[x])
    ensures SameFound(ch, ch', l)
  {
    hide Recover;
  }

  lemma StartSteadies(d: Stack, w: nat, ready: bool, v: nat, l: nat)
    requires StackOk(d) && CanAct(d, Start(w, ready)) && v in d.reqs && v != w
    ensures Onward(d, Started(d, w, ready), v) && SameFound(d.ch, Started(d, w, ready).ch, l)
  {
    hide Sound;
    hide Guests;
    hide Recover;
    hide PiecePlans;
    hide PiecesTickets;
    hide OnlyRead;
    hide T.Issue;
    hide StillAt;
    StartAnswered(d, w, ready);
    var ch' := Started(d, w, ready).ch;
    if Asks(d, w, ready) {
      SizesSame(d.ch, ch');
      forall x | 0 <= x < |d.ch| ensures SameFile(d.ch[x], ch'[x]) { AlikeFile(d.ch[x], ch'[x]); }
    }
    FilesFound(d.ch, ch', l);
  }

  lemma OtherSteadies(d: Stack, j: nat, step: Step, v: nat, l: nat)
    requires StackOk(d) && CanAct(d, Other(j, step)) && v in d.steady && v in d.reqs && Of(d.reqs[v], l)
    requires SparedBy(d.reqs[v], step)
    ensures Onward(d, Moved(d, j, step), v) && SameFound(d.ch, Moved(d, j, step).ch, l)
  {
    hide Sound;
    hide Guests;
    hide Recover;
    hide Still;
    hide Next;
    hide Spared;
    hide Plain;
    SteadyStill(d, v, l);
    StepUndisturbed(d.ch, j, step, l);
    SizesSet(d.ch, j, Next(d.ch[j].c, d.ch[j].s, step));
  }

  lemma FinishSteadies(d: Stack, j: nat, n: nat, err: int, v: nat, l: nat)
    requires StackOk(d) && CanAct(d, Finish(j, n, err)) && v in d.steady && v in d.reqs
    ensures Onward(d, Finished(d, j, n, err), v) && SameFound(d.ch, Finished(d, j, n, err).ch, l)
  {
    hide Sound;
    hide Guests;
    hide Recover;
    hide T.Deliver;
    GoneGuests(d, j, n, err);
    var r := d.ch[j].s.raw[n];
    var (k, d1) := (Key(r.wid, r.sec, r.secs), Gone(d, j, n, err));
    hide Next;
    FilesFound(d.ch, d1.ch, l);
    if IsHeld(d, j, k) {
      var q := d.tickets[Find(d, j, k)].q;
      T.DeliverSame(EnvOf(d1, q.v), d1.reqs[q.v], q.image, q.sec, T.Done(r.secs, err, T.End));
    }
  }

  lemma WakeOneOnward(d: Stack, j: nat, err: int, ready: bool, r: Req, v: nat)
    requires j < |d.ch| && v in d.reqs
    ensures Onward(d, WakeOne(d, j, err, ready, r), v)
  {
    hide T.Deliver;
    hide ServeRead;
    hide ServeTickets;
    hide Serve;
    hide IsHeld;
    if IsHeld(d, j, KeyOf(r)) {
      var q := d.tickets[Find(d, j, KeyOf(r))].q;
      var p := if err != 0 then T.Done(r.secs, err, T.End)
               else ServeRead(Freed(d.ch, j), ready, j, r.wid, r.sec, r.secs).1;
      T.DeliverSame(EnvOf(d, q.v), d.reqs[q.v], q.image, q.sec, p);
    }
  }

  lemma {:induction false} WakeOnward(d: Stack, j: nat, b: nat, err: int, ready: seq<bool>, i: nat, v: nat)
    requires j < |d.ch| && b in d.ch[j].s.cache && i <= |d.ch[j].s.cache[b].waiting| == |ready| && v in d.reqs
    ensures Onward(d, WakeTo(d, j, b, err, ready, i), v)
    decreases i
  {
    hide WakeOne;
    hide BitmapLoaded;
    hide FinishBitmapRead;
    if i > 0 {
      WakeOnward(d, j, b, err, ready, i - 1, v);
      var x := WakeTo(d, j, b, err, ready, i - 1);
      WakeOneOnward(x, j, err, ready[i - 1], d.ch[j].s.cache[b].waiting[i - 1], v);
    }
  }

  lemma WakeSteadies(d: Stack, j: nat, b: nat, err: int, ready: seq<bool>, v: nat, l: nat)
    requires StackOk(d) && CanAct(d, Wake(j, b, err, ready)) && v in d.steady && v in d.reqs && Of(d.reqs[v], l)
    ensures Onward(d, Awoken(d, j, b, err, ready), v) && SameFound(d.ch, Awoken(d, j, b, err, ready).ch, l)
  {
    hide Sound;
    hide Guests;
    hide Recover;
    hide Still;
    hide Next;
    hide WakeTo;
    hide UnlockCached;
    AwokenOk(d, j, b, err, ready);
    WakeOnward(d, j, b, err, ready, |ready|, v);
    SteadyStill(d, v, l);
    ImageSteps(d.ch[j], DoneBitmapRead(b, err), l);
  }

  /** A steady read stays steady, and what the images have of its sectors stays what it is,
      unless the read is issued again or a write of its sectors comes in. */
  lemma ActSteadies(d: Stack, a: Act, v: nat, l: nat)
    requires StackOk(d) && CanAct(d, a) && v in d.steady && v in d.reqs && Of(d.reqs[v], l)
    requires !Unsettles(a, v, d.reqs[v])
    ensures Onward(d, Acted(d, a), v) && SameFound(d.ch, Acted(d, a).ch, l)
  {
    hide Guests;
    hide Sound;
    hide Recover;
    hide Started;
    hide Moved;
    hide Finished;
    hide Awoken;
    hide T.Settle;
    match a
    case Join(_, _, _) =>
    case Start(w, ready) => StartSteadies(d, w, ready, v, l);
    case GiveUp(w) => SettleSame(EnvOf(d, w), d.reqs[w]);
    case Other(j, step) => OtherSteadies(d, j, step, v, l);
    case Finish(j, n, err) => FinishSteadies(d, j, n, err, v, l);
    case Wake(j, b, err, ready) => WakeSteadies(d, j, b, err, ready, v, l);
    case Change(_, _) =>
  }

  /* ---- runs ---- */

  /** Read v is issued at act a with no write of its sectors in flight, and until state i it
      is not issued again and none comes in. */
  ghost predicate Undisputed(ds: seq<Stack>, acts: seq<Act>, a: nat, i: nat, v: nat) {
    && a < i < |ds| && |ds| == |acts| + 1 && acts[a].Start? && acts[a].v == v && v in ds[a].reqs
    && StillFor(ds[a].ch, ds[a].reqs[v])
    && forall k :: a < k < i ==> !Unsettles(acts[k], v, ds[a].reqs[v])
  }

  lemma IssueSteady(d: Stack, v: nat, ready: bool, l: nat)
    requires StackOk(d) && CanAct(d, Start(v, ready)) && StillFor(d.ch, d.reqs[v])
    ensures var d' := Started(d, v, ready);
            && v in d'.steady && v in d'.reqs && T.SameRequest(d.reqs[v], d'.reqs[v]) && SameFound(d.ch, d'.ch, l)
  {
    hide Sound;
    hide Guests;
    hide Recover;
    hide PiecePlans;
    hide PiecesTickets;
    hide OnlyRead;
    hide T.Issue;
    hide T.Total;
    hide StillAt;
    StartAnswered(d, v, ready);
    var (r, ch') := (d.reqs[v].(error := 0), Started(d, v, ready).ch);
    IssueSame(EnvOf(d, v), r, ready, PiecePlans(d.ch, ready, r, |r.iov|).1);
    forall k: nat | Of(r, k) ensures StillAt(d.ch, k) { assert Of(d.reqs[v], k); }
    if Asks(d, v, ready) {
      SizesSame(d.ch, ch');
      forall x | 0 <= x < |d.ch| ensures SameFile(d.ch[x], ch'[x]) { AlikeFile(d.ch[x], ch'[x]); }
    }
    FilesFound(d.ch, ch', l);
  }

  lemma {:induction false} SteadyStays(ds: seq<Stack>, acts: seq<Act>, a: nat, i: nat, v: nat, l: nat)
    requires StackRun(ds, acts) && Undisputed(ds, acts, a, i, v) && Of(ds[a].reqs[v], l)
    ensures v in ds[i].steady && v in ds[i].reqs && T.SameRequest(ds[a].reqs[v], ds[i].reqs[v])
    ensures SameFound(ds[a].ch, ds[i].ch, l)
    decreases i
  {
    hide StackOk;
    hide Acted;
    hide Begins;
    hide Recover;
    hide StillFor;
    hide SparedBy;
    hide T.Total;
    var k := i - 1;
    RunOk(ds, acts, k);
    assert CanAct(ds[k], acts[k]) && ds[k + 1] == Acted(ds[k], acts[k]);
    if k == a {
      IssueSteady(ds[a], v, acts[a].ready, l);
      StartedIs(ds[a], acts[a]);
    } else {
      SteadyStays(ds, acts, a, k, v, l);
      SparedSame(acts[k], ds[a].reqs[v], ds[k].reqs[v], v);
      ActSteadies(ds[k], acts[k], v, l);
    }
  }

  lemma StartedIs(d: Stack, a: Act)
    requires |d.ch| > 0 && CanAct(d, a) && a.Start?
    ensures Acted(d, a) == Started(d, a.v, a.ready)
  {
    hide Started;
  }

  lemma SparedSame(a: Act, r: T.VReq, r': T.VReq, v: nat)
    requires T.SameRequest(r, r') && !Unsettles(a, v, r)
    ensures !Unsettles(a, v, r')
  {
    hide T.Total;
    if a.Other? {
      forall l: nat | Of(r', l) ensures Spared(a.step, l) { assert Of(r, l); }
    }
  }

  /** The guest reads what the chain has. In every run: a read that was issued while no write
      of its sectors was in flight, and has completed without error before another came in,
      gives for every sector the data of the youngest image that has it, or zeros where none
      has; and the images have had the same of it all along. */
  lemma {:induction false} GuestReads(ds: seq<Stack>, acts: seq<Act>, a: nat, i: nat, v: nat, l: nat)
    requires StackRun(ds, acts) && Undisputed(ds, acts, a, i, v) && Of(ds[a].reqs[v], l)
    requires v in ds[i].reqs && ds[i].reqs[v].where == T.Completed && ds[i].reqs[v].error == 0
    ensures |ds[i].ch| == |ds[a].ch| > 0 && Gives(ds[i], v, l, Shown(ds[i].ch, 0, l))
    ensures forall k :: a <= k <= i ==> |ds[k].ch| > 0 && Shown(ds[k].ch, 0, l) == Shown(ds[a].ch, 0, l)
  {
    hide Guests;
    hide Sound;
    hide Acted;
    hide CanAct;
    hide Begins;
    hide Recover;
    hide Shown;
    hide Gives;
    hide StillFor;
    hide Unsettles;
    hide T.Total;
    RunOk(ds, acts, i);
    SteadyStays(ds, acts, a, i, v, l);
    ReadGives(ds[i], v, l);
    forall k | a <= k <= i ensures |ds[k].ch| > 0 && Shown(ds[k].ch, 0, l) == Shown(ds[a].ch, 0, l) {
      RunOk(ds, acts, k);
      if a < k {
        SteadyStays(ds, acts, a, k, v, l);
        ShownSame(ds[a].ch, ds[k].ch, 0, l);
      }
    }
  }

  /* ---- there are such runs ---- */

  /** The only image holds nothing: its driver forwards the sector. */
  lemma {:induction false} EmptyServe(ch: Chain, wid: nat, sec: nat)
    requires |ch| == 1 && ch[0].s.bat == map[] && sec / ch[0].c.spb <= ch[0].c.maxBat
    ensures ServeRead(ch, true, 0, wid, sec, 1).1 == T.Forward(1, true, T.End, T.End)
  {
    var (c, s) := (ch[0].c, ch[0].s);
    var (t, k, err) := ReadTurn(c, s, wid, sec, 1);
    assert k == 1 && err == 0 && Forwards(c, s, sec);
    var ch1 := SetState(ch, 0, t);
    assert AskBelow(ch1, true, 0, sec, 1) == (ch1, T.End);
    assert ServeRead(ch1, true, 0, wid, sec + 1, 0) == (ch1, T.End);
  }

  lemma {:induction false} EmptyPlan(ch: Chain, r: T.VReq)
    requires |ch| == 1 && ch[0].s.bat == map[] && r.iov == [1] && r.sec / ch[0].c.spb <= ch[0].c.maxBat
    ensures PiecePlans(ch, true, r, 1).1 == [T.Forward(1, true, T.End, T.End)]
  {
    var s := ch[0].s;
    EmptyServe(SetState(ch, 0, Emit(s, Issue(false, r.sec, 1))), |s.log|, r.sec);
    assert r.iov[..0] == [] && PiecePlans(ch, true, r, 0) == (ch, []);
    assert Ask(ch, true, 0, r.sec, 1).1 == T.Forward(1, true, T.End, T.End);
  }

  lemma {:induction false} EmptyIssue(env: T.Env, r: T.VReq)
    requires |env.sizes| == 1 && r.iov == [1] && r.sec < env.sizes[0] && r.error == 0 && r.secsPending == 0
    ensures var r' := T.Issue(env, r, true, [T.Forward(1, true, T.End, T.End)]);
            r'.where == T.Completed && r'.error == 0
  {
  }

  /** A read of a disk whose only image holds nothing completes when it is issued. */
  lemma {:induction false} SomeRead(d: Stack, v: nat, sec: nat)
    requires Begins(d) && |d.ch| == 1 && d.ch[0].s.bat == map[] && sec < d.ch[0].size
    requires sec / d.ch[0].c.spb <= d.ch[0].c.maxBat
    ensures var d1 := Acted(d, Join(v, sec, [1]));
            CanAct(d1, Start(v, true)) &&
            var d2 := Acted(d1, Start(v, true));
            var (ds, acts) := ([d, d1, d2], [Join(v, sec, [1]), Start(v, true)]);
            && StackRun(ds, acts) && Undisputed(ds, acts, 1, 2, v) && Of(d1.reqs[v], sec)
            && v in d2.reqs && d2.reqs[v].where == T.Completed && d2.reqs[v].error == 0
  {
    hide PiecePlans;
    hide PiecesTickets;
    hide T.Issue;
    var d1 := Acted(d, Join(v, sec, [1]));
    var r := d1.reqs[v];
    EmptyPlan(d.ch, r);
    EmptyIssue(EnvOf(d1, v), r);
    assert r.(error := 0) == r;
    assert StillFor(d.ch, r);
  }
}
