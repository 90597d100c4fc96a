/** The tiocb queue (drivers/tapdisk-queue.c, the lio driver): a bounded number of
    tiocbs queued or pending, a list of deferred ones, and the merge context. io_submit
    is taken to accept everything. */
module TapdiskQueue {
  import opened IoOptimize

  /** The pool never runs dry: a record is used only by a pending tiocb. */
  lemma PoolEnough(num: nat, m: Mem, a: Abs)
    requires Ok(num, m, a)
    ensures |m.free| + |a.place| >= num
  {
    assert Used(m.io) <= a.place.Keys;
    SubsetSize(Used(m.io), a.place.Keys);
    assert |a.place| == |a.place.Keys|;
  }

  lemma SubsetSize(a: set<nat>, b: set<nat>)
    requires a <= b
    ensures |a| <= |b|
  {
    assert b == a + (b - a);
    assert |b| == |a| + |b - a|;
  }

  lemma QueuePart(m: Mem, a: Abs, q: seq<nat>, d: seq<nat>)
    requires Queue(m, a, q + d)
    ensures Queue(m, a, q)
  {
    forall i | 0 <= i < |q| ensures q[i] in m.io && q[i] !in a.place { assert (q + d)[i] == q[i]; }
    forall i, j | 0 <= i < j < |q| ensures q[i] != q[j] { assert (q + d)[i] == q[i] && (q + d)[j] == q[j]; }
  }

  lemma QueueInsert(m: Mem, a: Abs, q: seq<nat>, d: seq<nat>, id: nat)
    requires Queue(m, a, q + d) && id in m.io && id !in a.place && id !in q && id !in d
    ensures Queue(m, a, (q + [id]) + d) && Queue(m, a, q + (d + [id]))
  {
    var w := q + d;
    forall i | 0 <= i < |q| ensures w[i] == q[i] {}
    forall i | 0 <= i < |d| ensures w[|q| + i] == d[i] {}
    assert (q + [id]) + d == w[..|q|] + [id] + w[|q|..];
    assert q + (d + [id]) == w + [id];
    assert id !in w;
  }

  /** Merging the queue leaves the deferred tiocbs waiting. */
  lemma QueueRest(m: Mem, a: Abs, m': Mem, a': Abs, q: seq<nat>, d: seq<nat>)
    requires Queue(m, a, q + d) && m'.io.Keys == m.io.Keys && a'.place.Keys == a.place.Keys + Elems(q)
    ensures Queue(m', a', d) && |a'.place| == |a.place| + |q|
  {
    var w := q + d;
    forall i | 0 <= i < |d| ensures d[i] in m'.io && d[i] !in a'.place {
      assert w[|q| + i] == d[i];
      forall j | 0 <= j < |q| ensures q[j] != d[i] { assert w[j] == q[j]; }
    }
    forall i, j | 0 <= i < j < |d| ensures d[i] != d[j] { assert w[|q| + i] == d[i] && w[|q| + j] == d[j]; }
    QueuePart(m, a, q, d);
    ElemsCount(q);
    assert a.place.Keys !! Elems(q);
    assert |a'.place| == |a'.place.Keys| && |a.place| == |a.place.Keys|;
  }

  lemma UnionSize(k: set<nat>, k0: set<nat>, e: set<nat>)
    requires k == k0 + e && k0 !! e
    ensures |k| == |k0| + |e|
  {
  }

  lemma HeadsCount(a: Abs, a0: Abs, out: seq<nat>, gs: seq<seq<nat>>)
    requires Heads(a, a0, out, gs)
    ensures a.groups.Keys == a0.groups.Keys + Elems(out) && a0.groups.Keys !! Elems(out) && |Elems(out)| == |out|
  {
    HeadsDistinct(a, a0, out, gs);
    ElemsCount(out);
  }

  lemma HeadsDistinct(a: Abs, a0: Abs, out: seq<nat>, gs: seq<seq<nat>>)
    requires Heads(a, a0, out, gs)
    ensures forall i, j :: 0 <= i < j < |out| ==> out[i] != out[j]
  {
  }

  lemma GroupsSize(a: Abs, a0: Abs, out: seq<nat>, gs: seq<seq<nat>>)
    requires Heads(a, a0, out, gs)
    ensures |a.groups| == |a0.groups| + |out|
  {
    hide Heads;
    hide Elems;
    HeadsCount(a, a0, out, gs);
    UnionSize(a.groups.Keys, a0.groups.Keys, Elems(out));
  }

  /** A merged iocb leads its group. */
  ghost predicate Leads(a: Abs, g: seq<nat>) {
    g != [] && g[0] in a.groups && a.groups[g[0]] == g
  }

  lemma HeadsLead(num: nat, m: Mem, a: Abs, a0: Abs, out: seq<nat>, gs: seq<seq<nat>>)
    requires Ok(num, m, a) && Heads(a, a0, out, gs)
    ensures |out| == |gs| && forall g :: g in gs ==> Leads(a, g)
  {
    forall g | g in gs ensures Leads(a, g) {
      var k :| 0 <= k < |gs| && gs[k] == g;
      assert GroupOk(m, a, out[k]);
    }
  }

  lemma KeysKnown(num: nat, m: Mem, a: Abs)
    requires Ok(num, m, a)
    ensures m.io.Keys == a.orig.Keys
  {
  }

  lemma SubmitNone(a: Abs)
    ensures Groups(a.orig, []) == [] && a.place.Keys == a.place.Keys + Elems([])
  {
  }

  lemma ElemsInsert(q: seq<nat>, d: seq<nat>, id: nat)
    ensures Elems((q + [id]) + d) == Elems(q + d) + {id} && Elems(q + (d + [id])) == Elems(q + d) + {id}
    ensures id !in Elems(q + d) ==> id !in q && id !in d
  {
    assert forall x :: x in (q + [id]) + d <==> x in q + d || x == id;
    assert forall x :: x in q + (d + [id]) <==> x in q + d || x == id;
  }

  lemma QueueSame(m: Mem, a: Abs, m': Mem, a': Abs, q: seq<nat>)
    requires Queue(m, a, q) && m.io.Keys <= m'.io.Keys && a'.place == a.place
    ensures Queue(m', a', q)
  {
  }

  type Requests = seq<(nat, Iocb)>

  ghost function Ids(reqs: Requests): set<nat> { set k | 0 <= k < |reqs| :: reqs[k].0 }

  lemma IdsNext(reqs: Requests, i: nat)
    requires i < |reqs|
    ensures Ids(reqs[..i + 1]) == Ids(reqs[..i]) + {reqs[i].0}
    ensures reqs[..|reqs|] == reqs
  {
    var x, y := reqs[..i], reqs[..i + 1];
    forall id | id in Ids(y) ensures id in Ids(x) + {reqs[i].0} {
      var k :| 0 <= k < |y| && y[k].0 == id;
      if k < i { assert x[k] == y[k]; }
    }
    forall id | id in Ids(x) + {reqs[i].0} ensures id in Ids(y) {
      if id == reqs[i].0 { assert y[i] == reqs[i]; } else {
        var k :| 0 <= k < |x| && x[k].0 == id;
        assert y[k] == x[k];
      }
    }
  }

  /** Each id of reqs is new: not in `busy`, and named once. */
  ghost predicate Fresh(busy: set<nat>, reqs: Requests) {
    forall i :: 0 <= i < |reqs| ==> reqs[i].1.data.Own? && reqs[i].0 !in busy && reqs[i].0 !in Ids(reqs[..i])
  }

  lemma FreshAt(busy: set<nat>, reqs: Requests, i: nat)
    requires Fresh(busy, reqs) && i < |reqs|
    ensures reqs[i].1.data.Own? && reqs[i].0 !in busy + Ids(reqs[..i])
  {
  }

  lemma SameNext(io: Iocbs, io1: Iocbs, ids: set<nat>, id: nat, x: Iocb)
    requires Same(io, io1, ids)
    ensures Same(io, io1[id := x], ids + {id})
  {
  }

  /** Iocbs outside `ids` are as they were. */
  ghost predicate Same(io: Iocbs, io': Iocbs, ids: set<nat>) {
    forall x :: x in io && x !in ids ==> x in io' && io'[x] == io[x]
  }

  ghost function AllIds(more: seq<Requests>): set<nat> {
    if more == [] then {} else AllIds(more[..|more| - 1]) + Ids(more[|more| - 1])
  }

  /** The iocbs of the events from i on. */
  ghost function Later(es: seq<Event>, i: nat): set<nat> { set j | i <= j < |es| :: es[j].obj }

  /** Completion callback i queues more[i]: tiocbs that are not waiting, not pending,
      and not about to be completed by a later event. */
  ghost predicate Allowed(busy: set<nat>, es: seq<Event>, more: seq<Requests>) {
    |more| == |es| && forall i :: 0 <= i < |es| ==> Fresh(busy + AllIds(more[..i]) + Later(es, i + 1), more[i])
  }

  /** The iocbs of the events from i on are as they were prepared. */
  ghost predicate Intact(o: Iocbs, io: Iocbs, es: seq<Event>, i: nat) {
    forall j :: i <= j < |es| ==> es[j].obj in o && es[j].obj in io && io[es[j].obj] == o[es[j].obj]
  }

  ghost predicate Known(o: Iocbs, es: seq<Event>) { forall i :: 0 <= i < |es| ==> es[i].obj in o }

  lemma IntactKnown(o: Iocbs, io: Iocbs, es: seq<Event>)
    requires Intact(o, io, es, 0)
    ensures Known(o, es)
  {
  }

  lemma AllCalled(o: Iocbs, es: seq<Event>)
    requires Known(o, es)
    ensures forall i :: 0 <= i < |es| ==> CalledWith(o, es, Completions(o, es), i)
  {
    forall i | 0 <= i < |es| ensures CalledWith(o, es, Completions(o, es), i) { CompletionsAre(o, es, i); }
  }

  lemma AllowedSize(busy: set<nat>, es: seq<Event>, more: seq<Requests>)
    requires Allowed(busy, es, more)
    ensures |more| == |es|
  {
  }

  lemma AllowedAt(busy: set<nat>, es: seq<Event>, more: seq<Requests>, i: nat)
    requires Allowed(busy, es, more) && i < |es|
    ensures Fresh(busy + AllIds(more[..i]), more[i]) && Ids(more[i]) !! Later(es, i + 1)
    ensures AllIds(more[..i + 1]) == AllIds(more[..i]) + Ids(more[i])
  {
    var b := busy + AllIds(more[..i]);
    assert Fresh(b + Later(es, i + 1), more[i]);
    forall k | 0 <= k < |more[i]| ensures more[i][k].0 !in b + Later(es, i + 1) {}
    assert more[..i + 1][..i] == more[..i];
  }

  lemma IntactNext(o: Iocbs, io: Iocbs, io': Iocbs, es: seq<Event>, i: nat, ids: set<nat>)
    requires Intact(o, io, es, i) && i < |es| && Same(io, io', ids) && ids !! Later(es, i + 1)
    ensures Intact(o, io', es, i + 1)
    ensures es[i].obj in o && es[i].obj in io && io[es[i].obj] == o[es[i].obj]
  {
    forall j | i + 1 <= j < |es| ensures es[j].obj in io' && io'[es[j].obj] == o[es[j].obj] {
      assert es[j].obj in Later(es, i + 1);
    }
  }

  /** Those of the pending tiocbs that the events do not complete. */
  ghost function StillPending(a: Abs, objs: seq<nat>): set<nat> {
    set x | x in a.place && a.place[x].0 !in objs
  }

  lemma {:induction false} EventsIntact(num: nat, m: Mem, a: Abs, m': Mem, a': Abs, events: seq<Event>)
    requires Ok(num, m, a) && Ok(num, m', a') && Heard(m, a, Objs(events)) && a'.orig == a.orig
    requires Released(a', a, Objs(events))
    ensures Intact(a.orig, m'.io, SplitAll(m, a, events), 0) && a'.place.Keys == StillPending(a, Objs(events))
    ensures |a'.groups| + |events| == |a.groups|
  {
    var es := SplitAll(m, a, events);
    forall j | 0 <= j < |es|
      ensures es[j].obj in a.orig && es[j].obj in m'.io && m'.io[es[j].obj] == a.orig[es[j].obj]
    {
      SplitMember(num, m, a, events, j);
    }
    GroupsLeft(m, a, a', Objs(events));
  }

  lemma GroupsLeft(m: Mem, a: Abs, a': Abs, q: seq<nat>)
    requires Heard(m, a, q) && Released(a', a, q)
    ensures |a'.groups| + |q| == |a.groups|
  {
    hide Released;
    hide Heard;
    hide Elems;
    ReleasedCount(m, a, a', q);
    UnionSize(a.groups.Keys, a'.groups.Keys, Elems(q));
  }

  lemma ReleasedCount(m: Mem, a: Abs, a': Abs, q: seq<nat>)
    requires Heard(m, a, q) && Released(a', a, q)
    ensures a.groups.Keys == a'.groups.Keys + Elems(q) && a'.groups.Keys !! Elems(q) && |Elems(q)| == |q|
  {
    HeardDistinct(m, a, q);
    ElemsCount(q);
    GroupsSplit(m, a, a', q);
  }

  lemma GroupsSplit(m: Mem, a: Abs, a': Abs, q: seq<nat>)
    requires Heard(m, a, q) && Released(a', a, q)
    ensures a.groups.Keys == a'.groups.Keys + Elems(q) && a'.groups.Keys !! Elems(q)
  {
    forall h ensures h in a.groups.Keys <==> h in a'.groups.Keys || h in Elems(q) {
      if h in q { assert h in a.groups; }
    }
  }

  lemma HeardDistinct(m: Mem, a: Abs, q: seq<nat>)
    requires Heard(m, a, q)
    ensures forall i, j :: 0 <= i < j < |q| ==> q[i] != q[j]
  {
  }

  lemma PlaceShrinks(a: Abs, objs: seq<nat>)
    ensures StillPending(a, objs) <= a.place.Keys
  {
  }

  lemma AllIdsFirst(busy: set<nat>, more: seq<Requests>)
    ensures busy == busy + AllIds(more[..0])
  {
  }

  /** complete_tiocb: the tiocb and the error its callback is given. */
  function Completion(o: Iocbs, e: Event): (nat, int) {
    (e.obj, Outcome(e.res, if e.obj in o then o[e.obj].nbytes else 0))
  }

  function Completions(o: Iocbs, es: seq<Event>): (done: seq<(nat, int)>)
    ensures |done| == |es|
  {
    if es == [] then [] else Completions(o, es[..|es| - 1]) + [Completion(o, es[|es| - 1])]
  }

  /** Callback i hears of success just if all bytes were transferred, of the error if there was
      one, and else of EIO. */
  predicate CalledWith(o: Iocbs, es: seq<Event>, done: seq<(nat, int)>, i: nat)
    requires i < |es| && i < |done|
  {
    && es[i].obj in o && done[i].0 == es[i].obj
    && done[i].1 == if es[i].res == o[es[i].obj].nbytes then 0 else if es[i].res < 0 then es[i].res else EIO
  }

  lemma {:induction false} CompletionsAre(o: Iocbs, es: seq<Event>, i: nat)
    requires i < |es| && es[i].obj in o
    ensures CalledWith(o, es, Completions(o, es), i)
  {
    if i < |es| - 1 { CompletionsAre(o, es[..|es| - 1], i); }
  }

  lemma {:induction false} CompletionsNext(o: Iocbs, es: seq<Event>, i: nat)
    requires i < |es|
    ensures Completions(o, es[..i + 1]) == Completions(o, es[..i]) + [Completion(o, es[i])]
  {
    assert es[..i + 1][..i] == es[..i];
  }

  lemma {:induction false} CompletionsEnds(o: Iocbs, es: seq<Event>)
    ensures Completions(o, es[..0]) == [] && es[..|es|] == es
  {
  }

  lemma WaitingKept(m: Mem, a: Abs, m': Mem, a': Abs, q: seq<nat>)
    requires Queue(m, a, q) && m'.io.Keys == m.io.Keys && a'.place.Keys <= a.place.Keys
    ensures Queue(m', a', q)
  {
  }

  lemma CallbackFirst(busy: set<nat>, io: Iocbs, reqs: Requests)
    ensures Ids(reqs[..0]) == {} && busy + Ids(reqs[..0]) == busy && Same(io, io, {}) && reqs[..|reqs|] == reqs
  {
  }

  /** The tiocbs that callbacks queue, in order. */
  ghost function Named(reqs: Requests): seq<nat> {
    if reqs == [] then [] else Named(reqs[..|reqs| - 1]) + [reqs[|reqs| - 1].0]
  }

  ghost function AllNamed(more: seq<Requests>): seq<nat> {
    if more == [] then [] else AllNamed(more[..|more| - 1]) + Named(more[|more| - 1])
  }

  function Entering(room: int, ids: seq<nat>): (k: nat)
    ensures k <= |ids|
  {
    if room < 0 then 0 else if room < |ids| then room else |ids|
  }

  /** As many of ids as there is room for have joined the queue, the others are deferred. */
  ghost predicate Lined(q: seq<nat>, d: seq<nat>, q': seq<nat>, d': seq<nat>, room: int, ids: seq<nat>) {
    var k := Entering(room, ids);
    q' == q + ids[..k] && d' == d + ids[k..]
  }

  lemma LinedNone(q: seq<nat>, d: seq<nat>, room: int)
    ensures Lined(q, d, q, d, room, [])
  {
    var none: seq<nat> := [];
    assert none[..0] == none && none[0..] == none && q + none == q && d + none == d;
  }

  lemma LinedAll(q: seq<nat>, d: seq<nat>, q': seq<nat>, d': seq<nat>, room: int, ids: seq<nat>)
    requires Lined(q, d, q', d', room, ids)
    ensures var k := Entering(room, ids); q' + d' == q + ids[..k] + d + ids[k..]
  {
    var k := Entering(room, ids);
    assert q' + d' == q + ids[..k] + (d + ids[k..]);
  }

  lemma AllNamedNext(more: seq<Requests>, i: nat)
    requires i < |more|
    ensures AllNamed(more[..i + 1]) == AllNamed(more[..i]) + Named(more[i])
  {
    assert more[..i + 1][..i] == more[..i];
  }

  lemma AllNamedEnds(more: seq<Requests>)
    ensures AllNamed(more[..0]) == [] && more[..|more|] == more
  {
  }

  /** Some are queued, and then some more. */
  lemma LinedMore(q: seq<nat>, d: seq<nat>, q1: seq<nat>, d1: seq<nat>, q2: seq<nat>, d2: seq<nat>, room: int,
          ids: seq<nat>, more: seq<nat>)
    requires Lined(q, d, q1, d1, room, ids) && Lined(q1, d1, q2, d2, room - (|q1| - |q|), more)
    ensures Lined(q, d, q2, d2, room, ids + more)
  {
    var (k, n) := (Entering(room, ids), Entering(room - (|q1| - |q|), more));
    assert Entering(room, ids + more) == k + n;
    if k == |ids| {
      assert (ids + more)[..k + n] == ids + more[..n] && (ids + more)[k + n..] == more[n..];
    } else {
      assert (ids + more)[..k] == ids[..k] && (ids + more)[k..] == ids[k..] + more;
    }
  }

  class TQueue {
    const size: nat
    const ctx: Context
    var queued: seq<nat>        // the iocbs array
    var iocbsPending: int
    var tiocbsPending: int
    var deferred: seq<nat>
    var tiocbsDeferred: int
    var deferrals: nat
    ghost var ever: seq<nat>    // every tiocb that was ever deferred, in order

    ghost predicate Valid()
      reads this, ctx
    {
      && ctx.Valid() && ctx.num == size
      && tiocbsPending == |ctx.abs.place| && iocbsPending == |ctx.abs.groups|
      && tiocbsPending + |queued| <= size
      && Queue(ctx.M(), ctx.abs, queued + deferred)
      && tiocbsDeferred == |deferred| && deferrals == |ever|
      && tiocbsDeferred <= |ever| && deferred == ever[|ever| - |deferred|..]
    }

    predicate Full()
      reads this
    {
      tiocbsPending + |queued| >= size
    }

    /** How many more tiocbs may enter the queue. */
    ghost function Room(): int
      reads this
    {
      size - tiocbsPending - |queued|
    }

    /** tapdisk_init_queue. */
    constructor (size: nat)
      ensures Valid() && this.size == size && fresh(ctx) && queued == [] && deferred == []
    {
      this.size := size;
      ctx := new Context(size);
      queued, iocbsPending, tiocbsPending := [], 0, 0;
      deferred, tiocbsDeferred, deferrals, ever := [], 0, 0, [];
    }

    /** tapdisk_queue_tiocb. */
    method QueueTiocb(id: nat)
      requires Valid() && id in ctx.iocbs && id !in ctx.abs.place && id !in queued && id !in deferred
      modifies this
      ensures Valid() && tiocbsPending == old(tiocbsPending)
      ensures queued == (if old(Full()) then old(queued) else old(queued) + [id])
      ensures deferred == (if old(Full()) then old(deferred) + [id] else old(deferred))
      ensures ever == (if old(Full()) then old(ever) + [id] else old(ever))
    {
      QueueInsert(ctx.M(), ctx.abs, queued, deferred, id);
      hide Queue;
      if tiocbsPending + |queued| < size {
        queued := queued + [id];
      } else {
        assert (ever + [id])[|ever| - |deferred|..] == ever[|ever| - |deferred|..] + [id];
        deferred := deferred + [id];
        tiocbsDeferred, deferrals := tiocbsDeferred + 1, deferrals + 1;
        ever := ever + [id];
      }
    }

    /** queue_deferred_tiocb: the first deferred tiocb enters the queue. */
    method QueueFirstDeferred()
      requires Valid() && !Full() && deferred != []
      modifies this`deferred, this`queued, this`tiocbsDeferred
      ensures Valid() && |queued| == |old(queued)| + 1 && queued + deferred == old(queued + deferred)
    {
      var tiocb := deferred[0];
      assert queued + deferred == queued + [tiocb] + deferred[1..];
      deferred := deferred[1..];
      queued := queued + [tiocb];
      tiocbsDeferred := tiocbsDeferred - 1;
    }

    /** queue_deferred_tiocbs: deferred tiocbs enter in the order they were deferred,
        until the queue is full or none is left. */
    method QueueDeferred()
      requires Valid()
      modifies this`deferred, this`queued, this`tiocbsDeferred
      ensures Valid() && (Full() || deferred == [])
      ensures queued + deferred == old(queued + deferred) && |old(queued)| <= |queued|
    {
      hide Queue;
      hide Ok;
      while tiocbsPending + |queued| < size && deferred != []
        invariant Valid()
        invariant queued + deferred == old(queued + deferred) && |old(queued)| <= |queued|
        decreases size - |queued|
      {
        QueueFirstDeferred();
      }
    }

    /** tapdisk_lio_submit: the queue is merged, greedily and to the end, and submitted. */
    method Submit() returns (submitted: nat)
      requires Valid()
      modifies this, ctx
      ensures Valid() && queued == [] && deferred == old(deferred) && ever == old(ever)
      ensures tiocbsPending == old(tiocbsPending) + |old(queued)|
      ensures ctx.abs.orig == old(ctx.abs).orig && ctx.abs.place.Keys == old(ctx.abs).place.Keys + Elems(old(queued))
      ensures submitted == |Groups(ctx.abs.orig, old(queued))|
      ensures forall g :: g in Groups(ctx.abs.orig, old(queued)) ==> Leads(ctx.abs, g)
    {
      hide Ok;
      hide Queue;
      hide Heads;
      hide Groups;
      hide Flatten;
      hide Leads;
      hide Elems;
      if queued == [] {
        SubmitNone(ctx.abs);
        return 0;
      }
      ghost var m, a, q := ctx.M(), ctx.abs, queued;
      PoolEnough(size, m, a);
      QueuePart(m, a, queued, deferred);
      KeysKnown(size, m, a);
      var out, gs := ctx.Merge(queued);
      KeysKnown(size, ctx.M(), ctx.abs);
      QueueRest(m, a, ctx.M(), ctx.abs, q, deferred);
      GroupsSize(ctx.abs, a, out, gs);
      HeadsLead(size, ctx.M(), ctx.abs, a, out, gs);
      submitted := |out|;
      iocbsPending := iocbsPending + submitted;
      tiocbsPending := tiocbsPending + |queued|;
      queued := [];
      assert [] + deferred == deferred;
    }

    ghost function Busy(): set<nat>
      reads this, ctx
    {
      ctx.abs.place.Keys + Elems(queued + deferred)
    }

    /** A callback prepares a tiocb and queues it. */
    method Request(id: nat, io: Iocb)
      requires Valid() && id !in Busy() && io.data.Own?
      modifies this, ctx
      ensures Valid() && tiocbsPending == old(tiocbsPending) && old(ever) <= ever
      ensures ctx.abs.place == old(ctx.abs).place && Busy() == old(Busy()) + {id}
      ensures ctx.iocbs == old(ctx.iocbs)[id := io]
      ensures Lined(old(queued), old(deferred), queued, deferred, old(Room()), [id])
    {
      hide Ok;
      hide Queue;
      hide Elems;
      ghost var m, a := ctx.M(), ctx.abs;
      ElemsInsert(queued, deferred, id);
      ctx.Prepare(id, io);
      QueueSame(m, a, ctx.M(), ctx.abs, queued + deferred);
      QueueTiocb(id);
    }

    /** What a completion callback queues. */
    method Callback(reqs: Requests)
      requires Valid() && Fresh(Busy(), reqs)
      modifies this, ctx
      ensures Valid() && tiocbsPending == old(tiocbsPending) && old(ever) <= ever
      ensures ctx.abs.place == old(ctx.abs).place && Busy() == old(Busy()) + Ids(reqs)
      ensures Same(old(ctx.iocbs), ctx.iocbs, Ids(reqs))
      ensures Lined(old(queued), old(deferred), queued, deferred, old(Room()), Named(reqs))
    {
      hide Ids;
      hide Fresh;
      hide Same;
      hide Ok;
      hide Queue;
      hide Elems;
      hide Lined;
      ghost var busy, io0, q, d, room := Busy(), ctx.iocbs, queued, deferred, Room();
      CallbackFirst(busy, io0, reqs);
      LinedNone(q, d, room);
      for i := 0 to |reqs|
        invariant Valid() && tiocbsPending == old(tiocbsPending) && old(ever) <= ever
        invariant ctx.abs.place == old(ctx.abs).place && Busy() == busy + Ids(reqs[..i])
        invariant Same(io0, ctx.iocbs, Ids(reqs[..i]))
        invariant Lined(q, d, queued, deferred, room, Named(reqs[..i]))
      {
        assert reqs[..i + 1][..i] == reqs[..i];
        ghost var q1, d1 := queued, deferred;
        IdsNext(reqs, i);
        FreshAt(busy, reqs, i);
        var (id, io) := reqs[i];
        SameNext(io0, ctx.iocbs, Ids(reqs[..i]), id, io);
        Request(id, io);
        LinedMore(q, d, q1, d1, queued, deferred, room, Named(reqs[..i]), [id]);
      }
      assert reqs[..|reqs|] == reqs;
    }

    /** The first part of tapdisk_lio_event: events are split and no longer pending. */
    method TakeEvents(events: seq<Event>) returns (es: seq<Event>)
      requires Valid() && Heard(ctx.M(), ctx.abs, Objs(events))
      modifies this, ctx
      ensures Valid() && queued == old(queued) && deferred == old(deferred) && ever == old(ever)
      ensures es == SplitAll(old(ctx.M()), old(ctx.abs), events) && tiocbsPending == old(tiocbsPending) - |es|
      ensures ctx.abs.place.Keys == StillPending(old(ctx.abs), Objs(events))
      ensures Intact(old(ctx.abs).orig, ctx.iocbs, es, 0) && Known(old(ctx.abs).orig, es)
    {
      hide Ok;
      hide Queue;
      hide Heard;
      hide SplitAll;
      hide StillPending;
      hide Intact;
      hide Released;
      hide Known;
      ghost var m, a := ctx.M(), ctx.abs;
      es := ctx.Split(events);
      EventsIntact(size, m, a, ctx.M(), ctx.abs, events);
      IntactKnown(a.orig, ctx.iocbs, es);
      KeysKnown(size, m, a);
      KeysKnown(size, ctx.M(), ctx.abs);
      PlaceShrinks(a, Objs(events));
      WaitingKept(m, a, ctx.M(), ctx.abs, queued + deferred);
      iocbsPending := iocbsPending - |events|;
      tiocbsPending := tiocbsPending - |es|;
    }

    /** complete_tiocb for event i. */
    method CompleteOne(es: seq<Event>, more: seq<Requests>, i: nat, ghost o: Iocbs, ghost busy: set<nat>)
      returns (completion: (nat, int))
      requires Valid() && i < |es| == |more| && Allowed(busy, es, more)
      requires Busy() == busy + AllIds(more[..i]) && Intact(o, ctx.iocbs, es, i)
      modifies this, ctx
      ensures Valid() && old(ever) <= ever && tiocbsPending == old(tiocbsPending)
      ensures Busy() == busy + AllIds(more[..i + 1]) && Intact(o, ctx.iocbs, es, i + 1)
      ensures completion == Completion(o, es[i]) && es[i].obj in o
      ensures completion.1 == if es[i].res == o[es[i].obj].nbytes then 0 else if es[i].res < 0 then es[i].res else EIO
      ensures Lined(old(queued), old(deferred), queued, deferred, old(Room()), Named(more[i]))
    {
      hide Ok;
      hide Queue;
      hide Elems;
      hide Allowed;
      hide Intact;
      hide AllIds;
      AllowedAt(busy, es, more, i);
      ghost var io := ctx.iocbs;
      IntactNext(o, io, io, es, i, {});
      var e := es[i];
      completion := (e.obj, Outcome(e.res, ctx.iocbs[e.obj].nbytes));
      Callback(more[i]);
      IntactNext(o, io, ctx.iocbs, es, i, Ids(more[i]));
    }

    /** The loop of tapdisk_lio_event: completions, whose callbacks queue more. */
    method CompleteAll(es: seq<Event>, more: seq<Requests>, ghost o: Iocbs) returns (done: seq<(nat, int)>)
      requires Valid() && Intact(o, ctx.iocbs, es, 0) && Allowed(Busy(), es, more)
      modifies this, ctx
      ensures Valid() && old(ever) <= ever && tiocbsPending == old(tiocbsPending)
      ensures done == Completions(o, es)
      ensures Lined(old(queued), old(deferred), queued, deferred, old(Room()), AllNamed(more))
    {
      hide Ok;
      hide Queue;
      hide Elems;
      hide Allowed;
      hide Intact;
      hide AllIds;
      hide Completion;
      hide Completions;
      hide Lined;
      hide Named;
      hide AllNamed;
      hide Entering;
      CompletionsEnds(o, es);
      done := [];
      ghost var busy, q, d, room := Busy(), queued, deferred, Room();
      LinedNone(q, d, room);
      AllNamedEnds(more);
      AllowedSize(busy, es, more);
      AllIdsFirst(busy, more);
      for i := 0 to |es|
        invariant Valid() && old(ever) <= ever && tiocbsPending == old(tiocbsPending)
        invariant Busy() == busy + AllIds(more[..i]) && Intact(o, ctx.iocbs, es, i)
        invariant done == Completions(o, es[..i])
        invariant Lined(q, d, queued, deferred, room, AllNamed(more[..i]))
      {
        AllNamedNext(more, i);
        ghost var q1, d1 := queued, deferred;
        var completion := CompleteOne(es, more, i, o, busy);
        LinedMore(q, d, q1, d1, queued, deferred, room, AllNamed(more[..i]), Named(more[i]));
        CompletionsNext(o, es, i);
        done := done + [completion];
      }
    }

    /** tapdisk_lio_event: every tiocb of the finished iocbs is completed, once, with its
        group's outcome, while callbacks queue more; then deferred tiocbs move up. What the
        callbacks queue goes ahead of what was deferred before, as far as there is room. */
    method Completed(events: seq<Event>, more: seq<Requests>) returns (done: seq<(nat, int)>)
      requires Valid() && Heard(ctx.M(), ctx.abs, Objs(events))
      requires Allowed(StillPending(ctx.abs, Objs(events)) + Elems(queued + deferred),
                 SplitAll(ctx.M(), ctx.abs, events), more)
      modifies this, ctx
      ensures Valid() && (Full() || deferred == []) && old(ever) <= ever
      ensures var es := SplitAll(old(ctx.M()), old(ctx.abs), events);
              && done == Completions(old(ctx.abs).orig, es) && tiocbsPending == old(tiocbsPending) - |es|
              && (forall i :: 0 <= i < |es| ==> CalledWith(old(ctx.abs).orig, es, done, i))
              && var ids := AllNamed(more);
              var k := Entering(old(Room()) + |es|, ids);
              queued + deferred == old(queued) + ids[..k] + old(deferred) + ids[k..]
    {
      hide Ok;
      hide Queue;
      hide Heard;
      hide Elems;
      hide SplitAll;
      hide StillPending;
      hide Allowed;
      hide Intact;
      hide Lined;
      hide Known;
      hide CalledWith;
      hide Completions;
      hide AllNamed;
      hide Entering;
      ghost var o := ctx.abs.orig;
      ghost var q, d := queued, deferred;
      var es := TakeEvents(events);
      ghost var room := Room();
      done := CompleteAll(es, more, o);
      AllCalled(o, es);
      LinedAll(q, d, queued, deferred, room, AllNamed(more));
      QueueDeferred();
    }
  }
}
