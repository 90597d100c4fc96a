/** I/O coalescing (drivers/io-optimize.c): contiguous iocbs become one, through a
    fixed pool of records that remember each iocb as it was. Addresses are numbers. */
module IoOptimize {

  const EIO := -5

  /** What an iocb's data pointer refers to: its owner's cookie, or a pool record. */
  datatype Cookie = Own(arg: nat) | Pool(op: nat)

  datatype Iocb = Iocb(fd: int, opcode: int, buf: int, nbytes: nat, offset: int, data: Cookie)

  /** A pool record; `next` is -1 at the end of a list, `tail` is kept in the head only. */
  datatype Opio = Opio(buf: int, nbytes: nat, offset: int, data: Cookie, iocb: nat, next: int, tail: nat)

  const ZeroOpio := Opio(0, 0, 0, Own(0), 0, -1, 0)

  datatype Event = Event(obj: nat, res: int)

  type Iocbs = map<nat, Iocb>

  /** The context: all iocbs, the pool records, and the stack of free ones. */
  datatype Mem = Mem(io: Iocbs, ops: seq<Opio>, free: seq<nat>)

  /** What it stands for: the iocbs as they were prepared, the group of each merged
      iocb, and the group and place of each member. */
  datatype Abs = Abs(orig: Iocbs, groups: map<nat, seq<nat>>, place: map<nat, (nat, nat)>)

  /* ---- what merging means ---- */

  predicate Adjoins(l: Iocb, r: Iocb) {
    l.opcode == r.opcode && l.fd == r.fd && l.offset + l.nbytes == r.offset && l.buf + l.nbytes == r.buf
  }

  /** Bytes of all iocbs of g together. */
  function Bytes(o: Iocbs, g: seq<nat>): nat {
    if g == [] then 0 else Bytes(o, g[..|g| - 1]) + (if g[|g| - 1] in o then o[g[|g| - 1]].nbytes else 0)
  }

  /** The iocb that stands for all of g. */
  function Whole(o: Iocbs, g: seq<nat>): Iocb
    requires g != [] && g[0] in o
  {
    o[g[0]].(nbytes := Bytes(o, g))
  }

  /** Each member continues, in the file and in memory, where those before it end. */
  ghost predicate Contiguous(o: Iocbs, g: seq<nat>) {
    g != [] && (forall i :: 0 <= i < |g| ==> g[i] in o) &&
    forall i :: 0 < i < |g| ==> Adjoins(Whole(o, g[..i]), o[g[i]])
  }

  /** The greedy grouping of a queue: an iocb joins the last group if it continues it. */
  function Groups(o: Iocbs, q: seq<nat>): (gs: seq<seq<nat>>)
    ensures q != [] ==> gs != []
    ensures forall i :: 0 <= i < |gs| ==> gs[i] != []
    ensures |gs| <= |q|
  {
    if q == [] then []
    else
      var id := q[|q| - 1];
      var gs := Groups(o, q[..|q| - 1]);
      if gs != [] && gs[|gs| - 1][0] in o && id in o && Adjoins(Whole(o, gs[|gs| - 1]), o[id])
      then gs[..|gs| - 1] + [gs[|gs| - 1] + [id]]
      else gs + [[id]]
  }

  function Flatten<T>(gs: seq<seq<T>>): seq<T> {
    if gs == [] then [] else Flatten(gs[..|gs| - 1]) + gs[|gs| - 1]
  }

  lemma {:induction false} FlattenLast<T>(gs: seq<seq<T>>, g: seq<T>)
    ensures Flatten(gs + [g]) == Flatten(gs) + g
  {
    assert (gs + [g])[..|gs|] == gs;
  }

  /** Nothing is lost or reordered by grouping. */
  lemma {:induction false} GroupsFlatten(o: Iocbs, q: seq<nat>)
    ensures Flatten(Groups(o, q)) == q
  {
    if q != [] {
      var id := q[|q| - 1];
      var gs := Groups(o, q[..|q| - 1]);
      GroupsFlatten(o, q[..|q| - 1]);
      assert q == q[..|q| - 1] + [id];
      if |Groups(o, q)| == |gs| {
        FlattenLast(gs[..|gs| - 1], gs[|gs| - 1] + [id]);
        assert Flatten(gs) == Flatten(gs[..|gs| - 1]) + gs[|gs| - 1];
      } else {
        FlattenLast(gs, [id]);
      }
    }
  }

  ghost predicate Maximal(o: Iocbs, gs: seq<seq<nat>>) {
    && (forall i :: 0 <= i < |gs| ==> Contiguous(o, gs[i]))
    && (forall i :: 0 <= i < |gs| - 1 ==> !Adjoins(Whole(o, gs[i]), o[gs[i + 1][0]]))
  }

  /** Every group is contiguous, and no group could have absorbed the next. */
  lemma {:induction false} GroupsMaximal(o: Iocbs, q: seq<nat>)
    requires forall id :: id in q ==> id in o
    ensures Maximal(o, Groups(o, q))
  {
    if q != [] {
      var id := q[|q| - 1];
      var gs := Groups(o, q[..|q| - 1]);
      GroupsMaximal(o, q[..|q| - 1]);
      if |Groups(o, q)| == |gs| { MaximalJoin(o, gs, id); } else { MaximalMore(o, gs, id); }
    }
  }

  lemma MaximalJoin(o: Iocbs, gs: seq<seq<nat>>, id: nat)
    requires Maximal(o, gs) && gs != [] && id in o && Adjoins(Whole(o, gs[|gs| - 1]), o[id])
    ensures Maximal(o, gs[..|gs| - 1] + [gs[|gs| - 1] + [id]])
  {
    ContiguousMore(o, gs[|gs| - 1], id);
  }

  lemma MaximalMore(o: Iocbs, gs: seq<seq<nat>>, id: nat)
    requires Maximal(o, gs) && id in o
    requires gs != [] ==> !Adjoins(Whole(o, gs[|gs| - 1]), o[id])
    ensures Maximal(o, gs + [[id]])
  {
    assert Contiguous(o, [id]);
  }

  lemma {:induction false} ContiguousMore(o: Iocbs, g: seq<nat>, id: nat)
    requires Contiguous(o, g) && id in o && Adjoins(Whole(o, g), o[id])
    ensures Contiguous(o, g + [id])
    ensures Bytes(o, g + [id]) == Bytes(o, g) + o[id].nbytes
  {
    var g' := g + [id];
    assert g'[..|g|] == g;
    forall i | 0 < i < |g'| ensures Adjoins(Whole(o, g'[..i]), o[g'[i]]) {
      assert g'[..i] == g[..i];
    }
  }

  /* ---- how a merged group lies in memory ---- */

  function NextOf(io: Iocbs, g: seq<nat>, i: nat): int {
    if i + 1 < |g| && g[i + 1] in io && io[g[i + 1]].data.Pool? then io[g[i + 1]].data.op else -1
  }

  /** Member i of g is recorded in the pool as it was before the merge. */
  ghost predicate Linked(io: Iocbs, ops: seq<Opio>, o: Iocbs, g: seq<nat>, i: nat)
    requires i < |g|
  {
    var id := g[i];
    && id in io && id in o && io[id].data.Pool? && io[id].data.op < |ops|
    && (var op := ops[io[id].data.op];
        op == Opio(o[id].buf, o[id].nbytes, o[id].offset, o[id].data, id, NextOf(io, g, i), op.tail))
    && io[id] == o[id].(data := io[id].data, nbytes := if i == 0 then Bytes(o, g) else o[id].nbytes)
  }

  /** g[0] stands for the iocbs of g, which were as in o. */
  ghost predicate Merged(io: Iocbs, ops: seq<Opio>, o: Iocbs, g: seq<nat>) {
    && g != [] && (forall i :: 0 <= i < |g| ==> g[i] in io) && g[0] in o
    && if io[g[0]].data.Own? then |g| == 1 && io[g[0]] == o[g[0]]
       else (forall i :: 0 <= i < |g| ==> Linked(io, ops, o, g, i)) &&
            io[g[0]].data.op < |ops| && io[g[|g| - 1]].data.Pool? &&
              ops[io[g[0]].data.op].tail == io[g[|g| - 1]].data.op
  }

  lemma MergedFrame(io: Iocbs, ops: seq<Opio>, io': Iocbs, ops': seq<Opio>, o: Iocbs, g: seq<nat>)
    requires Merged(io, ops, o, g) && |ops'| == |ops|
    requires forall i :: 0 <= i < |g| ==> g[i] in io' && g[i] in io && io'[g[i]] == io[g[i]]
    requires forall i :: 0 <= i < |g| && io[g[i]].data.Pool? && io[g[i]].data.op < |ops| ==>
               ops'[io[g[i]].data.op] == ops[io[g[i]].data.op]
    ensures Merged(io', ops', o, g)
  {
    if io[g[0]].data.Pool? {
      forall i | 0 <= i < |g| ensures Linked(io', ops', o, g, i) {
        assert Linked(io, ops, o, g, i);
        assert NextOf(io', g, i) == NextOf(io, g, i);
      }
      assert Linked(io, ops, o, g, 0);
    }
  }

  ghost function Used(io: Iocbs): set<nat> { set id | id in io && io[id].data.Pool? }

  /** Iocbs that refer to the pool refer to distinct live records; all others are free. */
  ghost predicate PoolOk(num: nat, m: Mem) {
    && |m.ops| == num
    && (forall i :: 0 <= i < |m.free| ==> m.free[i] < num && m.ops[m.free[i]].next == -1)
    && (forall i, j :: 0 <= i < j < |m.free| ==> m.free[i] != m.free[j])
    && (forall id :: id in m.io && m.io[id].data.Pool? ==> Live(m, id))
    && |Used(m.io)| + |m.free| == num
  }

  ghost predicate Live(m: Mem, id: nat)
    requires id in m.io && m.io[id].data.Pool?
  {
    var p := m.io[id].data.op;
    p < |m.ops| && p !in m.free && m.ops[p].iocb == id
  }

  /** The group of h lies in memory as it should, and its members know their place. */
  ghost predicate GroupOk(m: Mem, a: Abs, h: nat)
    requires h in a.groups
  {
    var g := a.groups[h];
    && Merged(m.io, m.ops, a.orig, g) && Contiguous(a.orig, g)
    && g[0] == h && (forall i :: 0 <= i < |g| ==> g[i] in a.place && a.place[g[i]] == (h, i))
  }

  ghost predicate Member(a: Abs, x: nat)
    requires x in a.place
  {
    var (h, i) := a.place[x];
    h in a.groups && i < |a.groups[h]| && a.groups[h][i] == x
  }

  ghost predicate OrigOk(m: Mem, a: Abs) {
    && m.io.Keys == a.orig.Keys && a.place.Keys <= a.orig.Keys
    && (forall x :: x in a.orig ==> a.orig[x].data.Own?)
    && (forall x :: x in m.io && x !in a.place ==> m.io[x] == a.orig[x])
  }

  ghost predicate Ok(num: nat, m: Mem, a: Abs) {
    && PoolOk(num, m) && OrigOk(m, a)
    && (forall h {:trigger GroupOk(m, a, h)} :: h in a.groups ==> GroupOk(m, a, h))
    && (forall x {:trigger Member(a, x)} :: x in a.place ==> Member(a, x))
  }

  /* ---- steps ---- */

  function Prepared(m: Mem, id: nat, io: Iocb): Mem { m.(io := m.io[id := io]) }

  /** A record for iocb id; `next` is left as the pool has it. */
  function Alloc(m: Mem, id: nat): Mem
    requires m.free != [] && id in m.io && m.free[|m.free| - 1] < |m.ops|
  {
    var io := m.io[id];
    var p := m.free[|m.free| - 1];
    Mem(m.io[id := io.(data := Pool(p))],
        m.ops[p := Opio(io.buf, io.nbytes, io.offset, io.data, id, m.ops[p].next, p)],
        m.free[..|m.free| - 1])
  }

  /** The end of merge_tail. */
  function Link(m: Mem, h: nat, id: nat): Mem
    requires h in m.io && id in m.io && m.io[h].data.Pool? && m.io[id].data.Pool?
    requires m.io[h].data.op < |m.ops| && m.ops[m.io[h].data.op].tail < |m.ops|
  {
    var head, op := m.io[h].data.op, m.io[id].data.op;
    var ops := m.ops[m.ops[head].tail := m.ops[m.ops[head].tail].(next := op)];
    m.(io := m.io[h := m.io[h].(nbytes := m.io[h].nbytes + m.io[id].nbytes)],
       ops := ops[head := ops[head].(tail := op)])
  }

  function Joined(a: Abs, h: nat, id: nat): Abs
    requires h in a.groups
  {
    a.(groups := a.groups[h := a.groups[h] + [id]], place := a.place[id := (h, |a.groups[h]|)])
  }

  lemma AllocPool(num: nat, m: Mem, id: nat)
    requires PoolOk(num, m) && m.free != [] && id in m.io && m.io[id].data.Own?
    ensures PoolOk(num, Alloc(m, id))
  {
    var m' := Alloc(m, id);
    assert Used(m'.io) == Used(m.io) + {id};
    forall x | x in m'.io && m'.io[x].data.Pool? ensures Live(m', x) {
      if x != id { assert Live(m, x); }
    }
  }

  /** Groups whose iocbs and records are as before. */
  lemma GroupFrame(m: Mem, m': Mem, a: Abs, a': Abs, h: nat)
    requires h in a.groups && GroupOk(m, a, h) && |m'.ops| == |m.ops|
    requires h in a'.groups && a'.groups[h] == a.groups[h] && a'.orig == a.orig
    requires forall i :: 0 <= i < |a.groups[h]| ==> KeptAt(m, m', a, a', h, i)
    ensures GroupOk(m', a', h)
  {
    var g := a.groups[h];
    forall i | 0 <= i < |g|
      ensures g[i] in a'.place && a'.place[g[i]] == (h, i) && g[i] in m.io && g[i] in m'.io && m'.io[g[i]] == m.io[g[i]]
    {
      assert KeptAt(m, m', a, a', h, i);
    }
    forall i | 0 <= i < |g| && m.io[g[i]].data.Pool? && m.io[g[i]].data.op < |m.ops|
      ensures m'.ops[m.io[g[i]].data.op] == m.ops[m.io[g[i]].data.op]
    {
      assert KeptAt(m, m', a, a', h, i);
    }
    MergedFrame(m.io, m.ops, m'.io, m'.ops, a.orig, g);
  }

  /** Member i of group h, its record and its place are the same in both. */
  ghost predicate KeptAt(m: Mem, m': Mem, a: Abs, a': Abs, h: nat, i: nat)
    requires h in a.groups && i < |a.groups[h]| && |m'.ops| == |m.ops|
  {
    var x := a.groups[h][i];
    && x in a'.place && a'.place[x] == (h, i)
    && x in m.io && x in m'.io && m'.io[x] == m.io[x]
    && (m.io[x].data.Pool? && m.io[x].data.op < |m.ops| ==> m'.ops[m.io[x].data.op] == m.ops[m.io[x].data.op])
  }

  lemma AllocGroups(num: nat, m: Mem, a: Abs, h: nat, x: nat)
    requires Ok(num, m, a) && m.free != [] && x in m.io && m.io[x].data.Own? && h in a.groups
    requires x in a.place ==> a.place[x].1 == 0
    ensures GroupOk(Alloc(m, x), a, h)
  {
    var m' := Alloc(m, x);
    assert GroupOk(m, a, h);
    if h == x {
      assert a.groups[h] == [h];
      assert Linked(m'.io, m'.ops, a.orig, [h], 0);
    } else {
      if x in a.place { assert Member(a, x); assert GroupOk(m, a, a.place[x].0); }
      forall i | 0 <= i < |a.groups[h]| ensures KeptAt(m, m', a, a, h, i) {
        var y := a.groups[h][i];
        assert m.io[y].data.Pool? ==> Live(m, y);
      }
      GroupFrame(m, m', a, a, h);
    }
  }

  lemma AllocOk(num: nat, m: Mem, a: Abs, h: nat)
    requires Ok(num, m, a) && m.free != [] && h in a.groups && h in m.io && m.io[h].data.Own?
    ensures Ok(num, Alloc(m, h), a)
  {
    assert GroupOk(m, a, h);
    AllocPool(num, m, h);
    forall x | x in a.groups ensures GroupOk(Alloc(m, h), a, x) { AllocGroups(num, m, a, x, h); }
  }

  /** What merge_tail works on: h leads a group, id has a record and no group yet. */
  ghost predicate Ready(num: nat, m: Mem, a: Abs, h: nat, id: nat) {
    && h in a.groups && GroupOk(m, a, h) && PoolOk(num, m)
    && id in m.io && id in a.orig && id !in a.place && m.io[h].data.Pool? && m.io[id].data.Pool?
    && m.io[id] == a.orig[id].(data := m.io[id].data) && a.orig[id].data.Own?
    && Live(m, id) && Live(m, h)
    && (var io := a.orig[id];
        m.ops[m.io[id].data.op] == Opio(io.buf, io.nbytes, io.offset, io.data, id, -1, m.io[id].data.op))
    && Adjoins(m.io[h], m.io[id])
  }

  lemma LinkPool(num: nat, m: Mem, a: Abs, h: nat, id: nat)
    requires Ready(num, m, a, h, id)
    ensures m.ops[m.io[h].data.op].tail < |m.ops|
    ensures PoolOk(num, Link(m, h, id))
  {
    var g := a.groups[h];
    assert Linked(m.io, m.ops, a.orig, g, 0) && Linked(m.io, m.ops, a.orig, g, |g| - 1);
    var m' := Link(m, h, id);
    assert Used(m'.io) == Used(m.io);
    assert Live(m, g[|g| - 1]);
    forall x | x in m'.io && m'.io[x].data.Pool? ensures Live(m', x) { assert Live(m, x); }
  }

  lemma LinkJoins(num: nat, m: Mem, a: Abs, h: nat, id: nat)
    requires Ready(num, m, a, h, id) && m.ops[m.io[h].data.op].tail < |m.ops|
    ensures GroupOk(Link(m, h, id), Joined(a, h, id), h)
  {
    var g := a.groups[h];
    var g' := g + [id];
    var m' := Link(m, h, id);
    assert Linked(m.io, m.ops, a.orig, g, 0) && Linked(m.io, m.ops, a.orig, g, |g| - 1);
    ContiguousMore(a.orig, g, id);
    forall i | 0 <= i < |g'| ensures Linked(m'.io, m'.ops, a.orig, g', i) {
      if i < |g| { LinkJoinsAt(num, m, a, h, id, i); } else { LinkNew(num, m, a, h, id); }
    }
  }

  lemma LinkJoinsAt(num: nat, m: Mem, a: Abs, h: nat, id: nat, i: nat)
    requires Ready(num, m, a, h, id) && m.ops[m.io[h].data.op].tail < |m.ops| && i < |a.groups[h]|
    ensures var m' := Link(m, h, id); Linked(m'.io, m'.ops, a.orig, a.groups[h] + [id], i)
  {
    var g := a.groups[h];
    var last := g[|g| - 1];
    assert Linked(m.io, m.ops, a.orig, g, 0) && Linked(m.io, m.ops, a.orig, g, |g| - 1) && Live(m, last);
    ContiguousMore(a.orig, g, id);
    assert Linked(m.io, m.ops, a.orig, g, i) && Live(m, g[i]);
    assert i + 1 < |g| ==> Linked(m.io, m.ops, a.orig, g, i + 1);
    assert a.place[g[i]] == (h, i) && a.place[last] == (h, |g| - 1);
    hide Contiguous;
    LinkMember(m, a.orig, g, id, i);
  }

  lemma LinkNew(num: nat, m: Mem, a: Abs, h: nat, id: nat)
    requires Ready(num, m, a, h, id) && m.ops[m.io[h].data.op].tail < |m.ops|
    ensures var m' := Link(m, h, id); Linked(m'.io, m'.ops, a.orig, a.groups[h] + [id], |a.groups[h]|)
  {
    var g := a.groups[h];
    var last := g[|g| - 1];
    assert Linked(m.io, m.ops, a.orig, g, |g| - 1) && Live(m, last);
    assert a.place[last] == (h, |g| - 1);
  }

  lemma {:induction false} LinkMember(m: Mem, o: Iocbs, g: seq<nat>, id: nat, i: nat)
    requires i < |g| && Linked(m.io, m.ops, o, g, i) && id in m.io && id != g[i] && id in o
    requires g[0] in m.io && m.io[g[0]].data.Pool? && m.io[id].data.Pool? && m.io[id].nbytes == o[id].nbytes
    requires i + 1 < |g| ==> g[i + 1] in m.io && m.io[g[i + 1]].data.Pool?
    requires m.io[g[0]].data.op < |m.ops| && m.ops[m.io[g[0]].data.op].tail < |m.ops|
    requires g[i] == g[0] <==> i == 0
    requires m.io[g[i]].data.op == m.io[g[0]].data.op <==> i == 0
    requires m.io[g[i]].data.op == m.ops[m.io[g[0]].data.op].tail <==> i == |g| - 1
    requires Bytes(o, g + [id]) == Bytes(o, g) + o[id].nbytes
    ensures var m' := Link(m, g[0], id); Linked(m'.io, m'.ops, o, g + [id], i)
  {
    var g' := g + [id];
    assert g'[i] == g[i] && (i + 1 < |g| ==> g'[i + 1] == g[i + 1]);
    assert NextOf(Link(m, g[0], id).io, g', i) == if i == |g| - 1 then m.io[id].data.op else NextOf(m.io, g, i);
  }

  lemma LinkOthers(num: nat, m: Mem, a: Abs, h: nat, id: nat, x: nat)
    requires Ready(num, m, a, h, id) && m.ops[m.io[h].data.op].tail < |m.ops|
    requires x in a.groups && GroupOk(m, a, x) && x != h
    ensures GroupOk(Link(m, h, id), Joined(a, h, id), x)
  {
    var g := a.groups[h];
    var m' := Link(m, h, id);
    assert Linked(m.io, m.ops, a.orig, g, |g| - 1) && Live(m, g[|g| - 1]);
    assert forall i :: 0 <= i < |a.groups[x]| ==> a.groups[x][i] in m.io;
    assert a.place[g[|g| - 1]].0 == h && a.place[g[0]].0 == h;
    hide Merged;
    hide Linked;
    hide Contiguous;
    forall i | 0 <= i < |a.groups[x]| ensures KeptAt(m, m', a, Joined(a, h, id), x, i) {
      var y := a.groups[x][i];
      assert a.place[y] == (x, i);
      assert m.io[y].data.Pool? ==> Live(m, y);
    }
    GroupFrame(m, m', a, Joined(a, h, id), x);
  }

  lemma LinkOk(num: nat, m: Mem, a: Abs, h: nat, id: nat)
    requires Ready(num, m, a, h, id) && m.ops[m.io[h].data.op].tail < |m.ops|
    requires forall x {:trigger GroupOk(m, a, x)} :: x in a.groups ==> GroupOk(m, a, x)
    requires forall x {:trigger Member(a, x)} :: x in a.place ==> Member(a, x)
    requires OrigOk(m.(io := m.io[id := a.orig[id]]), a)
    ensures Ok(num, Link(m, h, id), Joined(a, h, id))
  {
    var a' := Joined(a, h, id);
    LinkPool(num, m, a, h, id);
    forall x | x in a'.groups ensures GroupOk(Link(m, h, id), a', x) {
      if x == h { LinkJoins(num, m, a, h, id); } else { LinkOthers(num, m, a, h, id, x); }
    }
    forall x | x in a'.place ensures Member(a', x) {
      if x != id { assert Member(a, x); }
    }
  }

  /** The iocb of h as it stands for its group. */
  lemma HeadIs(m: Mem, a: Abs, h: nat)
    requires h in a.groups && GroupOk(m, a, h)
    ensures h in m.io && h in a.orig && m.io[h] == Whole(a.orig, a.groups[h]).(data := m.io[h].data)
    ensures m.io[h].data.Own? ==> m.io[h] == a.orig[h] && a.groups[h] == [h]
  {
    assert Bytes(a.orig, [h]) == a.orig[h].nbytes;
    if m.io[h].data.Pool? { assert Linked(m.io, m.ops, a.orig, a.groups[h], 0); }
  }

  function Single(a: Abs, id: nat): Abs {
    a.(groups := a.groups[id := [id]], place := a.place[id := (id, 0)])
  }

  lemma SingleOk(num: nat, m: Mem, a: Abs, id: nat)
    requires Ok(num, m, a) && id in m.io && id !in a.place
    ensures Ok(num, m, Single(a, id)) && m.io[id] == a.orig[id]
  {
    var a' := Single(a, id);
    assert Bytes(a.orig, [id]) == a.orig[id].nbytes;
    assert GroupOk(m, a', id);
    forall x | x in a.groups ensures x != id { assert GroupOk(m, a, x); }
    forall x | x in a.groups ensures GroupOk(m, a', x) {
      assert GroupOk(m, a, x);
      forall i | 0 <= i < |a.groups[x]| ensures KeptAt(m, m, a, a', x, i) { assert a.groups[x][i] in a.place; }
      GroupFrame(m, m, a, a', x);
    }
    forall x | x in a'.place ensures Member(a', x) {
      if x != id { assert Member(a, x); }
    }
  }

  /* ---- taking groups apart ---- */

  /** restore_iocb and free_opio for iocb id. */
  function Restored(m: Mem, id: nat): Mem
    requires id in m.io && m.io[id].data.Pool? && m.io[id].data.op < |m.ops|
  {
    var p := m.io[id].data.op;
    Mem(m.io[id := m.io[id].(data := m.ops[p].data, buf := m.ops[p].buf, nbytes := m.ops[p].nbytes)],
        m.ops[p := ZeroOpio], m.free + [p])
  }

  lemma RestoredPool(num: nat, m: Mem, id: nat)
    requires PoolOk(num, m) && id in m.io && m.io[id].data.Pool? && m.io[id].data.op < |m.ops|
    requires m.ops[m.io[id].data.op].data.Own?
    ensures PoolOk(num, Restored(m, id))
  {
    var m' := Restored(m, id);
    assert Live(m, id);
    assert Used(m'.io) == Used(m.io) - {id};
    forall x | x in m'.io && m'.io[x].data.Pool? ensures Live(m', x) { assert Live(m, x); }
  }

  /** Members i, i + 1, ... of the group h of m are still merged in n; the others are
      as they were prepared, with their records free. */
  ghost predicate Unwound(num: nat, m: Mem, n: Mem, a: Abs, h: nat, i: nat)
    requires h in a.groups
  {
    var g := a.groups[h];
    && PoolOk(num, n) && n.io.Keys == m.io.Keys && i <= |g|
    && (forall x :: x in m.io && x !in g[..i] ==> n.io[x] == m.io[x])
    && (forall x :: x in m.io && x in g[..i] ==> x in a.orig && n.io[x] == a.orig[x])
    && (forall x :: x in m.io && m.io[x].data.Pool? && x !in g[..i] && m.io[x].data.op < |m.ops| ==>
      n.ops[m.io[x].data.op] == m.ops[m.io[x].data.op])
    && |n.free| == |m.free| + i
  }

  /** The next record to be unwound is the one of member i, as it was linked. */
  lemma UnwindRecord(num: nat, m: Mem, n: Mem, a: Abs, h: nat, i: nat)
    requires Ok(num, m, a) && h in a.groups && h in m.io && m.io[h].data.Pool? && i < |a.groups[h]|
    requires Unwound(num, m, n, a, h, i)
    ensures var g := a.groups[h];
            var id := g[i];
            && id !in g[..i] && id in m.io && id in n.io && n.io[id] == m.io[id] && id in a.orig && a.orig[id].data.Own?
            && m.io[id].data.Pool? && m.io[id].data.op < |n.ops| && |n.ops| == |m.ops|
            && n.io[id] == a.orig[id].(data := m.io[id].data, nbytes := n.io[id].nbytes)
            && var op := n.ops[m.io[id].data.op];
               op == Opio(a.orig[id].buf, a.orig[id].nbytes, a.orig[id].offset, a.orig[id].data, id, NextOf(m.io, g, i),
                   op.tail)
  {
    var g := a.groups[h];
    assert GroupOk(m, a, h);
    assert Linked(m.io, m.ops, a.orig, g, i);
    assert a.place[g[i]] == (h, i);
    forall j | 0 <= j < i ensures g[j] != g[i] { assert a.place[g[j]] == (h, j); }
  }

  lemma PoolOf(num: nat, m: Mem, a: Abs)
    requires Ok(num, m, a)
    ensures PoolOk(num, m)
  {
  }

  lemma UnwindStep(num: nat, m: Mem, n: Mem, a: Abs, h: nat, i: nat)
    requires Ok(num, m, a) && h in a.groups && h in m.io && m.io[h].data.Pool? && i < |a.groups[h]|
    requires Unwound(num, m, n, a, h, i)
    ensures var id := a.groups[h][i];
            && id in n.io && n.io[id].data.Pool? && n.io[id].data.op < |n.ops|
            && Unwound(num, m, Restored(n, id), a, h, i + 1)
  {
    hide Ok;
    var g := a.groups[h];
    var id := g[i];
    UnwindRecord(num, m, n, a, h, i);
    PoolOf(num, m, a);
    RestoredPool(num, n, id);
    assert g[..i + 1] == g[..i] + [id];
    forall x | x in m.io && m.io[x].data.Pool? && x !in g[..i + 1] && m.io[x].data.op < |m.ops|
      ensures Restored(n, id).ops[m.io[x].data.op] == m.ops[m.io[x].data.op]
    {
      assert Live(m, x) && Live(m, id);
    }
  }

  /** The record at which the walk over the list of g stands after i members. */
  function Cursor(m: Mem, g: seq<nat>, i: nat): int {
    if i < |g| && g[i] in m.io && m.io[g[i]].data.Pool? then m.io[g[i]].data.op else -1
  }

  /** The walk ends after the last member and not before. */
  lemma CursorEnd(num: nat, m: Mem, a: Abs, h: nat, i: nat)
    requires Ok(num, m, a) && h in a.groups && h in m.io && m.io[h].data.Pool? && i <= |a.groups[h]|
    ensures Cursor(m, a.groups[h], i) == -1 <==> i == |a.groups[h]|
    ensures Unwound(num, m, m, a, h, 0) && Cursor(m, a.groups[h], 0) == m.io[h].data.op
  {
    assert GroupOk(m, a, h);
    assert i < |a.groups[h]| ==> Linked(m.io, m.ops, a.orig, a.groups[h], i);
    assert Linked(m.io, m.ops, a.orig, a.groups[h], 0);
  }

  lemma UnwindNext(num: nat, m: Mem, n: Mem, a: Abs, h: nat, i: nat)
    requires Ok(num, m, a) && h in a.groups && h in m.io && m.io[h].data.Pool? && i < |a.groups[h]|
    requires Unwound(num, m, n, a, h, i)
    ensures var g := a.groups[h];
            var op := Cursor(m, g, i);
            && 0 <= op < |n.ops| && n.ops[op].iocb == g[i] && g[i] in n.io && n.io[g[i]].data == Pool(op)
            && n.ops[op].next == Cursor(m, g, i + 1)
            && g[i] in a.orig && n.ops[op].nbytes == a.orig[g[i]].nbytes
            && Unwound(num, m, Restored(n, g[i]), a, h, i + 1)
  {
    UnwindRecord(num, m, n, a, h, i);
    UnwindStep(num, m, n, a, h, i);
  }

  function Without(a: Abs, h: nat): Abs
    requires h in a.groups
  {
    a.(groups := a.groups - {h}, place := map x | x in a.place && a.place[x].0 != h :: a.place[x])
  }

  lemma UnwoundOther(num: nat, m: Mem, n: Mem, a: Abs, h: nat, x: nat)
    requires Ok(num, m, a) && h in a.groups && Unwound(num, m, n, a, h, |a.groups[h]|) && x in a.groups && x != h
    ensures GroupOk(n, Without(a, h), x)
  {
    hide GroupOk;
    var g := a.groups[h];
    assert g[..|g|] == g;
    GroupAt(num, m, a, h);
    GroupAt(num, m, a, x);
    forall i | 0 <= i < |a.groups[x]| ensures KeptAt(m, n, a, Without(a, h), x, i) {
      PlacedOnce(m, a, h, x, i);
      assert a.groups[x][i] !in g;
    }
    GroupFrame(m, n, a, Without(a, h), x);
  }

  lemma GroupAt(num: nat, m: Mem, a: Abs, x: nat)
    requires Ok(num, m, a) && x in a.groups
    ensures GroupOk(m, a, x)
  {
  }

  lemma PlacedOnce(m: Mem, a: Abs, h: nat, x: nat, i: nat)
    requires h in a.groups && x in a.groups && h != x && GroupOk(m, a, h) && GroupOk(m, a, x) && i < |a.groups[x]|
    ensures a.groups[x][i] !in a.groups[h]
    ensures a.groups[x][i] in a.place && a.place[a.groups[x][i]] == (x, i)
  {
  }

  lemma WithoutMembers(num: nat, m: Mem, a: Abs, h: nat)
    requires Ok(num, m, a) && h in a.groups
    ensures forall x {:trigger Member(Without(a, h), x)} :: x in Without(a, h).place ==> Member(Without(a, h), x)
    ensures forall x :: x in a.place && a.place[x].0 == h ==> x in a.groups[h]
    ensures forall x :: x in a.groups[h] ==> x in a.place && a.place[x].0 == h
  {
    assert GroupOk(m, a, h);
    forall x | x in a.place && a.place[x].0 == h ensures x in a.groups[h] { assert Member(a, x); }
    forall x | x in Without(a, h).place ensures Member(Without(a, h), x) { assert Member(a, x); }
  }

  lemma UnwoundOk(num: nat, m: Mem, n: Mem, a: Abs, h: nat)
    requires Ok(num, m, a) && h in a.groups && Unwound(num, m, n, a, h, |a.groups[h]|)
    ensures Ok(num, n, Without(a, h)) && |n.free| == |m.free| + |a.groups[h]|
    ensures forall x :: x in Without(a, h).place ==> x in m.io && x in n.io && n.io[x] == m.io[x]
  {
    assert a.groups[h][..|a.groups[h]|] == a.groups[h];
    WithoutMembers(num, m, a, h);
    forall x | x in Without(a, h).groups ensures GroupOk(n, Without(a, h), x) { UnwoundOther(num, m, n, a, h, x); }
  }

  lemma PlainOk(num: nat, m: Mem, a: Abs, h: nat)
    requires Ok(num, m, a) && h in a.groups && h in m.io && m.io[h].data.Own?
    ensures Ok(num, m, Without(a, h)) && h in a.orig && m.io[h] == a.orig[h] && a.groups[h] == [h]
    ensures forall x :: x in Without(a, h).place ==> x in m.io
  {
    var a' := Without(a, h);
    assert GroupOk(m, a, h);
    WithoutMembers(num, m, a, h);
    forall x | x in a'.groups ensures GroupOk(m, a', x) {
      assert GroupOk(m, a, x);
      forall i | 0 <= i < |a.groups[x]| ensures KeptAt(m, m, a, a', x, i) { assert a.place[a.groups[x][i]] == (x, i); }
      GroupFrame(m, m, a, a', x);
    }
  }

  /* ---- the context ---- */

  /** expand_event's and complete_tiocb's reading of a result. */
  function Outcome(res: int, nbytes: nat): int {
    if res == nbytes then 0 else if res < 0 then res else EIO
  }

  /** What io_split makes of an event for the group g: its own event if nothing was
      merged, or one event for each member. */
  function Answers(o: Iocbs, g: seq<nat>, merged: bool, e: Event): seq<Event> {
    if !merged then [e] else AnswersAll(o, g, Outcome(e.res, Bytes(o, g)))
  }

  function AnswersAll(o: Iocbs, g: seq<nat>, err: int): (es: seq<Event>)
    ensures |es| == |g|
  {
    if g == [] then [] else AnswersAll(o, g[..|g| - 1], err) + [Answer(o, g[|g| - 1], err)]
  }

  function Answer(o: Iocbs, id: nat, err: int): Event {
    Event(id, if err != 0 then err else if id in o then o[id].nbytes else 0)
  }

  /** The members of a contiguous group lie one behind the other, in the file and in memory. */
  lemma {:induction false} ContiguousRange(o: Iocbs, g: seq<nat>, i: nat)
    requires Contiguous(o, g) && i < |g|
    ensures o[g[i]].fd == o[g[0]].fd && o[g[i]].opcode == o[g[0]].opcode
    ensures o[g[i]].offset == o[g[0]].offset + Bytes(o, g[..i]) && o[g[i]].buf == o[g[0]].buf + Bytes(o, g[..i])
  {
    if i > 0 { assert Adjoins(Whole(o, g[..i]), o[g[i]]); }
  }

  /** Member i of a group hears its own length if all bytes of the group were transferred,
      the error if there was one, and EIO if the transfer was short. */
  ghost predicate Hears(o: Iocbs, g: seq<nat>, e: Event, out: seq<Event>, i: nat)
    requires i < |g|
  {
    && i < |out| && g[i] in o && out[i].obj == g[i]
    && out[i].res == if e.res == Bytes(o, g) then o[g[i]].nbytes else if e.res < 0 then e.res else EIO
  }

  ghost predicate AllHear(o: Iocbs, g: seq<nat>, e: Event, out: seq<Event>) {
    |out| == |g| && forall i :: 0 <= i < |g| ==> Hears(o, g, e, out, i)
  }

  lemma {:induction false} AnswersAre(o: Iocbs, g: seq<nat>, e: Event, i: nat)
    requires i < |g| && g[i] in o
    ensures |Answers(o, g, true, e)| == |g| && Hears(o, g, e, Answers(o, g, true, e), i)
  {
    AnswersAt(o, g, Outcome(e.res, Bytes(o, g)), i);
  }

  lemma {:induction false} AnswersAt(o: Iocbs, g: seq<nat>, err: int, i: nat)
    requires i < |g| && g[i] in o
    ensures AnswersAll(o, g, err)[i] == Event(g[i], if err != 0 then err else o[g[i]].nbytes)
  {
    if i < |g| - 1 {
      assert g[..|g| - 1][i] == g[i];
      AnswersAt(o, g[..|g| - 1], err, i);
    }
  }

  /** Every member of a group hears the outcome of the group. */
  lemma {:induction false} SameOutcome(o: Iocbs, g: seq<nat>, err: int, i: nat)
    requires i < |g| && g[i] in o && err <= 0
    ensures var e := AnswersAll(o, g, err)[i];
            e.obj == g[i] && Outcome(e.res, o[g[i]].nbytes) == err
  {
    if i < |g| - 1 {
      assert g[..|g| - 1][i] == g[i];
      SameOutcome(o, g[..|g| - 1], err, i);
    }
  }

  lemma {:induction false} AnswersNext(o: Iocbs, g: seq<nat>, err: int, i: nat)
    requires i < |g|
    ensures AnswersAll(o, g[..i + 1], err) == AnswersAll(o, g[..i], err) + [Answer(o, g[i], err)]
    ensures g[..|g|] == g
  {
    assert g[..i + 1][..i] == g[..i];
  }

  lemma GroupHears(num: nat, m: Mem, a: Abs, h: nat, e: Event)
    requires Ok(num, m, a) && h in a.groups
    ensures AllHear(a.orig, a.groups[h], e, Answers(a.orig, a.groups[h], true, e))
  {
    assert GroupOk(m, a, h);
    var (o, g) := (a.orig, a.groups[h]);
    forall i | 0 <= i < |g| ensures Hears(o, g, e, Answers(o, g, true, e), i) { AnswersAre(o, g, e, i); }
  }

  class Context {
    const num: nat
    var iocbs: Iocbs
    var opios: seq<Opio>
    var free: seq<nat>
    ghost var abs: Abs

    function M(): Mem
      reads this
    {
      Mem(iocbs, opios, free)
    }

    ghost predicate Valid()
      reads this
    {
      Ok(num, M(), abs)
    }

    /** opio_init. */
    constructor (num: nat)
      ensures Valid() && this.num == num && |free| == num && abs == Abs(map[], map[], map[])
    {
      this.num := num;
      iocbs, abs := map[], Abs(map[], map[], map[]);
      opios, free := seq(num, i => ZeroOpio), seq(num, i => i);
    }

    /** opio_get: the record of an iocb, made if it has none. */
    method Get(id: nat) returns (ok: bool, p: nat)
      requires PoolOk(num, M()) && id in iocbs
      modifies this`iocbs, this`opios, this`free
      ensures ok == (old(iocbs)[id].data.Pool? || old(free) != [])
      ensures M() == if ok && old(iocbs)[id].data.Own? then Alloc(old(M()), id) else old(M())
      ensures ok ==> id in iocbs && iocbs[id].data == Pool(p) && p < |opios|
    {
      var io := iocbs[id];
      if io.data.Pool? {
        assert Live(M(), id);
        return true, io.data.op;
      }
      if free == [] { return false, 0; }
      p := free[|free| - 1];
      free := free[..|free| - 1];
      opios := opios[p := Opio(io.buf, io.nbytes, io.offset, io.data, id, opios[p].next, p)];
      iocbs := iocbs[id := io.(data := Pool(p))];
      return true, p;
    }

    /** The end of merge_tail: append the record of id to the list of h. */
    method LinkTail(h: nat, id: nat)
      requires h in iocbs && id in iocbs && iocbs[h].data.Pool? && iocbs[id].data.Pool?
      requires iocbs[h].data.op < |opios| && opios[iocbs[h].data.op].tail < |opios|
      modifies this`iocbs, this`opios
      ensures M() == Link(old(M()), h, id)
    {
      var head, op := iocbs[h].data.op, iocbs[id].data.op;
      iocbs := iocbs[h := iocbs[h].(nbytes := iocbs[h].nbytes + iocbs[id].nbytes)];
      var tail := opios[head].tail;
      opios := opios[tail := opios[tail].(next := op)];
      opios := opios[head := opios[head].(tail := op)];
    }

    /** merge_tail: iocb id joins the group of h. It fails only when the pool is empty. */
    method MergeTail(h: nat, id: nat) returns (ok: bool)
      requires Valid() && h in abs.groups && h in iocbs && id in iocbs && id !in abs.place
      requires Adjoins(iocbs[h], iocbs[id])
      modifies this
      ensures Valid()
      ensures ok == (|old(free)| >= if old(iocbs)[h].data.Own? then 2 else 1)
      ensures abs == if ok then Joined(old(abs), h, id) else old(abs)
      ensures !ok ==> |free| >= |old(free)| - if old(iocbs)[h].data.Own? then 1 else 0
      ensures iocbs.Keys == old(iocbs).Keys
      ensures ok ==>
                h in iocbs && iocbs[h].data.Pool? &&
                |free| == |old(free)| - if old(iocbs)[h].data.Own? then 2 else 1
    {
      ghost var m0 := M();
      if iocbs[h].data.Own? && free != [] { AllocOk(num, m0, abs, h); }
      var okHead, _ := Get(h);
      if !okHead { return false; }
      ghost var m := M();
      assert Ok(num, m, abs);
      if free != [] { JoinReady(num, m, abs, h, id); }
      hide Ok;
      hide Ready;
      var okIo, _ := Get(id);
      if !okIo { return false; }
      ghost var m' := M();
      assert id in iocbs && iocbs[id].data.Pool? && h in iocbs && iocbs[h].data.Pool? && iocbs[h].data.op < |opios|;
      LinkPool(num, m', abs, h, id);
      LinkOk(num, m', abs, h, id);
      LinkTail(h, id);
      abs := Joined(abs, h, id);
      return true;
    }

    /** merge: iocb id continues the iocb of h and is of the same kind, or it stays apart. */
    method TryMerge(h: nat, id: nat) returns (ok: bool)
      requires Valid() && h in abs.groups && h in iocbs && id in iocbs && id !in abs.place
      modifies this
      ensures Valid()
      ensures old(Adjoins(iocbs[h], iocbs[id])) <==>
                var (l, r) := (old(iocbs)[h], old(iocbs)[id]);
                && l.opcode == r.opcode && l.fd == r.fd
                && l.offset + l.nbytes == r.offset && l.buf + l.nbytes == r.buf
      ensures ok == (old(Adjoins(iocbs[h], iocbs[id])) && |old(free)| >= if old(iocbs)[h].data.Own? then 2 else 1)
      ensures abs == if ok then Joined(old(abs), h, id) else old(abs)
      ensures !ok ==> |free| >= |old(free)| - if old(iocbs)[h].data.Own? then 1 else 0
      ensures iocbs.Keys == old(iocbs).Keys
      ensures ok ==>
                h in iocbs && iocbs[h].data.Pool? &&
                |free| == |old(free)| - if old(iocbs)[h].data.Own? then 2 else 1
    {
      var head, io := iocbs[h], iocbs[id];
      if head.opcode != io.opcode { return false; }
      if !(head.fd == io.fd && head.offset + head.nbytes == io.offset && head.buf + head.nbytes == io.buf) {
        return false;
      }
      ok := MergeTail(h, id);
    }

    /** One turn of the walk over the list of a group: the record is put back. */
    method TakeRecord(op: int, ghost m: Mem, ghost a: Abs, ghost h: nat, ghost i: nat)
      returns (id: nat, nbytes: nat, next: int)
      requires Ok(num, m, a) && h in a.groups && h in m.io && m.io[h].data.Pool? && i <= |a.groups[h]|
      requires Unwound(num, m, M(), a, h, i) && op == Cursor(m, a.groups[h], i) && op != -1
      modifies this`iocbs, this`opios, this`free
      ensures i < |a.groups[h]| && Unwound(num, m, M(), a, h, i + 1) && next == Cursor(m, a.groups[h], i + 1)
      ensures id == a.groups[h][i] && id in a.orig && nbytes == a.orig[id].nbytes
    {
      CursorEnd(num, m, a, h, i);
      UnwindNext(num, m, M(), a, h, i);
      hide Unwound;
      hide Ok;
      hide Cursor;
      next, id, nbytes := opios[op].next, opios[op].iocb, opios[op].nbytes;
      Restore(op);
    }

    /** expand_iocb: the iocbs that h stands for, as they were. */
    method ExpandIocb(h: nat) returns (out: seq<nat>)
      requires Valid() && h in abs.groups && h in iocbs && iocbs[h].data.Pool?
      modifies this
      ensures Valid() && abs == Without(old(abs), h) && out == old(abs).groups[h]
      ensures |free| == |old(free)| + |out|
      ensures forall x :: x in abs.place ==> x in iocbs && x in old(iocbs) && iocbs[x] == old(iocbs)[x]
    {
      hide Ok;
      hide Unwound;
      hide Cursor;
      hide Without;
      ghost var m, a, g := M(), abs, abs.groups[h];
      out := [];
      var op: int := iocbs[h].data.op;
      CursorEnd(num, m, a, h, 0);
      while op != -1
        invariant |out| <= |g| && out == g[..|out|]
        invariant abs == a && Unwound(num, m, M(), a, h, |out|) && op == Cursor(m, g, |out|)
        decreases |g| - |out|
      {
        var id, _, next := TakeRecord(op, m, a, h, |out|);
        out := out + [id];
        op := next;
      }
      CursorEnd(num, m, a, h, |out|);
      assert g[..|g|] == g;
      UnwoundOk(num, m, M(), a, h);
      abs := Without(abs, h);
    }

    /** restore_iocb and free_opio. */
    method Restore(op: nat)
      requires op < |opios| && opios[op].iocb in iocbs && iocbs[opios[op].iocb].data == Pool(op)
      modifies this`iocbs, this`opios, this`free
      ensures M() == Restored(old(M()), old(opios)[op].iocb)
    {
      var rec := opios[op];
      iocbs := iocbs[rec.iocb := iocbs[rec.iocb].(data := rec.data, buf := rec.buf, nbytes := rec.nbytes)];
      opios, free := opios[op := ZeroOpio], free + [op];
    }

    /** One turn of the loop of expand_event. */
    method TakeAnswer(op: int, err: int, ghost m: Mem, ghost a: Abs, ghost h: nat, ghost i: nat)
      returns (answer: Event, next: int)
      requires Ok(num, m, a) && h in a.groups && h in m.io && m.io[h].data.Pool? && i <= |a.groups[h]|
      requires Unwound(num, m, M(), a, h, i) && op == Cursor(m, a.groups[h], i) && op != -1
      modifies this`iocbs, this`opios, this`free
      ensures i < |a.groups[h]| && Unwound(num, m, M(), a, h, i + 1) && next == Cursor(m, a.groups[h], i + 1)
      ensures answer == Answer(a.orig, a.groups[h][i], err)
    {
      hide Ok;
      hide Unwound;
      hide Cursor;
      var id, nbytes, next' := TakeRecord(op, m, a, h, i);
      answer, next := Event(id, if err != 0 then err else nbytes), next';
    }

    /** expand_event: one event for each iocb that the event's iocb stands for. */
    method ExpandEvent(e: Event) returns (out: seq<Event>)
      requires Valid() && e.obj in abs.groups && e.obj in iocbs && iocbs[e.obj].data.Pool?
      modifies this
      ensures Valid() && abs == Without(old(abs), e.obj)
      ensures out == Answers(old(abs).orig, old(abs).groups[e.obj], true, e)
      ensures AllHear(old(abs).orig, old(abs).groups[e.obj], e, out)
      ensures |free| == |old(free)| + |out|
      ensures forall x :: x in abs.place ==> x in iocbs && x in old(iocbs) && iocbs[x] == old(iocbs)[x]
    {
      hide AllHear;
      hide AnswersAll;
      hide Answer;
      hide Outcome;
      hide Ok;
      hide Unwound;
      hide Cursor;
      hide Without;
      var h := e.obj;
      GroupHears(num, M(), abs, h, e);
      ghost var m, a, g := M(), abs, abs.groups[h];
      GroupBytes(num, m, a, h);
      var err := Outcome(e.res, iocbs[h].nbytes);
      out := [];
      var op: int := iocbs[h].data.op;
      CursorEnd(num, m, a, h, 0);
      while op != -1
        invariant |out| <= |g| && out == AnswersAll(a.orig, g[..|out|], err)
        invariant abs == a && Unwound(num, m, M(), a, h, |out|) && op == Cursor(m, g, |out|)
        decreases |g| - |out|
      {
        var answer, next := TakeAnswer(op, err, m, a, h, |out|);
        AnswersNext(a.orig, g, err, |out|);
        out := out + [answer];
        op := next;
      }
      CursorEnd(num, m, a, h, |out|);
      assert g[..|g|] == g;
      UnwoundOk(num, m, M(), a, h);
      abs := Without(abs, h);
    }

    /** tapdisk_prep_tiocb: an iocb is made ready, with its owner's cookie. */
    method Prepare(id: nat, io: Iocb)
      requires Valid() && id !in abs.place && io.data.Own?
      modifies this
      ensures Valid() && M() == Prepared(old(M()), id, io)
      ensures abs == old(abs).(orig := old(abs).orig[id := io])
    {
      PrepareOk(num, M(), abs, id, io);
      iocbs := iocbs[id := io];
      abs := abs.(orig := abs.orig[id := io]);
    }

    /** io_merge: the iocbs that are left on the queue, and what each stands for. */
    method Merge(queue: seq<nat>) returns (out: seq<nat>, ghost gs: seq<seq<nat>>)
      requires Valid() && Queue(M(), abs, queue)
      modifies this
      ensures Valid() && abs.orig == old(abs).orig
      ensures Flatten(gs) == queue && Heads(abs, old(abs), out, gs)
      ensures abs.place.Keys == old(abs).place.Keys + Elems(queue)
      ensures |queue| <= |old(free)| ==> gs == Groups(abs.orig, queue)
    {
      hide Ok;
      hide Queue;
      hide Merging;
      hide Heads;
      hide Groups;
      hide Flatten;
      hide Adjoins;
      ghost var a, n := abs, |free|;
      if queue == [] {
        MergeNone(a);
        return [], [];
      }
      MergeFirst(num, M(), a, queue);
      abs := Single(abs, queue[0]);
      out, gs := [queue[0]], [[queue[0]]];
      for i := 1 to |queue|
        invariant Valid() && Merging(M(), abs, a, n, out, gs, queue, i)
      {
        var id := queue[i];
        ghost var m, a1 := M(), abs;
        MergeReady(num, m, abs, a, n, out, gs, queue, i);
        var ok := TryMerge(out[|out| - 1], id);
        if ok {
          MergeJoin(num, m, M(), a1, a, n, out, gs, queue, i);
          gs := gs[..|gs| - 1] + [gs[|gs| - 1] + [id]];
        } else {
          MergeMore(num, m, M(), a1, a, n, out, gs, queue, i);
          abs := Single(abs, id);
          out, gs := out + [id], gs + [[id]];
        }
      }
      MergeEnd(M(), abs, a, n, out, gs, queue);
    }

    /** io_split: each event becomes the events of the iocbs it stands for. */
    method Split(events: seq<Event>) returns (out: seq<Event>)
      requires Valid() && Heard(M(), abs, Objs(events))
      modifies this
      ensures Valid() && abs.orig == old(abs).orig && Released(abs, old(abs), Objs(events))
      ensures out == SplitAll(old(M()), old(abs), events)
      ensures |abs.place| + |out| == |old(abs).place|
    {
      hide Ok;
      hide Splitting;
      hide Heard;
      hide Released;
      hide Answers;
      ghost var m0, a0 := M(), abs;
      out := [];
      SplitFirst(num, m0, a0, Objs(events));
      for i := 0 to |events|
        invariant Valid() && Splitting(m0, a0, M(), abs, Objs(events), i) && out == SplitAll(m0, a0, events[..i])
        invariant |abs.place| + |out| == |a0.place|
      {
        var e := events[i];
        ghost var m, a := M(), abs;
        SplitReady(num, m0, a0, m, a, Objs(events), i);
        SplitAllNext(m0, a0, events, i);
        if iocbs[e.obj].data.Own? {
          PlainOk(num, m, a, e.obj);
          abs := Without(abs, e.obj);
          out := out + [e];
        } else {
          var es := ExpandEvent(e);
          out := out + es;
        }
        AnswersCount(num, m, a, e);
        SplitNext(num, m0, a0, m, a, M(), Objs(events), i);
      }
      SplitEnd(m0, a0, M(), abs, Objs(events));
      assert events[..|events|] == events;
    }

    /** io_expand_iocbs: the merged iocbs from place idx on are taken apart. */
    method ExpandIocbs(queue: seq<nat>, idx: nat) returns (out: seq<nat>)
      requires Valid() && idx <= |queue| && Heard(M(), abs, queue[idx..])
      modifies this
      ensures Valid() && abs.orig == old(abs).orig && Released(abs, old(abs), queue[idx..])
      ensures out == Members(old(abs), queue[idx..])
    {
      hide Ok;
      hide Splitting;
      hide Heard;
      hide Released;
      hide Members;
      ghost var m0, a0, q := M(), abs, queue[idx..];
      out := [];
      SplitFirst(num, m0, a0, q);
      for i := idx to |queue|
        invariant Valid() && Splitting(m0, a0, M(), abs, q, i - idx) && out == Members(a0, q[..i - idx])
      {
        var h := queue[i];
        ghost var m, a := M(), abs;
        SplitReady(num, m0, a0, m, a, q, i - idx);
        MembersNext(a0, q, i - idx);
        if iocbs[h].data.Own? {
          PlainOk(num, m, a, h);
          abs := Without(abs, h);
          out := out + [h];
        } else {
          var ids := ExpandIocb(h);
          out := out + ids;
        }
        SplitNext(num, m0, a0, m, a, M(), q, i - idx);
      }
      SplitEnd(m0, a0, M(), abs, q);
      assert q[..|q|] == q;
    }
  }

  function Objs(events: seq<Event>): (q: seq<nat>)
    ensures |q| == |events| && forall i :: 0 <= i < |q| ==> q[i] == events[i].obj
  {
    seq(|events|, i requires 0 <= i < |events| => events[i].obj)
  }

  /** Distinct iocbs that stand for groups. */
  ghost predicate Heard(m: Mem, a: Abs, q: seq<nat>) {
    && (forall i :: 0 <= i < |q| ==> q[i] in a.groups && q[i] in m.io)
    && (forall i, j :: 0 <= i < j < |q| ==> q[i] != q[j])
  }

  /** The groups of q are gone; the others are as they were. */
  ghost predicate Released(a: Abs, a0: Abs, q: seq<nat>) {
    && (forall h :: h in a.groups <==> h in a0.groups && h !in q)
    && (forall h :: h in a.groups ==> a.groups[h] == a0.groups[h])
    && (forall x :: x in a.place <==> x in a0.place && a0.place[x].0 !in q)
    && (forall x :: x in a.place ==> a.place[x] == a0.place[x])
  }

  /** The members of the groups of q, in order. */
  function Members(a: Abs, q: seq<nat>): seq<nat> {
    if q == [] then [] else Members(a, q[..|q| - 1]) + (if q[|q| - 1] in a.groups then a.groups[q[|q| - 1]] else [])
  }

  function SplitAll(m: Mem, a: Abs, events: seq<Event>): seq<Event> {
    if events == [] then []
    else
      var e := events[|events| - 1];
      SplitAll(m, a, events[..|events| - 1]) +
      if e.obj in a.groups && e.obj in m.io then Answers(a.orig, a.groups[e.obj], m.io[e.obj].data.Pool?, e) else []
  }

  lemma {:induction false} SplitAllNext(m: Mem, a: Abs, events: seq<Event>, i: nat)
    requires i < |events| && events[i].obj in a.groups && events[i].obj in m.io
    ensures var e := events[i];
            SplitAll(m, a, events[..i + 1]) == SplitAll(m, a, events[..i]) +
                Answers(a.orig, a.groups[e.obj], m.io[e.obj].data.Pool?, e)
  {
    hide Answers;
    assert events[..i + 1][..i] == events[..i];
  }

  lemma {:induction false} MembersNext(a: Abs, q: seq<nat>, i: nat)
    requires i < |q| && q[i] in a.groups
    ensures Members(a, q[..i + 1]) == Members(a, q[..i]) + a.groups[q[i]]
  {
    assert q[..i + 1][..i] == q[..i];
  }

  /** After i of the groups of q have been released. */
  ghost predicate Splitting(m0: Mem, a0: Abs, m: Mem, a: Abs, q: seq<nat>, i: nat) {
    && i <= |q| && a.orig == a0.orig && Heard(m0, a0, q) && Released(a, a0, q[..i])
    && (forall j :: i <= j < |q| ==> q[j] in a.groups && q[j] in m.io && q[j] in m0.io && m.io[q[j]] == m0.io[q[j]])
  }

  lemma {:induction false} SplitFirst(num: nat, m: Mem, a: Abs, q: seq<nat>)
    requires Heard(m, a, q)
    ensures Splitting(m, a, m, a, q, 0) && Members(a, q[..0]) == []
  {
  }

  lemma SplitReady(num: nat, m0: Mem, a0: Abs, m: Mem, a: Abs, q: seq<nat>, i: nat)
    requires Splitting(m0, a0, m, a, q, i) && i < |q|
    ensures q[i] in a.groups && q[i] in a0.groups && a.groups[q[i]] == a0.groups[q[i]]
    ensures q[i] in m.io && q[i] in m0.io && m.io[q[i]] == m0.io[q[i]] && a.orig == a0.orig
  {
  }

  lemma SplitNext(num: nat, m0: Mem, a0: Abs, m: Mem, a: Abs, m': Mem, q: seq<nat>, i: nat)
    requires Splitting(m0, a0, m, a, q, i) && i < |q| && q[i] in a.groups && Ok(num, m', Without(a, q[i]))
    requires forall x :: x in Without(a, q[i]).place ==> x in m'.io && x in m.io && m'.io[x] == m.io[x]
    ensures Splitting(m0, a0, m', Without(a, q[i]), q, i + 1)
  {
    var a' := Without(a, q[i]);
    assert q[..i + 1] == q[..i] + [q[i]];
    forall j | i + 1 <= j < |q| ensures q[j] in a'.groups && q[j] in m'.io && m'.io[q[j]] == m0.io[q[j]] {
      assert GroupOk(m', a', q[j]);
    }
  }

  lemma SplitEnd(m0: Mem, a0: Abs, m: Mem, a: Abs, q: seq<nat>)
    requires Splitting(m0, a0, m, a, q, |q|)
    ensures Released(a, a0, q) && a.orig == a0.orig
  {
    assert q[..|q|] == q;
  }

  lemma {:induction false} ElemsCount(q: seq<nat>)
    requires forall i, j :: 0 <= i < j < |q| ==> q[i] != q[j]
    ensures |Elems(q)| == |q|
  {
    if q != [] {
      ElemsCount(q[..|q| - 1]);
      assert q == q[..|q| - 1] + [q[|q| - 1]];
      assert Elems(q) == Elems(q[..|q| - 1]) + {q[|q| - 1]};
    }
  }

  /** As many events come out as tiocbs stop being pending. */
  lemma AnswersCount(num: nat, m: Mem, a: Abs, e: Event)
    requires Ok(num, m, a) && e.obj in a.groups && e.obj in m.io
    ensures |Answers(a.orig, a.groups[e.obj], m.io[e.obj].data.Pool?, e)| == |a.groups[e.obj]|
    ensures |Without(a, e.obj).place| + |a.groups[e.obj]| == |a.place|
    ensures m.io[e.obj].data.Own? ==> Answers(a.orig, a.groups[e.obj], false, e) == [e]
  {
    var h := e.obj;
    var g := a.groups[h];
    assert GroupOk(m, a, h);
    WithoutMembers(num, m, a, h);
    assert forall i, j :: 0 <= i < j < |g| ==> g[i] != g[j] by {
      forall i, j | 0 <= i < j < |g| ensures g[i] != g[j] { assert a.place[g[i]] == (h, i) && a.place[g[j]] == (h, j); }
    }
    ElemsCount(g);
    assert a.place.Keys == Without(a, h).place.Keys + Elems(g);
    assert |a.place| == |a.place.Keys| && |Without(a, h).place| == |Without(a, h).place.Keys|;
  }

  /** Distinct iocbs as they were prepared. */
  ghost predicate Queue(m: Mem, a: Abs, queue: seq<nat>) {
    && (forall i :: 0 <= i < |queue| ==> queue[i] in m.io && queue[i] !in a.place)
    && (forall i, j :: 0 <= i < j < |queue| ==> queue[i] != queue[j])
  }

  /** What io_merge has done after i iocbs; n records were free when it began. */
  ghost predicate Merging(m: Mem, a: Abs, a0: Abs, n: nat, out: seq<nat>, gs: seq<seq<nat>>, queue: seq<nat>, i: nat) {
    && a.orig == a0.orig && 0 < i <= |queue| && out != [] && Flatten(gs) == queue[..i] && Heads(a, a0, out, gs)
    && Taken(a, a0, queue, i) && Queue(m, a0, queue)
    && (|queue| <= n ==> gs == Groups(a.orig, queue[..i]))
    && out[|out| - 1] in m.io && |m.free| + i >= n + if m.io[out[|out| - 1]].data.Own? then 1 else 0
  }

  ghost predicate Taken(a: Abs, a0: Abs, queue: seq<nat>, i: nat)
    requires i <= |queue|
  {
    a.place.Keys == a0.place.Keys + Elems(queue[..i])
  }

  ghost function Elems(q: seq<nat>): set<nat> { set x | x in q }

  lemma TakenNext(m: Mem, a: Abs, a': Abs, a0: Abs, queue: seq<nat>, i: nat, p: (nat, nat))
    requires i < |queue| && Taken(a, a0, queue, i) && Queue(m, a0, queue)
    ensures queue[i] in m.io && queue[i] !in a.place && queue[..i + 1] == queue[..i] + [queue[i]]
    ensures a'.place == a.place[queue[i] := p] ==> Taken(a', a0, queue, i + 1)
  {
    assert queue[..i + 1] == queue[..i] + [queue[i]];
    assert Elems(queue[..i + 1]) == Elems(queue[..i]) + {queue[i]};
  }

  /** Each iocb of the queue stands for its group; older groups are as they were. */
  ghost predicate Heads(a: Abs, a0: Abs, out: seq<nat>, gs: seq<seq<nat>>) {
    && |out| == |gs|
    && (forall k :: 0 <= k < |out| ==> out[k] in a.groups && a.groups[out[k]] == gs[k])
    && (forall i, j :: 0 <= i < j < |out| ==> out[i] != out[j])
    && (forall h :: h in a.groups <==> h in a0.groups || h in out)
    && (forall h :: h in a0.groups ==> h !in out)
    && (forall h :: h in a0.groups ==> h in a.groups && a.groups[h] == a0.groups[h])
  }

  lemma HeadsFirst(num: nat, m: Mem, a: Abs, id: nat)
    requires Ok(num, m, a) && id !in a.place
    ensures Heads(Single(a, id), a, [id], [[id]])
  {
    forall h | h in a.groups ensures h != id { assert GroupOk(m, a, h); }
  }

  lemma NotAHead(num: nat, m: Mem, a: Abs, id: nat)
    requires Ok(num, m, a) && id !in a.place
    ensures id !in a.groups
  {
    forall h | h in a.groups ensures h != id { assert GroupOk(m, a, h); }
  }

  /** An iocb joins the last group. */
  lemma {:induction false} HeadsJoin(a: Abs, a0: Abs, out: seq<nat>, gs: seq<seq<nat>>, id: nat)
    requires Heads(a, a0, out, gs) && out != [] && id !in a.groups
    ensures |out| == |gs| && out[|out| - 1] in a.groups && a.groups[out[|out| - 1]] == gs[|gs| - 1]
    ensures Heads(Joined(a, out[|out| - 1], id), a0, out, gs[..|gs| - 1] + [gs[|gs| - 1] + [id]])
    ensures Flatten(gs[..|gs| - 1] + [gs[|gs| - 1] + [id]]) == Flatten(gs) + [id]
  {
    hide Flatten;
    hide Heads;
    HeadsJoined(a, a0, out, gs, id);
    assert gs == gs[..|gs| - 1] + [gs[|gs| - 1]];
    FlattenJoin(gs[..|gs| - 1], gs[|gs| - 1], id);
  }

  lemma HeadsJoined(a: Abs, a0: Abs, out: seq<nat>, gs: seq<seq<nat>>, id: nat)
    requires Heads(a, a0, out, gs) && out != [] && id !in a.groups
    ensures |out| == |gs| && out[|out| - 1] in a.groups && a.groups[out[|out| - 1]] == gs[|gs| - 1]
    ensures Heads(Joined(a, out[|out| - 1], id), a0, out, gs[..|gs| - 1] + [gs[|gs| - 1] + [id]])
  {
  }

  lemma Assoc<T>(a: seq<T>, b: seq<T>, c: seq<T>)
    ensures a + (b + c) == (a + b) + c
  {
  }

  lemma {:induction false} FlattenJoin<T>(init: seq<seq<T>>, last: seq<T>, x: T)
    ensures Flatten(init + [last + [x]]) == Flatten(init + [last]) + [x]
  {
    hide Flatten;
    FlattenLast(init, last + [x]);
    FlattenLast(init, last);
    Assoc(Flatten(init), last, [x]);
  }

  /** An iocb makes the next group. */
  lemma {:induction false} HeadsMore(a: Abs, a0: Abs, out: seq<nat>, gs: seq<seq<nat>>, id: nat)
    requires Heads(a, a0, out, gs) && id !in a.groups
    ensures Heads(Single(a, id), a0, out + [id], gs + [[id]])
    ensures Flatten(gs + [[id]]) == Flatten(gs) + [id]
  {
    FlattenLast(gs, [id]);
  }

  lemma MergeFirst(num: nat, m: Mem, a: Abs, queue: seq<nat>)
    requires Ok(num, m, a) && Queue(m, a, queue) && queue != []
    ensures Ok(num, m, Single(a, queue[0])) &&
            Merging(m, Single(a, queue[0]), a, |m.free|, [queue[0]], [[queue[0]]], queue, 1)
  {
    var id := queue[0];
    assert Taken(a, a, queue, 0);
    TakenNext(m, a, Single(a, id), a, queue, 0, (id, 0));
    SingleOk(num, m, a, id);
    HeadsFirst(num, m, a, id);
    GroupsOne(a.orig, id);
    assert queue[..1] == [id];
    hide Ok;
    hide Heads;
    hide Groups;
    hide Flatten;
    hide Taken;
  }

  lemma MergeNone(a: Abs)
    ensures Flatten<nat>([]) == [] && Heads(a, a, [], []) && a.place.Keys == a.place.Keys + Elems([]) &&
            Groups(a.orig, []) == []
  {
  }

  lemma {:induction false} MergeEnd(m: Mem, a: Abs, a0: Abs, n: nat, out: seq<nat>, gs: seq<seq<nat>>, queue: seq<nat>)
    requires Merging(m, a, a0, n, out, gs, queue, |queue|)
    ensures a.orig == a0.orig && Flatten(gs) == queue && Heads(a, a0, out, gs)
    ensures a.place.Keys == a0.place.Keys + Elems(queue)
    ensures |queue| <= n ==> gs == Groups(a.orig, queue)
  {
    assert queue[..|queue|] == queue;
  }

  lemma MergeReady(num: nat, m: Mem, a: Abs, a0: Abs, n: nat, out: seq<nat>, gs: seq<seq<nat>>, queue: seq<nat>, i: nat)
    requires Ok(num, m, a) && Merging(m, a, a0, n, out, gs, queue, i) && i < |queue|
    ensures out != [] && |out| == |gs| && out[|out| - 1] in a.groups && out[|out| - 1] in m.io
    ensures queue[i] in m.io && queue[i] !in a.place
    ensures var h := out[|out| - 1];
            && h in a.orig && queue[i] in a.orig && a.groups[h] == gs[|gs| - 1] && a.groups[h] != [] &&
              a.groups[h][0] == h
            && (Adjoins(m.io[h], m.io[queue[i]]) <==> Adjoins(Whole(a.orig, a.groups[h]), a.orig[queue[i]]))
    ensures queue[i] !in a.groups
  {
    TakenNext(m, a, a, a0, queue, i, (0, 0));
    NotAHead(num, m, a, queue[i]);
    MergeStep(num, m, a, out[|out| - 1], queue[i]);
  }

  /** Iocb i has joined the last group. */
  lemma MergeJoin(num: nat, m: Mem, m': Mem, a: Abs, a0: Abs, n: nat, out: seq<nat>, gs: seq<seq<nat>>, queue: seq<nat>,
          i: nat)
    requires Ok(num, m, a) && Merging(m, a, a0, n, out, gs, queue, i) && i < |queue|
    requires out[|out| - 1] in a.groups && queue[i] in m.io && Adjoins(m.io[out[|out| - 1]], m.io[queue[i]])
    requires m'.io.Keys == m.io.Keys
    requires var h := out[|out| - 1];
             m'.io[h].data.Pool? && |m'.free| == |m.free| - if m.io[h].data.Own? then 2 else 1
    ensures Merging(m', Joined(a, out[|out| - 1], queue[i]), a0, n, out, gs[..|gs| - 1] + [gs[|gs| - 1] + [queue[i]]],
              queue, i + 1)
  {
    hide Ok;
    hide Heads;
    hide Groups;
    hide Flatten;
    hide Taken;
    hide Adjoins;
    assert Queue(m', a0, queue);
    hide Queue;
    hide Bytes;
    var h, id := out[|out| - 1], queue[i];
    MergeReady(num, m, a, a0, n, out, gs, queue, i);
    TakenNext(m, a, Joined(a, h, id), a0, queue, i, (h, |a.groups[h]|));
    HeadsJoin(a, a0, out, gs, id);
    GroupsStep(a.orig, queue, i);
  }

  /** Iocb i has started a group: it does not continue the last one, or the pool is empty. */
  lemma MergeMore(num: nat, m: Mem, m': Mem, a: Abs, a0: Abs, n: nat, out: seq<nat>, gs: seq<seq<nat>>, queue: seq<nat>,
          i: nat)
    requires Ok(num, m, a) && Merging(m, a, a0, n, out, gs, queue, i) && i < |queue| && Ok(num, m', a)
    requires out[|out| - 1] in a.groups && queue[i] in m.io
    requires m'.io.Keys == m.io.Keys
    requires var h := out[|out| - 1];
             && |m'.free| >= |m.free| - (if m.io[h].data.Own? then 1 else 0)
             && !(Adjoins(m.io[h], m.io[queue[i]]) && |m.free| >= if m.io[h].data.Own? then 2 else 1)
    ensures Ok(num, m', Single(a, queue[i]))
    ensures Merging(m', Single(a, queue[i]), a0, n, out + [queue[i]], gs + [[queue[i]]], queue, i + 1)
  {
    hide Ok;
    hide Heads;
    hide Groups;
    hide Flatten;
    hide Taken;
    hide Adjoins;
    assert Queue(m', a0, queue);
    hide Queue;
    hide Bytes;
    var h, id := out[|out| - 1], queue[i];
    MergeReady(num, m, a, a0, n, out, gs, queue, i);
    TakenNext(m, a, Single(a, id), a0, queue, i, (id, 0));
    HeadsMore(a, a0, out, gs, id);
    GroupsStep(a.orig, queue, i);
    SingleOk(num, m', a, id);
  }

  lemma GroupBytes(num: nat, m: Mem, a: Abs, h: nat)
    requires Ok(num, m, a) && h in a.groups && h in m.io
    ensures m.io[h].nbytes == Bytes(a.orig, a.groups[h])
  {
    assert GroupOk(m, a, h);
    HeadIs(m, a, h);
  }

  lemma {:induction false} BytesFrame(o: Iocbs, o': Iocbs, g: seq<nat>)
    requires forall i :: 0 <= i < |g| ==> g[i] in o && g[i] in o' && o'[g[i]] == o[g[i]]
    ensures Bytes(o', g) == Bytes(o, g)
  {
    if g != [] { BytesFrame(o, o', g[..|g| - 1]); }
  }

  lemma ContiguousFrame(o: Iocbs, o': Iocbs, g: seq<nat>)
    requires Contiguous(o, g) && forall i :: 0 <= i < |g| ==> g[i] in o' && o'[g[i]] == o[g[i]]
    ensures Contiguous(o', g)
  {
    forall i | 0 < i < |g| ensures Adjoins(Whole(o', g[..i]), o'[g[i]]) { BytesFrame(o, o', g[..i]); }
  }

  lemma OrigFrame(o: Iocbs, o': Iocbs, io: Iocbs, io': Iocbs, ops: seq<Opio>, g: seq<nat>)
    requires Merged(io, ops, o, g) && Contiguous(o, g)
    requires forall i :: 0 <= i < |g| ==>
               g[i] in o' && o'[g[i]] == o[g[i]] && g[i] in io' && g[i] in io && io'[g[i]] == io[g[i]]
    ensures Merged(io', ops, o', g)
  {
    BytesFrame(o, o', g);
    if io[g[0]].data.Pool? {
      forall i | 0 <= i < |g| ensures Linked(io', ops, o', g, i) {
        assert Linked(io, ops, o, g, i) && NextOf(io', g, i) == NextOf(io, g, i);
      }
      assert Linked(io, ops, o, g, 0);
    }
  }

  lemma PrepareOk(num: nat, m: Mem, a: Abs, id: nat, io: Iocb)
    requires Ok(num, m, a) && id !in a.place && io.data.Own?
    ensures Ok(num, Prepared(m, id, io), a.(orig := a.orig[id := io]))
  {
    hide GroupOk;
    var m', a' := Prepared(m, id, io), a.(orig := a.orig[id := io]);
    assert Used(m'.io) == Used(m.io);
    forall x | x in m'.io && m'.io[x].data.Pool? ensures Live(m', x) { assert Live(m, x); }
    forall x | x in a'.place ensures Member(a', x) { assert Member(a, x); }
    forall h | h in a'.groups ensures GroupOk(m', a', h) { PrepareGroup(num, m, a, id, io, h); }
  }

  lemma PrepareGroup(num: nat, m: Mem, a: Abs, id: nat, io: Iocb, h: nat)
    requires Ok(num, m, a) && id !in a.place && io.data.Own? && h in a.groups
    ensures GroupOk(Prepared(m, id, io), a.(orig := a.orig[id := io]), h)
  {
    assert GroupOk(m, a, h);
    var m', a' := Prepared(m, id, io), a.(orig := a.orig[id := io]);
    OrigFrame(a.orig, a'.orig, m.io, m'.io, m.ops, a.groups[h]);
    ContiguousFrame(a.orig, a'.orig, a.groups[h]);
  }

  lemma {:induction false} GroupsOne(o: Iocbs, id: nat)
    ensures Groups(o, [id]) == [[id]] && Flatten([[id]]) == [id]
  {
    hide Adjoins;
    hide Bytes;
    assert [id][..0] == [];
    assert Groups(o, []) == [];
    FlattenLast([], [id]);
    assert [] + [[id]] == [[id]] && [] + [id] == [id];
  }

  /** How the grouping goes on with the next iocb of the queue. */
  lemma {:induction false} GroupsStep(o: Iocbs, q: seq<nat>, i: nat)
    requires 0 < i < |q|
    ensures var gs := Groups(o, q[..i]);
            Groups(o, q[..i + 1]) ==
              if gs[|gs| - 1][0] in o && q[i] in o && Adjoins(Whole(o, gs[|gs| - 1]), o[q[i]])
              then gs[..|gs| - 1] + [gs[|gs| - 1] + [q[i]]] else gs + [[q[i]]]
  {
    assert q[..i + 1][..i] == q[..i];
  }

  /** The next iocb, whether it joins the group of h or starts its own. */
  lemma MergeStep(num: nat, m: Mem, a: Abs, h: nat, id: nat)
    requires Ok(num, m, a) && h in a.groups && id in m.io && id !in a.place
    ensures h in m.io && h in a.orig && id in a.orig && a.groups[h] != [] && a.groups[h][0] == h
    ensures Adjoins(m.io[h], m.io[id]) <==> Adjoins(Whole(a.orig, a.groups[h]), a.orig[id])
    ensures m.io[id].data.Own?
  {
    assert GroupOk(m, a, h);
    HeadIs(m, a, h);
  }

  lemma JoinReady(num: nat, m: Mem, a: Abs, h: nat, id: nat)
    requires Ok(num, m, a) && m.free != [] && h in a.groups && h in m.io && m.io[h].data.Pool?
    requires id in m.io && id !in a.place && Adjoins(m.io[h], m.io[id])
    ensures m.free[|m.free| - 1] < |m.ops|
    ensures var m' := Alloc(m, id);
            && Ready(num, m', a, h, id) && OrigOk(m'.(io := m'.io[id := a.orig[id]]), a)
            && (forall x {:trigger GroupOk(m', a, x)} :: x in a.groups ==> GroupOk(m', a, x))
  {
    var m' := Alloc(m, id);
    AllocPool(num, m, id);
    forall x | x in a.groups ensures GroupOk(m', a, x) { AllocGroups(num, m, a, x, id); }
    assert GroupOk(m, a, h) && GroupOk(m', a, h);
    assert h != id;
    assert Live(m', id) && Live(m', h);
  }

  /** Every iocb that hears of an event is a member of a group that is released. */
  lemma {:induction false} SplitMember(num: nat, m: Mem, a: Abs, events: seq<Event>, j: nat)
    requires Ok(num, m, a) && Heard(m, a, Objs(events)) && j < |SplitAll(m, a, events)|
    ensures var x := SplitAll(m, a, events)[j].obj;
            x in a.orig && x in a.place && a.place[x].0 in Objs(events)
  {
    var n := |events| - 1;
    var e := events[n];
    assert Objs(events)[n] == e.obj;
    forall i | 0 <= i < n ensures Objs(events[..n])[i] == Objs(events)[i] {}
    if j < |SplitAll(m, a, events[..n])| {
      SplitMember(num, m, a, events[..n], j);
    } else {
      var g := a.groups[e.obj];
      assert GroupOk(m, a, e.obj);
      if m.io[e.obj].data.Pool? {
        AnswersObjs(a.orig, g, Outcome(e.res, Bytes(a.orig, g)));
        assert Objs(AnswersAll(a.orig, g, Outcome(e.res, Bytes(a.orig, g))))[j - |SplitAll(m, a, events[..n])|] ==
            g[j - |SplitAll(m, a, events[..n])|];
      }
    }
  }

  /* ---- round trips ---- */

  lemma HeadsKnown(num: nat, m: Mem, a: Abs)
    requires Ok(num, m, a)
    ensures forall x :: x in a.place ==> a.place[x].0 in a.groups
  {
    forall x | x in a.place ensures a.place[x].0 in a.groups { assert Member(a, x); }
  }

  /** When nothing is merged any more, every iocb is as it was prepared and every
      record is back in the pool. */
  lemma AllBack(num: nat, m: Mem, a: Abs)
    requires Ok(num, m, a) && a.groups == map[]
    ensures m.io == a.orig && |m.free| == num
  {
    HeadsKnown(num, m, a);
    assert a.place.Keys == {};
    assert Used(m.io) == {};
  }

  /** Taking apart the iocbs that io_merge left gives back what it was given. */
  lemma {:induction false} MembersOfHeads(a: Abs, a0: Abs, out: seq<nat>, gs: seq<seq<nat>>, k: nat)
    requires Heads(a, a0, out, gs) && k <= |out|
    ensures Members(a, out[..k]) == Flatten(gs[..k])
    decreases k
  {
    if k > 0 {
      MembersOfHeads(a, a0, out, gs, k - 1);
      assert out[..k][..k - 1] == out[..k - 1] && gs[..k][..k - 1] == gs[..k - 1];
    }
  }

  /** However the events of merged iocbs come, the tiocbs that hear of them are the
      members of their groups, in order. */
  lemma {:induction false} SplitObjs(m: Mem, a: Abs, events: seq<Event>)
    requires Heard(m, a, Objs(events))
    requires forall h :: h in a.groups ==> h in m.io && (m.io[h].data.Own? ==> a.groups[h] == [h])
    ensures Objs(SplitAll(m, a, events)) == Members(a, Objs(events))
  {
    hide Answers;
    hide Heard;
    if events != [] {
      var n := |events| - 1;
      var e := events[n];
      assert e.obj == Objs(events)[n] && Objs(events[..n]) == Objs(events)[..n];
      HeardFirst(m, a, Objs(events), n);
      SplitObjs(m, a, events[..n]);
      var es := Answers(a.orig, a.groups[e.obj], m.io[e.obj].data.Pool?, e);
      AnswerObjs(m, a, e);
      assert Objs(SplitAll(m, a, events[..n]) + es) == Objs(SplitAll(m, a, events[..n])) + Objs(es);
    }
  }

  lemma HeardFirst(m: Mem, a: Abs, q: seq<nat>, n: nat)
    requires Heard(m, a, q) && n < |q|
    ensures Heard(m, a, q[..n]) && q[n] in a.groups && q[n] in m.io
  {
  }

  lemma AnswerObjs(m: Mem, a: Abs, e: Event)
    requires e.obj in a.groups && e.obj in m.io && (m.io[e.obj].data.Own? ==> a.groups[e.obj] == [e.obj])
    ensures Objs(Answers(a.orig, a.groups[e.obj], m.io[e.obj].data.Pool?, e)) == a.groups[e.obj]
  {
    if m.io[e.obj].data.Pool? {
      AnswersObjs(a.orig, a.groups[e.obj], Outcome(e.res, Bytes(a.orig, a.groups[e.obj])));
    }
  }

  lemma {:induction false} AnswersObjs(o: Iocbs, g: seq<nat>, err: int)
    ensures Objs(AnswersAll(o, g, err)) == g
  {
    if g != [] {
      AnswersObjs(o, g[..|g| - 1], err);
      var es := AnswersAll(o, g[..|g| - 1], err);
      assert Objs(es + [Answer(o, g[|g| - 1], err)]) == Objs(es) + [g[|g| - 1]];
    }
  }

  /** What io_merge left of a queue, given back in order: whether its iocbs are split by
      their events, however these turn out, or expanded unsubmitted, the queue is there
      again, every iocb is as it was prepared, and every record is back in the pool. */
  lemma {:induction false} RoundTrip(num: nat, m: Mem, a: Abs, a0: Abs, out: seq<nat>, gs: seq<seq<nat>>,
          queue: seq<nat>,
          events: seq<Event>, m': Mem, a': Abs)
    requires Ok(num, m, a) && Heads(a, a0, out, gs) && Flatten(gs) == queue && a0.groups == map[]
    requires Objs(events) == out
    requires Ok(num, m', a') && a'.orig == a.orig && Released(a', a, out)
    ensures Members(a, out) == queue && Objs(SplitAll(m, a, events)) == queue
    ensures m'.io == a.orig && |m'.free| == num
  {
    assert out[..|out|] == out && gs[..|gs|] == gs;
    MembersOfHeads(a, a0, out, gs, |out|);
    forall h | h in a.groups ensures h in m.io && (m.io[h].data.Own? ==> a.groups[h] == [h]) { HeadIs(m, a, h); }
    SplitObjs(m, a, events);
    assert a'.groups == map[];
    AllBack(num, m', a');
  }
}
