/** The byte ring that holds syslog packets while the socket is busy
    (drivers/tapdisk-syslog.c). Indices run freely; the ring size need not be a power
    of two. */
module SyslogRing {
  import opened Arithmetic

  type byte = x: int | 0 <= x < 256

  type Text = seq<byte>

  const PACKET_MAX: nat := 1024   // TD_SYSLOG_PACKET_MAX, section 4.1 of RFC 3164

  const ENOBUFS := -105
  const ENOMSG := -42
  const EAGAIN := -11
  const ENOTCONN := -107

  /** What sending comes to. As often as the socket turns out not to be connected and is
      connected again, the send is tried again; `send` is what the last try returned, and
      if that was ENOTCONN, `connect` is the error of connecting. */
  datatype Outcome = Outcome(send: int, connect: int)

  predicate Possible(o: Outcome) { o.send == ENOTCONN ==> o.connect != 0 }

  /** Of the messages ids, those whose sending succeeds. */
  function Through<M>(ids: seq<M>, sent: seq<int>): seq<M>
    requires |ids| == |sent|
  {
    if ids == [] then []
    else
      var n := |ids| - 1;
      Through(ids[..n], sent[..n]) + if sent[n] == 0 then [ids[n]] else []
  }

  lemma ThroughNone<M>(ids: seq<M>, sent: seq<int>)
    ensures Through(ids[..0], sent[..0]) == []
  {
  }

  lemma ThroughNext<M>(ids: seq<M>, sent: seq<int>, i: nat)
    requires i < |ids| && i < |sent|
    ensures Through(ids[..i + 1], sent[..i + 1]) == Through(ids[..i], sent[..i]) + if sent[i] == 0 then [ids[i]] else []
  {
    assert ids[..i + 1][..i] == ids[..i] && sent[..i + 1][..i] == sent[..i];
  }

  /* ---- the bytes of a packet ---- */

  /** The string in the first `len` bytes of a buffer. */
  function Str(msg: Text, len: nat): (t: Text)
    ensures |t| <= len && |t| <= |msg| && 0 !in t
    ensures t == msg[..|t|]
    ensures |t| == len || |t| == |msg| || msg[|t|] == 0
  {
    if len == 0 || msg == [] || msg[0] == 0 then []
    else
      var t := Str(msg[1..], len - 1);
      assert [msg[0]] + t == msg[..|t| + 1];
      [msg[0]] + t
  }

  function Encode(q: seq<Text>): Text {
    if q == [] then [] else q[0] + [0] + Encode(q[1..])
  }

  lemma {:induction false} EncodeAdd(q: seq<Text>, t: Text)
    ensures Encode(q + [t]) == Encode(q) + (t + [0])
  {
    if q == [] {
      assert q + [t] == [t] && [t][1..] == [];
    } else {
      EncodeAdd(q[1..], t);
      assert (q + [t])[1..] == q[1..] + [t];
    }
  }

  /** The bytes that reading a packet takes off the front: to the first NUL, at most `size`. */
  function Taken(b: Text, size: nat): (n: nat)
    ensures n <= size && n <= |b|
  {
    if size == 0 || b == [] then 0
    else if b[0] == 0 then 1
    else 1 + Taken(b[1..], size - 1)
  }

  /** A packet is read back just if it and its NUL fit into the packet size. */
  lemma {:induction false} ReadsBack(t: Text, rest: Text, size: nat)
    requires 0 !in t
    ensures Taken(t + [0] + rest, size) == |t| + 1 <==> |t| < size
    ensures Taken(t + [0] + rest, size) == if |t| < size then |t| + 1 else size
  {
    var b := t + [0] + rest;
    if t != [] && size > 0 {
      assert t[0] in t && b[0] == t[0];
      assert b[1..] == t[1..] + [0] + rest;
      ReadsBack(t[1..], rest, size - 1);
    }
  }

  /* ---- the ring ---- */

  /** RING_PTR. */
  function Slot(r: pos, i: nat): (s: nat)
    ensures s < r
  {
    i % r
  }

  /** Indices less than a ring apart have different slots. */
  lemma SlotsDiffer(r: pos, i: nat, j: nat)
    requires i < j < i + r
    ensures Slot(r, i) != Slot(r, j)
  {
    assert i == i / r * r + i % r && j == j / r * r + j % r;
    if i / r < j / r { MulMono(i / r + 1, j / r, r); assert (i / r + 1) * r == i / r * r + r; }
  }

  /** The slot of index i, if indices wrap at w. */
  function WrappedSlot(r: pos, w: pos, i: nat): (s: nat)
    ensures s < r
  {
    Slot(r, i % w)
  }

  /** Indices that wrap at w keep a ring of bytes apart just if w is a multiple of the ring
      size. */
  lemma WrapExact(r: pos, w: pos)
    ensures (forall i: nat, j: nat :: i < j < i + r ==> WrappedSlot(r, w, i) != WrappedSlot(r, w, j)) <==> w % r == 0
  {
    if w % r == 0 {
      forall i: nat, j: nat | i < j < i + r ensures WrappedSlot(r, w, i) != WrappedSlot(r, w, j) {
        hide Slot;
        hide WrappedSlot;
        WrapSame(r, w, i);
        WrapSame(r, w, j);
        SlotsDiffer(r, i, j);
      }
    } else {
      WrapClash(r, w);
    }
  }

  lemma WrapClash(r: pos, w: pos)
    requires w % r != 0
    ensures var i := w - w % r; 0 <= i < w < i + r && WrappedSlot(r, w, i) == WrappedSlot(r, w, w)
  {
    var (q, m) := (w / r, w % r);
    assert w == q * r + m;
    MulMono(0, q, r);
    DivUnique(r, q, 0);
    SmallRest(w, w - m);
    DivUnique(w, 1, 0);
    DivUnique(r, 0, 0);
  }

  lemma SmallRest(w: pos, i: nat)
    requires i < w
    ensures i % w == i
  {
    DivUnique(w, 0, i);
  }

  lemma WrapSame(r: pos, w: pos, i: nat)
    requires w % r == 0
    ensures WrappedSlot(r, w, i) == Slot(r, i)
  {
    var (m, a, x) := (w / r, i / w, i % w);
    var (t, y) := (x / r, x % r);
    Parts(i, w);
    Parts(w, r);
    Parts(x, r);
    Regroup(i, a, w, x, m, r, t, y);
    DivUnique(r, a * m + t, y);
  }

  lemma Parts(n: nat, d: pos)
    ensures n == n / d * d + n % d && 0 <= n / d && 0 <= n % d < d
  {
  }

  lemma Regroup(i: nat, a: nat, w: nat, x: nat, m: nat, r: nat, t: nat, y: nat)
    requires i == a * w + x && w == m * r && x == t * r + y
    ensures i == (a * m + t) * r + y && 0 <= a * m
  {
    assert a * (m * r) == (a * m) * r;
    assert (a * m + t) * r == (a * m) * r + t * r;
  }

  /** The bytes b lie in the ring from index `from` on. */
  ghost predicate Holds(ring: seq<byte>, r: pos, from: nat, b: Text)
    requires |ring| == r
  {
    |b| <= r && forall k :: 0 <= k < |b| ==> ring[Slot(r, from + k)] == b[k]
  }

  /** The same, if indices wrap at w. */
  ghost predicate HoldsWrapped(ring: seq<byte>, r: pos, w: pos, from: nat, b: Text)
    requires |ring| == r
  {
    |b| <= r && forall k :: 0 <= k < |b| ==> ring[WrappedSlot(r, w, from + k)] == b[k]
  }

  /** With indices that wrap at a multiple of the ring size, the ring holds what it holds
      with indices that do not wrap. */
  lemma WrapHolds(ring: seq<byte>, r: pos, w: pos, from: nat, b: Text)
    requires |ring| == r && w % r == 0
    ensures HoldsWrapped(ring, r, w, from, b) <==> Holds(ring, r, from, b)
  {
    hide Slot;
    hide WrappedSlot;
    forall k | 0 <= k < |b| ensures ring[WrappedSlot(r, w, from + k)] == b[k] <==> ring[Slot(r, from + k)] == b[k] {
      WrapSame(r, w, from + k);
    }
  }

  lemma HoldsMore(ring: seq<byte>, r: pos, from: nat, b: Text, c: byte)
    requires |ring| == r && Holds(ring, r, from, b) && |b| < r
    ensures Holds(ring[Slot(r, from + |b|) := c], r, from, b + [c])
  {
    var ring' := ring[Slot(r, from + |b|) := c];
    forall k | 0 <= k < |b + [c]| ensures ring'[Slot(r, from + k)] == (b + [c])[k] {
      if k < |b| { SlotsDiffer(r, from + k, from + |b|); }
    }
  }

  lemma HoldsRest(ring: seq<byte>, r: pos, from: nat, a: Text, b: Text)
    requires |ring| == r && Holds(ring, r, from, a + b)
    ensures Holds(ring, r, from + |a|, b)
  {
    forall k | 0 <= k < |b| ensures ring[Slot(r, from + |a| + k)] == b[k] {
      assert (a + b)[|a| + k] == b[k];
      assert from + (|a| + k) == from + |a| + k;
    }
  }

  /** Strictly increasing, and below n. */
  ghost predicate Ordered(ids: seq<nat>, n: nat) {
    (forall i, j :: 0 <= i < j < |ids| ==> ids[i] < ids[j]) && (forall i :: 0 <= i < |ids| ==> ids[i] < n)
  }

  /** Strings that are read back whole. */
  ghost predicate Packets(q: seq<Text>) {
    forall i :: 0 <= i < |q| ==> |q[i]| < PACKET_MAX && 0 !in q[i]
  }

  lemma OrderedMore(a: seq<nat>, b: seq<nat>, n: nat)
    requires Ordered(a + b, n)
    ensures Ordered(a + (b + [n]), n + 1)
  {
    assert a + (b + [n]) == a + b + [n];
  }

  lemma PacketsMore(q: seq<Text>, t: Text)
    requires Packets(q) && |t| < PACKET_MAX && 0 !in t
    ensures Packets(q + [t])
  {
  }

  lemma NoBytes(base: Text, t: Text)
    ensures base + t[..0] == base
  {
  }

  lemma TakeOne(base: Text, t: Text, i: nat)
    ensures i < |t| ==> base + t[..i] + [t[i]] == base + t[..i + 1]
  {
  }

  class Syslog {
    const ringsz: pos
    const ring: array<byte>
    const msg: array<byte>      // one packet, staged
    var prod: nat
    var cons: nat
    var oom: nat
    var drops: nat
    var fails: nat
    ghost var queue: seq<Text>      // the packets in the ring
    ghost var ids: seq<nat>         // their numbers, in the order in which they were logged
    ghost var delivered: seq<nat>   // the numbers of what syslogd has got
    ghost var out: seq<Text>        // what syslogd has got
    ghost var next: nat

    ghost predicate Valid()
      reads this, ring, msg
    {
      && ring.Length == ringsz && msg.Length == PACKET_MAX && ring != msg
      && cons + |Encode(queue)| == prod <= cons + ringsz
      && Holds(ring[..], ringsz, cons, Encode(queue))
      && Packets(queue) && |ids| == |queue| && Ordered(delivered + ids, next)
    }

    /** tapdisk_syslog_ring_init. */
    constructor (ringsz: pos)
      ensures Valid() && this.ringsz == ringsz && queue == [] && delivered == [] && fresh(ring) && fresh(msg)
    {
      this.ringsz := ringsz;
      ring := new byte[ringsz](i => 0);
      msg := new byte[PACKET_MAX](i => 0);
      prod, cons, oom, drops, fails := 0, 0, 0, 0, 0;
      queue, ids, delivered, out, next := [], [], [], [], 0;
    }

    /** One byte, at index p. */
    method Put(p: nat, c: byte, ghost from: nat, ghost b: Text)
      requires ring.Length == ringsz && p == from + |b| && |b| < ringsz && Holds(ring[..], ringsz, from, b)
      modifies ring
      ensures Holds(ring[..], ringsz, from, b + [c])
    {
      HoldsMore(ring[..], ringsz, from, b, c);
      ghost var before := ring[..];
      ring[Slot(ringsz, p)] := c;
      assert ring[..] == before[Slot(ringsz, p) := c];
    }

    /** The loop of tapdisk_syslog_ring_write_str, and the NUL after it. */
    method CopyStr(buf: Text, n: nat, ghost base: Text) returns (size: nat)
      requires n <= |buf| && ring.Length == ringsz && prod == cons + |base| && |base| + n < ringsz
      requires Holds(ring[..], ringsz, cons, base)
      modifies ring
      ensures size == |Str(buf, n)| + 1 && Holds(ring[..], ringsz, cons, base + (Str(buf, n) + [0]))
    {
      hide Slot;
      hide Holds;
      ghost var t := Str(buf, n);
      NoBytes(base, t);
      var i := 0;
      while i < n && buf[i] != 0
        invariant i <= |t| && Holds(ring[..], ringsz, cons, base + t[..i])
      {
        TakeOne(base, t, i);
        Put(prod + i, buf[i], cons, base + t[..i]);
        i := i + 1;
      }
      assert t[..i] == t;
      Put(prod + i, 0, cons, base + t);
      assert base + t + [0] == base + (t + [0]);
      return i + 1;
    }

    /** tapdisk_syslog_ring_write_str: the string joins the ring's end, if there is room for
        all `len` bytes. */
    method WriteStr(buf: Text, len: nat) returns (err: int)
      requires Valid() && len <= |buf| && |Str(buf, if len < PACKET_MAX then len else PACKET_MAX)| < PACKET_MAX
      modifies this`prod, this`queue, this`ids, this`next, ring
      ensures Valid()
      ensures var n := if len < PACKET_MAX then len else PACKET_MAX;
              var full := n + 1 > ringsz - (old(prod) - cons);
              && err == (if full then ENOBUFS else 0)
              && queue == (if full then old(queue) else old(queue) + [Str(buf, n)])
              && ids == (if full then old(ids) else old(ids) + [old(next)])
              && next == (if full then old(next) else old(next) + 1)
              && (full ==> prod == old(prod))
    {
      hide Slot;
      hide Holds;
      hide Encode;
      hide Ordered;
      hide Packets;
      var n := if len < PACKET_MAX then len else PACKET_MAX;
      if n + 1 > ringsz - (prod - cons) { return ENOBUFS; }
      ghost var t := Str(buf, n);
      EncodeAdd(queue, t);
      OrderedMore(delivered, ids, next);
      PacketsMore(queue, t);
      var size := CopyStr(buf, n, Encode(queue));
      prod := prod + size;
      queue, ids, next := queue + [t], ids + [next], next + 1;
      return 0;
    }

    /** tapdisk_syslog_ring_read_pkt: the first packet in the ring, or -1. */
    method ReadPkt() returns (len: int)
      requires Valid()
      modifies msg
      ensures Valid() && (queue == [] ==> len == -1)
      ensures queue != [] ==> len == |queue[0]| && msg[..len] == queue[0]
    {
      hide Slot;
      hide Holds;
      hide Encode;
      hide Ordered;
      hide Packets;
      hide PacketAt;
      ghost var t := if queue == [] then [] else queue[0];
      RingEmpty(queue);
      if queue != [] { FirstPacket(ring[..], ringsz, cons, queue); }
      var sz := 0;
      while sz < PACKET_MAX
        invariant sz <= |t| && msg[..sz] == t[..sz]
        modifies msg
      {
        if queue != [] { PacketByte(ring[..], ringsz, cons, t, sz); }
        if cons + sz == prod { break; }
        var c := ring[Slot(ringsz, cons + sz)];
        msg[sz] := c;
        sz := sz + 1;
        if c == 0 { break; }
      }
      return sz - 1;
    }

    /** tapdisk_syslog_ring_dispatch_one; `sent` is what send returns. Any error but
        EAGAIN discards the packet. */
    method DispatchOne(sent: int) returns (err: int)
      requires Valid()
      modifies this`cons, this`fails, this`queue, this`ids, this`delivered, this`out, msg
      ensures Valid() && err == if old(queue) == [] then ENOMSG else if sent == EAGAIN then EAGAIN else 0
      ensures err != 0 ==> queue == old(queue) && ids == old(ids) && delivered == old(delivered) && out == old(out)
      ensures err == 0 ==> queue == old(queue)[1..] && ids == old(ids)[1..] &&
                           delivered == (if sent == 0 then old(delivered) + [old(ids)[0]] else old(delivered)) &&
                           out == (if sent == 0 then old(out) + [old(queue)[0]] else old(out))
    {
      hide Slot;
      hide Holds;
      hide Encode;
      hide Ordered;
      hide Packets;
      var len := ReadPkt();
      if len == -1 { return ENOMSG; }
      if sent == EAGAIN { return EAGAIN; }
      if sent != 0 { fails := fails + 1; }
      FirstPacket(ring[..], ringsz, cons, queue);
      OrderedFirst(delivered, ids, next);
      PacketsFirst(queue);
      cons := cons + len + 1;
      if sent == 0 { delivered, out := delivered + [ids[0]], out + [msg[..len]]; }
      queue, ids := queue[1..], ids[1..];
      return 0;
    }

    /** The loop of tapdisk_syslog_ring_dispatch. */
    method DispatchAll(sent: seq<int>)
      requires Valid() && |sent| > |queue|
      modifies this`cons, this`fails, this`queue, this`ids, this`delivered, this`out, msg
      ensures Valid() && |queue| <= |old(queue)| && next == old(next)
      ensures var k := |old(queue)| - |queue|;
              && queue == old(queue)[k..] && ids == old(ids)[k..]
              && (queue == [] || sent[k] == EAGAIN) && (forall j :: 0 <= j < k ==> sent[j] != EAGAIN)
              && delivered == old(delivered) + Through(old(ids)[..k], sent[..k])
              && out == old(out) + Through(old(queue)[..k], sent[..k])
    {
      hide Through;
      hide Holds;
      hide Encode;
      hide Ordered;
      hide Packets;
      ghost var ids0, q0, d0, o0 := ids, queue, delivered, out;
      var i := 0;
      ThroughNone(ids0, sent);
      ThroughNone(q0, sent);
      while true
        invariant Valid() && i <= |old(queue)|
        invariant queue == old(queue)[i..] && ids == ids0[i..]
        invariant forall j :: 0 <= j < i ==> sent[j] != EAGAIN
        invariant delivered == d0 + Through(ids0[..i], sent[..i]) && out == o0 + Through(q0[..i], sent[..i])
        decreases |old(queue)| - i
      {
        var err := DispatchOne(sent[i]);
        if err != 0 { break; }
        ThroughNext(ids0, sent, i);
        ThroughNext(q0, sent, i);
        i := i + 1;
      }
    }

    /** tapdisk_syslog_ring_dispatch: the ring is drained, and if messages were dropped
        meanwhile, a warning says so; if that cannot be logged the count stays. */
    method Dispatch(sent: seq<int>, warning: Text, o: Outcome)
      requires Valid() && |sent| > |queue| &&
               |Str(warning, if |warning| < PACKET_MAX then |warning| else PACKET_MAX)| < PACKET_MAX && Possible(o)
      modifies this, ring, msg
      ensures Valid() && old(delivered) <= delivered
      ensures old(oom) == 0 ==>
                oom == 0 && next == old(next) && exists k: nat :: k <= |old(queue)| && queue == old(queue)[k..]
      ensures old(oom) > 0 ==> if next == old(next) then oom == old(oom)
                               else oom == 0 && next == old(next) + 1 && old(next) in delivered + ids
    {
      DispatchAll(sent);
      if oom > 0 {
        var n := oom;
        oom := 0;
        var err := Vsyslog(warning, |warning|, o);
        if err != 0 { oom := n; }
      }
    }

    /** tapdisk_vsyslog for a text staged in `buf`: it is sent at once only if the ring is
        empty. If the ring is not, or the socket is full, it joins the ring, provided there is
        room and none has been dropped since the ring was last drained; else it is dropped. */
    method Vsyslog(buf: Text, len: nat, o: Outcome) returns (err: int)
      requires Valid() && len <= |buf| && |Str(buf, if len < PACKET_MAX then len else PACKET_MAX)| < PACKET_MAX &&
               Possible(o)
      modifies this, ring
      ensures Valid()
      ensures var n := if len < PACKET_MAX then len else PACKET_MAX;
              var res := if o.send == ENOTCONN then o.connect else o.send;
              var waits := old(queue) != [] || res == EAGAIN;
              var room := old(oom) == 0 && n + 1 <= ringsz - (old(prod) - cons);
              && err == (if waits then (if room then 0 else ENOBUFS) else res)
              && delivered == (if !waits && res == 0 then old(delivered) + [old(next)] else old(delivered))
              && out == (if !waits && res == 0 then old(out) + [buf[..len]] else old(out))
              && queue == (if waits && room then old(queue) + [Str(buf, n)] else old(queue))
              && ids == (if waits && room then old(ids) + [old(next)] else old(ids))
              && next == (if err == 0 then old(next) + 1 else old(next))
              && oom == (if waits && !room then old(oom) + 1 else old(oom))
              && drops == (if waits && !room then old(drops) + 1 else old(drops))
              && fails == (if !waits && res != 0 then old(fails) + 1 else old(fails))
    {
      hide Slot;
      hide Holds;
      hide Encode;
      hide Ordered;
      hide Packets;
      RingEmpty(queue);
      if cons == prod {
        err := SendNow(buf[..len], o);
        if err != EAGAIN { return; }
      }
      if oom > 0 {
        err := ENOBUFS;
      } else {
        err := WriteStr(buf, len);
        if err == 0 { return; }
      }
      oom, drops := oom + 1, drops + 1;
    }

    /** The send loop of tapdisk_vsyslog, with an empty ring. */
    method SendNow(text: Text, o: Outcome) returns (err: int)
      requires Valid() && queue == [] && Possible(o)
      modifies this`fails, this`delivered, this`out, this`next
      ensures Valid() && err == if o.send == ENOTCONN then o.connect else o.send
      ensures err == 0 ==>
                delivered == old(delivered) + [old(next)] && out == old(out) + [text] && next == old(next) + 1
      ensures err != 0 ==> delivered == old(delivered) && out == old(out) && next == old(next)
      ensures fails == old(fails) + if err != 0 && err != EAGAIN then 1 else 0
    {
      hide Ordered;
      err := o.send;
      if err == ENOTCONN { err := o.connect; }
      if err == 0 {
        OrderedSent(delivered, next);
        delivered, out, next := delivered + [next], out + [text], next + 1;
        assert ids == [];
        assert delivered + ids == delivered;
      } else if err != EAGAIN {
        fails := fails + 1;
      }
    }
  }

  lemma {:induction false} RingEmpty(q: seq<Text>)
    ensures |Encode(q)| == 0 <==> q == []
  {
  }

  lemma OrderedSent(a: seq<nat>, n: nat)
    requires Ordered(a + [], n)
    ensures Ordered(a + [n], n + 1)
  {
    assert a + [] == a;
  }

  lemma OrderedFirst(a: seq<nat>, b: seq<nat>, n: nat)
    requires Ordered(a + b, n) && b != []
    ensures Ordered(a + [b[0]] + b[1..], n) && Ordered(a + b[1..], n)
  {
    assert a + [b[0]] + b[1..] == a + b;
    var c := a + b[1..];
    forall i, j | 0 <= i < j < |c| ensures c[i] < c[j] {
      var i', j' := if i < |a| then i else i + 1, if j < |a| then j else j + 1;
      assert c[i] == (a + b)[i'] && c[j] == (a + b)[j'];
    }
    forall i | 0 <= i < |c| ensures c[i] < n { assert c[i] == (a + b)[if i < |a| then i else i + 1]; }
  }

  lemma PacketsFirst(q: seq<Text>)
    requires Packets(q) && q != []
    ensures Packets(q[1..])
  {
  }

  /** The packet t and its NUL lie in the ring from index `from` on. */
  ghost predicate PacketAt(ring: seq<byte>, r: pos, from: nat, t: Text)
    requires |ring| == r
  {
    Holds(ring, r, from, t + [0])
  }

  lemma PacketByte(ring: seq<byte>, r: pos, from: nat, t: Text, k: nat)
    requires |ring| == r && PacketAt(ring, r, from, t) && k <= |t|
    ensures ring[Slot(r, from + k)] == if k < |t| then t[k] else 0
  {
    assert (t + [0])[k] == if k < |t| then t[k] else 0;
  }

  lemma HoldsFirst(ring: seq<byte>, r: pos, from: nat, a: Text, b: Text)
    requires |ring| == r && Holds(ring, r, from, a + b)
    ensures Holds(ring, r, from, a)
  {
    forall k | 0 <= k < |a| ensures ring[Slot(r, from + k)] == a[k] { assert (a + b)[k] == a[k]; }
  }

  /** What the ring's bytes say of the first packet. */
  lemma {:induction false} FirstPacket(ring: seq<byte>, r: pos, from: nat, q: seq<Text>)
    requires |ring| == r && Holds(ring, r, from, Encode(q)) && q != [] && Packets(q)
    ensures var t := q[0];
            && |t| < PACKET_MAX && |t| < |Encode(q)| && 0 !in t
            && PacketAt(ring, r, from, t)
            && Holds(ring, r, from + |t| + 1, Encode(q[1..])) && |Encode(q)| == |t| + 1 + |Encode(q[1..])|
  {
    var t, rest := q[0], Encode(q[1..]);
    assert Encode(q) == t + [0] + rest == (t + [0]) + rest;
    HoldsRest(ring, r, from, t + [0], rest);
    HoldsFirst(ring, r, from, t + [0], rest);
  }
}
