/** Reads through the block cache (drivers/block-cache.c): a miss is passed to the parent with a
    buffer of its own, which the parent fills in pieces, in any order; with the last piece the
    buffer enters the cache and the read is answered. */
module CacheReads {
  import opened Arithmetic
  import opened BlockCache
  import opened RadixTree

  const MAX_SIZE: int := 0xA00000      // BLOCK_CACHE_MAX_SIZE

  /** block_cache_request: a read the parent has, with the sectors it still owes. */
  datatype Miss = Miss(sec: nat, secs: nat, left: int, err: int, buf: map<nat, int>)

  /** A read is answered from the cache, goes to the parent as it is, or with a buffer. */
  datatype Answer = Hit(data: seq<int>) | Forwarded | Awaiting

  datatype Reply = Reply(err: int, data: seq<int>)

  /** The parent has not yet completed the sectors in `owed` of the miss. */
  ghost predicate MissOk(height: nat, parent: nat -> int, m: Miss, owed: set<nat>) {
    && 0 < m.secs <= PAGE_NODES && m.sec + m.secs <= Pow(height + 1)
    && (forall k :: k in owed ==> k < m.secs) && m.left == |owed|
    && (m.err == 0 ==> forall k: nat :: k < m.secs && k !in owed ==> k in m.buf && m.buf[k] == parent(m.sec + k))
  }

  function Span(off: nat, n: nat): set<nat> { set k: nat | off <= k < off + n && Inside(k, off, n) }

  lemma {:induction false} SpanSize(off: nat, n: nat)
    ensures |Span(off, n)| == n
    decreases n
  {
    if n > 0 {
      SpanSize(off, n - 1);
      assert Span(off, n) == Span(off, n - 1) + {off + n - 1};
    }
  }

  function Copied(buf: map<nat, int>, off: nat, data: seq<int>): map<nat, int> {
    buf + map k | off <= k < off + |data| && Inside(k, off, |data|) :: data[k - off]
  }

  predicate Inside(k: nat, off: nat, n: nat) { off <= k < off + n }

  /** A piece of the miss after the parent has completed it. */
  function Credited(m: Miss, off: nat, n: nat, err: int, data: seq<int>): Miss {
    m.(left := m.left - n, err := if m.err != 0 then m.err else err,
       buf := if err == 0 then Copied(m.buf, off, data) else m.buf)
  }

  lemma CreditedBuf(m: Miss, off: nat, n: nat, err: int, data: seq<int>, k: nat, x: int)
    requires err == 0 ==> |data| == n && (off <= k < off + n ==> data[k - off] == x)
    requires off <= k < off + n || (m.err == 0 ==> k in m.buf && m.buf[k] == x)
    ensures var m' := Credited(m, off, n, err, data); m'.err == 0 ==> k in m'.buf && m'.buf[k] == x
  {
  }

  lemma CreditedOk(height: nat, parent: nat -> int, m: Miss, owed: set<nat>, off: nat, n: nat, err: int, data: seq<int>)
    requires MissOk(height, parent, m, owed) && Span(off, n) <= owed
    requires err == 0 ==> |data| == n && forall k :: 0 <= k < n ==> data[k] == parent(m.sec + off + k)
    ensures MissOk(height, parent, Credited(m, off, n, err, data), owed - Span(off, n))
  {
    hide Copied;
    LastPiece(owed, off, n);
    var m' := Credited(m, off, n, err, data);
    forall k: nat | k < m.secs && k !in owed - Span(off, n)
      ensures m'.err == 0 ==> k in m'.buf && m'.buf[k] == parent(m.sec + k)
    {
      if k in Span(off, n) && err == 0 { assert data[k - off] == parent(m.sec + off + (k - off)); }
      CreditedBuf(m, off, n, err, data, k, parent(m.sec + k));
    }
  }

  /** The buffer of a miss that has been completed without error. */
  function Whole(m: Miss): (full: seq<int>)
    ensures |full| == m.secs
  {
    seq(m.secs, k requires 0 <= k => if k in m.buf then m.buf[k] else 0)
  }

  lemma WholeIs(height: nat, parent: nat -> int, m: Miss)
    requires MissOk(height, parent, m, {}) && m.err == 0
    ensures forall k :: 0 <= k < m.secs ==> Whole(m)[k] == parent(m.sec + k)
  {
  }

  lemma LastPiece(owed: set<nat>, off: nat, n: nat)
    requires Span(off, n) <= owed
    ensures |owed - Span(off, n)| == |owed| - n && (|owed| == n <==> owed == Span(off, n))
  {
    SpanSize(off, n);
    assert owed == owed - Span(off, n) + Span(off, n);
    if |owed| == n { assert owed - Span(off, n) == {}; }
  }

  function InUse(misses: map<nat, Miss>): nat { |misses| }

  ghost predicate AllOk(height: nat, parent: nat -> int, misses: map<nat, Miss>, owed: map<nat, set<nat>>) {
    owed.Keys == misses.Keys && forall id :: id in misses ==> MissOk(height, parent, misses[id], owed[id])
  }

  lemma OneOk(height: nat, parent: nat -> int, misses: map<nat, Miss>, owed: map<nat, set<nat>>, id: nat)
    requires AllOk(height, parent, misses, owed) && id in misses
    ensures id in owed && MissOk(height, parent, misses[id], owed[id])
    ensures AllOk(height, parent, misses - {id}, owed - {id}) && InUse(misses - {id}) == InUse(misses) - 1
  {
    assert (misses - {id}).Keys == misses.Keys - {id};
    assert misses == (misses - {id})[id := misses[id]];
  }

  lemma PutOk(height: nat, parent: nat -> int, misses: map<nat, Miss>, owed: map<nat, set<nat>>, id: nat, m: Miss,
          o: set<nat>)
    requires AllOk(height, parent, misses, owed) && MissOk(height, parent, m, o)
    ensures AllOk(height, parent, misses[id := m], owed[id := o])
    ensures InUse(misses[id := m]) == InUse(misses) + if id in misses then 0 else 1
  {
    PutUse(misses, id, m);
  }

  lemma PutUse(misses: map<nat, Miss>, id: nat, m: Miss)
    ensures InUse(misses[id := m]) == InUse(misses) + if id in misses then 0 else 1
  {
    assert misses[id := m].Keys == misses.Keys + {id};
    if id in misses { assert misses[id := m].Keys == misses.Keys; }
    assert |misses[id := m]| == |misses[id := m].Keys| && |misses| == |misses.Keys|;
  }

  lemma {:induction false} NewOk(height: nat, parent: nat -> int, sec: nat, secs: nat)
    requires 0 < secs <= PAGE_NODES && sec + secs <= Pow(height + 1)
    ensures MissOk(height, parent, Miss(sec, secs, secs, 0, map[]), Span(0, secs))
  {
    SpanSize(0, secs);
  }

  lemma {:induction false} CreditedIs(height: nat, parent: nat -> int, m: Miss, owed: set<nat>, off: nat, n: nat,
          err: int, data: seq<int>)
    requires MissOk(height, parent, m, owed) && Span(off, n) <= owed
    ensures var m' := Credited(m, off, n, err, data);
            && m'.sec == m.sec && m'.secs == m.secs && m'.err == (if m.err != 0 then m.err else err)
            && 0 < m.secs <= PAGE_NODES && m.sec + m.secs <= Pow(height + 1)
            && m'.left >= 0 && (m'.left == 0 <==> owed == Span(off, n)) && (m'.left == 0 ==> owed - Span(off, n) == {})
  {
    LastPiece(owed, off, n);
  }

  class Reader {
    const cache: Cache
    const nodeBytes: nat          // sizeof(radix_tree_node_t)
    const requests: nat           // BLOCK_CACHE_REQUESTS
    var misses: map<nat, Miss>    // the requests in use
    var free: int                 // requests_free
    ghost const parent: nat -> int
    ghost var owed: map<nat, set<nat>>

    ghost predicate Valid()
      reads this, cache
    {
      && cache.Valid() && cache.Faithful(parent) && free == requests - InUse(misses) && free >= 0
      && AllOk(cache.height, parent, misses, owed)
    }

    /** block_cache_open. */
    constructor (sectors: nat, height: nat, nodeBytes: nat, requests: nat, ghost parent: nat -> int)
      requires height >= 1 && sectors <= Pow(height + 1)
      ensures Valid() && fresh(cache) && misses == map[] && this.parent == parent && this.requests == requests
    {
      cache := new Cache(sectors, height);
      this.nodeBytes, this.requests, this.parent := nodeBytes, requests, parent;
      misses, free, owed := map[], requests, map[];
    }

    /** block_cache_queue_read and block_cache_miss. `nomem` says that there is no memory for
        the buffer. */
    method QueueRead(id: nat, sec: nat, secs: nat, nomem: bool, now: nat) returns (answer: Answer)
      requires Valid() && id !in misses && sec + secs <= Pow(cache.height + 1)
      modifies this`misses, this`free, this`owed, cache`nodes
      ensures Valid() && cache.pages == old(cache.pages)
      ensures answer.Hit? ==> |answer.data| == secs && forall k :: 0 <= k < secs ==> answer.data[k] == parent(sec + k)
      ensures !answer.Hit? ==> secs > PAGE_NODES || exists k :: 0 <= k < secs && MissingAt(cache.T(), sec, k)
      ensures answer.Awaiting? <==> id in misses
      ensures answer.Awaiting? ==> free == old(free) - 1 && owed[id] == Span(0, secs)
      ensures misses == if answer.Awaiting? then old(misses)[id := misses[id]] else old(misses)
      ensures owed == if answer.Awaiting? then old(owed)[id := owed[id]] else old(owed)
      ensures !answer.Hit? && secs <= PAGE_NODES ==>
                (answer.Forwarded? <==> old(Taken()) + secs * SECTOR >= MAX_SIZE || old(free) == 0 || nomem)
    {
      hide AllOk;
      hide InUse;
      hide MissOk;
      hide Ok;
      hide Pow;
      var hit := cache.QueueRead(sec, secs, now, parent);
      if hit.Some? { return Hit(hit.value); }
      if secs > PAGE_NODES { return Forwarded; }
      if cache.size + cache.count * nodeBytes + secs * SECTOR >= MAX_SIZE { return Forwarded; }
      if free == 0 || nomem { return Forwarded; }
      NewOk(cache.height, parent, sec, secs);
      PutOk(cache.height, parent, misses, owed, id, Miss(sec, secs, secs, 0, map[]), Span(0, secs));
      free := free - 1;
      misses := misses[id := Miss(sec, secs, secs, 0, map[])];
      owed := owed[id := Span(0, secs)];
      return Awaiting;
    }

    /** radix_tree_size. */
    ghost function Taken(): int
      reads cache
    {
      cache.size + cache.count * nodeBytes
    }

    /** block_cache_prune_event. */
    method Prune(now: nat)
      requires Valid()
      modifies cache
      ensures Valid() && forall p :: p in cache.pages ==> p in old(cache.pages) && cache.pages[p] == old(cache.pages)[p]
    {
      hide AllOk;
      hide InUse;
      hide Ok;
      cache.Prune(now);
    }

    /** block_cache_put_request. */
    method PutRequest(id: nat)
      modifies this`misses, this`free, this`owed
      ensures misses == old(misses) - {id} && free == old(free) + 1 && owed == old(owed) - {id}
    {
      misses, free, owed := misses - {id}, free + 1, owed - {id};
    }

    /** The end of block_cache_populate_cache: unless there was an error the buffer enters the
        cache. */
    method Enter(m: Miss, now: nat) returns (full: seq<int>)
      requires cache.Valid() && cache.Faithful(parent) && MissOk(cache.height, parent, m, {})
      modifies cache
      ensures cache.Valid() && cache.Faithful(parent)
      ensures if m.err == 0 then
                |full| == m.secs && (forall k :: 0 <= k < m.secs ==> full[k] == parent(m.sec + k)) &&
                PageAdded(old(cache.pages), cache.pages, old(cache.nextPage), m.sec, full, m.secs)
              else full == [] && cache.pages == old(cache.pages)
    {
      hide Ok;
      hide Pow;
      hide PageAdded;
      if m.err != 0 { return []; }
      full := Whole(m);
      WholeIs(cache.height, parent, m);
      cache.Populate(m.sec, full, now, parent);
    }

    /** block_cache_populate_cache: the parent has completed n sectors of the miss from `off`
        on. With the last of them the read is answered, with the first error if there was
        one. */
    method Populate(id: nat, off: nat, n: nat, err: int, data: seq<int>, now: nat) returns (reply: Option<Reply>)
      requires Valid() && id in misses && Span(off, n) <= owed[id]
      requires err == 0 ==> |data| == n && forall k :: 0 <= k < n ==> data[k] == parent(misses[id].sec + off + k)
      modifies this`misses, this`free, this`owed, cache
      ensures Valid() && (reply.Some? <==> old(owed)[id] == Span(off, n))
      ensures var m, e := old(misses)[id], if old(misses)[id].err != 0 then old(misses)[id].err else err;
              match reply
              case None =>
                && misses == old(misses)[id := Credited(m, off, n, err, data)] && free == old(free)
                && owed == old(owed)[id := old(owed)[id] - Span(off, n)] && cache.pages == old(cache.pages)
              case Some(Reply(e', full)) =>
                && misses == old(misses) - {id} && free == old(free) + 1 && owed == old(owed) - {id} && e' == e
                && (e == 0 ==>
                     |full| == m.secs && (forall k :: 0 <= k < m.secs ==> full[k] == parent(m.sec + k)) &&
                     PageAdded(old(cache.pages), cache.pages, old(cache.nextPage), m.sec, full, m.secs))
                && (e != 0 ==> cache.pages == old(cache.pages))
    {
      hide AllOk;
      hide InUse;
      hide MissOk;
      hide Ok;
      hide Pow;
      hide Credited;
      hide Span;
      hide PageAdded;
      var m := Credited(misses[id], off, n, err, data);
      OneOk(cache.height, parent, misses, owed, id);
      ghost var rest := owed[id] - Span(off, n);
      CreditedOk(cache.height, parent, misses[id], owed[id], off, n, err, data);
      CreditedIs(cache.height, parent, misses[id], owed[id], off, n, err, data);
      if m.left > 0 {
        PutOk(cache.height, parent, misses, owed, id, m, rest);
        misses, owed := misses[id := m], owed[id := rest];
        return None;
      }
      var full := Enter(m, now);
      PutRequest(id);
      return Some(Reply(m.err, full));
    }
  }
}
