/** The tail queue of sys/queue.h, pointer by pointer, as drivers/td-rated.c uses it for
    the connections that wait. */
module TailQueue {

  /** A pointer to an element. */
  datatype Link = Nil | To(id: nat)

  /** Where such a pointer is kept: in the head, or in an element. */
  datatype Place = Head | Next(id: nat)

  /** The tqe_prev of an element: as memset left it, or the address of a place. */
  datatype Prev = Zeroed | At(place: Place)

  /** Head and links of all elements, on the list or not. */
  datatype Queue = Queue(first: Link, last: Place, next: map<nat, Link>, prev: map<nat, Prev>)

  const EMPTY := Queue(Nil, Head, map[], map[])

  function Load(q: Queue, p: Place): Link {
    match p
    case Head => q.first
    case Next(id) => if id in q.next then q.next[id] else Nil
  }

  function Store(q: Queue, p: Place, l: Link): Queue {
    match p
    case Head => q.(first := l)
    case Next(id) => q.(next := q.next[id := l])
  }

  /** memset of an element. */
  function Clear(q: Queue, id: nat): Queue { q.(next := q.next[id := Nil], prev := q.prev[id := Zeroed]) }

  /** TAILQ_INSERT_TAIL. */
  function InsertTail(q: Queue, id: nat): Queue {
    var q1 := q.(next := q.next[id := Nil], prev := q.prev[id := At(q.last)]);
    Store(q1, q.last, To(id)).(last := Next(id))
  }

  /** An element whose links have been set. */
  predicate Linked(q: Queue, id: nat) { id in q.next && id in q.prev && q.prev[id].At? }

  /** TAILQ_REMOVE. With links that have never been set, it would write through a null
      pointer. */
  function Remove(q: Queue, id: nat): Queue
    requires Linked(q, id)
  {
    var (n, p) := (q.next[id], q.prev[id].place);
    var q1 := match n case To(x) => q.(prev := q.prev[x := At(p)]) case Nil => q.(last := p);
    Store(q1, p, n)
  }

  /* ---- the list that the pointers make ---- */

  predicate Distinct(s: seq<nat>) { forall i, j :: 0 <= i < j < |s| ==> s[i] != s[j] }

  function Before(s: seq<nat>, i: nat): Place
    requires i <= |s|
  {
    if i == 0 then Head else Next(s[i - 1])
  }

  function After(s: seq<nat>, i: nat): Link
    requires i <= |s|
  {
    if i == |s| then Nil else To(s[i])
  }

  predicate ChainedAt(q: Queue, s: seq<nat>, i: nat)
    requires i < |s|
  {
    s[i] in q.next && s[i] in q.prev && q.next[s[i]] == After(s, i + 1) && q.prev[s[i]] == At(Before(s, i))
  }

  /** The pointers of q make the list s. */
  ghost predicate Chains(q: Queue, s: seq<nat>) {
    Distinct(s) && q.first == After(s, 0) && q.last == Before(s, |s|) && forall i: nat :: i < |s| ==> ChainedAt(q, s, i)
  }

  lemma InsertChains(q: Queue, s: seq<nat>, id: nat)
    requires Chains(q, s) && id !in s
    ensures Chains(InsertTail(q, id), s + [id])
  {
    var (q', s') := (InsertTail(q, id), s + [id]);
    forall i: nat | i < |s'| ensures ChainedAt(q', s', i) {
      if i < |s| { assert ChainedAt(q, s, i); }
    }
  }

  lemma ClearChains(q: Queue, s: seq<nat>, id: nat)
    requires Chains(q, s) && id !in s
    ensures Chains(Clear(q, id), s)
  {
    forall i: nat | i < |s| ensures ChainedAt(Clear(q, id), s, i) { assert ChainedAt(q, s, i); }
  }

  function Without(s: seq<nat>, k: nat): seq<nat>
    requires k < |s|
  {
    s[..k] + s[k + 1..]
  }

  lemma RemoveChains(q: Queue, s: seq<nat>, k: nat)
    requires Chains(q, s) && k < |s|
    ensures Linked(q, s[k]) && Chains(Remove(q, s[k]), Without(s, k))
  {
    assert ChainedAt(q, s, k);
    var (q', s') := (Remove(q, s[k]), Without(s, k));
    forall i: nat | i < |s'| ensures ChainedAt(q', s', i) {
      assert ChainedAt(q, s, if i < k then i else i + 1);
    }
  }

  /** What element id remembers of its neighbours is still so, as far as they are on s. */
  predicate Adjoined(q: Queue, s: seq<nat>, id: nat)
    requires Linked(q, id)
  {
    var (n, p) := (q.next[id], q.prev[id].place);
    && (match n case To(x) => x in s ==> x in q.prev && q.prev[x] == At(p) case Nil => q.last == p)
    && (p.Next? ==> p.id !in s || Load(q, p) == n) && (p.Head? ==> q.first == n)
  }

  /** Removing an element that is not on the list leaves the list as it is just if the
      neighbours it remembers are still neighbours. */
  lemma RemoveStale(q: Queue, s: seq<nat>, id: nat)
    requires Chains(q, s) && id !in s && Linked(q, id)
    ensures Chains(Remove(q, id), s) <==> Adjoined(q, s, id)
  {
    var (n, p, q') := (q.next[id], q.prev[id].place, Remove(q, id));
    if Adjoined(q, s, id) {
      forall i: nat | i < |s| ensures ChainedAt(q', s, i) { assert ChainedAt(q, s, i); }
    }
    if Chains(q', s) { StaleAdjoins(q, s, id); }
  }

  lemma StaleAdjoins(q: Queue, s: seq<nat>, id: nat)
    requires Chains(q, s) && id !in s && Linked(q, id) && Chains(Remove(q, id), s)
    ensures Adjoined(q, s, id)
  {
    var (n, p, q') := (q.next[id], q.prev[id].place, Remove(q, id));
    if n.To? && n.id in s {
      var i: nat :| i < |s| && s[i] == n.id;
      assert ChainedAt(q', s, i) && ChainedAt(q, s, i);
    }
    if p.Next? && p.id in s {
      var i: nat :| i < |s| && s[i] == p.id;
      assert ChainedAt(q', s, i) && ChainedAt(q, s, i);
    }
  }

  /** Connection 1 has been served and left the list, and connection 2 has joined it. When
      connection 1 is then removed again, connection 2 is lost. */
  lemma StaleRemoveLosesOthers()
    ensures var q := InsertTail(Remove(InsertTail(Clear(Clear(EMPTY, 1), 2), 1), 1), 2);
            Chains(q, [2]) && Linked(q, 1) && !Adjoined(q, [2], 1) && Remove(q, 1).first == Nil
    ensures !Linked(Clear(EMPTY, 1), 1)
  {
    var q := InsertTail(Remove(InsertTail(Clear(Clear(EMPTY, 1), 2), 1), 1), 2);
    assert ChainedAt(q, [2], 0);
  }
}
