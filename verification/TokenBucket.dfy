/** The token bucket of the rate limiter (drivers/td-rated.c): connections ask for
    bytes, a bucket that fills at `rate` grants them in turn. */
module TokenBucket {
  import opened Arithmetic
  import Q = TailQueue

  const REQUEST_MAX: int := 0x800000   // TD_RLB_REQUEST_MAX

  const CONN_MAX: nat := 1024          // RLB_CONN_MAX

  const ENOMEM := -12

  const MILLION: pos := 1000000

  function Min(a: int, b: int): int { if a < b then a else b }

  /* ---- refill ---- */

  /** rlb_token_refill: the elapsed time is clamped to what is needed to fill the bucket. */
  function Refilled(cred: int, cap: int, rate: pos, dt: nat): int
    requires cred <= cap
  {
    var maxUsec := ((cap - cred) * MILLION + (rate - 1)) / rate;
    Min(cred + Min(dt, maxUsec) * rate / MILLION, cap)
  }

  /** The bucket after dt microseconds, without regard to overflow. */
  function Unclamped(cred: int, cap: int, rate: pos, dt: nat): int {
    Min(cap, cred + dt * rate / MILLION)
  }

  lemma DivLow(x: int, d: pos, q: int)
    requires q * d <= x
    ensures q <= x / d
  {
    var m := x / d;
    assert x == m * d + x % d;
    assert (m + 1) * d == m * d + d;
    if m + 1 <= q { MulLe(m + 1, q, d); }
  }

  lemma MulLe(a: int, b: int, d: int)
    requires a <= b && 0 <= d
    ensures a * d <= b * d
  {
    assert (b - a) * d >= 0;
  }

  /** The clamp only avoids overflow: the bucket fills at `rate` up to its cap. */
  lemma RefillExact(cred: int, cap: int, rate: pos, dt: nat)
    requires cred <= cap
    ensures Refilled(cred, cap, rate, dt) == Unclamped(cred, cap, rate, dt)
  {
    var room := cap - cred;
    var x := room * MILLION + (rate - 1);
    var maxUsec := x / rate;
    assert x == maxUsec * rate + x % rate;
    if dt > maxUsec {
      assert maxUsec * rate >= room * MILLION;
      DivLow(maxUsec * rate, MILLION, room);
      MulLe(maxUsec, dt, rate);
      DivLow(dt * rate, MILLION, room);
    }
  }

  /** What one refill adds: never more than the elapsed time allows, and less by at most
      a byte unless the bucket is full. */
  lemma RefillGain(cred: int, cap: int, rate: pos, dt: nat)
    requires cred <= cap
    ensures var gain := Refilled(cred, cap, rate, dt) - cred;
            && 0 <= gain && gain * MILLION <= dt * rate
            && (cred + gain < cap ==> dt * rate < (gain + 1) * MILLION)
  {
    RefillExact(cred, cap, rate, dt);
    var full := dt * rate / MILLION;
    MulLe(0, dt, rate);
    DivLow(dt * rate, MILLION, 0);
    assert dt * rate == full * MILLION + (dt * rate) % MILLION;
    MulLe(Refilled(cred, cap, rate, dt) - cred, full, MILLION);
  }

  /* ---- the limiter ---- */

  datatype Conn = Conn(need: nat, gntd: nat, waiting: bool)

  /** What arrives on a connection: a batch of (need, done) pairs; nothing yet; the end of
      the stream; or a number of bytes that is not a whole number of requests. */
  datatype Message = Batch(reqs: seq<(nat, nat)>) | NothingYet | EndOfStream | Garbled

  /** One iteration of the main loop. In `sent`, the connections whose socket takes a
      response. */
  datatype Wakeup = Wakeup(now: nat, messages: seq<(nat, Message)>, sent: set<nat>)

  /** The connections with the wait list: its pointers, and which connections should be on
      it. `crashed` says that the process has written through a null pointer. */
  datatype Table = Table(conns: map<nat, Conn>, links: Q.Queue, wait: seq<nat>, crashed: bool)

  /** The pointers make the list of the connections that wait. */
  ghost predicate Waits(t: Table) {
    ListOk(t.conns, t.wait) && Q.Chains(t.links, t.wait) && t.conns.Keys <= t.links.next.Keys * t.links.prev.Keys
  }

  /** TAILQ_REMOVE does no harm: the connection waits, or the neighbours that its links
      remember are still neighbours. */
  ghost predicate CanClose(t: Table, id: nat) {
    Q.Linked(t.links, id) && (id in t.wait || Q.Adjoined(t.links, t.wait, id))
  }

  /** rlb_conn_close, which takes the connection off the wait list whether it is on it or
      not. */
  function Closed(t: Table, id: nat): Table {
    if !Q.Linked(t.links, id) then t.(crashed := true)
    else t.(conns := t.conns - {id}, links := Q.Remove(t.links, id), wait := Remove(t.wait, id))
  }

  /** rlb_conn_receive: a connection that asks for too much, or gives back more than it was
      granted, is closed; so is one with nothing to read. */
  function Heard(t: Table, id: nat, msg: Message): Table {
    if t.crashed || id !in t.conns then t
    else
      var v := Verdict(t.conns[id], msg);
      if v.Refused? then Closed(t, id)
      else if v.conn.need > 0 && !v.conn.waiting then
        t.(conns := t.conns[id := v.conn.(waiting := true)], links := Q.InsertTail(t.links, id), wait := t.wait + [id])
      else t.(conns := t.conns[id := v.conn])
  }

  function AllHeard(t: Table, messages: seq<(nat, Message)>): Table {
    if messages == [] then t
    else
      var (id, msg) := messages[|messages| - 1];
      Heard(AllHeard(t, messages[..|messages| - 1]), id, msg)
  }

  ghost predicate CanHear(t: Table, id: nat, msg: Message) {
    id in t.conns && (Verdict(t.conns[id], msg).Refused? ==> CanClose(t, id))
  }

  /** Every connection that is closed for one of the messages can be, when its turn comes. */
  ghost predicate CanHearAll(t: Table, messages: seq<(nat, Message)>) {
    forall i {:trigger messages[..i]} :: 0 <= i < |messages| ==>
      CanHear(AllHeard(t, messages[..i]), messages[i].0, messages[i].1)
  }

  class Limiter {
    const cap: nat
    const rate: pos
    var cred: int
    var conns: map<nat, Conn>
    var links: Q.Queue          // the wait list
    var crashed: bool
    var now: nat                // microseconds
    var ts: nat
    ghost var wait: seq<nat>    // the connections that should be on the wait list
    ghost var granted: nat      // bytes granted since the reset
    ghost var spent: nat        // bytes taken out of the bucket since the reset
    ghost var refilled: nat     // bytes put into it
    ghost var start: nat        // the time of the reset

    ghost function Tab(): Table
      reads this`conns, this`links, this`wait, this`crashed
    {
      Table(conns, links, wait, crashed)
    }

    /** What the bucket's account depends on. */
    ghost function Books(t: nat): Bucket
      reads this`cred, this`spent, this`refilled, this`granted, this`conns, this`start
    {
      Bucket(cred, spent, refilled, granted, if start <= t then t - start else 0, conns)
    }

    /** Whatever has become of the wait list. */
    ghost predicate Solvent()
      reads this
    {
      start <= now && BucketOk(cap, rate, Books(now))
    }

    ghost predicate Valid()
      reads this
    {
      Waits(Tab()) && !crashed && Solvent()
    }

    /** rlb_token_create and rlb_token_reset. */
    constructor (cap: nat, rate: pos, now: nat)
      ensures Valid() && this.cap == cap && this.rate == rate && cred == cap && granted == 0 && start == now
    {
      this.cap, this.rate, this.now, ts, cred := cap, rate, now, now, cap;
      conns, links, wait, crashed := map[], Q.EMPTY, [], false;
      granted, spent, refilled, start := 0, 0, 0, now;
    }

    /** rlb_accept_conn: a connection slot is cleared, if one is free. */
    method Accept(id: nat) returns (err: int)
      requires Solvent() && id !in conns
      modifies this`conns, this`links
      ensures Solvent() && err == if |old(conns)| < CONN_MAX then 0 else ENOMEM
      ensures conns == if err == 0 then old(conns)[id := Conn(0, 0, false)] else old(conns)
      ensures old(Waits(Tab())) ==> Waits(Tab())
      ensures err == 0 ==> Books(now) == Happens(cap, rate, old(Books(now)), Joins(id))
    {
      if |conns| >= CONN_MAX { return ENOMEM; }
      if Waits(Tab()) { Q.ClearChains(links, wait, id); }
      links := Q.Clear(links, id);
      conns := conns[id := Conn(0, 0, false)];
      return 0;
    }

    /** rlb_conn_close. */
    method Close(id: nat)
      requires id in conns && !crashed
      modifies this`conns, this`wait, this`links, this`crashed
      ensures Tab() == Closed(old(Tab()), id)
      ensures !crashed && cred <= cap ==> Books(now) == Happens(cap, rate, old(Books(now)), Leaves(id))
    {
      if !(id in links.next && id in links.prev && links.prev[id].At?) {
        crashed := true;
        return;
      }
      links, wait := Q.Remove(links, id), Remove(wait, id);
      conns := conns - {id};
    }

    /** rlb_conn_receive. */
    method Receive(id: nat, msg: Message)
      requires id in conns && !crashed
      modifies this`conns, this`wait, this`links, this`crashed
      ensures crashed == Heard(old(Tab()), id, msg).crashed
      ensures !crashed ==> Tab() == Heard(old(Tab()), id, msg)
      ensures !crashed && old(Solvent()) ==> Books(now) == Happens(cap, rate, old(Books(now)), Hears(id, msg))
    {
      if !msg.Batch? {
        Close(id);
        return;
      }
      ghost var c0 := conns[id];
      var ok := TakeRequests(id, msg.reqs);
      if !ok {
        Close(id);
        return;
      }
      if c0.need <= REQUEST_MAX { AcceptSums(c0, msg.reqs); }
      if conns[id].need > 0 && !conns[id].waiting {
        links, wait := Q.InsertTail(links, id), wait + [id];
        conns := conns[id := conns[id].(waiting := true)];
      }
    }

    /** The loop of rlb_conn_receive. */
    method TakeRequests(id: nat, reqs: seq<(nat, nat)>) returns (ok: bool)
      requires id in conns
      modifies this`conns
      ensures id in conns && conns == old(conns)[id := conns[id]]
      ensures var v := Judge(old(conns)[id], reqs); ok == v.Accepted? && (ok ==> v.conn == conns[id])
    {
      ghost var c0 := conns[id];
      for i := 0 to |reqs|
        invariant id in conns && conns == old(conns)[id := conns[id]]
        invariant Judge(c0, reqs[..i]) == Accepted(conns[id])
      {
        AcceptNext(c0, reqs, i);
        var (need, done) := reqs[i];
        var c := conns[id];
        if need > REQUEST_MAX || done > c.gntd || c.need + need > REQUEST_MAX {
          AcceptRefuses(c0, reqs, i + 1);
          return false;
        }
        conns := conns[id := Conn(c.need + need, c.gntd - done, c.waiting)];
      }
      assert reqs[..|reqs|] == reqs;
      return true;
    }

    /** rlb_token_refill, for the time since the last wakeup. */
    method Refill(ghost before: nat)
      requires ts == before <= now && start <= before && BucketOk(cap, rate, Books(before))
      modifies this`cred, this`refilled
      ensures Solvent() && cred == Unclamped(old(cred), cap, rate, now - ts)
      ensures Books(now) == Happens(cap, rate, old(Books(before)), Passes(now - before))
    {
      RefillGain(cred, cap, rate, now - ts);
      RefillExact(cred, cap, rate, now - ts);
      HappensOk(cap, rate, Books(before), Passes(now - before));
      ghost var cred0 := cred;
      cred := Refilled(cred, cap, rate, now - ts);
      refilled := refilled + (cred - cred0);
    }

    /** rlb_conn_respond: a connection is granted all it needs, or is lost. */
    method Respond(id: nat, sent: bool)
      requires Waits(Tab()) && !crashed && wait != [] && wait[0] == id
      modifies this`conns, this`wait, this`links, this`granted, this`crashed
      ensures Waits(Tab()) && !crashed && wait == old(wait)[1..] && id in old(conns)
      ensures var c := old(conns)[id];
              && conns == (if sent then old(conns)[id := Conn(0, c.gntd + c.need, false)] else old(conns) - {id})
              && granted == old(granted) + if sent then c.need else 0
    {
      RemoveIs(wait, id);
      RemoveLinks(links, wait, id);
      var c := conns[id];
      if !sent {
        Close(id);
        return;
      }
      conns := conns[id := Conn(0, c.gntd + c.need, false)];
      granted := granted + c.need;
      links, wait := Q.Remove(links, id), wait[1..];
    }

    /** rlb_token_dispatch: waiting connections are served in order while the bucket is not
        overdrawn. */
    method Dispatch(sent: set<nat>, ghost before: nat)
      requires Waits(Tab()) && !crashed && ts == before <= now && start <= before && BucketOk(cap, rate, Books(before))
      modifies this`cred, this`refilled, this`conns, this`wait, this`links, this`granted, this`spent, this`crashed
      ensures Valid() && (wait == [] || cred < 0)
      ensures |wait| <= |old(wait)| && wait == old(wait)[|old(wait)| - |wait|..]
      ensures var served := old(wait)[..|old(wait)| - |wait|];
              && Served(old(conns), conns, served, sent)
              && cred == Unclamped(old(cred), cap, rate, now - ts) - Needed(old(conns), served)
              && granted == old(granted) + NeededBy(old(conns), served, sent)
              && (served != [] ==>
                Unclamped(old(cred), cap, rate, now - ts) >= Needed(old(conns), served[..|served| - 1]))
      ensures cred + (spent - old(spent)) == Unclamped(old(cred), cap, rate, now - ts)
    {
      hide ListOk;
      hide BucketOk;
      hide Served;
      hide Unclamped;
      hide Needed;
      hide NeededBy;
      Refill(before);
      ghost var w0, c0, full := wait, conns, cred;
      ghost var n: nat := 0;
      ServedNone(conns, wait, sent);
      var conn := links.first;
      while conn.To? && cred >= 0
        invariant conn == Q.After(wait, 0)
        invariant Valid() && n <= |w0| && wait == w0[n..] && Served(c0, conns, w0[..n], sent)
        invariant cred == full - Needed(c0, w0[..n]) && granted == old(granted) + NeededBy(c0, w0[..n], sent)
        invariant cred + (spent - old(spent)) == full
        invariant n > 0 ==> full >= Needed(c0, w0[..n - 1])
        decreases |wait|
      {
        WaitFirst(c0, w0, conns, n);
        ServedNext(c0, conns, w0, n, sent);
        NeededNext(c0, w0, n, sent);
        assert Q.ChainedAt(links, wait, 0);
        var next := links.next[conn.id];
        ServeFirst(conn.id, sent);
        conn := next;
        n := n + 1;
      }
      assert n > 0 ==> w0[..n][..n - 1] == w0[..n - 1];
    }

    /** The first waiting connection is granted what it needs, out of the bucket. */
    method ServeFirst(id: nat, sent: set<nat>)
      requires Valid() && wait != [] && cred >= 0 && id == wait[0]
      modifies this`cred, this`conns, this`wait, this`links, this`granted, this`spent, this`crashed
      ensures Valid() && wait == old(wait)[1..] && old(wait)[0] in old(conns)
      ensures Books(now) == Happens(cap, rate, old(Books(now)), Serves(id, id in sent))
      ensures var need := old(conns)[id].need;
              && conns == (if id in sent then old(conns)[id := Conn(0, old(conns)[id].gntd + need, false)]
                           else old(conns) - {id})
              && cred == old(cred) - need && spent == old(spent) + need
              && granted == old(granted) + if id in sent then need else 0
    {
      var need := conns[id].need;
      HappensOk(cap, rate, Books(now), Serves(id, id in sent));
      cred := cred - need;
      spent := spent + need;
      Respond(id, id in sent);
    }

    /** The time handling of rlb_main_iterate: every wakeup refills for exactly the time
        since the one before. */
    method Iterate(w: Wakeup)
      requires Valid() && now <= w.now && CanHearAll(Tab(), w.messages)
      modifies this
      ensures Valid() && now == w.now && start == old(start) && (wait == [] || cred < 0)
      ensures cred + (spent - old(spent)) == Unclamped(old(cred), cap, rate, w.now - old(now))
    {
      hide BucketOk;
      hide CanHearAll;
      hide Waits;
      hide Heard;
      hide Served;
      hide Unclamped;
      hide Needed;
      hide NeededBy;
      ghost var before := now;
      OkNeeds(cap, rate, Books(now));
      AllHeardWaits(Tab(), w.messages);
      AllHeardOk(cap, rate, Books(now), Tab(), w.messages);
      ts := now;
      now := w.now;
      ReceiveAll(w.messages);
      Dispatch(w.sent, before);
    }

    /** The messages are received in turn. */
    method ReceiveAll(messages: seq<(nat, Message)>)
      requires !crashed
      modifies this`conns, this`wait, this`links, this`crashed
      ensures crashed == AllHeard(old(Tab()), messages).crashed
      ensures !crashed ==> Tab() == AllHeard(old(Tab()), messages)
    {
      hide Heard;
      for i := 0 to |messages|
        invariant !crashed && Tab() == AllHeard(old(Tab()), messages[..i])
      {
        var (id, msg) := messages[i];
        assert messages[..i + 1][..i] == messages[..i];
        if id in conns { Receive(id, msg); } else { HeardNot(Tab(), id, msg); }
        if crashed {
          StaysCrashed(old(Tab()), messages, i + 1);
          return;
        }
      }
      assert messages[..|messages|] == messages;
    }
  }

  lemma HeardNot(t: Table, id: nat, msg: Message)
    requires t.crashed || id !in t.conns
    ensures Heard(t, id, msg) == t
  {
  }

  lemma {:induction false} StaysCrashed(t: Table, messages: seq<(nat, Message)>, i: nat)
    requires i <= |messages| && AllHeard(t, messages[..i]).crashed
    ensures AllHeard(t, messages).crashed
    decreases |messages| - i
  {
    if i == |messages| {
      assert messages[..i] == messages;
    } else {
      assert messages[..i + 1][..i] == messages[..i];
      StaysCrashed(t, messages, i + 1);
    }
  }

  /** A message keeps the wait list right if a connection that is closed for it can be. */
  lemma HeardWaits(t: Table, id: nat, msg: Message)
    requires Waits(t) && NeedsOk(t.conns) && !t.crashed && CanHear(t, id, msg)
    ensures Waits(Heard(t, id, msg)) && !Heard(t, id, msg).crashed
  {
    var v := Verdict(t.conns[id], msg);
    if v.Refused? {
      RemoveIs(t.wait, id);
      RemoveLinks(t.links, t.wait, id);
    } else {
      AcceptSums(t.conns[id], msg.reqs);
      NowWaiting(t.conns, t.wait, id, v.conn);
      if v.conn.need > 0 && !v.conn.waiting { Q.InsertChains(t.links, t.wait, id); }
    }
  }

  lemma {:induction false} AllHeardWaits(t: Table, messages: seq<(nat, Message)>)
    requires Waits(t) && NeedsOk(t.conns) && !t.crashed && CanHearAll(t, messages)
    ensures Waits(AllHeard(t, messages)) && !AllHeard(t, messages).crashed && NeedsOk(AllHeard(t, messages).conns)
  {
    hide Waits;
    hide CanHear;
    hide Heard;
    hide NeedsOk;
    if messages != [] {
      var n := |messages| - 1;
      FirstHeard(t, messages, n);
      AllHeardWaits(t, messages[..n]);
      var (id, msg) := messages[n];
      HeardWaits(AllHeard(t, messages[..n]), id, msg);
      HeardNeeds(AllHeard(t, messages[..n]), id, msg);
    }
  }

  lemma {:induction false} FirstHeard(t: Table, messages: seq<(nat, Message)>, n: nat)
    requires CanHearAll(t, messages) && n <= |messages|
    ensures CanHearAll(t, messages[..n])
    ensures n < |messages| ==> CanHear(AllHeard(t, messages[..n]), messages[n].0, messages[n].1)
  {
    hide CanHear;
    forall i {:trigger messages[..n][..i]} | 0 <= i < n
      ensures CanHear(AllHeard(t, messages[..n][..i]), messages[..n][i].0, messages[..n][i].1)
    {
      assert messages[..n][..i] == messages[..i];
    }
  }

  lemma HeardNeeds(t: Table, id: nat, msg: Message)
    requires NeedsOk(t.conns)
    ensures NeedsOk(Heard(t, id, msg).conns)
  {
    if !t.crashed && id in t.conns && Verdict(t.conns[id], msg).Accepted? { AcceptSums(t.conns[id], msg.reqs); }
  }

  /** So it is if every connection that is closed for a message waits when the messages
      arrive, each on its own connection. */
  lemma {:induction false} WaitingCanHear(t: Table, messages: seq<(nat, Message)>)
    requires Waits(t) && NeedsOk(t.conns) && !t.crashed
    requires forall i, j :: 0 <= i < j < |messages| ==> messages[i].0 != messages[j].0
    requires forall i :: 0 <= i < |messages| ==>
               messages[i].0 in t.conns && ClosesWaiting(t.conns[messages[i].0], messages[i].1)
    ensures CanHearAll(t, messages)
  {
    hide Waits;
    hide NeedsOk;
    hide ClosesWaiting;
    hide CanHear;
    if messages != [] {
      var n := |messages| - 1;
      WaitingCanHear(t, messages[..n]);
      AllHeardWaits(t, messages[..n]);
      var (t1, id, msg) := (AllHeard(t, messages[..n]), messages[n].0, messages[n].1);
      OthersHeard(t, messages[..n], id);
      WaitingCloses(t1, id, msg);
      forall i {:trigger messages[..i]} | 0 <= i < |messages|
        ensures CanHear(AllHeard(t, messages[..i]), messages[i].0, messages[i].1)
      {
        assert i < n ==> messages[..n][..i] == messages[..i];
      }
    }
  }

  lemma {:induction false} OthersHeard(t: Table, messages: seq<(nat, Message)>, id: nat)
    requires id in t.conns && forall i :: 0 <= i < |messages| ==> messages[i].0 != id
    ensures var t' := AllHeard(t, messages); id in t'.conns && t'.conns[id] == t.conns[id]
  {
    hide Verdict;
    hide Q.Linked;
    if messages != [] { OthersHeard(t, messages[..|messages| - 1], id); }
  }

  lemma WaitingCloses(t: Table, id: nat, msg: Message)
    requires Waits(t) && id in t.conns && ClosesWaiting(t.conns[id], msg)
    ensures CanHear(t, id, msg)
  {
    if t.conns[id].waiting {
      var k: nat :| k < |t.wait| && t.wait[k] == id;
      assert Q.ChainedAt(t.links, t.wait, k);
    }
  }

  /* ---- the account, whatever the wait list ---- */

  /** The bucket with the connections, and the time since the reset. */
  datatype Bucket = Bucket(cred: int, spent: nat, refilled: nat, granted: nat, time: nat, conns: map<nat, Conn>)

  /** A connection is accepted, a message arrives on it, time passes, some connection is
      served while the credit is not negative, or a connection goes. */
  datatype Event = Joins(id: nat) | Hears(id: nat, msg: Message) | Passes(dt: nat) | Serves(id: nat, sent: bool) |
    Leaves(id: nat)

  predicate CanHappen(b: Bucket, e: Event) {
    match e
    case Joins(id) => id !in b.conns
    case Hears(id, _) => id in b.conns
    case Passes(_) => true
    case Serves(id, _) => id in b.conns && b.cred >= 0
    case Leaves(id) => true
  }

  function Happens(cap: nat, rate: pos, b: Bucket, e: Event): Bucket
    requires CanHappen(b, e) && b.cred <= cap
  {
    match e
    case Joins(id) => b.(conns := b.conns[id := Conn(0, 0, false)])
    case Hears(id, msg) =>
      var v := Verdict(b.conns[id], msg);
      b.(conns := if v.Refused? then b.conns - {id} else b.conns[id := v.conn.(waiting := v.conn.need > 0)])
    case Passes(dt) =>
      RefillGain(b.cred, cap, rate, dt);
      var gain := Refilled(b.cred, cap, rate, dt) - b.cred;
      b.(cred := b.cred + gain, refilled := b.refilled + gain, time := b.time + dt)
    case Serves(id, sent) =>
      var c := b.conns[id];
      b.(cred := b.cred - c.need, spent := b.spent + c.need, granted := b.granted + if sent then c.need else 0,
         conns := if sent then b.conns[id := Granted(c)] else b.conns - {id})
    case Leaves(id) => b.(conns := b.conns - {id})
  }

  ghost predicate NeedsOk(conns: map<nat, Conn>) {
    forall id :: id in conns ==> conns[id].need <= REQUEST_MAX && (conns[id].waiting <==> conns[id].need > 0)
  }

  ghost predicate BucketOk(cap: nat, rate: pos, b: Bucket) {
    NeedsOk(b.conns) && AccountOk(b.cred, cap, b.spent, b.refilled, b.granted, b.time * rate)
  }

  /** What is in the bucket is what was put in less what was taken out, no more was put in
      than the time allows, and no more granted than taken out. */
  ghost predicate AccountOk(cred: int, cap: nat, spent: nat, refilled: nat, granted: nat, room: int) {
    -REQUEST_MAX <= cred <= cap && cred + spent == cap + refilled && granted <= spent && refilled * MILLION <= room
  }

  lemma OkNeeds(cap: nat, rate: pos, b: Bucket)
    requires BucketOk(cap, rate, b)
    ensures NeedsOk(b.conns) && b.cred <= cap
  {
  }

  /** No event spoils the account, whichever connection it is that is served or goes. */
  lemma HappensOk(cap: nat, rate: pos, b: Bucket, e: Event)
    requires BucketOk(cap, rate, b) && CanHappen(b, e)
    ensures BucketOk(cap, rate, Happens(cap, rate, b, e))
  {
    if e.Passes? {
      RefillGain(b.cred, cap, rate, e.dt);
      MulAdd(b.time, e.dt, rate);
    }
    if e.Hears? && Verdict(b.conns[e.id], e.msg).Accepted? { AcceptSums(b.conns[e.id], e.msg.reqs); }
  }

  lemma {:induction false} AllHeardOk(cap: nat, rate: pos, b: Bucket, t: Table, messages: seq<(nat, Message)>)
    requires BucketOk(cap, rate, b) && b.conns == t.conns
    ensures BucketOk(cap, rate, b.(conns := AllHeard(t, messages).conns))
  {
    hide Heard;
    if messages != [] {
      var n := |messages| - 1;
      AllHeardOk(cap, rate, b, t, messages[..n]);
      HeardNeeds(AllHeard(t, messages[..n]), messages[n].0, messages[n].1);
    }
  }

  ghost predicate BucketRun(cap: nat, rate: pos, bs: seq<Bucket>, es: seq<Event>) {
    && |bs| == |es| + 1 && bs[0] == Bucket(cap, 0, 0, 0, 0, map[])
    && forall i :: 0 <= i < |es| ==> BucketNext(cap, rate, bs[i], es[i], bs[i + 1])
  }

  ghost predicate BucketNext(cap: nat, rate: pos, b: Bucket, e: Event, b': Bucket) {
    CanHappen(b, e) && b.cred <= cap && b' == Happens(cap, rate, b, e)
  }

  lemma {:induction false} RunSolvent(cap: nat, rate: pos, bs: seq<Bucket>, es: seq<Event>, i: nat)
    requires BucketRun(cap, rate, bs, es) && i < |bs|
    ensures BucketOk(cap, rate, bs[i])
  {
    hide Happens;
    if i > 0 {
      RunSolvent(cap, rate, bs, es, i - 1);
      assert BucketNext(cap, rate, bs[i - 1], es[i - 1], bs[i]);
      HappensOk(cap, rate, bs[i - 1], es[i - 1]);
    }
  }

  /** The bound the bucket is for. Over any run, whatever becomes of the wait list, the
      credit never falls below minus one request nor rises above the cap, and the bytes
      granted are at most the cap, what the rate allows in the time, and one request. */
  lemma GrantBound(cap: nat, rate: pos, bs: seq<Bucket>, es: seq<Event>, i: nat)
    requires BucketRun(cap, rate, bs, es) && i < |bs|
    ensures -REQUEST_MAX <= bs[i].cred <= cap
    ensures bs[i].granted <= cap + bs[i].time * rate / MILLION + REQUEST_MAX
  {
    RunSolvent(cap, rate, bs, es, i);
    DivLow(bs[i].time * rate, MILLION, bs[i].refilled);
  }

  lemma MulAdd(a: int, b: int, d: int)
    ensures (a + b) * d == a * d + b * d
  {
  }

  function Granted(c: Conn): Conn { Conn(0, c.gntd + c.need, false) }

  /** What the connections of q need together, and what those of them need whose socket
      takes the response. */
  function Needed(conns: map<nat, Conn>, q: seq<nat>): nat {
    if q == [] then 0
    else Needed(conns, q[..|q| - 1]) + if q[|q| - 1] in conns then conns[q[|q| - 1]].need else 0
  }

  function NeededBy(conns: map<nat, Conn>, q: seq<nat>, sent: set<nat>): nat {
    if q == [] then 0
    else NeededBy(conns, q[..|q| - 1], sent) +
         if q[|q| - 1] in conns && q[|q| - 1] in sent then conns[q[|q| - 1]].need else 0
  }

  lemma {:induction false} NeededNext(conns: map<nat, Conn>, q: seq<nat>, n: nat, sent: set<nat>)
    requires n < |q| && q[n] in conns
    ensures Needed(conns, q[..n + 1]) == Needed(conns, q[..n]) + conns[q[n]].need
    ensures NeededBy(conns, q[..n + 1], sent) == NeededBy(conns, q[..n], sent) +
              if q[n] in sent then conns[q[n]].need else 0
  {
    assert q[..n + 1][..n] == q[..n];
  }

  /** The connections of q have been granted what they needed, or were lost. */
  ghost predicate Served(conns: map<nat, Conn>, conns': map<nat, Conn>, q: seq<nat>, sent: set<nat>) {
    && (forall id :: id in conns && id !in q ==> id in conns' && conns'[id] == conns[id])
    && (forall id :: id in q ==>
      id in conns && if id in sent then id in conns' && conns'[id] == Conn(0, conns[id].gntd + conns[id].need, false)
                     else id !in conns')
  }

  lemma ServedNext(conns: map<nat, Conn>, conns': map<nat, Conn>, q: seq<nat>, n: nat, sent: set<nat>)
    requires n < |q| && q[n] in conns' && q[n] !in q[..n] && Served(conns, conns', q[..n], sent)
    requires q[n] in conns
    ensures conns'[q[n]] == conns[q[n]]
    ensures Served(conns, if q[n] in sent then conns'[q[n] := Granted(conns'[q[n]])] else conns' - {q[n]}, q[..n + 1],
              sent)
  {
    assert q[..n + 1] == q[..n] + [q[n]];
  }

  lemma WaitFirst(conns: map<nat, Conn>, q: seq<nat>, conns': map<nat, Conn>, n: nat)
    requires n < |q| && ListOk(conns, q) && ListOk(conns', q[n..])
    ensures q[n] in conns && q[n] in conns' && q[n] !in q[..n] && q[n..][1..] == q[n + 1..]
  {
    assert q[n..][0] == q[n] && q[n] in q[n..] && q[n] in q;
  }

  lemma {:induction false} ServedNone(conns: map<nat, Conn>, q: seq<nat>, sent: set<nat>)
    ensures Served(conns, conns, q[..0], sent) && Needed(conns, q[..0]) == 0 && NeededBy(conns, q[..0], sent) == 0
  {
  }

  /** A connection that needs something joins the end of the wait list, once. */
  lemma NowWaiting(conns: map<nat, Conn>, wait: seq<nat>, id: nat, c: Conn)
    requires ListOk(conns, wait) && NeedsOk(conns) && id in conns && c.need >= conns[id].need &&
             c.waiting == conns[id].waiting
    ensures ListOk(conns[id := c.(waiting := c.need > 0)], if c.need > 0 && !c.waiting then wait + [id] else wait)
    ensures c.need > 0 && c.waiting ==> conns[id := c] == conns[id := c.(waiting := c.need > 0)]
  {
    assert c.waiting ==> c.need > 0;
    assert forall x :: x in wait + [id] <==> x in wait || x == id;
  }

  datatype Judgement = Accepted(conn: Conn) | Refused

  /** What becomes of a connection from which msg arrives. */
  function Verdict(c: Conn, msg: Message): Judgement { if msg.Batch? then Judge(c, msg.reqs) else Refused }

  /** A connection that is closed for msg waits. */
  predicate ClosesWaiting(c: Conn, msg: Message) { Verdict(c, msg).Refused? ==> c.waiting }

  /** The effect of a batch of requests on a connection. */
  function Judge(c: Conn, reqs: seq<(nat, nat)>): Judgement {
    if reqs == [] then Accepted(c)
    else
      var (need, done) := reqs[|reqs| - 1];
      var v := Judge(c, reqs[..|reqs| - 1]);
      if v.Refused? || need > REQUEST_MAX || done > v.conn.gntd || v.conn.need + need > REQUEST_MAX then Refused
      else Accepted(Conn(v.conn.need + need, v.conn.gntd - done, v.conn.waiting))
  }

  ghost predicate ListOk(conns: map<nat, Conn>, wait: seq<nat>) {
    && (forall i, j :: 0 <= i < j < |wait| ==> wait[i] != wait[j])
    && (forall id :: id in wait <==> id in conns && conns[id].waiting)
  }

  lemma {:induction false} AcceptNext(c: Conn, reqs: seq<(nat, nat)>, i: nat)
    requires i < |reqs|
    ensures Judge(c, reqs[..i + 1]) ==
      var v := Judge(c, reqs[..i]);
      var (need, done) := reqs[i];
      if v.Refused? || need > REQUEST_MAX || done > v.conn.gntd || v.conn.need + need > REQUEST_MAX then Refused
      else Accepted(Conn(v.conn.need + need, v.conn.gntd - done, v.conn.waiting))
  {
    assert reqs[..i + 1][..i] == reqs[..i];
  }

  /** One refused request refuses the batch. */
  lemma {:induction false} AcceptRefuses(c: Conn, reqs: seq<(nat, nat)>, i: nat)
    requires i <= |reqs| && Judge(c, reqs[..i]).Refused?
    ensures Judge(c, reqs).Refused?
    decreases |reqs| - i
  {
    if i == |reqs| {
      assert reqs[..i] == reqs;
    } else {
      AcceptNext(c, reqs, i);
      AcceptRefuses(c, reqs, i + 1);
    }
  }

  function Needs(reqs: seq<(nat, nat)>): nat {
    if reqs == [] then 0 else Needs(reqs[..|reqs| - 1]) + reqs[|reqs| - 1].0
  }

  function Dones(reqs: seq<(nat, nat)>): nat {
    if reqs == [] then 0 else Dones(reqs[..|reqs| - 1]) + reqs[|reqs| - 1].1
  }

  /** An accepted batch adds what it asks for and gives back no more than was granted. */
  lemma {:induction false} AcceptSums(c: Conn, reqs: seq<(nat, nat)>)
    requires Judge(c, reqs).Accepted? && c.need <= REQUEST_MAX
    ensures var c' := Judge(c, reqs).conn;
            && c'.need == c.need + Needs(reqs) && c'.need <= REQUEST_MAX
            && c'.gntd + Dones(reqs) == c.gntd && c'.waiting == c.waiting
  {
    if reqs != [] { AcceptSums(c, reqs[..|reqs| - 1]); }
  }

  /** A batch is accepted just if all it asks for can be needed at once, and no more is given
      back than was granted. */
  lemma {:induction false} AcceptExact(c: Conn, reqs: seq<(nat, nat)>)
    requires c.need <= REQUEST_MAX
    ensures Judge(c, reqs).Accepted? <==> c.need + Needs(reqs) <= REQUEST_MAX && Dones(reqs) <= c.gntd
  {
    if reqs != [] {
      AcceptExact(c, reqs[..|reqs| - 1]);
      if Judge(c, reqs[..|reqs| - 1]).Accepted? { AcceptSums(c, reqs[..|reqs| - 1]); }
    }
  }

  /** What a message does to its connection: a batch that can be accepted adds to what is needed
      and takes off what was granted, and the connection waits, at the end of the list, as soon
      as it needs something; any other message closes it. */
  lemma HeardExact(t: Table, id: nat, msg: Message)
    requires !t.crashed && id in t.conns && t.conns[id].need <= REQUEST_MAX
    ensures var (c, t') := (t.conns[id], Heard(t, id, msg));
            if msg.Batch? && c.need + Needs(msg.reqs) <= REQUEST_MAX && Dones(msg.reqs) <= c.gntd then
              var need := c.need + Needs(msg.reqs);
              && t'.conns == t.conns[id := Conn(need, c.gntd - Dones(msg.reqs), c.waiting || need > 0)]
              && t'.wait == (if need > 0 && !c.waiting then t.wait + [id] else t.wait) && !t'.crashed
            else t'.crashed || t'.conns == t.conns - {id}
  {
    if msg.Batch? {
      AcceptExact(t.conns[id], msg.reqs);
      if Judge(t.conns[id], msg.reqs).Accepted? { AcceptSums(t.conns[id], msg.reqs); }
    }
  }

  /** Closing a connection keeps the wait list right just if the connection waits or its
      links happen to be up to date. */
  lemma {:induction false} RemoveLinks(links: Q.Queue, wait: seq<nat>, id: nat)
    requires Q.Chains(links, wait)
    ensures id in wait ==> Q.Linked(links, id)
    ensures Q.Linked(links, id) ==>
              (Q.Chains(Q.Remove(links, id), Remove(wait, id)) <==> id in wait || Q.Adjoined(links, wait, id))
  {
    if id in wait {
      var k: nat :| k < |wait| && wait[k] == id;
      Q.RemoveChains(links, wait, k);
      RemoveAt(wait, k);
    } else {
      RemoveNone(wait, id);
      if Q.Linked(links, id) { Q.RemoveStale(links, wait, id); }
    }
  }

  lemma {:induction false} RemoveNone(q: seq<nat>, id: nat)
    requires id !in q
    ensures Remove(q, id) == q
  {
    if q != [] {
      assert q[0] in q && q == [q[0]] + q[1..];
      RemoveNone(q[1..], id);
    }
  }

  lemma {:induction false} RemoveAt(q: seq<nat>, k: nat)
    requires k < |q| && forall i :: 0 <= i < k ==> q[i] != q[k]
    ensures Remove(q, q[k]) == Q.Without(q, k)
  {
    if k > 0 {
      assert q[0] != q[k] && q[1..][k - 1] == q[k];
      RemoveAt(q[1..], k - 1);
      assert [q[0]] + Q.Without(q[1..], k - 1) == Q.Without(q, k);
    }
  }

  /** The list without id. */
  function Remove(q: seq<nat>, id: nat): seq<nat> {
    if q == [] then [] else if q[0] == id then q[1..] else [q[0]] + Remove(q[1..], id)
  }

  lemma {:induction false} RemoveIs(q: seq<nat>, id: nat)
    requires forall i, j :: 0 <= i < j < |q| ==> q[i] != q[j]
    ensures var r := Remove(q, id);
            && (forall x :: x in r <==> x in q && x != id)
            && (forall i, j :: 0 <= i < j < |r| ==> r[i] != r[j])
  {
    if q != [] {
      assert q == [q[0]] + q[1..];
      if q[0] != id {
        RemoveIs(q[1..], id);
        var r := Remove(q[1..], id);
        forall x | x in q[1..] ensures x != q[0] {
          var k :| 0 <= k < |q[1..]| && q[1..][k] == x;
          assert q[k + 1] == x;
        }
        var r' := [q[0]] + r;
        assert forall x :: x in r' <==> x == q[0] || x in r;
        forall i, j | 0 <= i < j < |r'| ensures r'[i] != r'[j] {
          assert r'[j] == r[j - 1] && r[j - 1] in r && r[j - 1] in q[1..];
          if i > 0 { assert r'[i] == r[i - 1] && r[i - 1] != r[j - 1]; } else { assert r'[0] == q[0]; }
        }
      } else {
        forall x | x in q[1..] ensures x != id {
          var k :| 0 <= k < |q[1..]| && q[1..][k] == x;
          assert q[k + 1] == x;
        }
      }
    }
  }
}
