/** tapdisk_vbd_kick: the completed requests are called back, token by token. */
module TapdiskKick {

  datatype Req = Req(id: nat, token: int, error: int)

  datatype Call = Call(req: Req, final: bool)

  /** The requests with token t, or those without, in order. */
  function Select(q: seq<Req>, t: int, same: bool): (r: seq<Req>)
    ensures |r| <= |q|
  {
    if q == [] then []
    else if (q[0].token == t) == same then [q[0]] + Select(q[1..], t, same)
    else Select(q[1..], t, same)
  }

  /** One token's requests, the last of them final. */
  function Burst(q: seq<Req>): seq<Call> {
    if q == [] then [] else [Call(q[0], |q| == 1)] + Burst(q[1..])
  }

  /** The callbacks: the first request's token, then those of the tokens that are left. */
  function Calls(q: seq<Req>): seq<Call>
    decreases |q|
  {
    if q == [] then []
    else Burst([q[0]] + Select(q[1..], q[0].token, true)) + Calls(Select(q[1..], q[0].token, false))
  }

  function Requests(cs: seq<Call>): seq<Req> {
    if cs == [] then [] else [cs[0].req] + Requests(cs[1..])
  }

  /* ---- the loops ---- */

  lemma {:induction false} SelectSplit(a: seq<Req>, b: seq<Req>, t: int, same: bool)
    ensures Select(a + b, t, same) == Select(a, t, same) + Select(b, t, same)
  {
    if a == [] {
      assert a + b == b;
    } else {
      SelectSplit(a[1..], b, t, same);
      assert (a + b)[1..] == a[1..] + b && (a + b)[0] == a[0];
      var x, y := Select(a[1..], t, same), Select(b, t, same);
      assert [a[0]] + (x + y) == [a[0]] + x + y;
    }
  }

  /** One token: its requests leave the list and are called back, the last as final. */
  method KickToken(list: seq<Req>) returns (calls: seq<Call>, rest: seq<Req>)
    requires list != []
    ensures calls == Burst([list[0]] + Select(list[1..], list[0].token, true))
    ensures rest == Select(list[1..], list[0].token, false)
  {
    var prev := list[0];
    rest, calls := list[1..], [];
    var i := 0;
    while i < |rest|
      invariant i <= |rest| && prev.token == list[0].token
      invariant forall r :: r in rest[..i] ==> r.token != prev.token
      invariant calls + Burst([prev] + Select(rest[i..], prev.token, true)) ==
                  Burst([list[0]] + Select(list[1..], prev.token, true))
      invariant rest[..i] + Select(rest[i..], prev.token, false) == Select(list[1..], prev.token, false)
      decreases |rest| - i
    {
      var vreq := rest[i];
      assert rest[i..][1..] == rest[i + 1..];
      if vreq.token == prev.token {
        ghost var tail := Select(rest[i + 1..], prev.token, true);
        assert [prev] + ([vreq] + tail) == [prev, vreq] + tail && ([prev, vreq] + tail)[1..] == [vreq] + tail;
        calls := calls + [Call(prev, false)];
        assert (rest[..i] + rest[i + 1..])[i..] == rest[i + 1..] && (rest[..i] + rest[i + 1..])[..i] == rest[..i];
        rest := rest[..i] + rest[i + 1..];
        prev := vreq;
      } else {
        assert rest[..i + 1] == rest[..i] + [vreq];
        assert rest[..i] + ([vreq] + Select(rest[i + 1..], prev.token, false)) ==
               rest[..i + 1] + Select(rest[i + 1..], prev.token, false);
        i := i + 1;
      }
    }
    assert rest[i..] == [] && rest[..i] == rest;
    calls := calls + [Call(prev, true)];
    assert Burst([prev]) == [Call(prev, true)];
  }

  method Kick(completed: seq<Req>) returns (calls: seq<Call>)
    ensures calls == Calls(completed)
  {
    var list := completed;
    calls := [];
    while list != []
      invariant calls + Calls(list) == Calls(completed)
      decreases |list|
    {
      var burst, rest := KickToken(list);
      calls := calls + burst;
      list := rest;
    }
  }

  /* ---- what the callbacks are ---- */

  lemma {:induction false} RequestsSplit(a: seq<Call>, b: seq<Call>)
    ensures Requests(a + b) == Requests(a) + Requests(b)
  {
    if a == [] {
      assert a + b == b;
    } else {
      RequestsSplit(a[1..], b);
      assert (a + b)[1..] == a[1..] + b;
    }
  }

  lemma {:induction false} BurstRequests(q: seq<Req>)
    ensures Requests(Burst(q)) == q
  {
    if q != [] { BurstRequests(q[1..]); }
  }

  lemma {:induction false} SelectAll(q: seq<Req>, t: int)
    ensures multiset(Select(q, t, true)) + multiset(Select(q, t, false)) == multiset(q)
  {
    if q != [] {
      SelectAll(q[1..], t);
      assert q == [q[0]] + q[1..];
    }
  }

  /** Every completed request is called back, with its own error, exactly once. */
  lemma {:induction false} CalledOnce(q: seq<Req>)
    ensures multiset(Requests(Calls(q))) == multiset(q)
    decreases |q|
  {
    if q != [] {
      var t := q[0].token;
      var group, rest := [q[0]] + Select(q[1..], t, true), Select(q[1..], t, false);
      RequestsSplit(Burst(group), Calls(rest));
      BurstRequests(group);
      CalledOnce(rest);
      SelectAll(q[1..], t);
      assert q == [q[0]] + q[1..];
    }
  }

  lemma {:induction false} SelectOther(q: seq<Req>, t: int, u: int)
    ensures t != u ==> Select(Select(q, t, false), u, true) == Select(q, u, true)
    ensures Select(Select(q, t, false), t, true) == []
    ensures Select(Select(q, t, true), t, true) == Select(q, t, true)
    ensures t != u ==> Select(Select(q, t, true), u, true) == []
  {
    if q != [] {
      SelectOther(q[1..], t, u);
      var same, other := Select(q[1..], t, true), Select(q[1..], t, false);
      assert ([q[0]] + same)[1..] == same && ([q[0]] + other)[1..] == other;
    }
  }

  /** The requests of one token are called back in the order in which they completed. */
  lemma {:induction false} OrderKept(q: seq<Req>, u: int)
    ensures Select(Requests(Calls(q)), u, true) == Select(q, u, true)
    decreases |q|
  {
    if q != [] {
      var t := q[0].token;
      var same, rest := Select(q[1..], t, true), Select(q[1..], t, false);
      RequestsSplit(Burst([q[0]] + same), Calls(rest));
      BurstRequests([q[0]] + same);
      SelectSplit([q[0]] + same, Requests(Calls(rest)), u, true);
      OrderKept(rest, u);
      SelectOther(q[1..], t, u);
      assert ([q[0]] + same)[1..] == same;
    }
  }

  /** Later calls for the token of call i. */
  ghost predicate HasLater(cs: seq<Call>, i: nat)
    requires i < |cs|
  {
    exists j :: i < j < |cs| && cs[j].req.token == cs[i].req.token
  }

  lemma {:induction false} BurstFinal(q: seq<Req>, t: int, i: nat)
    requires (forall r :: r in q ==> r.token == t) && i < |q|
    ensures |Burst(q)| == |q| && Burst(q)[i].req == q[i] && (Burst(q)[i].final <==> i == |q| - 1)
  {
    if i > 0 {
      BurstFinal(q[1..], t, i - 1);
    } else if |q| > 1 {
      BurstFinal(q[1..], t, 0);
    }
  }

  lemma {:induction false} SelectTokens(q: seq<Req>, t: int, same: bool)
    ensures forall r :: r in Select(q, t, same) ==> (r.token == t) == same
  {
    if q != [] { SelectTokens(q[1..], t, same); }
  }

  lemma {:induction false} CallsFrom(q: seq<Req>, j: nat)
    requires j < |Calls(q)|
    ensures Calls(q)[j].req in q
    decreases |q|
  {
    CalledOnce(q);
    RequestAt(Calls(q), j);
    assert Requests(Calls(q))[j] in multiset(Requests(Calls(q)));
  }

  lemma {:induction false} RequestAt(cs: seq<Call>, j: nat)
    requires j < |cs|
    ensures |Requests(cs)| == |cs| && Requests(cs)[j] == cs[j].req
  {
    if j > 0 { RequestAt(cs[1..], j - 1); } else if |cs| > 1 { RequestAt(cs[1..], 0); }
  }

  /** `final` goes to exactly the last callback of each token. */
  lemma {:induction false} FinalIsLast(q: seq<Req>, i: nat)
    requires i < |Calls(q)|
    ensures Calls(q)[i].final <==> !HasLater(Calls(q), i)
    decreases |q|
  {
    var t := q[0].token;
    var same, rest := Select(q[1..], t, true), Select(q[1..], t, false);
    var group := [q[0]] + same;
    var cs, tail := Calls(q), Calls(rest);
    SelectTokens(q[1..], t, true);
    SelectTokens(q[1..], t, false);
    var n := |group|;
    BurstFinal(group, t, 0);
    forall j | 0 <= j < |tail| ensures tail[j].req.token != t && cs[n + j] == tail[j] { CallsFrom(rest, j); }
    if i < n {
      BurstFinal(group, t, i);
      BurstFinal(group, t, n - 1);
      assert cs[n - 1].req.token == t && cs[i].req.token == t;
    } else {
      FinalIsLast(rest, i - n);
      assert cs[i] == tail[i - n];
      if HasLater(tail, i - n) {
        var j :| i - n < j < |tail| && tail[j].req.token == tail[i - n].req.token;
        assert cs[n + j] == tail[j];
      }
      if HasLater(cs, i) {
        var j :| i < j < |cs| && cs[j].req.token == cs[i].req.token;
        assert cs[j] == tail[j - n];
      }
    }
  }
}
