/** What deleting and pruning branches of the radix tree leaves behind. */
module RadixPrune {
  import opened Arithmetic
  import opened RadixTree

  /** A page with a sector below path w. */
  ghost predicate Touches(h: nat, page: Page, w: Path) {
    exists k :: TouchAt(h, page, w, k)
  }

  /** Sector k of a page is below path w. */
  predicate TouchAt(h: nat, page: Page, w: Path, k: nat) {
    k < |page.data| && Under(w, Digits(h, page.sec + k))
  }

  /** t has only what t0 has: nodes and pages may be gone, links may be cleared. */
  ghost predicate Evolved(t0: Tree, t: Tree) {
    && (forall p :: p in t.pages ==> p in t0.pages && t.pages[p] == t0.pages[p])
    && (forall q :: q in t.nodes ==>
      q in t0.nodes && t.nodes[q].height == t0.nodes[q].height && |t.nodes[q].links| == |t0.nodes[q].links|)
    && (forall q, i {:trigger LinkSame(t0, t, q, i)} :: HasLink(t, q, i) ==> LinkSame(t0, t, q, i))
  }

  predicate LinkSame(t0: Tree, t: Tree, q: Path, i: nat)
    requires HasLink(t, q, i)
  {
    HasLink(t0, q, i) && (LinkAt(t, q, i) == LinkAt(t0, q, i) || LinkAt(t, q, i).u == Null)
  }

  lemma EvolvedTrans(t0: Tree, t1: Tree, t2: Tree)
    requires Evolved(t0, t1) && Evolved(t1, t2)
    ensures Evolved(t0, t2)
  {
    forall q, i | HasLink(t2, q, i) ensures LinkSame(t0, t2, q, i) {
      assert LinkSame(t1, t2, q, i) && LinkSame(t0, t1, q, i);
    }
  }

  lemma EvolvedSelf(t: Tree)
    ensures Evolved(t, t)
  {
    forall q, i | HasLink(t, q, i) ensures LinkSame(t, t, q, i) {}
  }

  lemma EvolvedClear(t: Tree, q: Path, i: nat)
    requires HasLink(t, q, i)
    ensures Evolved(t, SetLink(t, q, i, Cleared))
  {
    var t' := SetLink(t, q, i, Cleared);
    forall r, j | HasLink(t', r, j) ensures LinkSame(t, t', r, j) {}
  }

  lemma EvolvedRemove(t: Tree, p: nat)
    requires p in t.pages
    ensures Evolved(t, RemovePage(t, p))
  {
    var t' := RemovePage(t, p);
    RemovedIs(t, p);
    forall q, i | HasLink(t', q, i) ensures LinkSame(t, t', q, i) {
      assert LinkAt(t', q, i) == if OwnedBy(q, i) in t.pages[p].owners then Cleared else LinkAt(t, q, i);
    }
  }

  lemma EvolvedFree(t: Tree, q: Path)
    ensures Evolved(t, FreeNode(t, q))
  {
    var t' := FreeNode(t, q);
    forall r, i | HasLink(t', r, i) ensures LinkSame(t, t', r, i) {}
  }

  /* ---- pages and links ---- */

  lemma UnderLonger(w: Path, i: nat, d: Path)
    ensures Under(w + [i], d) <==> Under(w, d) && |w| < |d| && d[|w|] == i
  {
    if |w| < |d| {
      assert d[..|w| + 1] == d[..|w|] + [d[|w|]];
      assert (w + [i])[..|w|] == w && (w + [i])[|w|] == i;
      if d[..|w| + 1] == w + [i] {
        assert d[..|w| + 1][..|w|] == d[..|w|] && d[..|w| + 1][|w|] == d[|w|];
      }
    }
  }

  /** The link that leads to a page's sector leads somewhere. */
  lemma TouchLink(h: nat, t: Tree, b: Busy, q: Path, i: nat, p: nat)
    requires Ok(h, t, b) && b.cur !in t.pages && p in t.pages && |q| <= h && Touches(h, t.pages[p], q + [i])
    ensures i < FAN && HasLink(t, q, i)
    ensures if |q| == h then LinkAt(t, q, i).u.Leaf? && LinkAt(t, q, i).u.page == p else LinkAt(t, q, i).u == Next
  {
    var k :| TouchAt(h, t.pages[p], q + [i], k);
    UnderLonger(q, i, Digits(h, t.pages[p].sec + k));
    LeafNode(h, t, b, p, k, |q|);
  }

  lemma LeafTouches(h: nat, t: Tree, b: Busy, q: Path, i: nat)
    requires Ok(h, t, b) && HasLink(t, q, i) && i < FAN && LinkAt(t, q, i).u.Leaf?
    ensures var p := LinkAt(t, q, i).u.page; p in t.pages && Touches(h, t.pages[p], q + [i])
  {
    var Leaf(p, k) := LinkAt(t, q, i).u;
    assert NodeOk(h, t, b, q) && LinkOk(t, b, q, i);
    assert PageOk(h, t, b, p);
    assert OwnerOk(h, t, p, k);
    assert PageOk(h, t, b, p) && TouchAt(h, t.pages[p], q + [i], k);
  }

  /** A node below a link shows that the link leads on. */
  lemma NodeLink(h: nat, t: Tree, b: Busy, q: Path, i: nat, r: Path)
    requires Ok(h, t, b) && r in t.nodes && Under(q + [i], r)
    ensures HasLink(t, q, i) && LinkAt(t, q, i).u == Next
  {
    UnderLonger(q, i, r);
    OnTheWay(h, t, b, r, |q|);
  }

  /* ---- deleting ---- */

  predicate NoneUnder(q: Path, n: nat, r: Path) { forall j :: 0 <= j < n ==> !Under(q + [j], r) }

  ghost predicate NoneTouched(h: nat, page: Page, q: Path, n: nat) {
    forall j :: 0 <= j < n ==> !Touches(h, page, q + [j])
  }

  /** Of t0, what lies below the first n links of node q is gone, and nothing else. */
  ghost predicate Deleted(h: nat, t0: Tree, t: Tree, q: Path, n: nat) {
    && Evolved(t0, t)
    && (forall p :: p in t.pages <==> p in t0.pages && NoneTouched(h, t0.pages[p], q, n))
    && (forall r :: r in t.nodes <==> r in t0.nodes && NoneUnder(q, n, r))
  }

  /** Of t0, what lies below path w is gone, and nothing else. */
  ghost predicate BranchGone(h: nat, t0: Tree, t: Tree, w: Path) {
    && Evolved(t0, t)
    && (forall p :: p in t.pages <==> p in t0.pages && !Touches(h, t0.pages[p], w))
    && (forall r :: r in t.nodes <==> r in t0.nodes && !Under(w, r))
  }

  lemma DeletedFirst(h: nat, t: Tree, q: Path)
    ensures Deleted(h, t, t, q, 0)
  {
    EvolvedSelf(t);
  }

  lemma DeletedNext(h: nat, t0: Tree, t: Tree, t1: Tree, q: Path, n: nat)
    requires Deleted(h, t0, t, q, n) && BranchGone(h, t, t1, q + [n])
    ensures Deleted(h, t0, t1, q, n + 1)
  {
    EvolvedTrans(t0, t, t1);
    forall p | p in t0.pages
      ensures NoneTouched(h, t0.pages[p], q, n + 1) <==>
                NoneTouched(h, t0.pages[p], q, n) && !Touches(h, t0.pages[p], q + [n])
    {
      assert NoneTouched(h, t0.pages[p], q, n + 1) ==> !Touches(h, t0.pages[p], q + [n]);
    }
    forall r | r in t0.nodes ensures NoneUnder(q, n + 1, r) <==> NoneUnder(q, n, r) && !Under(q + [n], r) {
      assert NoneUnder(q, n + 1, r) ==> !Under(q + [n], r);
    }
  }

  /** Nothing lies below a link that leads nowhere. */
  lemma NullBranch(h: nat, t: Tree, b: Busy, q: Path, i: nat)
    requires Ok(h, t, b) && b.cur !in t.pages && |q| <= h && HasLink(t, q, i) && LinkAt(t, q, i).u == Null
    ensures BranchGone(h, t, SetLink(t, q, i, Cleared), q + [i])
    ensures Ok(h, SetLink(t, q, i, Cleared), b)
  {
    EvolvedClear(t, q, i);
    forall p | p in t.pages ensures !Touches(h, t.pages[p], q + [i]) {
      if Touches(h, t.pages[p], q + [i]) { TouchLink(h, t, b, q, i, p); }
    }
    forall r | r in t.nodes ensures !Under(q + [i], r) {
      if Under(q + [i], r) { NodeLink(h, t, b, q, i, r); }
    }
    TimeOk(h, t, b, q, i, 0);
    assert LinkAt(t, q, i).(time := 0) == Cleared;
  }

  /** Removing the page of a leaf link removes what lies below it. */
  lemma LeafBranch(h: nat, t: Tree, b: Busy, q: Path, i: nat)
    requires Ok(h, t, b) && b.cur !in t.pages && |q| == h && HasLink(t, q, i) && i < FAN && LinkAt(t, q, i).u.Leaf?
    ensures var p := LinkAt(t, q, i).u.page;
            p in t.pages && Ok(h, RemovePage(t, p), b) && BranchGone(h, t, RemovePage(t, p), q + [i]) &&
            HasLink(RemovePage(t, p), q, i) && LinkAt(RemovePage(t, p), q, i) == Cleared
  {
    var Leaf(p, k) := LinkAt(t, q, i).u;
    LeafTouches(h, t, b, q, i);
    RemovePageOk(h, t, b, p);
    EvolvedRemove(t, p);
    var t' := RemovePage(t, p);
    forall x | x in t.pages && Touches(h, t.pages[x], q + [i]) ensures x == p { TouchLink(h, t, b, q, i, x); }
    forall r | r in t.nodes ensures !Under(q + [i], r) {
      if Under(q + [i], r) { NodeLink(h, t, b, q, i, r); }
    }
    assert NodeOk(h, t, b, q) && LinkOk(t, b, q, i);
    assert OwnedBy(q, i) in t.pages[p].owners;
    assert LinkAt(t', q, i) == Cleared;
  }

  /** Clearing the link to a branch that is gone. */
  lemma BranchCleared(h: nat, t: Tree, t1: Tree, b: Busy, q: Path, i: nat)
    requires BranchGone(h, t, t1, q + [i]) && HasLink(t1, q, i)
    ensures BranchGone(h, t, SetLink(t1, q, i, Cleared), q + [i])
  {
    EvolvedClear(t1, q, i);
    EvolvedTrans(t, t1, SetLink(t1, q, i, Cleared));
  }

  /** When all its links have been dealt with, a node is all that is left of its branch. */
  lemma AllDeleted(h: nat, t0: Tree, t: Tree, b: Busy, q: Path)
    requires Ok(h, t0, b) && Deleted(h, t0, t, q, FAN) && |q| <= h && q in t0.nodes
    ensures BranchGone(h, t0, FreeNode(t, q), q)
    ensures forall p :: p in t.pages <==> p in t0.pages && !Touches(h, t0.pages[p], q)
    ensures forall r :: r in t.nodes <==> r in t0.nodes && (Under(q, r) ==> r == q)
  {
    EvolvedFree(t, q);
    EvolvedTrans(t0, t, FreeNode(t, q));
    forall p | p in t0.pages ensures NoneTouched(h, t0.pages[p], q, FAN) <==> !Touches(h, t0.pages[p], q) {
      TouchParts(h, t0.pages[p], q);
    }
    forall r | r in t0.nodes ensures NoneUnder(q, FAN, r) <==> (Under(q, r) ==> r == q) { UnderParts(h, t0, b, q, r); }
  }

  lemma TouchParts(h: nat, page: Page, q: Path)
    requires |q| <= h
    ensures NoneTouched(h, page, q, FAN) <==> !Touches(h, page, q)
  {
    if Touches(h, page, q) {
      var k :| TouchAt(h, page, q, k);
      var d := Digits(h, page.sec + k);
      UnderLonger(q, d[|q|], d);
      assert TouchAt(h, page, q + [d[|q|]], k);
    }
    if !NoneTouched(h, page, q, FAN) {
      var j :| 0 <= j < FAN && Touches(h, page, q + [j]);
      var k :| TouchAt(h, page, q + [j], k);
      UnderLonger(q, j, Digits(h, page.sec + k));
      assert TouchAt(h, page, q, k);
    }
  }

  lemma UnderParts(h: nat, t: Tree, b: Busy, q: Path, r: Path)
    requires Ok(h, t, b) && r in t.nodes && q in t.nodes
    ensures NoneUnder(q, FAN, r) <==> (Under(q, r) ==> r == q)
  {
    assert r[..|r|] == r;
    if Under(q, r) && |r| > |q| {
      OnTheWay(h, t, b, r, |q|);
      assert NodeOk(h, t, b, q);
      UnderLonger(q, r[|q|], r);
    }
    forall j | 0 <= j < FAN && Under(q + [j], r) ensures Under(q, r) && r != q { UnderLonger(q, j, r); }
  }

  /* ---- pruning ---- */

  /** The age of a link, as an unsigned difference. */
  predicate Fresh(now: nat, time: nat) { time <= now && now - time < IDLETIME }

  predicate FreshLink(t: Tree, now: nat, q: Path, i: nat) { HasLink(t, q, i) && Fresh(now, LinkAt(t, q, i).time) }

  /** All links on the path d, from depth m0 on, are fresh. */
  predicate FreshFrom(t: Tree, now: nat, d: Path, m0: nat) {
    forall m :: m0 <= m < |d| ==> FreshLink(t, now, d[..m], d[m])
  }

  /** The sectors of the page below path w have fresh links from depth m0 on. */
  ghost predicate Alive(h: nat, t: Tree, now: nat, page: Page, w: Path, m0: nat) {
    forall k :: TouchAt(h, page, w, k) ==> FreshFrom(t, now, Digits(h, page.sec + k), m0)
  }

  ghost predicate AliveBelow(h: nat, t: Tree, now: nat, page: Page, q: Path, n: nat) {
    forall j :: 0 <= j < n ==> Alive(h, t, now, page, q + [j], |q|)
  }

  /** The first n links of node q have been pruned: the pages below them that are left are
      those all of whose links there are fresh; nodes elsewhere are left alone. */
  ghost predicate Pruned(h: nat, t0: Tree, t: Tree, now: nat, q: Path, n: nat) {
    && Evolved(t0, t)
    && (forall p :: p in t.pages <==> p in t0.pages && AliveBelow(h, t0, now, t0.pages[p], q, n))
    && (forall r :: r in t0.nodes && NoneUnder(q, n, r) ==> r in t.nodes)
  }

  ghost predicate BranchPruned(h: nat, t0: Tree, t: Tree, now: nat, q: Path) {
    && Evolved(t0, t)
    && (forall p :: p in t.pages <==> p in t0.pages && Alive(h, t0, now, t0.pages[p], q, |q|))
    && (forall r :: r in t0.nodes && !Under(q, r) ==> r in t.nodes)
  }

  lemma PrunedFirst(h: nat, t: Tree, now: nat, q: Path)
    ensures Pruned(h, t, t, now, q, 0)
  {
    EvolvedSelf(t);
  }

  /** The links of a page that is still there are as they were. */
  lemma FreshSame(h: nat, t0: Tree, t: Tree, b: Busy, now: nat, p: nat, k: nat, m0: nat)
    requires Ok(h, t, b) && b.cur !in t.pages && Evolved(t0, t) && p in t.pages && k < |t.pages[p].data|
    ensures var d := Digits(h, t.pages[p].sec + k); FreshFrom(t0, now, d, m0) <==> FreshFrom(t, now, d, m0)
  {
    var d := Digits(h, t.pages[p].sec + k);
    forall m | m0 <= m < |d| ensures FreshLink(t0, now, d[..m], d[m]) <==> FreshLink(t, now, d[..m], d[m]) {
      LeafNode(h, t, b, p, k, m);
      assert LinkSame(t0, t, d[..m], d[m]);
    }
  }

  /** Below an idle link, only pages that have nothing there are alive. */
  lemma AliveIdle(h: nat, t0: Tree, t: Tree, b: Busy, now: nat, q: Path, i: nat, p: nat)
    requires Ok(h, t, b) && b.cur !in t.pages && Evolved(t0, t) && p in t.pages && |q| <= h
    requires HasLink(t, q, i) && (LinkAt(t, q, i).u == Null || !Fresh(now, LinkAt(t, q, i).time))
    ensures Alive(h, t0, now, t.pages[p], q + [i], |q|) <==> !Touches(h, t.pages[p], q + [i])
  {
    if Touches(h, t.pages[p], q + [i]) {
      TouchLink(h, t, b, q, i, p);
      var k :| TouchAt(h, t.pages[p], q + [i], k);
      var d := Digits(h, t.pages[p].sec + k);
      UnderLonger(q, i, d);
      assert LinkSame(t0, t, q, i);
      assert !FreshLink(t0, now, d[..|q|], d[|q|]);
    }
  }

  /** Below a fresh link, a page is alive if it is from the next node on. */
  lemma AliveFresh(h: nat, t0: Tree, t: Tree, b: Busy, now: nat, q: Path, i: nat, p: nat)
    requires Ok(h, t, b) && b.cur !in t.pages && Evolved(t0, t) && p in t.pages && |q| <= h
    requires HasLink(t, q, i) && Fresh(now, LinkAt(t, q, i).time)
    ensures Alive(h, t0, now, t.pages[p], q + [i], |q|) <==> Alive(h, t, now, t.pages[p], q + [i], |q| + 1)
    ensures |q| == h ==> Alive(h, t0, now, t.pages[p], q + [i], |q|)
  {
    var page := t.pages[p];
    forall k | TouchAt(h, page, q + [i], k)
      ensures FreshFrom(t0, now, Digits(h, page.sec + k), |q|) <==> FreshFrom(t, now, Digits(h, page.sec + k), |q| + 1)
    {
      var d := Digits(h, page.sec + k);
      UnderLonger(q, i, d);
      FreshSame(h, t0, t, b, now, p, k, |q|);
      assert d[..|q|] == q && FreshLink(t, now, d[..|q|], d[|q|]);
      assert FreshFrom(t, now, d, |q|) <==> FreshFrom(t, now, d, |q| + 1);
    }
  }

  lemma AliveNext(h: nat, t: Tree, now: nat, page: Page, q: Path, n: nat)
    ensures AliveBelow(h, t, now, page, q, n + 1) <==>
              AliveBelow(h, t, now, page, q, n) && Alive(h, t, now, page, q + [n], |q|)
  {
    assert AliveBelow(h, t, now, page, q, n + 1) ==> Alive(h, t, now, page, q + [n], |q|);
  }

  lemma NoneUnderNext(q: Path, n: nat, r: Path)
    ensures NoneUnder(q, n + 1, r) <==> NoneUnder(q, n, r) && !Under(q + [n], r)
  {
    assert NoneUnder(q, n + 1, r) ==> !Under(q + [n], r);
  }

  /** An idle link, or one that leads nowhere, and what lies below it, is gone. */
  lemma PrunedIdle(h: nat, t0: Tree, t: Tree, t1: Tree, b: Busy, now: nat, q: Path, n: nat)
    requires Pruned(h, t0, t, now, q, n) && BranchGone(h, t, t1, q + [n]) && Ok(h, t, b) && b.cur !in t.pages &&
             |q| <= h
    requires HasLink(t, q, n) && (LinkAt(t, q, n).u == Null || !Fresh(now, LinkAt(t, q, n).time))
    ensures Pruned(h, t0, t1, now, q, n + 1)
  {
    EvolvedTrans(t0, t, t1);
    forall p | p in t0.pages ensures p in t1.pages <==> AliveBelow(h, t0, now, t0.pages[p], q, n + 1) {
      AliveNext(h, t0, now, t0.pages[p], q, n);
      if p in t.pages { AliveIdle(h, t0, t, b, now, q, n, p); }
    }
    forall r | r in t0.nodes && NoneUnder(q, n + 1, r) ensures r in t1.nodes { NoneUnderNext(q, n, r); }
  }

  /** A fresh link: what lies below it has been pruned in turn, or it is a leaf. */
  lemma PrunedFresh(h: nat, t0: Tree, t: Tree, t1: Tree, b: Busy, now: nat, q: Path, n: nat)
    requires Pruned(h, t0, t, now, q, n) && Ok(h, t, b) && b.cur !in t.pages && |q| <= h
    requires HasLink(t, q, n) && Fresh(now, LinkAt(t, q, n).time)
    requires (|q| == h && t1 == t) || BranchPruned(h, t, t1, now, q + [n])
    ensures Pruned(h, t0, t1, now, q, n + 1)
  {
    hide Ok;
    EvolvedSelf(t);
    EvolvedTrans(t0, t, t1);
    forall p | p in t0.pages ensures p in t1.pages <==> AliveBelow(h, t0, now, t0.pages[p], q, n + 1) {
      AliveNext(h, t0, now, t0.pages[p], q, n);
      if p in t.pages { AliveFresh(h, t0, t, b, now, q, n, p); }
    }
    forall r | r in t0.nodes && NoneUnder(q, n + 1, r) ensures r in t1.nodes { NoneUnderNext(q, n, r); }
  }

  lemma PrunedCleared(h: nat, t0: Tree, t: Tree, now: nat, w: Path, q: Path, i: nat)
    requires BranchPruned(h, t0, t, now, w) && HasLink(t, q, i)
    ensures BranchPruned(h, t0, SetLink(t, q, i, Cleared), now, w)
  {
    EvolvedClear(t, q, i);
    EvolvedTrans(t0, t, SetLink(t, q, i, Cleared));
  }

  lemma AllPruned(h: nat, t0: Tree, t: Tree, b: Busy, now: nat, q: Path)
    requires Ok(h, t0, b) && Pruned(h, t0, t, now, q, FAN) && |q| <= h && q in t0.nodes
    ensures BranchPruned(h, t0, t, now, q) && q in t.nodes
    ensures BranchPruned(h, t0, FreeNode(t, q), now, q)
  {
    EvolvedFree(t, q);
    EvolvedTrans(t0, t, FreeNode(t, q));
    forall p | p in t0.pages
      ensures AliveBelow(h, t0, now, t0.pages[p], q, FAN) <==> Alive(h, t0, now, t0.pages[p], q, |q|)
    {
      AliveParts(h, t0, now, t0.pages[p], q);
    }
    forall r | r in t0.nodes && (!Under(q, r) || r == q) ensures r in t.nodes { UnderParts(h, t0, b, q, r); }
  }

  lemma AliveParts(h: nat, t: Tree, now: nat, page: Page, q: Path)
    requires |q| <= h
    ensures AliveBelow(h, t, now, page, q, FAN) <==> Alive(h, t, now, page, q, |q|)
  {
    if AliveBelow(h, t, now, page, q, FAN) {
      forall k | TouchAt(h, page, q, k) ensures FreshFrom(t, now, Digits(h, page.sec + k), |q|) {
        var d := Digits(h, page.sec + k);
        UnderLonger(q, d[|q|], d);
        assert Alive(h, t, now, page, q + [d[|q|]], |q|) && TouchAt(h, page, q + [d[|q|]], k);
      }
    }
    if Alive(h, t, now, page, q, |q|) {
      forall j, k | 0 <= j < FAN && TouchAt(h, page, q + [j], k)
        ensures FreshFrom(t, now, Digits(h, page.sec + k), |q|)
      {
        UnderLonger(q, j, Digits(h, page.sec + k));
        assert TouchAt(h, page, q, k);
      }
    }
  }
}
