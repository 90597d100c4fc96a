/** The read cache (drivers/block-cache.c): lookups, insertion, deletion and pruning of
    the radix tree, and the reads it serves. */
module BlockCache {
  import opened Arithmetic
  import opened RadixPrune
  import opened RadixTree

  datatype Option<T> = None | Some(value: T)

  /** What the cache holds of sector s. */
  ghost predicate Holds(t: Tree, s: nat, d: int) {
    exists p :: p in t.pages && Covers(t.pages[p], s) && t.pages[p].data[s - t.pages[p].sec] == d
  }

  ghost predicate Missing(t: Tree, s: nat) { forall p :: p in t.pages ==> !Covers(t.pages[p], s) }

  ghost predicate MissingAt(t: Tree, sec: nat, k: nat) { Missing(t, sec + k) }

  /** At most one value is held for a sector. */
  lemma HoldsOne(h: nat, t: Tree, b: Busy, s: nat, d: int, d': int)
    requires Ok(h, t, b) && b.cur !in t.pages && Holds(t, s, d) && Holds(t, s, d')
    ensures d == d'
  {
    var p :| p in t.pages && Covers(t.pages[p], s) && t.pages[p].data[s - t.pages[p].sec] == d;
    var p' :| p' in t.pages && Covers(t.pages[p'], s) && t.pages[p'].data[s - t.pages[p'].sec] == d';
    OnePage(h, t, b, p, s - t.pages[p].sec, p', s - t.pages[p'].sec);
  }

  /** The walk to a sector has come to node q. */
  ghost predicate Walking(h: nat, t: Tree, q: Path, s: nat) {
    |q| <= h && q == Digits(h, s)[..|q|] && q in t.nodes
  }

  lemma {:induction false} WalkAt(h: nat, t: Tree, b: Busy, q: Path, s: nat)
    requires Ok(h, t, b) && Walking(h, t, q, s)
    ensures var i := Digit(s, t.nodes[q].height);
            && HasLink(t, q, i) && i < FAN && t.nodes[q].height == h - |q| && i == Digits(h, s)[|q|]
            && q + [i] == Digits(h, s)[..|q| + 1]
    ensures Digits(h, s)[..h + 1] == Digits(h, s)
  {
    assert NodeOk(h, t, b, q);
    DigitAt(h, s, h - |q|);
  }

  lemma WalkDown(h: nat, t: Tree, b: Busy, q: Path, s: nat)
    requires Ok(h, t, b) && b.gone == NOWHERE && Walking(h, t, q, s) && |q| < h
    requires var i := Digit(s, t.nodes[q].height); HasLink(t, q, i) && LinkAt(t, q, i).u == Next
    ensures Walking(h, t, q + [Digit(s, t.nodes[q].height)], s)
  {
    var i := Digit(s, t.nodes[q].height);
    WalkAt(h, t, b, q, s);
    assert NodeOk(h, t, b, q) && LinkOk(t, b, q, i);
    assert q + [i] != NOWHERE by { assert (q + [i])[|q|] == i; }
  }

  /* ---- when links were used ---- */

  /** t' is t but for the times of links, some of which are now. */
  ghost predicate Stamped(t: Tree, t': Tree, now: nat) {
    && t'.pages == t.pages && t'.nodes.Keys == t.nodes.Keys
    && forall q, i :: HasLink(t, q, i) ==> StampedLink(t, t', now, q, i)
  }

  predicate StampedLink(t: Tree, t': Tree, now: nat, q: Path, i: nat)
    requires HasLink(t, q, i)
  {
    HasLink(t', q, i) && LinkAt(t', q, i).u == LinkAt(t, q, i).u &&
    (LinkAt(t', q, i).time == LinkAt(t, q, i).time || LinkAt(t', q, i).time == now)
  }

  /** The first n links on the path d were used at time now. */
  predicate UsedNow(t: Tree, now: nat, d: Path, n: nat)
    requires n <= |d|
  {
    forall m :: 0 <= m < n ==> UsedAt(t, now, d, m)
  }

  predicate UsedAt(t: Tree, now: nat, d: Path, m: nat)
    requires m < |d|
  {
    HasLink(t, d[..m], d[m]) && LinkAt(t, d[..m], d[m]).time == now
  }

  /** Sector sec + k was found at time now. */
  predicate FoundAt(h: nat, t: Tree, now: nat, sec: nat, k: nat) { UsedNow(t, now, Digits(h, sec + k), h + 1) }

  lemma StampedMore(t: Tree, t1: Tree, now: nat, q: Path, i: nat)
    requires Stamped(t, t1, now) && HasLink(t1, q, i)
    ensures Stamped(t, SetLink(t1, q, i, LinkAt(t1, q, i).(time := now)), now)
  {
    var t2 := SetLink(t1, q, i, LinkAt(t1, q, i).(time := now));
    forall r, j | HasLink(t, r, j) ensures StampedLink(t, t2, now, r, j) { assert StampedLink(t, t1, now, r, j); }
  }

  lemma StillUsed(t: Tree, t': Tree, now: nat, d: Path, n: nat)
    requires Stamped(t, t', now) && n <= |d| && UsedNow(t, now, d, n)
    ensures UsedNow(t', now, d, n)
  {
    forall m | 0 <= m < n ensures UsedAt(t', now, d, m) {
      assert UsedAt(t, now, d, m) && StampedLink(t, t', now, d[..m], d[m]);
    }
  }

  lemma StampedTwice(t: Tree, t1: Tree, t2: Tree, now: nat)
    requires Stamped(t, t1, now) && Stamped(t1, t2, now)
    ensures Stamped(t, t2, now)
  {
    forall q, i | HasLink(t, q, i) ensures StampedLink(t, t2, now, q, i) {
      assert StampedLink(t, t1, now, q, i) && StampedLink(t1, t2, now, q, i);
    }
  }

  /** A page all of whose sectors were used less than the idle time ago survives a prune. */
  lemma UsedSurvives(h: nat, t: Tree, used: nat, now: nat, page: Page)
    requires used <= now < used + IDLETIME
    requires forall k: nat :: k < |page.data| ==> FoundAt(h, t, used, page.sec, k)
    ensures StaysFresh(h, t, now, page)
  {
    forall k: nat | k < |page.data| ensures SectorFresh(h, t, now, page, k) {
      var d := Digits(h, page.sec + k);
      assert FoundAt(h, t, used, page.sec, k);
      forall m | 0 <= m < |d| ensures FreshLink(t, now, d[..m], d[m]) { assert UsedAt(t, used, d, m); }
    }
  }

  /** The link at depth m on path d was used less than the idle time before now. */
  predicate RecentAt(t: Tree, now: nat, d: Path, m: nat)
    requires m < |d|
  {
    HasLink(t, d[..m], d[m]) && var time := LinkAt(t, d[..m], d[m]).time; time <= now < time + IDLETIME
  }

  /** So was every link on the way to every sector of the page. */
  ghost predicate UsedRecently(h: nat, t: Tree, now: nat, page: Page) {
    forall k :: 0 <= k < |page.data| ==> RecentSector(h, t, now, page, k)
  }

  ghost predicate RecentSector(h: nat, t: Tree, now: nat, page: Page, k: nat) {
    var d := Digits(h, page.sec + k);
    forall m :: 0 <= m < |d| ==> RecentAt(t, now, d, m)
  }

  lemma {:induction false} StaysUsed(h: nat, t: Tree, now: nat, page: Page)
    ensures StaysFresh(h, t, now, page) <==> UsedRecently(h, t, now, page)
  {
    if StaysFresh(h, t, now, page) {
      forall k | 0 <= k < |page.data| ensures RecentSector(h, t, now, page, k) {
        var d := Digits(h, page.sec + k);
        assert SectorFresh(h, t, now, page, k);
        forall m | 0 <= m < |d| ensures RecentAt(t, now, d, m) { assert FreshLink(t, now, d[..m], d[m]); }
      }
    }
    if UsedRecently(h, t, now, page) {
      forall k | 0 <= k < |page.data| ensures SectorFresh(h, t, now, page, k) {
        var d := Digits(h, page.sec + k);
        assert RecentSector(h, t, now, page, k);
        forall m | 0 <= m < |d| ensures FreshLink(t, now, d[..m], d[m]) { assert RecentAt(t, now, d, m); }
      }
    }
  }

  /** A page goes if one link on the way to one of its sectors, at any depth, was last used the
      idle time or more before. */
  lemma {:induction false} IdleGoes(h: nat, t: Tree, used: nat, now: nat, page: Page, k: nat, m: nat)
    requires k < |page.data| && m <= h && UsedAt(t, used, Digits(h, page.sec + k), m) && used + IDLETIME <= now
    ensures !StaysFresh(h, t, now, page)
  {
    StaysUsed(h, t, now, page);
    assert !RecentSector(h, t, now, page, k) || RecentAt(t, now, Digits(h, page.sec + k), m);
    assert !RecentAt(t, now, Digits(h, page.sec + k), m);
  }

  /** A page that took a link from another page is idle, unless the clock has just started:
      the link lost its time when the other page was removed. */
  lemma ReplacedIsIdle(h: nat, t: Tree, now: nat, page: Page, k: nat)
    requires k < |page.data| && UsedAt(t, 0, Digits(h, page.sec + k), h) && now >= IDLETIME
    ensures !StaysFresh(h, t, now, page)
  {
    IdleGoes(h, t, 0, now, page, k, h);
  }

  /** Whether another page than p has sector s. */
  ghost predicate Taken(pages: map<nat, Page>, p: nat, s: nat) {
    exists x :: x in pages && x != p && Covers(pages[x], s)
  }

  class Cache {
    const height: nat
    var nodes: map<Path, Node>
    var pages: map<nat, Page>
    var size: int           // tree->size, bytes of all pages
    var count: int          // tree->nodes
    var nextPage: nat         // the address of the next page

    function T(): Tree
      reads this
    {
      Tree(nodes, pages, size, count)
    }

    ghost predicate Valid()
      reads this
    {
      Ok(height, T(), Busy(nextPage, 0, NOWHERE)) && forall p :: p in pages ==> p < nextPage
    }

    method SetTime(q: Path, i: nat, now: nat, ghost b: Busy)
      requires HasLink(T(), q, i) && Ok(height, T(), b)
      modifies this`nodes
      ensures T() == SetLink(old(T()), q, i, LinkAt(old(T()), q, i).(time := now)) && Ok(height, T(), b)
    {
      TimeOk(height, T(), b, q, i, now);
      nodes := nodes[q := nodes[q].(links := nodes[q].links[i := nodes[q].links[i].(time := now)])];
    }

    /** radix_tree_find_leaf: what the cache holds of a sector, if it does. */
    method FindLeaf(sec: nat, now: nat) returns (r: Option<int>)
      requires Valid() && sec < Pow(height + 1)
      modifies this`nodes
      ensures Valid() && pages == old(pages)
      ensures match r case Some(d) => Holds(T(), sec, d) case None => Missing(T(), sec)
      ensures Stamped(old(T()), T(), now) && (r.Some? ==> UsedNow(T(), now, Digits(height, sec), height + 1))
    {
      ghost var b, d := Busy(nextPage, 0, NOWHERE), Digits(height, sec);
      var q := [];
      while true
        invariant Ok(height, T(), b) && Walking(height, T(), q, sec) && pages == old(pages)
        invariant Stamped(old(T()), T(), now) && UsedNow(T(), now, d, |q|)
        decreases height - |q|
      {
        ghost var t := T();
        WalkAt(height, T(), b, q, sec);
        var i := Digit(sec, nodes[q].height);
        SetTime(q, i, now, b);
        StampedMore(old(T()), t, now, q, i);
        StampedMore(t, t, now, q, i);
        StillUsed(t, T(), now, d, |q|);
        assert UsedAt(T(), now, d, |q|);
        var link := nodes[q].links[i];
        if nodes[q].height == 0 {
          r := LeafValue(sec, q, i, b);
          return;
        }
        if link.u == Null {
          NothingHeld(height, T(), b, q, sec);
          return None;
        }
        LinkKind(height, T(), b, q, i);
        WalkDown(height, T(), b, q, sec);
        q := q + [i];
      }
    }

    method LeafValue(sec: nat, q: Path, i: nat, ghost b: Busy) returns (r: Option<int>)
      requires Ok(height, T(), b) && b.cur !in pages && HasLink(T(), q, i) && i < FAN && sec < Pow(height + 1)
      requires q + [i] == Digits(height, sec)
      ensures match r case Some(d) => Holds(T(), sec, d) case None => Missing(T(), sec)
    {
      LinkKind(height, T(), b, q, i);
      var link := nodes[q].links[i];
      if link.u.Leaf? {
        LeafIsSector(height, T(), b, q, i, sec);
        r := Some(pages[link.u.page].data[link.u.off]);
      } else {
        NothingAtLeaf(height, T(), b, q, i, sec);
        r := None;
      }
    }

    /** radix_tree_remove_page. */
    method RemovePage(p: nat)
      requires p in pages
      modifies this`nodes, this`pages, this`size
      ensures T() == RadixTree.RemovePage(old(T()), p)
    {
      var page := pages[p];
      ghost var t := T();
      for i := 0 to |page.owners|
        invariant pages == old(pages) && size == old(size)
        invariant T() == ClearOwners(t, page.owners, i)
      {
        var o := page.owners[i];
        if o.OwnedBy? && HasLink(T(), o.node, o.idx) {
          nodes := nodes[o.node := nodes[o.node].(links := nodes[o.node].links[o.idx := Cleared])];
        }
      }
      pages, size := pages - {p}, size - |page.data| * SECTOR;
    }

    /** The end of radix_tree_add_leaf: the page that had the link goes, all of it, and the
        link is given to page p. */
    method TakeLeaf(q: Path, i: nat, p: nat, n: nat)
      requires Ok(height, T(), Busy(p, n, NOWHERE)) && HasLink(T(), q, i) && i < FAN && nodes[q].height == 0
      requires p in pages && n < |pages[p].data| && q + [i] == Digits(height, pages[p].sec + n)
      modifies this`nodes, this`pages, this`size
      ensures Ok(height, T(), Busy(p, n + 1, NOWHERE)) && LeafTaken(old(pages), pages, p, old(pages)[p].sec + n)
      ensures HasLink(T(), q, i)
      ensures LinkAt(T(), q, i).time ==
                if Taken(old(pages), p, old(pages)[p].sec + n) then 0 else LinkAt(old(T()), q, i).time
    {
      ghost var b, t, s := Busy(p, n, NOWHERE), T(), pages[p].sec + n;
      PageBound(height, t, b, p);
      LinkKind(height, t, b, q, i);
      var link := nodes[q].links[i];
      if link.u.Leaf? {
        var x := link.u.page;
        ghost var k := link.u.off;
        LeafIsSector(height, t, b, q, i, s);
        RemovePageOk(height, t, b, x);
        RemovePage(x);
        GoneLink(height, t, b, x, k, T(), q, i);
        OnlyPage(height, t, b, x, k, s);
      } else {
        NoPageAt(height, t, b, q, i, s);
      }
      PageBound(height, T(), b, p);
      InsertLeafOk(height, T(), b, q, i);
      nodes := nodes[q := nodes[q].(links := nodes[q].links[i := nodes[q].links[i].(u := Leaf(p, n))])];
      pages := pages[p := pages[p].(owners := pages[p].owners[n := OwnedBy(q, i)])];
    }

    /** radix_tree_add_leaf. */
    method AddLeaf(sec: nat, p: nat, n: nat, now: nat)
      requires Ok(height, T(), Busy(p, n, NOWHERE)) && p in pages && n < |pages[p].data| && sec == pages[p].sec + n
      modifies this`nodes, this`pages, this`size, this`count
      ensures Ok(height, T(), Busy(p, n + 1, NOWHERE)) && LeafTaken(old(pages), pages, p, sec)
      ensures UsedAt(T(), if Taken(old(pages), p, sec) then 0 else now, Digits(height, sec), height)
    {
      ghost var b := Busy(p, n, NOWHERE);
      var q := [];
      while true
        invariant Ok(height, T(), b) && Walking(height, T(), q, sec) && pages == old(pages)
        decreases height - |q|
      {
        WalkAt(height, T(), b, q, sec);
        var i := Digit(sec, nodes[q].height);
        SetTime(q, i, now, b);
        if nodes[q].height == 0 {
          TakeLeaf(q, i, p, n);
          assert Digits(height, sec)[..height] == q;
          return;
        }
        LinkKind(height, T(), b, q, i);
        if nodes[q].links[i].u == Null { AllocateChild(q, i, b); }
        WalkDown(height, T(), b, q, sec);
        q := q + [i];
      }
    }

    method AllocateChild(q: Path, i: nat, ghost b: Busy)
      requires Ok(height, T(), b) && HasLink(T(), q, i) && i < FAN && nodes[q].height > 0 && nodes[q].links[i].u == Null
      modifies this`nodes, this`count
      ensures T() == AddChild(old(T()), q, i) && Ok(height, T(), b) && q + [i] !in old(nodes)
    {
      AddChildOk(height, T(), b, q, i);
      var h := nodes[q].height;
      nodes := nodes[q := nodes[q].(links := nodes[q].links[i := nodes[q].links[i].(u := Next)])];
      nodes := nodes[q + [i] := EmptyNode(h - 1)];
      count := count + 1;
    }

    /** radix_tree_add_leaves: a new page takes the links of its sectors; the pages that had
        any of them go. */
    method AddLeaves(sec: nat, data: seq<int>, now: nat)
      requires Valid() && 0 < |data| <= PAGE_NODES && sec + |data| <= Pow(height + 1)
      modifies this
      ensures Valid() && PageAdded(old(pages), pages, old(nextPage), sec, data, |data|)
    {
      var p := nextPage;
      NewPageOk(height, T(), Busy(p, 0, NOWHERE), p, sec, data);
      pages := pages[p := Page(sec, data, seq(PAGE_NODES, k => NoOwner))];
      size := size + |data| * SECTOR;
      nextPage := nextPage + 1;
      hide Ok;
      for i := 0 to |data|
        invariant nextPage == p + 1 && Ok(height, T(), Busy(p, i, NOWHERE))
        invariant PageAdded(old(pages), pages, p, sec, data, i)
      {
        ghost var before := pages;
        AddLeaf(sec + i, p, i, now);
        AddedNext(old(pages), before, pages, p, sec, data, i);
      }
      FilledOk(height, T(), Busy(p, |data|, NOWHERE));
      assert nextPage !in pages;
      BusyAny(height, T(), p, |data|, nextPage);
    }

    ghost function Settled(): Busy
      reads this
    {
      Busy(nextPage, 0, NOWHERE)
    }

    method ClearLink(q: Path, i: nat)
      requires HasLink(T(), q, i)
      modifies this`nodes
      ensures T() == SetLink(old(T()), q, i, Cleared)
    {
      nodes := nodes[q := nodes[q].(links := nodes[q].links[i := Cleared])];
    }

    /** One link of radix_tree_delete_branch: what lies below it goes. */
    method DeleteLink(q: Path, i: nat)
      requires Ok(height, T(), Settled()) && nextPage !in pages && q in nodes && |q| <= height && i < FAN
      modifies this`nodes, this`pages, this`size, this`count
      ensures Ok(height, T(), Settled()) && BranchGone(height, old(T()), T(), q + [i])
      ensures HasLink(T(), q, i) && LinkAt(T(), q, i) == Cleared
      decreases height - |q|, 0
    {
      ghost var t, b := T(), Settled();
      NodeShape(height, t, b, q);
      LinkKind(height, t, b, q, i);
      var u := nodes[q].links[i].u;
      if u == Null {
        NullBranch(height, t, b, q, i);
      } else if u.Leaf? {
        LeafBranch(height, t, b, q, i);
        RemovePage(u.page);
        BranchCleared(height, t, T(), b, q, i);
        TimeOk(height, T(), b, q, i, 0);
      } else {
        ChildNode(height, t, b, q, i);
        DeleteBranch(q + [i]);
        AfterDelete(height, t, T(), b, q, i);
        BranchCleared(height, t, T(), b, q, i);
        ClearNextOk(height, T(), b.(gone := q + [i]), q, i);
      }
      ClearLink(q, i);
    }

    /** The loop of radix_tree_delete_branch. */
    method DeleteLinks(q: Path)
      requires Ok(height, T(), Settled()) && nextPage !in pages && q in nodes && |q| <= height
      modifies this`nodes, this`pages, this`size, this`count
      ensures Ok(height, T(), Settled()) && Deleted(height, old(T()), T(), q, FAN) && q in nodes
      ensures forall i :: HasLink(T(), q, i) ==> LinkAt(T(), q, i).u == Null
      decreases height - |q|, 1
    {
      hide Ok;
      hide BranchGone;
      hide Deleted;
      hide NullLinks;
      hide LinkAt;
      ghost var t0 := T();
      DeletedFirst(height, t0, q);
      NullFirst(height, t0, q, Settled());
      for i := 0 to FAN
        invariant Ok(height, T(), Settled()) && nextPage !in pages && q in nodes && Deleted(height, t0, T(), q, i)
        invariant NullLinks(T(), q, i)
      {
        ghost var t := T();
        DeleteLink(q, i);
        NullNext(height, t, T(), q, i);
        PagesFewer(height, t, T(), q + [i]);
        DeletedNext(height, t0, t, T(), q, i);
      }
      NullAll(height, T(), q, Settled());
    }

    /** radix_tree_delete_branch, but for the root. */
    method DeleteBranch(q: Path)
      requires Ok(height, T(), Settled()) && nextPage !in pages && q in nodes && |q| <= height && q != []
      modifies this`nodes, this`pages, this`size, this`count
      ensures Ok(height, T(), Settled().(gone := q)) && BranchGone(height, old(T()), T(), q)
      decreases height - |q|, 2
    {
      ghost var t0 := T();
      DeleteLinks(q);
      AllDeleted(height, t0, T(), Settled(), q);
      FreeNodeOk(height, T(), Settled(), q);
      nodes, count := nodes - {q}, count - 1;
    }

    /** radix_tree_destroy: no page and no node is left, and the counts are zero. */
    method Destroy()
      requires Valid()
      modifies this
      ensures nodes == map[] && pages == map[] && size == 0 && count == 0
    {
      ghost var t0 := T();
      RootThere(height, T(), Settled());
      DeleteLinks([]);
      AllDeleted(height, t0, T(), Settled(), []);
      EmptyTree(height, t0, T(), Settled());
      NoPages(height, t0, T(), Settled());
      nodes, count := nodes - {[]}, count - 1;
    }

    /** One link of radix_tree_prune_branch; `keep` says that the node is not empty. */
    method PruneLink(q: Path, i: nat, now: nat, ghost t0: Tree) returns (keep: bool)
      requires Ok(height, T(), Settled()) && nextPage !in pages && q in nodes && |q| <= height && i < FAN
      requires Pruned(height, t0, T(), now, q, i)
      modifies this`nodes, this`pages, this`size, this`count
      ensures Ok(height, T(), Settled()) && Pruned(height, t0, T(), now, q, i + 1) && Evolved(old(T()), T())
      ensures HasLink(T(), q, i) && (!keep ==> LinkAt(T(), q, i).u == Null)
      decreases height - |q|, 1
    {
      ghost var t, b := T(), Settled();
      EvolvedSelf(t);
      NodeShape(height, t, b, q);
      LinkKind(height, t, b, q, i);
      var link := nodes[q].links[i];
      if Fresh(now, link.time) && nodes[q].height == 0 {
        PrunedFresh(height, t0, t, t, b, now, q, i);
        return true;
      }
      if Fresh(now, link.time) && link.u == Next {
        keep := PruneChild(q, i, now, t0);
        return;
      }
      PrunableIdle(height, t, b, q, i, now);
      hide Pruned;
      DeleteLink(q, i);
      PrunedIdle(height, t0, t, T(), b, now, q, i);
      BranchEvolved(height, t, T(), q + [i]);
      return false;
    }

    /** A fresh link to a node: its branch is pruned, and the link cleared if it is empty. */
    method PruneChild(q: Path, i: nat, now: nat, ghost t0: Tree) returns (keep: bool)
      requires Ok(height, T(), Settled()) && nextPage !in pages && HasLink(T(), q, i) && |q| <= height && i < FAN
      requires LinkAt(T(), q, i).u == Next && Fresh(now, LinkAt(T(), q, i).time) && Pruned(height, t0, T(), now, q, i)
      modifies this`nodes, this`pages, this`size, this`count
      ensures Ok(height, T(), Settled()) && Pruned(height, t0, T(), now, q, i + 1) && Evolved(old(T()), T())
      ensures HasLink(T(), q, i) && (!keep ==> LinkAt(T(), q, i).u == Null)
      decreases height - |q|, 0
    {
      ghost var t, b := T(), Settled();
      ChildNode(height, t, b, q, i);
      hide Pruned;
      var empty := PruneBranch(q + [i], now);
      AfterPrune(height, t, T(), now, q, i);
      if empty {
        PrunedCleared(height, t, T(), now, q + [i], q, i);
        ClearNextOk(height, T(), b.(gone := q + [i]), q, i);
        ClearLink(q, i);
      }
      PrunedFresh(height, t0, t, T(), b, now, q, i);
      return !empty;
    }

    /** radix_tree_prune_branch: of the pages with sectors below node q, those all of whose
        links from there on are fresh are left. Returns whether the node is empty, and then
        it has been freed, unless it is the root. */
    method PruneBranch(q: Path, now: nat) returns (empty: bool)
      requires Ok(height, T(), Settled()) && nextPage !in pages && q in nodes && |q| <= height
      modifies this`nodes, this`pages, this`size, this`count
      ensures Ok(height, T(), if empty && q != [] then Settled().(gone := q) else Settled())
      ensures BranchPruned(height, old(T()), T(), now, q) && (q in nodes <==> !(empty && q != []))
      decreases height - |q|, 2
    {
      hide Ok;
      hide Pruned;
      hide NullLinks;
      hide LinkAt;
      hide BranchPruned;
      ghost var t0, b := T(), Settled();
      empty := true;
      PrunedFirst(height, t0, now, q);
      NullFirst(height, t0, q, b);
      for i := 0 to FAN
        invariant Ok(height, T(), b) && nextPage !in pages && q in nodes && Pruned(height, t0, T(), now, q, i)
        invariant empty ==> NullLinks(T(), q, i)
      {
        ghost var t := T();
        var keep := PruneLink(q, i, now, t0);
        if keep { empty := false; }
        if empty { NullEvolved(t, T(), q, i); }
        EvolvedPages(t, T());
      }
      AllPruned(height, t0, T(), b, now, q);
      if empty && q != [] {
        NullAll(height, T(), q, b);
        FreeNodeOk(height, T(), b, q);
        nodes, count := nodes - {q}, count - 1;
      }
    }

    /** radix_tree_prune: a page stays just if every link on the way to every sector of it
        has been used within the idle time; it stays or goes as a whole. */
    method Prune(now: nat)
      requires Valid()
      modifies this`nodes, this`pages, this`size, this`count
      ensures Valid()
      ensures forall p :: p in pages <==> p in old(pages) && UsedRecently(height, old(T()), now, old(pages)[p])
      ensures forall p :: p in pages ==> pages[p] == old(pages)[p]
    {
      ghost var t := T();
      RootThere(height, t, Settled());
      var _ := PruneBranch([], now);
      PrunedWhole(height, t, T(), now);
      forall p | p in t.pages { StaysUsed(height, t, now, t.pages[p]); }
    }

    /* ---- reads ---- */

    /** What the cache holds is what the parent image has. */
    ghost predicate Faithful(parent: nat -> int)
      reads this
    {
      forall p :: p in pages ==> PageFaithful(pages[p], parent)
    }

    /** radix_tree_initialize. */
    constructor (sectors: nat, height: nat)
      requires height >= 1 && sectors <= Pow(height + 1)
      ensures Valid() && this.height == height && pages == map[] && size == 0 && count == 1
    {
      this.height := height;
      nodes, pages, size, count, nextPage := map[[] := EmptyNode(height)], map[], 0, 1, 0;
      new;
      NewTreeOk(height, T());
    }

    /** block_cache_queue_read: a hit serves all sectors from the cache; with a miss, or more
        sectors than a page has, the request goes to the parent. */
    method QueueRead(sec: nat, secs: nat, now: nat, ghost parent: nat -> int) returns (hit: Option<seq<int>>)
      requires Valid() && Faithful(parent) && sec + secs <= Pow(height + 1)
      modifies this`nodes
      ensures Valid() && Faithful(parent) && pages == old(pages)
      ensures hit.Some? ==> |hit.value| == secs && forall k :: 0 <= k < secs ==> hit.value[k] == parent(sec + k)
      ensures hit.None? ==> secs > PAGE_NODES || exists k :: 0 <= k < secs && MissingAt(T(), sec, k)
      ensures Stamped(old(T()), T(), now)
      ensures hit.Some? ==> forall k: nat :: k < secs ==> FoundAt(height, T(), now, sec, k)
    {
      if secs > PAGE_NODES { return None; }
      var iov := [];
      for i := 0 to secs
        invariant Valid() && pages == old(pages) && |iov| == i && forall k :: 0 <= k < i ==> iov[k] == parent(sec + k)
        invariant Stamped(old(T()), T(), now)
        invariant forall k: nat :: k < i ==> FoundAt(height, T(), now, sec, k)
      {
        ghost var t := T();
        var leaf := FindLeaf(sec + i, now);
        StampedTwice(old(T()), t, T(), now);
        forall k: nat | k < i ensures FoundAt(height, T(), now, sec, k) {
          assert FoundAt(height, t, now, sec, k);
          StillUsed(t, T(), now, Digits(height, sec + k), height + 1);
        }
        if leaf == None {
          assert MissingAt(T(), sec, i);
          return None;
        }
        HeldFaithful(T(), parent, sec + i, leaf.value);
        iov := iov + [leaf.value];
      }
      return Some(iov);
    }

    /** block_cache_populate_cache, for a read that the parent has completed without error. */
    method Populate(sec: nat, data: seq<int>, now: nat, ghost parent: nat -> int)
      requires Valid() && Faithful(parent) && 0 < |data| <= PAGE_NODES && sec + |data| <= Pow(height + 1)
      requires forall k :: 0 <= k < |data| ==> data[k] == parent(sec + k)
      modifies this
      ensures Valid() && Faithful(parent) && PageAdded(old(pages), pages, old(nextPage), sec, data, |data|)
    {
      AddLeaves(sec, data, now);
    }
  }

  ghost predicate PageFaithful(page: Page, parent: nat -> int) {
    forall k :: 0 <= k < |page.data| ==> page.data[k] == parent(page.sec + k)
  }

  lemma HeldFaithful(t: Tree, parent: nat -> int, s: nat, d: int)
    requires Holds(t, s, d) && forall p :: p in t.pages ==> PageFaithful(t.pages[p], parent)
    ensures d == parent(s)
  {
    var p :| p in t.pages && Covers(t.pages[p], s) && t.pages[p].data[s - t.pages[p].sec] == d;
    assert PageFaithful(t.pages[p], parent);
    var k := s - t.pages[p].sec;
    assert t.pages[p].data[k] == parent(t.pages[p].sec + k);
  }

  lemma NewTreeOk(h: nat, t: Tree)
    requires t == Tree(map[[] := EmptyNode(h)], map[], 0, 1)
    ensures Ok(h, t, Busy(0, 0, NOWHERE))
  {
    var b := Busy(0, 0, NOWHERE);
    forall q | q in t.nodes ensures NodeOk(h, t, b, q) {
      forall i | 0 <= i < FAN ensures LinkOk(t, b, q, i) { assert LinkAt(t, q, i) == Cleared; }
    }
    var root: Path := [];
    assert t.nodes.Keys == {root};
    assert |t.nodes| == |t.nodes.Keys|;
  }

  /** Every link on the way to every sector of the page is fresh. */
  ghost predicate StaysFresh(h: nat, t: Tree, now: nat, page: Page) {
    forall k :: 0 <= k < |page.data| ==> SectorFresh(h, t, now, page, k)
  }

  predicate SectorFresh(h: nat, t: Tree, now: nat, page: Page, k: nat) { FreshFrom(t, now, Digits(h, page.sec + k), 0) }

  lemma PrunedWhole(h: nat, t: Tree, t1: Tree, now: nat)
    requires BranchPruned(h, t, t1, now, [])
    ensures forall p :: p in t1.pages <==> p in t.pages && StaysFresh(h, t, now, t.pages[p])
    ensures forall p :: p in t1.pages ==> t1.pages[p] == t.pages[p]
  {
    forall p | p in t.pages ensures Alive(h, t, now, t.pages[p], [], 0) <==> StaysFresh(h, t, now, t.pages[p]) {
      var page := t.pages[p];
      forall k: nat ensures TouchAt(h, page, [], k) <==> k < |page.data| { assert Digits(h, page.sec + k)[..0] == []; }
      if Alive(h, t, now, page, [], 0) {
        forall k | 0 <= k < |page.data| ensures SectorFresh(h, t, now, page, k) { assert TouchAt(h, page, [], k); }
      }
      if StaysFresh(h, t, now, page) {
        forall k | TouchAt(h, page, [], k)
          ensures FreshFrom(t, now, Digits(h, page.sec + k), 0)
        {
          assert SectorFresh(h, t, now, page, k);
        }
      }
    }
  }

  lemma PrunableIdle(h: nat, t: Tree, b: Busy, q: Path, i: nat, now: nat)
    requires Ok(h, t, b) && HasLink(t, q, i) && i < FAN
    requires !(Fresh(now, LinkAt(t, q, i).time) && t.nodes[q].height == 0) &&
             !(Fresh(now, LinkAt(t, q, i).time) && LinkAt(t, q, i).u == Next)
    ensures LinkAt(t, q, i).u == Null || !Fresh(now, LinkAt(t, q, i).time)
  {
    LinkKind(h, t, b, q, i);
  }

  lemma BranchEvolved(h: nat, t: Tree, t1: Tree, w: Path)
    requires BranchGone(h, t, t1, w)
    ensures Evolved(t, t1)
  {
  }

  lemma EvolvedPages(t: Tree, t1: Tree)
    requires Evolved(t, t1)
    ensures t1.pages.Keys <= t.pages.Keys
  {
  }

  /** The parent of a pruned branch is still there, and so is its link. */
  lemma AfterPrune(h: nat, t: Tree, t1: Tree, now: nat, q: Path, i: nat)
    requires q in t.nodes && HasLink(t, q, i) && LinkAt(t, q, i).u == Next && BranchPruned(h, t, t1, now, q + [i])
    ensures HasLink(t1, q, i) && !LinkAt(t1, q, i).u.Leaf? && Evolved(t, t1)
    ensures Evolved(t, SetLink(t1, q, i, Cleared))
  {
    assert !Under(q + [i], q);
    assert LinkSame(t, t1, q, i);
    EvolvedClear(t1, q, i);
    EvolvedTrans(t, t1, SetLink(t1, q, i, Cleared));
  }

  lemma NullEvolved(t: Tree, t1: Tree, q: Path, i: nat)
    requires NullLinks(t, q, i) && Evolved(t, t1) && HasLink(t1, q, i) && LinkAt(t1, q, i).u == Null
    ensures NullLinks(t1, q, i + 1)
  {
    forall j | 0 <= j < i && HasLink(t1, q, j) ensures LinkAt(t1, q, j).u == Null { assert LinkSame(t, t1, q, j); }
  }

  lemma NodeShape(h: nat, t: Tree, b: Busy, q: Path)
    requires Ok(h, t, b) && q in t.nodes
    ensures |t.nodes[q].links| == FAN && |q| + t.nodes[q].height == h
  {
    assert NodeOk(h, t, b, q);
  }

  lemma RootThere(h: nat, t: Tree, b: Busy)
    requires Ok(h, t, b)
    ensures [] in t.nodes
  {
  }

  lemma ChildNode(h: nat, t: Tree, b: Busy, q: Path, i: nat)
    requires Ok(h, t, b) && b.gone == NOWHERE && HasLink(t, q, i) && i < FAN && LinkAt(t, q, i).u == Next
    ensures q + [i] in t.nodes && |q + [i]| <= h
  {
    assert NodeOk(h, t, b, q) && LinkOk(t, b, q, i);
    assert q + [i] != NOWHERE by { assert (q + [i])[|q|] == i; }
  }

  /** The parent of a deleted branch is still there, and its link too. */
  lemma AfterDelete(h: nat, t: Tree, t1: Tree, b: Busy, q: Path, i: nat)
    requires Ok(h, t, b) && HasLink(t, q, i) && LinkAt(t, q, i).u == Next && BranchGone(h, t, t1, q + [i])
    ensures HasLink(t1, q, i) && !LinkAt(t1, q, i).u.Leaf? && q + [i] !in t1.nodes
  {
    assert !Under(q + [i], q) && Under(q + [i], q + [i]);
    assert LinkSame(t, t1, q, i);
  }

  ghost predicate NullLinks(t: Tree, q: Path, n: nat) {
    forall j :: 0 <= j < n && HasLink(t, q, j) ==> LinkAt(t, q, j).u == Null
  }

  lemma NullFirst(h: nat, t: Tree, q: Path, b: Busy)
    ensures NullLinks(t, q, 0)
  {
  }

  lemma NullAll(h: nat, t: Tree, q: Path, b: Busy)
    requires Ok(h, t, b) && q in t.nodes && NullLinks(t, q, FAN)
    ensures forall i :: HasLink(t, q, i) ==> LinkAt(t, q, i).u == Null
  {
    NodeShape(h, t, b, q);
  }

  lemma PagesFewer(h: nat, t: Tree, t1: Tree, w: Path)
    requires BranchGone(h, t, t1, w)
    ensures t1.pages.Keys <= t.pages.Keys
  {
  }

  lemma NullNext(h: nat, t: Tree, t1: Tree, q: Path, i: nat)
    requires NullLinks(t, q, i) && BranchGone(h, t, t1, q + [i]) && q in t.nodes && HasLink(t1, q, i) &&
             LinkAt(t1, q, i) == Cleared
    ensures NullLinks(t1, q, i + 1)
  {
    forall j | 0 <= j < i && HasLink(t1, q, j) ensures LinkAt(t1, q, j).u == Null { assert LinkSame(t, t1, q, j); }
  }

  lemma NoPages(h: nat, t0: Tree, t: Tree, b: Busy)
    requires Ok(h, t, b) && Ok(h, t0, b)
    requires forall p :: p in t.pages <==> p in t0.pages && !Touches(h, t0.pages[p], [])
    ensures t.pages == map[] && t.size == 0
  {
    forall p | p in t0.pages ensures Touches(h, t0.pages[p], []) {
      assert PageOk(h, t0, b, p);
      assert Digits(h, t0.pages[p].sec + 0)[..0] == [];
      assert TouchAt(h, t0.pages[p], [], 0);
    }
    assert t.pages.Keys == {};
  }

  lemma EmptyTree(h: nat, t0: Tree, t: Tree, b: Busy)
    requires Ok(h, t, b) && t.pages.Keys <= t0.pages.Keys
    requires forall p :: p in t.pages <==> p in t0.pages && !Touches(h, t0.pages[p], [])
    requires forall r :: r in t.nodes <==> r in t0.nodes && (Under([], r) ==> r == [])
    ensures t.nodes.Keys == {[]} && t.count == 1
  {
    forall r | r in t.nodes ensures r == [] { assert r[..0] == []; }
    RootThere(h, t, b);
    assert t.nodes.Keys == {[]};
    assert |t.nodes| == |t.nodes.Keys|;
  }

  /** Page p has taken the link of sector s: the page that had s is gone. */
  ghost predicate LeafTaken(pages: map<nat, Page>, pages': map<nat, Page>, p: nat, s: nat)
    requires p in pages
  {
    && p in pages' && pages'[p].sec == pages[p].sec && pages'[p].data == pages[p].data
    && (forall x :: x != p ==> (x in pages' <==> x in pages && !Covers(pages[x], s)))
    && (forall x :: x != p && x in pages' ==> pages'[x] == pages[x])
  }

  predicate Misses(page: Page, s: nat, n: nat) { forall k :: s <= k < s + n ==> !Covers(page, k) }

  /** Page p has been added and has the first n sectors of its data; other pages that had
      one of these are gone, and the rest are as they were. */
  ghost predicate PageAdded(pages: map<nat, Page>, pages': map<nat, Page>, p: nat, sec: nat, data: seq<int>, n: nat) {
    && p in pages' && pages'[p].sec == sec && pages'[p].data == data
    && (forall x :: x != p ==> (x in pages' <==> x in pages && Misses(pages[x], sec, n)))
    && (forall x :: x != p && x in pages' ==> pages'[x] == pages[x])
    && (forall x :: x in pages ==> x < p)
  }

  lemma AddedNext(pages: map<nat, Page>, pages1: map<nat, Page>, pages2: map<nat, Page>, p: nat, sec: nat,
          data: seq<int>, n: nat)
    requires PageAdded(pages, pages1, p, sec, data, n) && LeafTaken(pages1, pages2, p, sec + n)
    ensures PageAdded(pages, pages2, p, sec, data, n + 1)
  {
    forall x | x in pages
      ensures Misses(pages[x], sec, n + 1) <==> Misses(pages[x], sec, n) && !Covers(pages[x], sec + n)
    {
      assert !Covers(pages[x], sec + n) || Covers(pages[x], sec + n);
    }
  }

  /** What the cache holds afterwards: the new data for its sectors; and of the rest, what
      it held, but for the other sectors of the pages that were replaced. */
  lemma HoldsAfterAdd(h: nat, t: Tree, t': Tree, b: Busy, p: nat, sec: nat, data: seq<int>, s: nat, d: int)
    requires Ok(h, t', b) && b.cur !in t'.pages && PageAdded(t.pages, t'.pages, p, sec, data, |data|)
    ensures Holds(t', s, d) <==>
              if sec <= s < sec + |data| then d == data[s - sec]
              else exists x ::
                x in t.pages && Misses(t.pages[x], sec, |data|) && Covers(t.pages[x], s) &&
                t.pages[x].data[s - t.pages[x].sec] == d
  {
    if sec <= s < sec + |data| {
      assert Holds(t', s, data[s - sec]) by { assert Covers(t'.pages[p], s); }
      if Holds(t', s, d) { HoldsOne(h, t', b, s, d, data[s - sec]); }
    } else {
      if Holds(t', s, d) {
        var x :| x in t'.pages && Covers(t'.pages[x], s) && t'.pages[x].data[s - t'.pages[x].sec] == d;
        assert x in t.pages;
      }
      if x :|
        x in t.pages && Misses(t.pages[x], sec, |data|) && Covers(t.pages[x], s) &&
        t.pages[x].data[s - t.pages[x].sec] == d
      {
        assert x in t'.pages;
      }
    }
  }

  lemma BusyAny(h: nat, t: Tree, p: nat, n: nat, c: nat)
    requires p in t.pages && n == |t.pages[p].data| && Ok(h, t, Busy(p, n, NOWHERE)) && c !in t.pages
    ensures Ok(h, t, Busy(c, 0, NOWHERE))
  {
    FilledOk(h, t, Busy(p, n, NOWHERE));
    var b, b' := Busy(c, n, NOWHERE), Busy(c, 0, NOWHERE);
    assert b == Busy(p, n, NOWHERE).(cur := c);
    forall r | r in t.nodes ensures NodeOk(h, t, b', r) {
      assert NodeOk(h, t, b, r);
      forall j | 0 <= j < FAN ensures LinkOk(t, b', r, j) { assert LinkOk(t, b, r, j); }
    }
    forall x | x in t.pages ensures PageOk(h, t, b', x) { assert PageOk(h, t, b, x); }
  }

  lemma {:induction false} PageBound(h: nat, t: Tree, b: Busy, p: nat)
    requires Ok(h, t, b) && p in t.pages
    ensures t.pages[p].sec + |t.pages[p].data| <= Pow(h + 1) && |t.pages[p].owners| == PAGE_NODES &&
            |t.pages[p].data| <= PAGE_NODES
  {
    assert PageOk(h, t, b, p);
  }

  /** The link of a removed page's sector is cleared. */
  lemma GoneLink(h: nat, t: Tree, b: Busy, x: nat, k: nat, t': Tree, q: Path, i: nat)
    requires Ok(h, t, b) && x in t.pages && PageGone(t, t', x) && HasLink(t, q, i) && i < FAN &&
             LinkAt(t, q, i).u == Leaf(x, k)
    ensures HasLink(t', q, i) && LinkAt(t', q, i) == Cleared && t'.nodes[q].height == t.nodes[q].height
  {
    assert NodeOk(h, t, b, q) && LinkOk(t, b, q, i);
    assert OwnedBy(q, i) in t.pages[x].owners;
  }

  lemma OnlyPage(h: nat, t: Tree, b: Busy, x: nat, k: nat, s: nat)
    requires Ok(h, t, b) && x in t.pages && k < Bound(t, b, x) && t.pages[x].sec + k == s && k < |t.pages[x].data|
    ensures forall y :: y in t.pages && y != b.cur && Covers(t.pages[y], s) ==> y == x
    ensures Covers(t.pages[x], s)
  {
    forall y | y in t.pages && y != b.cur && Covers(t.pages[y], s)
      ensures y == x
    {
      OnePage(h, t, b, x, k, y, s - t.pages[y].sec);
    }
  }

  lemma {:induction false} NoPageAt(h: nat, t: Tree, b: Busy, q: Path, i: nat, s: nat)
    requires Ok(h, t, b) && HasLink(t, q, i) && q + [i] == Digits(h, s) && !LinkAt(t, q, i).u.Leaf?
    ensures forall y :: y in t.pages && y != b.cur ==> !Covers(t.pages[y], s)
  {
    assert Digits(h, s)[..h] == q && Digits(h, s)[h] == i;
    forall y | y in t.pages && y != b.cur ensures !Covers(t.pages[y], s) {
      if Covers(t.pages[y], s) { LeafNode(h, t, b, y, s - t.pages[y].sec, h); }
    }
  }

  /** Leaves are at the bottom, other links lead on. */
  lemma LinkKind(h: nat, t: Tree, b: Busy, q: Path, i: nat)
    requires Ok(h, t, b) && HasLink(t, q, i) && i < FAN
    ensures LinkAt(t, q, i).u.Leaf? ==> t.nodes[q].height == 0
    ensures LinkAt(t, q, i).u.Next? ==> t.nodes[q].height > 0
  {
    assert NodeOk(h, t, b, q) && LinkOk(t, b, q, i);
  }

  lemma NothingHeld(h: nat, t: Tree, b: Busy, q: Path, s: nat)
    requires Ok(h, t, b) && b.cur !in t.pages && Walking(h, t, q, s)
    requires var i := Digit(s, t.nodes[q].height); HasLink(t, q, i) && LinkAt(t, q, i).u == Null
    ensures Missing(t, s)
  {
    WalkAt(h, t, b, q, s);
    forall p | p in t.pages ensures !Covers(t.pages[p], s) {
      if Covers(t.pages[p], s) { NoLeaf(h, t, b, s, |q|, p, s - t.pages[p].sec); }
    }
  }

  lemma {:induction false} NothingAtLeaf(h: nat, t: Tree, b: Busy, q: Path, i: nat, s: nat)
    requires Ok(h, t, b) && b.cur !in t.pages && HasLink(t, q, i) && q + [i] == Digits(h, s) && !LinkAt(t, q, i).u.Leaf?
    ensures Missing(t, s)
  {
    assert Digits(h, s)[..h] == q && Digits(h, s)[h] == i;
    forall p | p in t.pages ensures !Covers(t.pages[p], s) {
      if Covers(t.pages[p], s) { LeafNode(h, t, b, p, s - t.pages[p].sec, h); }
    }
  }
}
