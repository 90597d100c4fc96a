/** The radix tree of the block cache (drivers/block-cache.c): nodes of FAN links, whose
    leaves share pages, and pages that know the links of their sectors. A node is addressed
    by the digits that lead to it from the root. */
module RadixTree {
  import opened Arithmetic

  const FAN: nat := 512          // RADIX_TREE_NODE_SIZE
  const SECTOR: nat := 512       // bytes per sector
  const PAGE_NODES: nat := 8     // BLOCK_CACHE_NODES_PER_PAGE
  const IDLETIME: nat := 60      // BLOCK_CACHE_PAGE_IDLETIME

  /* ---- digits ---- */

  function Pow(h: nat): pos {
    if h == 0 then 1 else FAN * Pow(h - 1)
  }

  type Path = seq<nat>

  /** The digits of a sector, from height h down to 0. */
  function Digits(h: nat, s: nat): (d: Path)
    ensures |d| == h + 1 && forall i :: 0 <= i <= h ==> d[i] < FAN
  {
    if h == 0 then [s % FAN] else Digits(h - 1, s / FAN) + [s % FAN]
  }

  /** radix_tree_index: the digit of a sector at a height. */
  function Digit(s: nat, height: nat): (i: nat)
    ensures i < FAN
  {
    s / Pow(height) % FAN
  }

  lemma DivDiv(s: nat, a: pos, b: pos)
    ensures a * b > 0 && s / a / b == s / (a * b)
  {
    var (x, p) := (s / a, s % a);
    var (y, q) := (x / b, x % b);
    DivParts(s, a);
    DivParts(x, b);
    Nested(s, a, b, x, p, y, q);
    DivUnique(a * b, y, q * a + p);
  }

  lemma DivParts(s: nat, a: pos)
    ensures s == s / a * a + s % a && 0 <= s / a && 0 <= s % a < a
  {
  }

  lemma Nested(s: nat, a: pos, b: pos, x: nat, p: nat, y: nat, q: nat)
    requires s == x * a + p && p < a && x == y * b + q && q < b
    ensures a * b > 0 && s == y * (a * b) + (q * a + p) && 0 <= q * a + p < a * b
  {
    MulMono(1, b, a);
    MulMono(q + 1, b, a);
    assert (q + 1) * a == q * a + a;
    assert (y * b + q) * a == y * (a * b) + q * a;
  }

  /** Walking down the tree goes by the digits of the sector. */
  lemma {:induction false} DigitAt(h: nat, s: nat, k: nat)
    requires k <= h
    ensures Digits(h, s)[h - k] == Digit(s, k)
    decreases h
  {
    if k > 0 {
      DigitAt(h - 1, s / FAN, k - 1);
      DivDiv(s, FAN, Pow(k - 1));
    } else {
      assert s / 1 == s;
    }
  }

  /** Paths are injective below the size of the tree. */
  lemma {:induction false} DigitsInjective(h: nat, s: nat, t: nat)
    requires s < Pow(h + 1) && t < Pow(h + 1) && Digits(h, s) == Digits(h, t)
    ensures s == t
    decreases h
  {
    assert Digits(h, s)[h] == s % FAN && Digits(h, t)[h] == t % FAN;
    if h == 0 {
      assert Pow(1) == FAN * Pow(0);
    } else {
      assert Digits(h - 1, s / FAN) == Digits(h, s)[..h] && Digits(h - 1, t / FAN) == Digits(h, t)[..h];
      assert Pow(h + 1) == FAN * Pow(h);
      DigitsInjective(h - 1, s / FAN, t / FAN);
    }
  }

  lemma {:induction false} PowGrows(h: nat)
    ensures Pow(h) < Pow(h + 1)
  {
    if h > 0 { PowGrows(h - 1); }
  }

  /** radix_tree_calculate_height: the least height, at least 1, whose tree holds all sectors. */
  method CalculateHeight(sectors: nat) returns (height: nat)
    ensures height >= 1 && sectors <= Pow(height + 1) && (height == 1 || sectors > Pow(height))
  {
    height := 1;
    while sectors > Pow(height + 1)
      invariant height >= 1 && (height == 1 || sectors > Pow(height))
      decreases sectors - Pow(height + 1)
    {
      PowGrows(height + 1);
      height := height + 1;
    }
  }

  /* ---- the tree ---- */

  datatype Ref = Null | Next | Leaf(page: nat, off: nat)

  datatype Link = Link(time: nat, u: Ref)

  const Cleared := Link(0, Null)

  datatype Node = Node(height: nat, links: seq<Link>)

  datatype Owner = NoOwner | OwnedBy(node: Path, idx: nat)

  /** A page: `data` is one value for each of its sectors. */
  datatype Page = Page(sec: nat, data: seq<int>, owners: seq<Owner>)

  datatype Tree = Tree(nodes: map<Path, Node>, pages: map<nat, Page>, size: int, count: int)

  /** What is being done to the tree: page `cur` has so far got links for its first n
      sectors, and the link that leads to `gone` may lead nowhere. */
  datatype Busy = Busy(cur: nat, n: nat, gone: Path)

  const NOWHERE: Path := [FAN]

  predicate HasLink(t: Tree, q: Path, i: nat) { q in t.nodes && i < |t.nodes[q].links| }

  function LinkAt(t: Tree, q: Path, i: nat): Link
    requires HasLink(t, q, i)
  {
    t.nodes[q].links[i]
  }

  function SetLink(t: Tree, q: Path, i: nat, l: Link): Tree
    requires HasLink(t, q, i)
  {
    t.(nodes := t.nodes[q := t.nodes[q].(links := t.nodes[q].links[i := l])])
  }

  ghost predicate LinkOk(t: Tree, b: Busy, q: Path, i: nat)
    requires HasLink(t, q, i)
  {
    match LinkAt(t, q, i).u
    case Null => true
    case Next => t.nodes[q].height > 0 && (q + [i] in t.nodes || q + [i] == b.gone)
    case Leaf(p, k) =>
      t.nodes[q].height == 0 && p in t.pages && k < |t.pages[p].owners| && t.pages[p].owners[k] == OwnedBy(q, i)
  }

  predicate ParentOk(t: Tree, q: Path)
    requires q != []
  {
    var up, i := q[..|q| - 1], q[|q| - 1];
    i < FAN && HasLink(t, up, i) && LinkAt(t, up, i).u == Next
  }

  ghost predicate NodeOk(h: nat, t: Tree, b: Busy, q: Path)
    requires q in t.nodes
  {
    && |q| + t.nodes[q].height == h && |t.nodes[q].links| == FAN
    && (forall i {:trigger LinkOk(t, b, q, i)} :: 0 <= i < FAN ==> LinkOk(t, b, q, i))
    && (q != [] ==> ParentOk(t, q))
  }

  /** Sector k of page p has its link, and the link its sector. */
  predicate OwnerOk(h: nat, t: Tree, p: nat, k: nat)
    requires p in t.pages && k < |t.pages[p].owners|
  {
    var o := t.pages[p].owners[k];
    o.OwnedBy? && HasLink(t, o.node, o.idx) && LinkAt(t, o.node, o.idx).u == Leaf(p, k) &&
    o.node + [o.idx] == Digits(h, t.pages[p].sec + k)
  }

  /** Sectors of page p that have their link. */
  function Bound(t: Tree, b: Busy, p: nat): nat
    requires p in t.pages
  {
    if p == b.cur then b.n else |t.pages[p].data|
  }

  ghost predicate PageOk(h: nat, t: Tree, b: Busy, p: nat)
    requires p in t.pages
  {
    var page := t.pages[p];
    && |page.owners| == PAGE_NODES && 0 < |page.data| <= PAGE_NODES && page.sec + |page.data| <= Pow(h + 1)
    && Bound(t, b, p) <= |page.data|
    && (forall k {:trigger OwnerOk(h, t, p, k)} :: 0 <= k < Bound(t, b, p) ==> OwnerOk(h, t, p, k))
    && (forall k :: Bound(t, b, p) <= k < PAGE_NODES ==> page.owners[k] == NoOwner)
  }

  ghost function Bytes(pages: map<nat, Page>): nat
    decreases |pages|
  {
    if pages == map[] then 0
    else
      var p :| p in pages;
      |pages[p].data| * SECTOR + Bytes(pages - {p})
  }

  ghost predicate Ok(h: nat, t: Tree, b: Busy) {
    && [] in t.nodes
    && (forall q {:trigger NodeOk(h, t, b, q)} :: q in t.nodes ==> NodeOk(h, t, b, q))
    && (forall p {:trigger PageOk(h, t, b, p)} :: p in t.pages ==> PageOk(h, t, b, p))
    && t.size == Bytes(t.pages) && t.count == |t.nodes|
  }

  /** No page is being filled and no link leads nowhere. */
  predicate Idle(t: Tree, b: Busy) { b.cur !in t.pages && b.gone == NOWHERE }

  /* ---- sums ---- */

  lemma {:induction false} BytesRemove(pages: map<nat, Page>, p: nat)
    requires p in pages
    ensures Bytes(pages) == |pages[p].data| * SECTOR + Bytes(pages - {p})
    decreases |pages|
  {
    var u :| u in pages && Bytes(pages) == |pages[u].data| * SECTOR + Bytes(pages - {u});
    if u != p {
      BytesRemove(pages - {u}, p);
      BytesRemove(pages - {p}, u);
      assert pages - {u} - {p} == pages - {p} - {u};
    }
  }

  lemma BytesSet(pages: map<nat, Page>, p: nat, page: Page)
    ensures p in pages ==> Bytes(pages[p := page]) == Bytes(pages) - |pages[p].data| * SECTOR + |page.data| * SECTOR
    ensures p !in pages ==> Bytes(pages[p := page]) == Bytes(pages) + |page.data| * SECTOR
  {
    var pages' := pages[p := page];
    BytesRemove(pages', p);
    if p in pages {
      BytesRemove(pages, p);
      assert pages' - {p} == pages - {p};
    } else {
      assert pages' - {p} == pages;
    }
  }

  /* ---- paths ---- */

  predicate Under(w: Path, q: Path) { |w| <= |q| && q[..|w|] == w }

  /** Every node on the way to a node is there, and its link leads on. */
  lemma {:induction false} OnTheWay(h: nat, t: Tree, b: Busy, q: Path, m: nat)
    requires Ok(h, t, b) && q in t.nodes && m <= |q|
    ensures q[..m] in t.nodes && (m < |q| ==> HasLink(t, q[..m], q[m]) && LinkAt(t, q[..m], q[m]).u == Next)
    decreases |q|
  {
    assert NodeOk(h, t, b, q);
    if m < |q| {
      var up := q[..|q| - 1];
      OnTheWay(h, t, b, up, m);
      assert up[..m] == q[..m];
    } else {
      assert q[..m] == q;
    }
  }

  /** The leaf node of a bound sector and the nodes above it are there. */
  lemma {:induction false} LeafNode(h: nat, t: Tree, b: Busy, p: nat, k: nat, m: nat)
    requires Ok(h, t, b) && p in t.pages && k < Bound(t, b, p) && m <= h
    ensures var d := Digits(h, t.pages[p].sec + k);
            && HasLink(t, d[..m], d[m])
            && LinkAt(t, d[..m], d[m]).u == if m == h then Leaf(p, k) else Next
    ensures k < |t.pages[p].owners| &&
            t.pages[p].owners[k] == OwnedBy(Digits(h, t.pages[p].sec + k)[..h], Digits(h, t.pages[p].sec + k)[h])
  {
    assert PageOk(h, t, b, p) && OwnerOk(h, t, p, k);
    var o := t.pages[p].owners[k];
    var d := Digits(h, t.pages[p].sec + k);
    assert d[..h] == o.node && d[h] == o.idx;
    if m < h {
      OnTheWay(h, t, b, o.node, m);
      assert d[..m] == o.node[..m] && d[m] == o.node[m];
    }
  }

  /** At most one page covers a sector. */
  lemma OnePage(h: nat, t: Tree, b: Busy, p: nat, k: nat, p': nat, k': nat)
    requires Ok(h, t, b) && p in t.pages && k < Bound(t, b, p) && p' in t.pages && k' < Bound(t, b, p')
    requires t.pages[p].sec + k == t.pages[p'].sec + k'
    ensures p == p' && k == k'
  {
    LeafNode(h, t, b, p, k, h);
    LeafNode(h, t, b, p', k', h);
  }

  predicate Covers(page: Page, s: nat) { page.sec <= s < page.sec + |page.data| }

  /** A leaf link that is reached for sector s is the link of sector s. */
  lemma {:induction false} LeafIsSector(h: nat, t: Tree, b: Busy, q: Path, i: nat, s: nat)
    requires Ok(h, t, b) && HasLink(t, q, i) && i < FAN && q + [i] == Digits(h, s) && s < Pow(h + 1)
    requires LinkAt(t, q, i).u.Leaf?
    ensures var Leaf(p, k) := LinkAt(t, q, i).u;
            p in t.pages && k < Bound(t, b, p) && Bound(t, b, p) <= |t.pages[p].data| && t.pages[p].sec + k == s
  {
    var Leaf(p, k) := LinkAt(t, q, i).u;
    assert NodeOk(h, t, b, q) && LinkOk(t, b, q, i);
    assert PageOk(h, t, b, p);
    assert OwnerOk(h, t, p, k);
    DigitsInjective(h, s, t.pages[p].sec + k);
  }

  /** A link on the way to sector s that leads nowhere shows that no page has s. */
  lemma {:induction false} NoLeaf(h: nat, t: Tree, b: Busy, s: nat, m: nat, p: nat, k: nat)
    requires Ok(h, t, b) && m <= h && HasLink(t, Digits(h, s)[..m], Digits(h, s)[m])
    requires LinkAt(t, Digits(h, s)[..m], Digits(h, s)[m]).u == Null
    requires p in t.pages && k < Bound(t, b, p)
    ensures t.pages[p].sec + k != s
  {
    LeafNode(h, t, b, p, k, m);
  }

  /* ---- steps ---- */

  predicate LeafKept(t: Tree, t': Tree, q: Path, i: nat) {
    HasLink(t, q, i) && LinkAt(t, q, i).u.Leaf? ==> HasLink(t', q, i) && LinkAt(t', q, i).u == LinkAt(t, q, i).u
  }

  /** Pages are all right as long as their links are as they were. */
  lemma PagesKept(h: nat, t: Tree, b: Busy, t': Tree, b': Busy)
    requires Ok(h, t, b) && t'.pages == t.pages && b'.cur == b.cur && b'.n == b.n
    requires forall q, i {:trigger LeafKept(t, t', q, i)} :: LeafKept(t, t', q, i)
    ensures forall p {:trigger PageOk(h, t', b', p)} :: p in t'.pages ==> PageOk(h, t', b', p)
  {
    forall p | p in t'.pages ensures PageOk(h, t', b', p) {
      assert PageOk(h, t, b, p);
      forall k | 0 <= k < Bound(t', b', p) ensures OwnerOk(h, t', p, k) {
        assert OwnerOk(h, t, p, k);
        var o := t.pages[p].owners[k];
        assert LeafKept(t, t', o.node, o.idx);
      }
    }
  }

  /** The time of a link does not matter to the shape of the tree. */
  lemma TimeOk(h: nat, t: Tree, b: Busy, q: Path, i: nat, time: nat)
    requires Ok(h, t, b) && HasLink(t, q, i)
    ensures Ok(h, SetLink(t, q, i, LinkAt(t, q, i).(time := time)), b)
  {
    hide NodeOk;
    hide PageOk;
    var t' := SetLink(t, q, i, LinkAt(t, q, i).(time := time));
    assert |t'.nodes.Keys| == |t'.nodes| && |t.nodes.Keys| == |t.nodes| && t'.nodes.Keys == t.nodes.Keys;
    forall r | r in t'.nodes ensures NodeOk(h, t', b, r) { TimeNode(h, t, b, q, i, time, r); }
    forall r, j ensures LeafKept(t, t', r, j) {}
    PagesKept(h, t, b, t', b);
  }

  lemma TimeNode(h: nat, t: Tree, b: Busy, q: Path, i: nat, time: nat, r: Path)
    requires Ok(h, t, b) && HasLink(t, q, i) && r in t.nodes
    ensures NodeOk(h, SetLink(t, q, i, LinkAt(t, q, i).(time := time)), b, r)
  {
    var t' := SetLink(t, q, i, LinkAt(t, q, i).(time := time));
    assert NodeOk(h, t, b, r);
    forall j | 0 <= j < FAN ensures LinkOk(t', b, r, j) { assert LinkOk(t, b, r, j); }
  }

  /** radix_tree_clear_link of an owner. */
  function ClearOwner(t: Tree, o: Owner): Tree {
    if o.OwnedBy? && HasLink(t, o.node, o.idx) then SetLink(t, o.node, o.idx, Cleared) else t
  }

  function ClearOwners(t: Tree, os: seq<Owner>, n: nat): Tree
    requires n <= |os|
  {
    if n == 0 then t else ClearOwner(ClearOwners(t, os, n - 1), os[n - 1])
  }

  /** Same nodes; the links that `os` names are cleared, the others as they were. */
  ghost predicate LinksCleared(t: Tree, t': Tree, os: seq<Owner>) {
    && t'.pages == t.pages && t'.size == t.size && t'.count == t.count && t'.nodes.Keys == t.nodes.Keys
    && (forall q :: q in t.nodes ==>
      t'.nodes[q].height == t.nodes[q].height && |t'.nodes[q].links| == |t.nodes[q].links|)
    && (forall q, i {:trigger LinkAt(t', q, i)} :: HasLink(t, q, i) ==>
          LinkAt(t', q, i) == if OwnedBy(q, i) in os then Cleared else LinkAt(t, q, i))
  }

  lemma {:induction false} ClearOwnersIs(t: Tree, os: seq<Owner>, n: nat)
    requires n <= |os|
    ensures LinksCleared(t, ClearOwners(t, os, n), os[..n])
    decreases n
  {
    if n > 0 {
      ClearOwnersIs(t, os, n - 1);
      assert os[..n] == os[..n - 1] + [os[n - 1]];
      ClearOne(t, ClearOwners(t, os, n - 1), os[..n - 1], os[n - 1]);
    }
  }

  lemma ClearOne(t: Tree, t1: Tree, os: seq<Owner>, o: Owner)
    requires LinksCleared(t, t1, os)
    ensures LinksCleared(t, ClearOwner(t1, o), os + [o])
  {
    var t2 := ClearOwner(t1, o);
    forall q, i | HasLink(t, q, i)
      ensures HasLink(t2, q, i) && LinkAt(t2, q, i) == if OwnedBy(q, i) in os + [o] then Cleared else LinkAt(t, q, i)
    {
      assert HasLink(t1, q, i);
      assert LinkAt(t1, q, i) == if OwnedBy(q, i) in os then Cleared else LinkAt(t, q, i);
    }
  }

  /** radix_tree_remove_page. */
  function RemovePage(t: Tree, p: nat): Tree
    requires p in t.pages
  {
    var page := t.pages[p];
    var t1 := ClearOwners(t, page.owners, |page.owners|);
    t1.(pages := t1.pages - {p}, size := t1.size - |page.data| * SECTOR)
  }

  /** Removing a page takes exactly its sectors' links with it. */
  lemma RemovePageOk(h: nat, t: Tree, b: Busy, p: nat)
    requires Ok(h, t, b) && p in t.pages && p != b.cur
    ensures Ok(h, RemovePage(t, p), b) && PageGone(t, RemovePage(t, p), p)
  {
    hide ClearOwners;
    hide PageOk;
    hide NodeOk;
    var t' := RemovePage(t, p);
    RemovedIs(t, p);
    BytesRemove(t.pages, p);
    forall q | q in t'.nodes ensures NodeOk(h, t', b, q) { RemovePageNode(h, t, b, p, t', q); }
    forall x | x in t'.pages ensures PageOk(h, t', b, x) { RemovePagePage(h, t, b, p, t', x); }
  }

  lemma RemovedIs(t: Tree, p: nat)
    requires p in t.pages
    ensures var t' := RemovePage(t, p);
            PageGone(t, t', p) && t'.size == t.size - |t.pages[p].data| * SECTOR && t'.count == t.count &&
              |t'.nodes| == |t.nodes|
  {
    var t' := RemovePage(t, p);
    var os := t.pages[p].owners;
    var t1 := ClearOwners(t, os, |os|);
    ClearOwnersIs(t, os, |os|);
    assert os[..|os|] == os;
    forall q, i | HasLink(t, q, i)
      ensures HasLink(t', q, i) && LinkAt(t', q, i) == if OwnedBy(q, i) in os then Cleared else LinkAt(t, q, i)
    {
      assert LinkAt(t1, q, i) == if OwnedBy(q, i) in os then Cleared else LinkAt(t, q, i);
    }
    assert |t'.nodes.Keys| == |t'.nodes| && |t.nodes.Keys| == |t.nodes|;
  }

  /** t' is t without page p and its links. */
  ghost predicate PageGone(t: Tree, t': Tree, p: nat)
    requires p in t.pages
  {
    && t'.pages == t.pages - {p} && t'.nodes.Keys == t.nodes.Keys
    && (forall q :: q in t.nodes ==>
      t'.nodes[q].height == t.nodes[q].height && |t'.nodes[q].links| == |t.nodes[q].links|)
    && (forall q, i {:trigger LinkAt(t', q, i)} :: HasLink(t, q, i) ==>
          LinkAt(t', q, i) == if OwnedBy(q, i) in t.pages[p].owners then Cleared else LinkAt(t, q, i))
  }

  lemma OwnersAreLeaves(h: nat, t: Tree, b: Busy, p: nat, q: Path, i: nat)
    requires Ok(h, t, b) && p in t.pages && OwnedBy(q, i) in t.pages[p].owners
    ensures HasLink(t, q, i) && LinkAt(t, q, i).u.Leaf? && LinkAt(t, q, i).u.page == p
  {
    assert PageOk(h, t, b, p);
    var k :| 0 <= k < |t.pages[p].owners| && t.pages[p].owners[k] == OwnedBy(q, i);
    assert OwnerOk(h, t, p, k);
  }

  lemma RemovePageNode(h: nat, t: Tree, b: Busy, p: nat, t': Tree, q: Path)
    requires Ok(h, t, b) && p in t.pages && PageGone(t, t', p) && q in t'.nodes
    ensures NodeOk(h, t', b, q)
  {
    assert NodeOk(h, t, b, q);
    forall i | 0 <= i < FAN ensures LinkOk(t', b, q, i) {
      assert LinkOk(t, b, q, i);
      assert LinkAt(t', q, i) == if OwnedBy(q, i) in t.pages[p].owners then Cleared else LinkAt(t, q, i);
    }
    if q != [] {
      var up, i := q[..|q| - 1], q[|q| - 1];
      assert LinkAt(t', up, i) == if OwnedBy(up, i) in t.pages[p].owners then Cleared else LinkAt(t, up, i);
      if OwnedBy(up, i) in t.pages[p].owners { OwnersAreLeaves(h, t, b, p, up, i); }
    }
  }

  lemma RemovePagePage(h: nat, t: Tree, b: Busy, p: nat, t': Tree, x: nat)
    requires Ok(h, t, b) && p in t.pages && PageGone(t, t', p) && x in t'.pages
    ensures PageOk(h, t', b, x)
  {
    assert PageOk(h, t, b, x);
    forall k | 0 <= k < Bound(t', b, x) ensures OwnerOk(h, t', x, k) {
      assert OwnerOk(h, t, x, k);
      var o := t.pages[x].owners[k];
      assert LinkAt(t', o.node, o.idx) ==
          if OwnedBy(o.node, o.idx) in t.pages[p].owners then Cleared else LinkAt(t, o.node, o.idx);
      if o in t.pages[p].owners { OwnersAreLeaves(h, t, b, p, o.node, o.idx); }
    }
  }

  function EmptyNode(height: nat): (n: Node)
    ensures n.height == height && |n.links| == FAN && forall i :: 0 <= i < FAN ==> n.links[i] == Cleared
  {
    Node(height, seq(FAN, i => Cleared))
  }

  /** radix_tree_allocate_child_node, linked in. */
  function AddChild(t: Tree, q: Path, i: nat): Tree
    requires HasLink(t, q, i) && t.nodes[q].height > 0
  {
    var t1 := SetLink(t, q, i, LinkAt(t, q, i).(u := Next));
    t1.(nodes := t1.nodes[q + [i] := EmptyNode(t.nodes[q].height - 1)], count := t1.count + 1)
  }

  lemma AddChildOk(h: nat, t: Tree, b: Busy, q: Path, i: nat)
    requires Ok(h, t, b) && HasLink(t, q, i) && i < FAN && t.nodes[q].height > 0 && LinkAt(t, q, i).u == Null
    ensures Ok(h, AddChild(t, q, i), b) && q + [i] !in t.nodes
  {
    hide NodeOk;
    hide PageOk;
    var t', c := AddChild(t, q, i), q + [i];
    assert c[..|c| - 1] == q;
    assert c !in t.nodes by { if c in t.nodes { ParentLinks(h, t, b, c); } }
    assert |t'.nodes.Keys| == |t'.nodes| && |t.nodes.Keys| == |t.nodes| && t'.nodes.Keys == t.nodes.Keys + {c};
    forall r | r in t'.nodes ensures NodeOk(h, t', b, r) { AddChildNode(h, t, b, q, i, r); }
    forall r, j ensures LeafKept(t, t', r, j) {}
    PagesKept(h, t, b, t', b);
  }

  lemma ParentLinks(h: nat, t: Tree, b: Busy, c: Path)
    requires Ok(h, t, b) && c in t.nodes && c != []
    ensures ParentOk(t, c)
  {
    assert NodeOk(h, t, b, c);
  }

  lemma AddChildNode(h: nat, t: Tree, b: Busy, q: Path, i: nat, r: Path)
    requires Ok(h, t, b) && HasLink(t, q, i) && i < FAN && t.nodes[q].height > 0 && LinkAt(t, q, i).u == Null
    requires q + [i] !in t.nodes && r in AddChild(t, q, i).nodes
    ensures NodeOk(h, AddChild(t, q, i), b, r)
  {
    var t', c := AddChild(t, q, i), q + [i];
    assert NodeOk(h, t, b, q);
    if r == c {
      assert c[..|c| - 1] == q && c[|c| - 1] == i;
      assert q != c;
    } else {
      assert NodeOk(h, t, b, r);
      forall j | 0 <= j < FAN ensures LinkOk(t', b, r, j) { assert LinkOk(t, b, r, j); }
    }
  }

  /** radix_tree_insert_leaf: the link of the next sector of page p. */
  function InsertLeaf(t: Tree, q: Path, i: nat, p: nat, n: nat): Tree
    requires HasLink(t, q, i) && p in t.pages && n < |t.pages[p].owners|
  {
    var page := t.pages[p];
    var t1 := SetLink(t, q, i, LinkAt(t, q, i).(u := Leaf(p, n)));
    t1.(pages := t1.pages[p := page.(owners := page.owners[n := OwnedBy(q, i)])])
  }

  lemma {:induction false} InsertLeafOk(h: nat, t: Tree, b: Busy, q: Path, i: nat)
    requires Ok(h, t, b) && HasLink(t, q, i) && i < FAN && t.nodes[q].height == 0 && LinkAt(t, q, i).u == Null
    requires b.cur in t.pages && b.n < |t.pages[b.cur].data| && q + [i] == Digits(h, t.pages[b.cur].sec + b.n)
    ensures b.n < |t.pages[b.cur].owners|
    ensures Ok(h, InsertLeaf(t, q, i, b.cur, b.n), b.(n := b.n + 1))
  {
    var p := b.cur;
    assert PageOk(h, t, b, p);
    var t', b' := InsertLeaf(t, q, i, p, b.n), b.(n := b.n + 1);
    BytesSet(t.pages, p, t'.pages[p]);
    assert |t'.nodes.Keys| == |t'.nodes| && |t.nodes.Keys| == |t.nodes| && t'.nodes.Keys == t.nodes.Keys;
    forall r | r in t'.nodes ensures NodeOk(h, t', b', r) { InsertLeafNode(h, t, b, q, i, r); }
    forall x | x in t'.pages ensures PageOk(h, t', b', x) { InsertLeafPage(h, t, b, q, i, x); }
  }

  lemma InsertLeafNode(h: nat, t: Tree, b: Busy, q: Path, i: nat, r: Path)
    requires Ok(h, t, b) && HasLink(t, q, i) && i < FAN && t.nodes[q].height == 0 && LinkAt(t, q, i).u == Null
    requires b.cur in t.pages && PageOk(h, t, b, b.cur) && b.n < |t.pages[b.cur].data| && r in t.nodes
    ensures NodeOk(h, InsertLeaf(t, q, i, b.cur, b.n), b.(n := b.n + 1), r)
  {
    var t', b' := InsertLeaf(t, q, i, b.cur, b.n), b.(n := b.n + 1);
    assert NodeOk(h, t, b, r);
    forall j | 0 <= j < FAN ensures LinkOk(t', b', r, j) { assert LinkOk(t, b, r, j); }
  }

  lemma {:induction false} InsertLeafPage(h: nat, t: Tree, b: Busy, q: Path, i: nat, x: nat)
    requires Ok(h, t, b) && HasLink(t, q, i) && LinkAt(t, q, i).u == Null && x in t.pages
    requires b.cur in t.pages && PageOk(h, t, b, b.cur) && b.n < |t.pages[b.cur].data| &&
             q + [i] == Digits(h, t.pages[b.cur].sec + b.n)
    ensures PageOk(h, InsertLeaf(t, q, i, b.cur, b.n), b.(n := b.n + 1), x)
  {
    var t', b' := InsertLeaf(t, q, i, b.cur, b.n), b.(n := b.n + 1);
    assert PageOk(h, t, b, x);
    forall k | 0 <= k < Bound(t', b', x) ensures OwnerOk(h, t', x, k) {
      if x != b.cur || k < b.n { assert OwnerOk(h, t, x, k); }
    }
  }

  /** radix_tree_allocate_page. */
  function NewPage(t: Tree, p: nat, sec: nat, data: seq<int>): Tree {
    t.(pages := t.pages[p := Page(sec, data, seq(PAGE_NODES, k => NoOwner))], size := t.size + |data| * SECTOR)
  }

  lemma {:induction false} NewPageOk(h: nat, t: Tree, b: Busy, p: nat, sec: nat, data: seq<int>)
    requires Ok(h, t, b) && Idle(t, b) && p !in t.pages && 0 < |data| <= PAGE_NODES && sec + |data| <= Pow(h + 1)
    ensures Ok(h, NewPage(t, p, sec, data), Busy(p, 0, NOWHERE))
  {
    hide NodeOk;
    hide PageOk;
    var t', b' := NewPage(t, p, sec, data), Busy(p, 0, NOWHERE);
    BytesSet(t.pages, p, t'.pages[p]);
    forall r | r in t'.nodes ensures NodeOk(h, t', b', r) { NewPageNode(h, t, b, p, sec, data, r); }
    forall x | x in t'.pages ensures PageOk(h, t', b', x) { NewPagePage(h, t, b, p, sec, data, x); }
  }

  lemma NewPageNode(h: nat, t: Tree, b: Busy, p: nat, sec: nat, data: seq<int>, r: Path)
    requires Ok(h, t, b) && Idle(t, b) && p !in t.pages && r in t.nodes
    ensures NodeOk(h, NewPage(t, p, sec, data), Busy(p, 0, NOWHERE), r)
  {
    assert NodeOk(h, t, b, r);
    forall j | 0 <= j < FAN
      ensures LinkOk(NewPage(t, p, sec, data), Busy(p, 0, NOWHERE), r, j)
    {
      assert LinkOk(t, b, r, j);
    }
  }

  lemma {:induction false} NewPagePage(h: nat, t: Tree, b: Busy, p: nat, sec: nat, data: seq<int>, x: nat)
    requires Ok(h, t, b) && Idle(t, b) && p !in t.pages && 0 < |data| <= PAGE_NODES && sec + |data| <= Pow(h + 1)
    requires x == p || x in t.pages
    ensures PageOk(h, NewPage(t, p, sec, data), Busy(p, 0, NOWHERE), x)
  {
    var t', b' := NewPage(t, p, sec, data), Busy(p, 0, NOWHERE);
    if x != p {
      assert PageOk(h, t, b, x);
      forall k | 0 <= k < Bound(t', b', x) ensures OwnerOk(h, t', x, k) { assert OwnerOk(h, t, x, k); }
    }
  }

  /** A page that has all its links is like any other. */
  lemma FilledOk(h: nat, t: Tree, b: Busy)
    requires Ok(h, t, b) && b.cur in t.pages && b.n == |t.pages[b.cur].data|
    ensures forall c :: c !in t.pages ==> Ok(h, t, b.(cur := c))
  {
    forall c | c !in t.pages ensures Ok(h, t, b.(cur := c)) {
      var b' := b.(cur := c);
      forall r | r in t.nodes ensures NodeOk(h, t, b', r) {
        assert NodeOk(h, t, b, r);
        forall j | 0 <= j < FAN ensures LinkOk(t, b', r, j) { assert LinkOk(t, b, r, j); }
      }
      forall x | x in t.pages ensures PageOk(h, t, b', x) { assert PageOk(h, t, b, x); }
    }
  }

  /** radix_tree_free_node. */
  function FreeNode(t: Tree, q: Path): Tree { t.(nodes := t.nodes - {q}, count := t.count - 1) }

  lemma FreeNodeOk(h: nat, t: Tree, b: Busy, q: Path)
    requires Ok(h, t, b) && b.gone == NOWHERE && q in t.nodes && q != []
    requires forall i :: HasLink(t, q, i) ==> LinkAt(t, q, i).u == Null
    ensures Ok(h, FreeNode(t, q), b.(gone := q))
  {
    hide NodeOk;
    hide PageOk;
    var t', b' := FreeNode(t, q), b.(gone := q);
    assert |t'.nodes.Keys| == |t'.nodes| && |t.nodes.Keys| == |t.nodes| && t.nodes.Keys == t'.nodes.Keys + {q};
    forall r | r in t'.nodes ensures NodeOk(h, t', b', r) { FreeNodeNode(h, t, b, q, r); }
    forall r, j ensures LeafKept(t, t', r, j) {}
    PagesKept(h, t, b, t', b');
  }

  lemma FreeNodeNode(h: nat, t: Tree, b: Busy, q: Path, r: Path)
    requires Ok(h, t, b) && b.gone == NOWHERE && q in t.nodes && q != [] && r in t.nodes && r != q
    requires forall i :: HasLink(t, q, i) ==> LinkAt(t, q, i).u == Null
    ensures NodeOk(h, FreeNode(t, q), b.(gone := q), r)
  {
    var t', b' := FreeNode(t, q), b.(gone := q);
    assert NodeOk(h, t, b, r);
    forall j | 0 <= j < FAN ensures LinkOk(t', b', r, j) {
      assert LinkOk(t, b, r, j);
      assert r + [j] != NOWHERE by { if r == [] { assert (r + [j])[0] == j; } }
    }
  }

  /** The link to a node that has been freed is cleared. */
  lemma ClearNextOk(h: nat, t: Tree, b: Busy, q: Path, i: nat)
    requires Ok(h, t, b) && HasLink(t, q, i) && !LinkAt(t, q, i).u.Leaf? && q + [i] !in t.nodes &&
             (b.gone == q + [i] || b.gone == NOWHERE)
    ensures Ok(h, SetLink(t, q, i, Cleared), b.(gone := NOWHERE))
  {
    hide NodeOk;
    hide PageOk;
    var t', b' := SetLink(t, q, i, Cleared), b.(gone := NOWHERE);
    assert |t'.nodes.Keys| == |t'.nodes| && |t.nodes.Keys| == |t.nodes| && t.nodes.Keys == t'.nodes.Keys;
    forall r | r in t'.nodes ensures NodeOk(h, t', b', r) { ClearNextNode(h, t, b, q, i, r); }
    forall r, j ensures LeafKept(t, t', r, j) {}
    PagesKept(h, t, b, t', b');
  }

  lemma ClearNextNode(h: nat, t: Tree, b: Busy, q: Path, i: nat, r: Path)
    requires Ok(h, t, b) && HasLink(t, q, i) && !LinkAt(t, q, i).u.Leaf? && q + [i] !in t.nodes &&
             (b.gone == q + [i] || b.gone == NOWHERE)
    requires r in t.nodes
    ensures NodeOk(h, SetLink(t, q, i, Cleared), b.(gone := NOWHERE), r)
  {
    var t', b' := SetLink(t, q, i, Cleared), b.(gone := NOWHERE);
    assert NodeOk(h, t, b, r);
    assert r != [] ==> r == r[..|r| - 1] + [r[|r| - 1]];
    forall j | 0 <= j < FAN ensures LinkOk(t', b', r, j) {
      assert LinkOk(t, b, r, j);
      assert (r + [j])[..|r|] == r && (q + [i])[..|q|] == q && (r + [j])[|r|] == j && (q + [i])[|q|] == i;
    }
  }
}
