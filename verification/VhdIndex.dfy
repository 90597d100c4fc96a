/** The flattened index of a VHD chain (vhd/vhd-index.c): for every sector, the file and
    offset of the youngest image that holds it. Index blocks live in a store with fresh
    non-zero locations; location 0 is an empty block. */
module VhdIndex {

  const DD_BLK_UNUSED: nat := 0xFFFFFFFF

  /** One sector of an index block; file 0 is no file. */
  datatype Entry = Entry(file: nat, off: nat)

  const NoEntry := Entry(0, DD_BLK_UNUSED)

  /** A block of an image: where it is, and which of its sectors are there. */
  datatype Extent = Extent(off: nat, bits: set<nat>)

  datatype Image = Image(path: nat, entries: nat, bat: map<nat, Extent>)

  datatype Location = Nowhere | At(path: nat, off: nat)

  type Block = seq<Entry>

  type Store = map<nat, Block>

  /* ---- walking the chain ---- */

  predicate Has(img: Image, b: nat, i: nat) {
    b < img.entries && b in img.bat && i in img.bat[b].bits
  }

  /** vhd_offset. */
  function Offset(bmSecs: nat, e: Extent, i: nat): nat { e.off + bmSecs + i }

  function Find(bmSecs: nat, img: Image, b: nat, i: nat): Location {
    if Has(img, b, i) then At(img.path, Offset(bmSecs, img.bat[b], i)) else Nowhere
  }

  /** The youngest image of the chain, youngest first, that holds sector i of block b. */
  function Youngest(bmSecs: nat, chain: seq<Image>, b: nat, i: nat): Location {
    if chain == [] then Nowhere
    else if Has(chain[0], b, i) then Find(bmSecs, chain[0], b, i)
    else Youngest(bmSecs, chain[1..], b, i)
  }

  lemma {:induction false} YoungestNext(bmSecs: nat, chain: seq<Image>, k: nat, b: nat, i: nat)
    requires k < |chain|
    ensures var w := Youngest(bmSecs, chain[..k], b, i);
            Youngest(bmSecs, chain[..k + 1], b, i) == if w == Nowhere then Find(bmSecs, chain[k], b, i) else w
    decreases k
  {
    if k > 0 {
      YoungestNext(bmSecs, chain[1..], k - 1, b, i);
      assert chain[..k][1..] == chain[1..][..k - 1] && chain[..k + 1][1..] == chain[1..][..k];
    }
  }

  predicate HoldsAt(chain: seq<Image>, k: nat, b: nat, i: nat)
    requires k < |chain|
  {
    b < chain[k].entries && b in chain[k].bat && i in chain[k].bat[b].bits
  }

  /** Image k is the first of the chain with the sector's bit set, and has it at w: behind the
      bitmap of the block, at the sector's place. */
  ghost predicate FirstAt(bmSecs: nat, chain: seq<Image>, k: nat, b: nat, i: nat, w: Location)
    requires k < |chain|
  {
    && HoldsAt(chain, k, b, i) && w == At(chain[k].path, chain[k].bat[b].off + bmSecs + i)
    && forall j :: 0 <= j < k ==> !HoldsAt(chain, j, b, i)
  }

  /** A sector resolves to where the first image that has it has it, and to nowhere just if none
      has it. */
  lemma {:induction false} YoungestIs(bmSecs: nat, chain: seq<Image>, b: nat, i: nat)
    ensures var w := Youngest(bmSecs, chain, b, i);
            if w == Nowhere then forall k :: 0 <= k < |chain| ==> !HoldsAt(chain, k, b, i)
            else exists k :: 0 <= k < |chain| && FirstAt(bmSecs, chain, k, b, i, w)
  {
    if chain != [] {
      var w := Youngest(bmSecs, chain, b, i);
      assert HoldsAt(chain, 0, b, i) == Has(chain[0], b, i);
      forall k | 0 < k < |chain| ensures HoldsAt(chain, k, b, i) == HoldsAt(chain[1..], k - 1, b, i) {}
      if Has(chain[0], b, i) {
        assert FirstAt(bmSecs, chain, 0, b, i, w);
      } else {
        YoungestIs(bmSecs, chain[1..], b, i);
        if w != Nowhere {
          var k :| 0 <= k < |chain[1..]| && FirstAt(bmSecs, chain[1..], k, b, i, w);
          forall j | 0 <= j < k + 1 ensures !HoldsAt(chain, j, b, i) {
            if j > 0 { assert !HoldsAt(chain[1..], j - 1, b, i); }
          }
          assert FirstAt(bmSecs, chain, k + 1, b, i, w);
        }
      }
    }
  }

  /** What a prefix of the chain holds, the rest of it cannot change. */
  lemma {:induction false} YoungestStays(bmSecs: nat, chain: seq<Image>, k: nat, n: nat, b: nat, i: nat)
    requires k <= n <= |chain| && Youngest(bmSecs, chain[..k], b, i) != Nowhere
    ensures Youngest(bmSecs, chain[..n], b, i) == Youngest(bmSecs, chain[..k], b, i)
    decreases n
  {
    if n > k {
      YoungestStays(bmSecs, chain, k, n - 1, b, i);
      YoungestNext(bmSecs, chain, n - 1, b, i);
    }
  }

  /* ---- the index ---- */

  /** Entry e says where w says. */
  predicate Says(ids: map<nat, nat>, e: Entry, w: Location) {
    if w == Nowhere then e.file == 0 else w.path in ids && e == Entry(ids[w.path], w.off)
  }

  function EntryAt(store: Store, loc: nat, i: nat): Entry {
    if loc != 0 && loc in store && i < |store[loc]| then store[loc][i] else NoEntry
  }

  predicate IdsOk(ids: map<nat, nat>) {
    (forall p :: p in ids ==> ids[p] != 0) && (forall p, q :: p in ids && q in ids && ids[p] == ids[q] ==> p == q)
  }

  predicate StoreOk(spb: nat, store: Store) {
    0 !in store && forall l :: l in store ==> |store[l]| == spb
  }

  predicate TableOk(store: Store, table: seq<nat>) {
    forall b :: 0 <= b < |table| && table[b] != 0 ==> table[b] in store
  }

  /** Every sector of the table's blocks resolves to what walking the chain finds. */
  ghost predicate Agrees(spb: nat, bmSecs: nat, ids: map<nat, nat>, store: Store, table: seq<nat>, chain: seq<Image>) {
    TableOk(store, table) &&
    forall b {:trigger BlockAgrees(spb, bmSecs, ids, store, table[b], chain, b)} ::
      0 <= b < |table| ==> BlockAgrees(spb, bmSecs, ids, store, table[b], chain, b)
  }

  ghost predicate BlockAgrees(spb: nat, bmSecs: nat, ids: map<nat, nat>, store: Store, loc: nat, chain: seq<Image>,
          b: nat)
  {
    forall i :: 0 <= i < spb ==> SaysAt(bmSecs, ids, store, loc, chain, b, i)
  }

  predicate SaysAt(bmSecs: nat, ids: map<nat, nat>, store: Store, loc: nat, chain: seq<Image>, b: nat, i: nat) {
    Says(ids, EntryAt(store, loc, i), Youngest(bmSecs, chain, b, i))
  }

  /** A store that grew keeps every block it had: whatever table refers to it resolves as
      before. */
  predicate Grew(store: Store, store': Store) { forall l :: l in store ==> l in store' && store'[l] == store[l] }

  predicate IdsGrew(ids: map<nat, nat>, ids': map<nat, nat>) { forall p :: p in ids ==> p in ids' && ids'[p] == ids[p] }

  /** No index that others have built resolves differently after the store has grown. */
  lemma OthersUnchanged(spb: nat, bmSecs: nat, ids: map<nat, nat>, ids': map<nat, nat>, store: Store, store': Store,
          table: seq<nat>, chain: seq<Image>)
    requires Agrees(spb, bmSecs, ids, store, table, chain) && Grew(store, store') && IdsGrew(ids, ids')
    ensures Agrees(spb, bmSecs, ids', store', table, chain)
  {
    forall b | 0 <= b < |table| ensures BlockAgrees(spb, bmSecs, ids', store', table[b], chain, b) {
      assert BlockAgrees(spb, bmSecs, ids, store, table[b], chain, b);
      forall i | 0 <= i < spb ensures SaysAt(bmSecs, ids', store', table[b], chain, b, i) {
        assert SaysAt(bmSecs, ids, store, table[b], chain, b, i);
      }
    }
  }

  /** An entry after an older image has been put under it, or a younger one over it. */
  function UnderEntry(bmSecs: nat, fid: nat, e: Entry, x: Extent, i: nat): Entry {
    if e.file == 0 && i in x.bits then Entry(fid, Offset(bmSecs, x, i)) else e
  }

  function OverEntry(bmSecs: nat, fid: nat, e: Entry, x: Extent, i: nat): Entry {
    if i in x.bits then Entry(fid, Offset(bmSecs, x, i)) else e
  }

  /** Location loc' holds what loc held, with extent x put under it. */
  ghost predicate PutUnder(spb: nat, bmSecs: nat, fid: nat, store: Store, loc: nat, store': Store, loc': nat, x: Extent)
  {
    forall i :: 0 <= i < spb ==> EntryAt(store', loc', i) == UnderEntry(bmSecs, fid, EntryAt(store, loc, i), x, i)
  }

  ghost predicate PutOver(spb: nat, bmSecs: nat, fid: nat, store: Store, loc: nat, store': Store, loc': nat, x: Extent)
  {
    forall i :: 0 <= i < spb ==> EntryAt(store', loc', i) == OverEntry(bmSecs, fid, EntryAt(store, loc, i), x, i)
  }

  predicate AllFilled(spb: nat, store: Store, loc: nat) {
    forall i :: 0 <= i < spb ==> EntryAt(store, loc, i).file != 0
  }

  /** Number of entries with a file. */
  function Filled(t: Block): (n: nat)
    ensures n <= |t|
  {
    if t == [] then 0 else Filled(t[..|t| - 1]) + if t[|t| - 1].file != 0 then 1 else 0
  }

  lemma {:induction false} FilledAll(t: Block)
    ensures Filled(t) == |t| <==> forall i :: 0 <= i < |t| ==> t[i].file != 0
  {
    if t != [] {
      FilledAll(t[..|t| - 1]);
      assert forall i :: 0 <= i < |t| - 1 ==> t[..|t| - 1][i] == t[i];
    }
  }

  lemma FilledNext(t: Block, i: nat)
    requires i < |t|
    ensures Filled(t[..i + 1]) == Filled(t[..i]) + if t[i].file != 0 then 1 else 0
  {
    assert t[..i + 1][..i] == t[..i];
  }

  class Index {
    const spb: nat
    const bmSecs: nat
    var store: Store
    var ids: map<nat, nat>     // the file table

    predicate Valid()
      reads this
    {
      StoreOk(spb, store) && IdsOk(ids)
    }

    constructor (spb: nat, bmSecs: nat)
      ensures Valid() && this.spb == spb && this.bmSecs == bmSecs && store == map[] && ids == map[]
    {
      this.spb, this.bmSecs, store, ids := spb, bmSecs, map[], map[];
    }

    /** vhd_index_get_file_id: the file's number in the table, added if it is new. */
    method GetFileId(path: nat) returns (fid: nat)
      requires Valid()
      modifies this`ids
      ensures Valid() && IdsGrew(old(ids), ids) && path in ids && ids[path] == fid
    {
      if path in ids { return ids[path]; }
      fid := 1;
      var todo := ids.Values;
      while todo != {}
        invariant todo <= ids.Values && fid > 0
        invariant forall x :: x in ids.Values && x !in todo ==> x < fid
        decreases |todo|
      {
        var x :| x in todo;
        todo := todo - {x};
        if x >= fid { fid := x + 1; }
      }
      forall p | p in ids ensures ids[p] < fid { assert ids[p] in ids.Values; }
      ids := ids[path := fid];
    }

    /** vhd_index_get_block. */
    method GetBlock(loc: nat) returns (t: Block)
      requires Valid() && (loc == 0 || loc in store)
      ensures |t| == spb && forall i :: 0 <= i < spb ==> t[i] == EntryAt(store, loc, i)
    {
      if loc != 0 { return store[loc]; }
      t := seq(spb, i => NoEntry);
    }

    /** vhdi_append_block: a location not used before. */
    method AppendBlock(t: Block) returns (loc: nat)
      requires Valid() && |t| == spb
      modifies this`store
      ensures Valid() && loc != 0 && loc !in old(store) && store == old(store)[loc := t] && Grew(old(store), store)
    {
      loc := 1;
      var todo := store.Keys;
      while todo != {}
        invariant todo <= store.Keys && loc > 0
        invariant forall x :: x in store.Keys && x !in todo ==> x < loc
        decreases |todo|
      {
        var x :| x in todo;
        todo := todo - {x};
        if x >= loc { loc := x + 1; }
      }
      store := store[loc := t];
    }

    /** The loop of vhd_index_add_bat_entry: empty entries whose bit is set are filled in. */
    method FillUnder(t0: Block, x: Extent, fid: nat) returns (t: Block, count: nat, update: nat)
      requires |t0| == spb && fid != 0
      ensures |t| == spb && forall i :: 0 <= i < spb ==> t[i] == UnderEntry(bmSecs, fid, t0[i], x, i)
      ensures count == Filled(t) && (update == 0 ==> t == t0)
    {
      t, count, update := t0, 0, 0;
      for i := 0 to spb
        invariant |t| == spb && forall j :: 0 <= j < spb ==>
                    t[j] == if j < i then UnderEntry(bmSecs, fid, t0[j], x, j) else t0[j]
        invariant count == Filled(t[..i]) && (update == 0 ==> t == t0)
      {
        ghost var before := t[..i];
        if t[i].file != 0 {
          count := count + 1;
        } else if i in x.bits {
          t := t[i := Entry(fid, Offset(bmSecs, x, i))];
          count, update := count + 1, update + 1;
        }
        assert t[..i] == before;
        FilledNext(t, i);
      }
      assert t[..spb] == t;
    }

    /** The loop of vhd_index_clone_bat_entry and of vhd_index_update_bat_entry: entries
        whose bit is set are replaced; an update passes over those that are right. */
    method FillOver(t0: Block, x: Extent, fid: nat, cloning: bool) returns (t: Block, update: nat)
      requires |t0| == spb
      ensures |t| == spb && forall i :: 0 <= i < spb ==> t[i] == OverEntry(bmSecs, fid, t0[i], x, i)
      ensures update == 0 ==> t == t0
    {
      t, update := t0, 0;
      for i := 0 to spb
        invariant |t| == spb && forall j :: 0 <= j < spb ==>
                    t[j] == if j < i then OverEntry(bmSecs, fid, t0[j], x, j) else t0[j]
        invariant update == 0 ==> t == t0
      {
        if i in x.bits && (cloning || t[i] != Entry(fid, Offset(bmSecs, x, i))) {
          t := t[i := Entry(fid, Offset(bmSecs, x, i))];
          update := update + 1;
        }
      }
    }

    /** vhd_index_add_bat_entry. */
    method AddBatEntry(loc: nat, img: Image, block: nat) returns (loc': nat, finished: bool)
      requires Valid() && (loc == 0 || loc in store)
      modifies this
      ensures Valid() && IdsGrew(old(ids), ids) && Grew(old(store) - {loc}, store)
      ensures (loc != 0 ==> loc' == loc) && (loc' == 0 || loc' in store) &&
              (loc == 0 && loc' != 0 ==> loc' !in old(store))
      ensures if block in img.bat
              then img.path in ids &&
                PutUnder(spb, bmSecs, ids[img.path], old(store), loc, store, loc', img.bat[block]) &&
                   finished == AllFilled(spb, store, loc')
              else !finished && loc' == loc && store == old(store)
    {
      if block !in img.bat { return loc, false; }
      var t0 := GetBlock(loc);
      var fid := GetFileId(img.path);
      var t, count, update := FillUnder(t0, img.bat[block], fid);
      loc' := loc;
      if update > 0 {
        if loc == 0 {
          loc' := AppendBlock(t);
        } else {
          store := store[loc := t];
        }
      }
      FilledAll(t);
      assert forall i :: 0 <= i < spb ==> EntryAt(store, loc', i) == t[i];
      finished := count == spb;
    }

    /** vhd_index_clone_bat_entry and vhd_index_update_bat_entry: what changes goes to a new
        block, so that indexes that share the old one keep it. */
    method OverlayBatEntry(loc: nat, img: Image, block: nat, cloning: bool) returns (loc': nat)
      requires Valid() && (loc == 0 || loc in store)
      modifies this
      ensures Valid() && IdsGrew(old(ids), ids) && Grew(old(store), store) && (loc' == 0 || loc' in store)
      ensures if block in img.bat
              then img.path in ids && PutOver(spb, bmSecs, ids[img.path], old(store), loc, store, loc', img.bat[block])
              else loc' == loc
    {
      if block !in img.bat { return loc; }
      var t0 := GetBlock(loc);
      var fid := GetFileId(img.path);
      var t, update := FillOver(t0, img.bat[block], fid, cloning);
      loc' := loc;
      if update > 0 { loc' := AppendBlock(t); }
      assert forall i :: 0 <= i < spb ==> EntryAt(store, loc', i) == t[i];
    }

    /** The loop of vhd_index_clone_bat and of vhd_index_update_bat, over a copy of the
        parent's table or over the index's own. It leaves the table if and only if the image
        has a block past its end. */
    method OverlayBat(table0: seq<nat>, img: Image, cloning: bool) returns (table: seq<nat>, overrun: bool)
      requires Valid() && TableOk(store, table0)
      modifies this
      ensures Valid() && IdsGrew(old(ids), ids) && Grew(old(store), store)
      ensures overrun <==> exists b :: b in img.bat && |table0| <= b < img.entries
      ensures |table| == |table0| && TableOk(store, table)
      ensures !overrun ==> forall b :: 0 <= b < |table| ==>
                Overlaid(spb, bmSecs, ids, old(store), table0[b], store, table[b], img, b)
    {
      table := table0;
      for block := 0 to img.entries
        invariant Valid() && IdsGrew(old(ids), ids) && Grew(old(store), store)
        invariant |table| == |table0| && TableOk(store, table)
        invariant forall b :: block <= b < |table| ==> table[b] == table0[b]
        invariant forall b :: 0 <= b < block && b < |table| ==>
                    Overlaid(spb, bmSecs, ids, old(store), table0[b], store, table[b], img, b)
        invariant forall b :: |table0| <= b < block ==> b !in img.bat
      {
        if block >= |table| {
          if block in img.bat { return table, true; }
          continue;
        }
        ghost var ids1, store1 := ids, store;
        var loc := OverlayBatEntry(table[block], img, block, cloning);
        OverlaidLater(spb, bmSecs, ids1, ids, old(store), store1, store, table0, table, img, block);
        OverlaidNow(spb, bmSecs, ids, old(store), store1, store, table0[block], loc, img, block);
        table := table[block := loc];
      }
      return table, false;
    }

    /** vhd_index_add_bat: the chain is walked from the youngest image; blocks that are
        full are skipped, and the walk ends early when all are. It leaves the table if and
        only if it comes to an image with more blocks. */
    method AddBat(blocks: nat, chain: seq<Image>) returns (table: seq<nat>, overrun: bool)
      requires Valid() && chain != [] && spb > 0
      modifies this
      ensures Valid() && IdsGrew(old(ids), ids) && Grew(old(store), store)
      ensures overrun <==> exists k :: 0 <= k < |chain| && TooLong(spb, bmSecs, chain, blocks, k)
      ensures !overrun ==> |table| == blocks && Agrees(spb, bmSecs, ids, store, table, chain)
    {
      hide Built;
      hide Comes;
      table := seq(blocks, b => 0);
      var finished, remaining := seq(blocks, b => false), blocks;
      ghost var store0 := store;
      BuiltFirst(spb, bmSecs, ids, store, table, finished, chain);
      AllUnfinished(finished);
      ComesFirst(spb, bmSecs, chain, blocks);
      var k := 0;
      while true
        invariant k < |chain| && |table| == |finished| == blocks && remaining == Unfinished(finished)
        invariant Valid() && IdsGrew(old(ids), ids) &&
                  Built(spb, bmSecs, ids, store0, store, table, finished, chain, k, 0)
        invariant Comes(spb, bmSecs, chain, blocks, k)
        invariant forall j :: 0 <= j < k ==> chain[j].entries <= blocks
        decreases |chain| - k
      {
        BuiltGrew(spb, bmSecs, ids, store0, store, table, finished, chain, k);
        if chain[k].entries > blocks {
          assert TooLong(spb, bmSecs, chain, blocks, k);
          return table, true;
        }
        table, finished, remaining := AddImage(table, finished, remaining, store0, chain, k);
        BuiltGrew(spb, bmSecs, ids, store0, store, table, finished, chain, k + 1);
        BuiltComes(spb, bmSecs, ids, store0, store, table, finished, chain, k + 1);
        if remaining == 0 || k == |chain| - 1 { break; }
        k := k + 1;
      }
      BuiltAgrees(spb, bmSecs, ids, store0, store, table, finished, chain, k + 1);
      NotTooLong(spb, bmSecs, chain, blocks, k);
      return table, false;
    }

    /** The loop over the blocks of one image. */
    method AddImage(table0: seq<nat>, finished0: seq<bool>, remaining0: nat, ghost store0: Store, chain: seq<Image>,
            k: nat)
      returns (table: seq<nat>, finished: seq<bool>, remaining: nat)
      requires Valid() && spb > 0 && k < |chain| && chain[k].entries <= |table0| == |finished0| &&
               remaining0 == Unfinished(finished0)
      requires Built(spb, bmSecs, ids, store0, store, table0, finished0, chain, k, 0)
      modifies this
      ensures Valid() && IdsGrew(old(ids), ids)
      ensures |table| == |finished| == |table0| && remaining == Unfinished(finished)
      ensures Built(spb, bmSecs, ids, store0, store, table, finished, chain, k + 1, 0)
    {
      hide Built;
      hide AllFilled;
      hide PutUnder;
      table, finished, remaining := table0, finished0, remaining0;
      for block := 0 to chain[k].entries
        invariant |table| == |finished| == |table0| && remaining == Unfinished(finished)
        invariant Valid() && IdsGrew(old(ids), ids) &&
                  Built(spb, bmSecs, ids, store0, store, table, finished, chain, k, block)
      {
        if finished[block] {
          BuiltSkip(spb, bmSecs, ids, store0, store, table, finished, chain, k, block);
          continue;
        }
        ghost var ids1, store1 := ids, store;
        BuiltAt(spb, bmSecs, ids, store0, store, table, finished, chain, k, block);
        var loc, full := AddBatEntry(table[block], chain[k], block);
        BuiltStep(spb, bmSecs, ids1, ids, store0, store1, store, table, finished, chain, k, block, loc, full);
        FinishOne(finished, block, full);
        table, finished := table[block := loc], finished[block := full];
        if full { remaining := remaining - 1; }
      }
      BuiltImage(spb, bmSecs, ids, store0, store, table, finished, chain, k);
    }
  }

  /* ---- building ---- */

  function Unfinished(f: seq<bool>): (n: nat)
    ensures n <= |f|
  {
    if f == [] then 0 else Unfinished(f[..|f| - 1]) + if f[|f| - 1] then 0 else 1
  }

  lemma {:induction false} AllUnfinished(f: seq<bool>)
    requires forall i :: 0 <= i < |f| ==> !f[i]
    ensures Unfinished(f) == |f|
  {
    if f != [] { AllUnfinished(f[..|f| - 1]); }
  }

  lemma {:induction false} FinishOne(f: seq<bool>, i: nat, full: bool)
    requires i < |f| && !f[i]
    ensures Unfinished(f[i := full]) == Unfinished(f) - if full then 1 else 0
    ensures Unfinished(f) > 0
  {
    var g := f[i := full];
    if i < |f| - 1 {
      FinishOne(f[..|f| - 1], i, full);
      assert g[..|g| - 1] == f[..|f| - 1][i := full];
    } else {
      assert g[..|g| - 1] == f[..|f| - 1];
    }
  }

  lemma {:induction false} NoneUnfinished(f: seq<bool>)
    ensures Unfinished(f) == 0 <==> forall i :: 0 <= i < |f| ==> f[i]
  {
    if f != [] {
      NoneUnfinished(f[..|f| - 1]);
      assert forall i :: 0 <= i < |f| - 1 ==> f[..|f| - 1][i] == f[i];
    }
  }

  /** Block b agrees with the first k images; its location is the builder's own. */
  ghost predicate BlockBuilt(spb: nat, bmSecs: nat, ids: map<nat, nat>, store0: Store, store: Store, loc: nat,
          full: bool, chain: seq<Image>, k: nat, b: nat)
    requires k <= |chain|
  {
    && (loc == 0 || (loc in store && loc !in store0))
    && BlockAgrees(spb, bmSecs, ids, store, loc, chain[..k], b)
    && (full <==> AllFilled(spb, store, loc))
  }

  /** Blocks before n agree with the first k + 1 images, the others with the first k. */
  ghost predicate Built(spb: nat, bmSecs: nat, ids: map<nat, nat>, store0: Store, store: Store, table: seq<nat>,
          finished: seq<bool>, chain: seq<Image>, k: nat, n: nat)
    requires |table| == |finished| && k <= |chain| && (n > 0 ==> k < |chain|)
  {
    && Grew(store0, store)
    && (forall b, c :: 0 <= b < c < |table| && table[b] != 0 ==> table[b] != table[c])
    && (forall b {:trigger BuiltHere(spb, bmSecs, ids, store0, store, table, finished, chain, k, n, b)} ::
          0 <= b < |table| ==> BuiltHere(spb, bmSecs, ids, store0, store, table, finished, chain, k, n, b))
  }

  ghost predicate BuiltHere(spb: nat, bmSecs: nat, ids: map<nat, nat>, store0: Store, store: Store, table: seq<nat>,
          finished: seq<bool>, chain: seq<Image>, k: nat, n: nat, b: nat)
    requires |table| == |finished| && k <= |chain| && (n > 0 ==> k < |chain|) && b < |table|
  {
    BlockBuilt(spb, bmSecs, ids, store0, store, table[b], finished[b], chain, if b < n then k + 1 else k, b)
  }

  lemma BuiltFirst(spb: nat, bmSecs: nat, ids: map<nat, nat>, store: Store, table: seq<nat>, finished: seq<bool>,
          chain: seq<Image>)
    requires spb > 0 && |table| == |finished| && forall b :: 0 <= b < |table| ==> table[b] == 0 && !finished[b]
    ensures Built(spb, bmSecs, ids, store, store, table, finished, chain, 0, 0)
  {
    assert chain[..0] == [];
    forall b | 0 <= b < |table| ensures !AllFilled(spb, store, table[b]) {
      assert EntryAt(store, table[b], 0).file == 0;
    }
  }

  lemma BuiltAt(spb: nat, bmSecs: nat, ids: map<nat, nat>, store0: Store, store: Store, table: seq<nat>,
          finished: seq<bool>, chain: seq<Image>, k: nat, n: nat)
    requires |table| == |finished| && k < |chain| && n < |table| &&
             Built(spb, bmSecs, ids, store0, store, table, finished, chain, k, n)
    ensures table[n] == 0 || table[n] in store
  {
    assert BuiltHere(spb, bmSecs, ids, store0, store, table, finished, chain, k, n, n);
  }

  /** A full block needs nothing of the older images. */
  lemma BuiltSkip(spb: nat, bmSecs: nat, ids: map<nat, nat>, store0: Store, store: Store, table: seq<nat>,
          finished: seq<bool>, chain: seq<Image>, k: nat, n: nat)
    requires |table| == |finished| && k < |chain| && n < |table| && finished[n]
    requires Built(spb, bmSecs, ids, store0, store, table, finished, chain, k, n)
    ensures Built(spb, bmSecs, ids, store0, store, table, finished, chain, k, n + 1)
  {
    var m := n + 1;
    forall b | 0 <= b < |table| ensures BuiltHere(spb, bmSecs, ids, store0, store, table, finished, chain, k, m, b) {
      assert BuiltHere(spb, bmSecs, ids, store0, store, table, finished, chain, k, n, b);
      if b == n { FullStays(spb, bmSecs, ids, store, table[n], chain, k, k + 1, n); }
    }
  }

  lemma FullStays(spb: nat, bmSecs: nat, ids: map<nat, nat>, store: Store, loc: nat, chain: seq<Image>, k: nat, m: nat,
          b: nat)
    requires k <= m <= |chain| && BlockAgrees(spb, bmSecs, ids, store, loc, chain[..k], b) && AllFilled(spb, store, loc)
    ensures BlockAgrees(spb, bmSecs, ids, store, loc, chain[..m], b)
  {
    var part := chain[..m];
    forall i | 0 <= i < spb ensures SaysAt(bmSecs, ids, store, loc, part, b, i) {
      assert SaysAt(bmSecs, ids, store, loc, chain[..k], b, i);
      YoungestStays(bmSecs, chain, k, m, b, i);
    }
  }

  /** Putting the next image under block n makes it agree with one image more, and touches
      no other block. */
  lemma BuiltStep(spb: nat, bmSecs: nat, ids1: map<nat, nat>, ids: map<nat, nat>, store0: Store, store1: Store,
          store: Store, table: seq<nat>, finished: seq<bool>, chain: seq<Image>, k: nat, n: nat, loc: nat, full: bool)
    requires |table| == |finished| && k < |chain| && n < chain[k].entries <= |table| && !finished[n]
    requires Built(spb, bmSecs, ids1, store0, store1, table, finished, chain, k, n)
    requires IdsOk(ids1) && IdsGrew(ids1, ids) && 0 !in store1 && Grew(store1 - {table[n]}, store)
    requires (table[n] != 0 ==> loc == table[n]) && (loc == 0 || loc in store) &&
             (table[n] == 0 && loc != 0 ==> loc !in store1)
    requires if n in chain[k].bat
             then chain[k].path in ids &&
               PutUnder(spb, bmSecs, ids[chain[k].path], store1, table[n], store, loc, chain[k].bat[n]) &&
                  full == AllFilled(spb, store, loc)
             else !full && loc == table[n] && store == store1
    ensures Built(spb, bmSecs, ids, store0, store, table[n := loc], finished[n := full], chain, k, n + 1)
  {
    var table', finished' := table[n := loc], finished[n := full];
    assert BuiltHere(spb, bmSecs, ids1, store0, store1, table, finished, chain, k, n, n);
    var m := n + 1;
    forall b | 0 <= b < |table| ensures BuiltHere(spb, bmSecs, ids, store0, store, table', finished', chain, k, m, b) {
      assert BuiltHere(spb, bmSecs, ids1, store0, store1, table, finished, chain, k, n, b);
      if b == n {
        AgreesNext(spb, bmSecs, ids1, ids, store1, store, table[n], loc, chain, k, n);
      } else {
        assert table[b] != 0 ==> table[b] != table[n];
        BlockKept(spb, bmSecs, ids1, ids, store0, store1, store, table[b], finished[b], chain,
                  if b < n then k + 1 else k, b);
      }
    }
    forall b, c | 0 <= b < c < |table'| && table'[b] != 0 ensures table'[b] != table'[c] {
      assert BuiltHere(spb, bmSecs, ids1, store0, store1, table, finished, chain, k, n, b);
      assert BuiltHere(spb, bmSecs, ids1, store0, store1, table, finished, chain, k, n, c);
    }
  }

  lemma BlockKept(spb: nat, bmSecs: nat, ids1: map<nat, nat>, ids: map<nat, nat>, store0: Store, store1: Store,
          store: Store, loc: nat, full: bool, chain: seq<Image>, k: nat, b: nat)
    requires k <= |chain| && BlockBuilt(spb, bmSecs, ids1, store0, store1, loc, full, chain, k, b) && IdsGrew(ids1, ids)
    requires loc == 0 || (loc in store1 && loc in store && store[loc] == store1[loc])
    ensures BlockBuilt(spb, bmSecs, ids, store0, store, loc, full, chain, k, b)
  {
    var part := chain[..k];
    assert forall i :: 0 <= i < spb ==> EntryAt(store, loc, i) == EntryAt(store1, loc, i);
    forall i | 0 <= i < spb ensures SaysAt(bmSecs, ids, store, loc, part, b, i) {
      assert SaysAt(bmSecs, ids1, store1, loc, part, b, i);
    }
  }

  lemma AgreesNext(spb: nat, bmSecs: nat, ids1: map<nat, nat>, ids: map<nat, nat>, store1: Store, store: Store,
          loc1: nat, loc: nat, chain: seq<Image>, k: nat, b: nat)
    requires k < |chain| && IdsOk(ids1) && IdsGrew(ids1, ids) &&
             BlockAgrees(spb, bmSecs, ids1, store1, loc1, chain[..k], b) && b < chain[k].entries
    requires if b in chain[k].bat
             then chain[k].path in ids &&
               PutUnder(spb, bmSecs, ids[chain[k].path], store1, loc1, store, loc, chain[k].bat[b])
             else loc == loc1 && store == store1
    ensures BlockAgrees(spb, bmSecs, ids, store, loc, chain[..k + 1], b)
  {
    var part := chain[..k + 1];
    forall i | 0 <= i < spb ensures SaysAt(bmSecs, ids, store, loc, part, b, i) {
      YoungestNext(bmSecs, chain, k, b, i);
      assert SaysAt(bmSecs, ids1, store1, loc1, chain[..k], b, i);
    }
  }

  /** Blocks that the image does not have agree with it as well. */
  lemma BuiltImage(spb: nat, bmSecs: nat, ids: map<nat, nat>, store0: Store, store: Store, table: seq<nat>,
          finished: seq<bool>, chain: seq<Image>, k: nat)
    requires |table| == |finished| && k < |chain| && chain[k].entries <= |table|
    requires Built(spb, bmSecs, ids, store0, store, table, finished, chain, k, chain[k].entries)
    ensures Built(spb, bmSecs, ids, store0, store, table, finished, chain, k + 1, 0)
  {
    var m, n, part := k + 1, chain[k].entries, chain[..k + 1];
    forall b | 0 <= b < |table| ensures BuiltHere(spb, bmSecs, ids, store0, store, table, finished, chain, m, 0, b) {
      assert BuiltHere(spb, bmSecs, ids, store0, store, table, finished, chain, k, n, b);
      forall i | 0 <= i < spb ensures SaysAt(bmSecs, ids, store, table[b], part, b, i) {
        assert SaysAt(bmSecs, ids, store, table[b], if b < n then part else chain[..k], b, i);
        YoungestNext(bmSecs, chain, k, b, i);
      }
    }
  }

  lemma BuiltGrew(spb: nat, bmSecs: nat, ids: map<nat, nat>, store0: Store, store: Store, table: seq<nat>,
          finished: seq<bool>, chain: seq<Image>, k: nat)
    requires |table| == |finished| && k <= |chain| &&
             Built(spb, bmSecs, ids, store0, store, table, finished, chain, k, 0)
    ensures Grew(store0, store)
  {
  }

  /** When the whole chain has been walked, or every block is full, the table agrees with
      the chain. */
  lemma {:induction false} BuiltAgrees(spb: nat, bmSecs: nat, ids: map<nat, nat>, store0: Store, store: Store,
          table: seq<nat>,
          finished: seq<bool>, chain: seq<Image>, k: nat)
    requires |table| == |finished| && k <= |chain| &&
             Built(spb, bmSecs, ids, store0, store, table, finished, chain, k, 0)
    requires k == |chain| || Unfinished(finished) == 0
    ensures Agrees(spb, bmSecs, ids, store, table, chain)
  {
    NoneUnfinished(finished);
    assert chain[..|chain|] == chain;
    forall b | 0 <= b < |table|
      ensures (table[b] != 0 ==> table[b] in store) && BlockAgrees(spb, bmSecs, ids, store, table[b], chain, b)
    {
      assert BuiltHere(spb, bmSecs, ids, store0, store, table, finished, chain, k, 0, b);
      if k < |chain| { FullStays(spb, bmSecs, ids, store, table[b], chain, k, |chain|, b); }
    }
  }

  /* ---- how far the walk comes ---- */

  /** Some sector of the table's blocks is in none of these images. */
  ghost predicate Open(spb: nat, bmSecs: nat, chain: seq<Image>, blocks: nat) {
    exists b, i :: 0 <= b < blocks && 0 <= i < spb && Youngest(bmSecs, chain, b, i) == Nowhere
  }

  /** The walk comes to image k, unless it leaves the table before. */
  ghost predicate Comes(spb: nat, bmSecs: nat, chain: seq<Image>, blocks: nat, k: nat)
    requires k <= |chain|
  {
    k == 0 || Open(spb, bmSecs, chain[..k], blocks)
  }

  /** The walk comes to image k, which has more blocks than the table. */
  ghost predicate TooLong(spb: nat, bmSecs: nat, chain: seq<Image>, blocks: nat, k: nat)
    requires k < |chain|
  {
    Comes(spb, bmSecs, chain, blocks, k) && chain[k].entries > blocks
  }

  lemma ComesFirst(spb: nat, bmSecs: nat, chain: seq<Image>, blocks: nat)
    ensures Comes(spb, bmSecs, chain, blocks, 0)
  {
  }

  /** The blocks are all full just if no sector is left open. */
  lemma {:induction false} BuiltComes(spb: nat, bmSecs: nat, ids: map<nat, nat>, store0: Store, store: Store,
          table: seq<nat>,
          finished: seq<bool>, chain: seq<Image>, k: nat)
    requires IdsOk(ids) && 0 < k <= |chain| && |table| == |finished|
    requires Built(spb, bmSecs, ids, store0, store, table, finished, chain, k, 0)
    ensures Unfinished(finished) == 0 <==> !Comes(spb, bmSecs, chain, |table|, k)
  {
    NoneUnfinished(finished);
    var part := chain[..k];
    forall b, i | 0 <= b < |table| && 0 <= i < spb
      ensures EntryAt(store, table[b], i).file == 0 <==> Youngest(bmSecs, part, b, i) == Nowhere
    {
      assert BuiltHere(spb, bmSecs, ids, store0, store, table, finished, chain, k, 0, b);
      assert SaysAt(bmSecs, ids, store, table[b], part, b, i);
    }
    forall b | 0 <= b < |table| ensures finished[b] <==> AllFilled(spb, store, table[b]) {
      assert BuiltHere(spb, bmSecs, ids, store0, store, table, finished, chain, k, 0, b);
    }
  }

  /** When the walk has ended at image k, it comes to none beyond. */
  lemma NotTooLong(spb: nat, bmSecs: nat, chain: seq<Image>, blocks: nat, k: nat)
    requires k < |chain| && forall j :: 0 <= j <= k ==> chain[j].entries <= blocks
    requires k == |chain| - 1 || !Comes(spb, bmSecs, chain, blocks, k + 1)
    ensures forall j :: 0 <= j < |chain| ==> !TooLong(spb, bmSecs, chain, blocks, j)
  {
    forall j | 0 <= j < |chain| ensures !TooLong(spb, bmSecs, chain, blocks, j) {
      if j > k && Comes(spb, bmSecs, chain, blocks, j) {
        var b, i :| 0 <= b < blocks && 0 <= i < spb && Youngest(bmSecs, chain[..j], b, i) == Nowhere;
        if Youngest(bmSecs, chain[..k + 1], b, i) != Nowhere { YoungestStays(bmSecs, chain, k + 1, j, b, i); }
      }
    }
  }

  /* ---- cloning and updating ---- */

  /** Laying the child over a copy of its parent's index gives the child's index. */
  lemma CloneAgrees(spb: nat, bmSecs: nat, ids0: map<nat, nat>, ids: map<nat, nat>, store0: Store, store: Store,
          table0: seq<nat>, table: seq<nat>, img: Image, chain: seq<Image>)
    requires Agrees(spb, bmSecs, ids0, store0, table0, chain) && IdsGrew(ids0, ids) && |table| == |table0| &&
             TableOk(store, table)
    requires forall b :: 0 <= b < |table| ==> Overlaid(spb, bmSecs, ids, store0, table0[b], store, table[b], img, b)
    ensures Agrees(spb, bmSecs, ids, store, table, [img] + chain)
  {
    var whole := [img] + chain;
    assert whole[1..] == chain;
    forall b | 0 <= b < |table| ensures BlockAgrees(spb, bmSecs, ids, store, table[b], whole, b) {
      assert BlockAgrees(spb, bmSecs, ids0, store0, table0[b], chain, b);
      assert Overlaid(spb, bmSecs, ids, store0, table0[b], store, table[b], img, b);
      forall i | 0 <= i < spb ensures SaysAt(bmSecs, ids, store, table[b], whole, b, i) {
        assert SaysAt(bmSecs, ids0, store0, table0[b], chain, b, i);
      }
    }
  }

  /** An image that has only gained sectors since. */
  predicate Gained(img: Image, img': Image) {
    img'.path == img.path && img'.entries >= img.entries &&
    forall b :: b in img.bat ==> b in img'.bat && img.bat[b].bits <= img'.bat[b].bits
  }

  /** Updating an index for an image that has gained sectors makes it agree again. */
  lemma UpdateAgrees(spb: nat, bmSecs: nat, ids0: map<nat, nat>, ids: map<nat, nat>, store0: Store, store: Store,
          table0: seq<nat>, table: seq<nat>, img: Image, img': Image, chain: seq<Image>)
    requires Agrees(spb, bmSecs, ids0, store0, table0, [img] + chain) && Gained(img, img')
    requires IdsGrew(ids0, ids) && |table| == |table0| && TableOk(store, table)
    requires forall b :: 0 <= b < |table| ==> Overlaid(spb, bmSecs, ids, store0, table0[b], store, table[b], img', b)
    ensures Agrees(spb, bmSecs, ids, store, table, [img'] + chain)
  {
    assert ([img] + chain)[1..] == chain && ([img'] + chain)[1..] == chain;
    forall b | 0 <= b < |table| ensures BlockAgrees(spb, bmSecs, ids, store, table[b], [img'] + chain, b) {
      assert BlockAgrees(spb, bmSecs, ids0, store0, table0[b], [img] + chain, b);
      assert Overlaid(spb, bmSecs, ids, store0, table0[b], store, table[b], img', b);
      forall i | 0 <= i < spb ensures SaysAt(bmSecs, ids, store, table[b], [img'] + chain, b, i) {
        assert SaysAt(bmSecs, ids0, store0, table0[b], [img] + chain, b, i);
        assert Has(img, b, i) ==> Has(img', b, i);
      }
    }
  }

  /** Location loc' has what img holds of block b, and else what loc had. */
  ghost predicate Overlaid(spb: nat, bmSecs: nat, ids: map<nat, nat>, store: Store, loc: nat, store': Store, loc': nat,
          img: Image, b: nat)
  {
    forall i :: 0 <= i < spb ==>
      if Has(img, b, i) then img.path in ids &&
        EntryAt(store', loc', i) == Entry(ids[img.path], Offset(bmSecs, img.bat[b], i))
      else EntryAt(store', loc', i) == EntryAt(store, loc, i)
  }

  lemma OverlaidNow(spb: nat, bmSecs: nat, ids: map<nat, nat>, store0: Store, store1: Store, store: Store, loc: nat,
          loc': nat, img: Image, b: nat)
    requires Grew(store0, store1) && (loc == 0 || loc in store0) && b < img.entries
    requires if b in img.bat then img.path in ids &&
             PutOver(spb, bmSecs, ids[img.path], store1, loc, store, loc', img.bat[b])
             else loc' == loc && Grew(store1, store)
    ensures Overlaid(spb, bmSecs, ids, store0, loc, store, loc', img, b)
  {
  }

  lemma OverlaidLater(spb: nat, bmSecs: nat, ids1: map<nat, nat>, ids: map<nat, nat>, store0: Store, store1: Store,
          store: Store, table0: seq<nat>, table: seq<nat>, img: Image, n: nat)
    requires IdsGrew(ids1, ids) && Grew(store1, store) && TableOk(store1, table) && |table| == |table0| && n <= |table|
    requires forall b :: 0 <= b < n ==> Overlaid(spb, bmSecs, ids1, store0, table0[b], store1, table[b], img, b)
    ensures forall b :: 0 <= b < n ==> Overlaid(spb, bmSecs, ids, store0, table0[b], store, table[b], img, b)
  {
  }
}
