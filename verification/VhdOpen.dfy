/** Opening a disk: where the next block will be allocated. */
module VhdOpen {
  import opened Arithmetic
  import opened VhdTypes
  import opened VhdEngine
  import opened VhdLayout

  /** A file whose blocks were allocated by this driver: extents on page boundaries,
      none reaching into another or into the headers, which end at `eom`. */
  ghost predicate Allocated(c: Config, eom: nat, bat: map<nat, nat>) {
    && Geometry(c) && c.firstDb == NextOff(c, eom)
    && (forall b :: b in bat ==> Aligned(c, bat[b]) && c.firstDb <= bat[b])
    && (forall x, y :: x in bat && y in bat && x != y ==> Apart(c, bat[x], bat[y]))
  }

  lemma BelowNext(c: Config, off: nat, next: nat)
    requires Geometry(c) && Aligned(c, off) && c.firstDb <= off && End(c, off) <= next
    ensures InUseExtent(c, next, off)
  {
    ModAdd(c.spp, off + c.bmSecs, c.spb);
    NextOffAligned(c, next);
    PageFit(c.spp, c.bmSecs, End(c, off), NextOff(c, next) - End(c, off));
  }

  /** Blocks, wherever they are, do not overlap and lie beyond the headers. */
  predicate Disjoint(c: Config, eom: nat, bat: map<nat, nat>) {
    && (forall b :: b in bat ==> eom <= bat[b])
    && forall x, y :: x in bat && y in bat && x != y ==> End(c, bat[x]) <= bat[y] || End(c, bat[y]) <= bat[x]
  }

  /** find_next_free_block: entries below the end found so far are skipped, and still
      every block ends at or before the end that is found, which is that of the last
      block or of the headers. */
  method FindNextFreeBlock(c: Config, eom: nat, bat: map<nat, nat>, entries: nat) returns (next: nat)
    requires Disjoint(c, eom, bat) && forall b :: b in bat ==> b < entries
    ensures forall b :: b in bat ==> End(c, bat[b]) <= next
    ensures next == eom || exists b :: b in bat && next == End(c, bat[b])
    ensures Allocated(c, eom, bat) ==> Layout(c, bat, next)
  {
    next := eom;
    for i := 0 to entries
      invariant eom <= next
      invariant next == eom || exists b :: b in bat && next == End(c, bat[b])
      invariant forall b :: b in bat && b < i ==> End(c, bat[b]) <= next
    {
      var entry := if i in bat then bat[i] else DD_BLK_UNUSED;
      if i in bat && entry >= next { next := entry + c.spb + c.bmSecs; }
    }
    if Allocated(c, eom, bat) { AllocatedLayout(c, eom, bat, next); }
  }

  lemma AllocatedLayout(c: Config, eom: nat, bat: map<nat, nat>, next: nat)
    requires Allocated(c, eom, bat) && eom <= next && forall b :: b in bat ==> End(c, bat[b]) <= next
    requires next == eom || exists b :: b in bat && next == End(c, bat[b])
    ensures Layout(c, bat, next)
  {
    NextOffAligned(c, eom);
    NextOffAligned(c, next);
    forall b | b in bat ensures InUseExtent(c, next, bat[b]) {
      BelowNext(c, bat[b], next);
    }
  }

  /** The redundant bitmap write of the extent at `off` touches sector a. */
  predicate Pads(c: Config, off: int, a: int) { off + c.bmSecs - c.spp <= a < off + c.bmSecs }

  predicate InExtent(c: Config, off: int, a: int) { off <= a < End(c, off) }

  /** Wherever the extents of a file are, the redundant bitmap write of one stays out of the
      one before it if and only if there is room for the rest of the page between them. */
  lemma PadStaysOut(c: Config, off1: int, off2: int)
    requires End(c, off1) <= off2
    ensures (forall a :: Pads(c, off2, a) ==> !InExtent(c, off1, a)) <==> off2 - End(c, off1) >= c.spp - c.bmSecs
  {
    if off2 - End(c, off1) < c.spp - c.bmSecs {
      assert Pads(c, off2, End(c, off1) - 1) && InExtent(c, off1, End(c, off1) - 1);
    }
  }
}
