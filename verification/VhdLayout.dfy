/** Where data blocks lie in the file: extents never overlap, and neither does the page
    that a redundant bitmap write rewrites. */
module VhdLayout {
  import opened Arithmetic
  import opened VhdTypes
  import opened VhdEngine

  /** The geometries the driver can open: a bitmap fits in the page before its data
      and a block is a whole number of pages and of bitmap bytes. */
  ghost predicate Geometry(c: Config) {
    c.bmSecs <= c.spp && c.spb % c.spp == 0 && c.spb % 8 == 0 && Aligned(c, c.firstDb)
  }

  /** The data of an extent at `off` starts on a page boundary. */
  predicate Aligned(c: Config, off: int) { (off + c.bmSecs) % c.spp == 0 }

  /** The offset at which the next block is allocated. */
  function NextOff(c: Config, next: nat): nat { next + Gap(c, next) }

  function End(c: Config, off: int): int { off + c.bmSecs + c.spb }

  /** First sector that writes to the extent at `off` may touch: the redundant write
      covers the whole page before the data, except for the first block. */
  function Low(c: Config, off: int): int { if off == c.firstDb then off else off + c.bmSecs - c.spp }

  predicate Apart(c: Config, o1: int, o2: int) { End(c, o1) <= Low(c, o2) || End(c, o2) <= Low(c, o1) }

  /** An extent in use, given the end of the allocated space. */
  predicate InUseExtent(c: Config, next: nat, off: nat) {
    Aligned(c, off) && c.firstDb <= off && End(c, off) <= next && End(c, off) <= Low(c, NextOff(c, next))
  }

  ghost predicate Layout(c: Config, bat: map<nat, nat>, next: nat) {
    && Geometry(c) && c.firstDb <= NextOff(c, next)
    && (forall b :: b in bat ==> InUseExtent(c, next, bat[b]))
    && (forall x, y :: x in bat && y in bat && x != y ==> Apart(c, bat[x], bat[y]))
  }

  lemma ModStep(d: pos, x: int)
    ensures x % d != 0 ==> (x + (d - x % d)) % d == 0
  {
    if x % d != 0 {
      var q := x / d;
      assert x + (d - x % d) == (q + 1) * d + 0 by { assert x == q * d + x % d; assert (q + 1) * d == q * d + d; }
      ModMul(d, q + 1);
    }
  }

  lemma ModMul(d: pos, q: int)
    ensures (q * d) % d == 0
  {
    var n := q * d;
    var x, m := n / d, n % d;
    assert n == x * d + m;
    assert (q + 1) * d == q * d + d && (x + 1) * d == x * d + d;
    if x > q { MulMono(q + 1, x, d); }
    if x < q { MulMono(x + 1, q, d); }
  }

  lemma ModAdd(d: pos, x: int, y: int)
    requires x % d == 0 && y % d == 0
    ensures (x + y) % d == 0
  {
    assert x == x / d * d && y == y / d * d;
    assert x + y == (x / d + y / d) * d;
    ModMul(d, x / d + y / d);
  }

  /** The next extent is aligned, and asking again changes nothing. */
  lemma NextOffAligned(c: Config, next: nat)
    ensures Aligned(c, NextOff(c, next)) && next <= NextOff(c, next)
    ensures NextOff(c, NextOff(c, next)) == NextOff(c, next)
  {
    ModStep(c.spp, next + c.bmSecs);
    if (next + c.bmSecs) % c.spp != 0 {
      assert NextOff(c, next) + c.bmSecs == (next + c.bmSecs) + (c.spp - (next + c.bmSecs) % c.spp);
    }
  }

  lemma PageFit(spp: pos, bm: pos, e: int, gap: nat)
    requires bm <= spp && e % spp == 0 && (e + gap + bm) % spp == 0
    ensures e <= e + gap + bm - spp
  {
    assert e == e / spp * spp;
    assert e + gap + bm == (e + gap + bm) / spp * spp;
    var x, y := e / spp, (e + gap + bm) / spp;
    if y <= x { MulMono(y, x, spp); }
    MulMono(x + 1, y, spp);
    assert (x + 1) * spp == x * spp + spp;
  }

  /** After an allocation the new extent is in use, apart from all others, and the
      next one will be apart from it. */
  lemma AllocateKeepsLayout(c: Config, bat: map<nat, nat>, next: nat, b: nat)
    requires Layout(c, bat, next) && b !in bat
    ensures var off := NextOff(c, next);
            Layout(c, bat[b := off], off + c.spb + c.bmSecs)
  {
    var off := NextOff(c, next);
    var next' := off + c.spb + c.bmSecs;
    NextOffAligned(c, next);
    NextOffAligned(c, next');
    NewExtentEnd(c, next);
  }

  lemma NewExtentEnd(c: Config, next: nat)
    requires Geometry(c) && c.firstDb <= NextOff(c, next)
    ensures var off := NextOff(c, next);
            InUseExtent(c, off + c.spb + c.bmSecs, off)
  {
    var off := NextOff(c, next);
    var next' := off + c.spb + c.bmSecs;
    NextOffAligned(c, next);
    NextOffAligned(c, next');
    ModAdd(c.spp, off + c.bmSecs, c.spb);
    PageFit(c.spp, c.bmSecs, next', Gap(c, next'));
  }

  /** Moving the end of the allocated space to the next aligned offset is harmless. */
  lemma AlignKeepsLayout(c: Config, bat: map<nat, nat>, next: nat)
    requires Layout(c, bat, next)
    ensures Layout(c, bat, NextOff(c, next))
  {
    NextOffAligned(c, next);
  }
}
