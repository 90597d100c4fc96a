/** The division facts the block arithmetic rests on. */
module Arithmetic {

  type pos = x: int | 0 < x witness 1

  lemma MulMono(a: int, b: int, d: nat)
    requires a <= b
    ensures a * d <= b * d
  {
    assert (b - a) * d >= 0;
  }

  lemma DivUnique(d: pos, b: nat, q: nat)
    requires q < d
    ensures (b * d + q) / d == b && (b * d + q) % d == q
  {
    var n := b * d + q;
    var x, m := n / d, n % d;
    assert n == x * d + m;
    assert (b + 1) * d == b * d + d;
    assert (x + 1) * d == x * d + d;
    if x > b { MulMono(b + 1, x, d); }
    if x < b { MulMono(x + 1, b, d); }
  }

  /** A sector that lies as far into the block as l does not leave it. */
  lemma SameBlock(d: pos, sec: nat, l: nat)
    requires sec <= l && sec % d + (l - sec) < d
    ensures l / d == sec / d && l % d == sec % d + (l - sec)
  {
    assert sec == sec / d * d + sec % d;
    DivUnique(d, sec / d, sec % d + (l - sec));
  }
}
