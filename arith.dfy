/** Facts of integer arithmetic that the solver does not find on its own. */
module Arith {

  lemma MulAssoc(a: int, b: int, c: int)
    ensures (a * b) * c == a * (c * b)
  {
  }

  lemma MulDistrib(a: int, b: int, c: int)
    ensures (a + b) * c == a * c + b * c
  {
  }

  lemma MulMono(a: int, b: int, d: int)
    requires d >= 1 && a < b
    ensures a * d < b * d
  {
  }

  /** Euclidean division is unique: a quotient and remainder that rebuild `x` are `x / d` and `x % d`. */
  lemma DivModUnique(x: int, d: int, q: int, r: int)
    requires d >= 1 && 0 <= r < d && x == q * d + r
    ensures x / d == q && x % d == r
  {
    var q', r' := x / d, x % d;
    assert x == q' * d + r';
    MulDistrib(q, -q', d);
    assert (q - q') * d == r' - r;
    if q - q' >= 1 {
      MulMono(0, q - q', d);
      MulDistrib(q - q' - 1, 1, d);
      MulMono(-1, q - q' - 1, d);
      assert false;
    }
    if q - q' <= -1 {
      MulMono(q - q', 0, d);
      MulDistrib(q - q' + 1, -1, d);
      MulMono(q - q' + 1, 1, d);
      assert false;
    }
  }

  lemma MulMod(a: int, d: int)
    requires d >= 1
    ensures (a * d) % d == 0 && (a * d) / d == a
  {
    DivModUnique(a * d, d, a, 0);
  }

  /** A quotient below `c` follows from a dividend below `c * d`. */
  lemma DivBelow(x: int, d: int, c: int)
    requires d >= 1 && x < c * d
    ensures x / d < c
  {
    var q := x / d;
    if q > c {
      MulMono(c, q, d);
    }
  }
}
