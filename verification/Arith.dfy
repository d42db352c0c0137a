/** The non-linear facts the other modules need, each proved once. Division is Euclidean; wherever
    the source divides integers that may be negative, its truncation is written out. */
module Arith {

  lemma MulLe(x: int, y: int, z: nat)
    requires x <= y
    ensures x * z <= y * z
  {
  }

  lemma DivMod(x: int, d: nat)
    requires d > 0
    ensures x == x / d * d + x % d && 0 <= x % d < d
  {
  }

  lemma DivNat(x: nat, d: nat)
    requires d > 0
    ensures x / d >= 0
  {
  }

  lemma DivAtMost(x: nat, d: nat, q: nat)
    requires d > 0 && x <= q * d
    ensures 0 <= x / d <= q
  {
    DivMod(x, d);
    if x / d > q {
      MulLe(q + 1, x / d, d);
    }
  }

  lemma DivUnique(x: int, d: nat, q: int)
    requires d > 0 && q * d <= x < (q + 1) * d
    ensures x / d == q
  {
    var p := x / d;
    DivMod(x, d);
    if p < q {
      MulLe(p + 1, q, d);
    } else if p > q {
      MulLe(q + 1, p, d);
    }
  }

  lemma DivLe(x: int, y: int, d: nat)
    requires d > 0 && x <= y
    ensures x / d <= y / d
  {
    DivMod(x, d);
    DivMod(y, d);
    if x / d > y / d {
      MulLe(y / d + 1, x / d, d);
    }
  }

  lemma DivOfSum(q: int, d: nat, r: int)
    requires d > 0
    ensures (q * d + r) / d == q + r / d
  {
    DivMod(r, d);
    DivUnique(q * d + r, d, q + r / d);
  }

  /** Rounding up: the least c with x <= c * d. */
  lemma CeilDiv(x: nat, d: nat)
    requires d > 0
    ensures var c := (x + d - 1) / d; (c - 1) * d < x <= c * d && (c > 0 <==> x > 0)
  {
    DivMod(x + d - 1, d);
    var c := (x + d - 1) / d;
    if c <= 0 {
      MulLe(c, 0, d);
    } else {
      MulLe(1, c, d);
    }
  }
}
