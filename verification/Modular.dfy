/** Facts about quotients and remainders that the ring buffers and hash tables rest on. */
module Modular {

  lemma MulGap(d: int, m: nat)
    ensures d <= 0 ==> d * m <= 0
    ensures d >= 1 ==> d * m >= m
  {
    if d >= 1 { assert d * m == (d - 1) * m + m; }
  }

  /** Quotient and remainder are unique. */
  lemma DivUnique(x: int, q: int, r: int, m: nat)
    requires m > 0 && 0 <= r < m && x == q * m + r
    ensures x / m == q && x % m == r
  {
    var d := x / m - q;
    assert x == (x / m) * m + x % m;
    assert d * m == r - x % m;
    MulGap(d, m);
    MulGap(-d, m);
  }

  lemma ModShift(x: int, y: int, m: nat)
    requires m > 0
    ensures (x % m + y) % m == (x + y) % m
  {
    var z := x % m + y;
    assert x + y == (x / m + z / m) * m + z % m;
    DivUnique(x + y, x / m + z / m, z % m, m);
  }

  lemma ModPeriod(x: int, m: nat)
    requires m > 0
    ensures (x + m) % m == x % m
  {
    DivUnique(x + m, x / m + 1, x % m, m);
  }

  /** Numbers less than a turn apart sit at different positions. */
  lemma ModDistinct(x: int, y: int, m: nat)
    requires m > 0 && x < y < x + m
    ensures x % m != y % m
  {
    var d := y - x;
    if x % m + d < m {
      DivUnique(y, x / m, x % m + d, m);
    } else {
      DivUnique(y, x / m + 1, x % m + d - m, m);
    }
  }

  /** Whole turns do not change a position. */
  lemma ModTurns(x: int, j: int, m: nat)
    requires m > 0
    ensures (x + j * m) % m == x % m
  {
    DivUnique(x + j * m, x / m + j, x % m, m);
  }

  /** Reducing modulo a multiple first does not matter. */
  lemma ModMultiple(x: int, c: nat, m: nat)
    requires c > 0 && m > 0
    ensures c * m > 0 && (x % (c * m)) % m == x % m
  {
    MulGap(c, m);
    var y := x % (c * m);
    var j := x / (c * m);
    assert x == j * (c * m) + y;
    assert j * (c * m) == (j * c) * m;
    ModTurns(y, j * c, m);
  }
}
