/** Quotients, remainders and products, stated so that callers need no nonlinear reasoning of their own. */
module Arithmetic {

  lemma ProductAtLeast(d: int, n: int)
    requires d >= 1 && n >= 0
    ensures d * n >= n
  {
  }

  lemma Distribute(a: int, b: int, n: int)
    ensures (a + b) * n == a * n + b * n
  {
  }

  lemma DivModUnique(x: int, q: int, r: int, n: int)
    requires n > 0 && 0 <= r < n && x == q * n + r
    ensures x / n == q && x % n == r
  {
    var d := x / n - q;
    Distribute(q, d, n);
    if d >= 1 {
      ProductAtLeast(d, n);
    } else if d <= -1 {
      ProductAtLeast(-d, n);
    }
  }

  lemma DivMod(x: int, n: int)
    requires n > 0
    ensures x == (x / n) * n + x % n && 0 <= x % n < n
  {
  }

  lemma ModWrap(x: int, n: int)
    requires n > 0 && 0 <= x < 2 * n
    ensures x % n == if x < n then x else x - n
  {
    DivModUnique(x, if x < n then 0 else 1, if x < n then x else x - n, n);
  }

  /** A remainder may be taken early: (a + b) mod n == (a + (b mod n)) mod n. */
  lemma ModSum(a: int, b: int, n: int)
    requires n > 0
    ensures (a + b) % n == (a + b % n) % n
  {
    DivMod(b, n);
    var c := a + b % n;
    DivMod(c, n);
    Distribute(c / n, b / n, n);
    DivModUnique(a + b, c / n + b / n, c % n, n);
  }

  /** Row-major positions stay inside their table. */
  lemma RowMajor(row: nat, rows: nat, i: nat, n: nat)
    requires row < rows && i < n
    ensures 0 <= row * n <= row * n + i < rows * n
  {
    Distribute(rows - row, row, n);
    ProductAtLeast(rows - row, n);
  }

  /** Every position of a table has a row and a column. */
  lemma RowOf(x: nat, rows: nat, n: nat) returns (row: nat, i: nat)
    requires x < rows * n
    ensures row < rows && i < n && x == row * n + i
  {
    assert n > 0;
    DivMod(x, n);
    row, i := x / n, x % n;
    if row >= rows {
      Distribute(row - rows, rows, n);
    }
  }
}
