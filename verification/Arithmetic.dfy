/** Facts about products, quotients and remainders. */
module Arithmetic {

  lemma MulMono(a: int, b: int, c: nat)
    requires a <= b
    ensures a * c <= b * c
  {
  }

  lemma MulAssoc(a: int, b: int, c: int)
    ensures a * b * c == a * (b * c)
  {
  }

  lemma MulDistributes(a: int, b: int, c: int)
    ensures (a + b) * c == a * c + b * c
  {
  }

  /** Quotient and remainder are determined by their equation. */
  lemma DivModUnique(q: int, rem: nat, row: nat)
    requires rem < row
    ensures (q * row + rem) / row == q && (q * row + rem) % row == rem
  {
    var k := q * row + rem;
    if k / row > q {
      MulMono(q + 1, k / row, row);
    } else if k / row < q {
      MulMono(k / row + 1, q, row);
    }
  }

  /** A position below `n` rows lies in one of them. */
  lemma Split(k: nat, n: nat, row: nat)
    requires k < n * row
    ensures row > 0 && k / row < n && k % row < row && k == k / row * row + k % row
  {
    assert row > 0;
    if k / row >= n {
      MulMono(n, k / row, row);
    }
  }

  lemma NextRow(i: nat, n: nat, row: nat, rest: nat)
    requires i < n && rest < row
    ensures i * row + rest < n * row
  {
    MulMono(i + 1, n, row);
  }
}
