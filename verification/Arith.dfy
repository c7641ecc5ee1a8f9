/** The little non-linear arithmetic that windows and pages need. Their proofs hide Times and use
    these facts instead. */
module Arith {
  /** Where the k-th of equal steps begins. */
  function Times(k: int, b: int): int {
    k * b
  }

  lemma Multiply(k: int, b: int)
    ensures Times(k, b) == Times(k - 1, b) + b
    ensures Times(0, b) == 0 && Times(1, b) == b && Times(2, b) == b + b
  {
  }

  lemma MulMonotone(x: int, y: int, b: int)
    requires x <= y && b >= 0
    ensures Times(x, b) <= Times(y, b)
  {
    assert (y - x) * b >= 0;
    assert (y - x) * b == y * b - x * b;
  }

  lemma DivBounds(x: int, b: int)
    requires b > 0
    ensures Times(x / b, b) <= x < Times(x / b, b) + b
    ensures x == Times(x / b, b) + x % b && 0 <= x % b < b
  {
  }

  lemma DivUnique(n: int, b: int, q: int)
    requires b > 0 && Times(q, b) <= n < Times(q, b) + b
    ensures n / b == q
  {
    hide Times;
    var c := n / b;
    DivBounds(n, b);
    Multiply(q, b);
    Multiply(c, b);
    if c < q {
      MulMonotone(c, q - 1, b);
    } else if c > q {
      MulMonotone(q, c - 1, b);
    }
  }

  lemma DivAtLeast(k: int, n: int, b: int)
    requires b > 0 && Times(k, b) <= n
    ensures k <= n / b
  {
    hide Times;
    DivBounds(n, b);
    Multiply(n / b + 1, b);
    if n / b + 1 <= k {
      MulMonotone(n / b + 1, k, b);
    }
  }

  function CeilDiv(a: int, b: int): int
    requires b > 0
  {
    (a + b - 1) / b
  }

  lemma CeilDivUnique(a: int, b: int, q: int)
    requires b > 0 && Times(q - 1, b) < a <= Times(q, b)
    ensures CeilDiv(a, b) == q
  {
    hide Times;
    Multiply(q, b);
    DivUnique(a + b - 1, b, q);
  }
}
