/** Facts about Dafny's (Euclidean) division that the proofs about truncating division
    and wrap-around indexing use. */
module Arithmetic {

  /** Euclid's division is unique: any q, r with a == b*q + r and 0 <= r < b are a / b and a % b. */
  lemma DivUnique(a: int, b: int, q: int, r: int)
    requires b > 0 && 0 <= r < b && a == b * q + r
    ensures a / b == q && a % b == r
  {
    var q0, r0 := a / b, a % b;
    assert b * (q0 - q) == r - r0 by {
      assert a == b * q0 + r0;
      assert b * (q0 - q) == b * q0 - b * q;
    }
    // A nonzero q0 - q would make |r - r0| at least b.
    if q0 - q >= 1 {
      assert false;
    } else if q - q0 >= 1 {
      assert false;
    }
  }

  /** The quotient of a non-negative number brackets it between two multiples of b. */
  lemma DivBounds(a: int, b: int)
    requires a >= 0 && b > 0
    ensures 0 <= a / b && (a / b) * b <= a < (a / b) * b + b
  {
    var q, r := a / b, a % b;
    assert a == b * q + r && 0 <= r < b;
    assert q * b == b * q;
  }

  /** Adding one to a remainder and reducing again is reducing the successor. */
  lemma ModSucc(a: int, n: int)
    requires a >= 0 && n > 0
    ensures (a % n + 1) % n == (a + 1) % n
  {
    var q, r := a / n, a % n;
    assert a == n * q + r;
    if r + 1 < n {
      DivUnique(r + 1, n, 0, r + 1);
      DivUnique(a + 1, n, q, r + 1);
    } else {
      DivUnique(r + 1, n, 1, 0);
      assert n * (q + 1) == n * q + n;
      DivUnique(a + 1, n, q + 1, 0);
    }
  }
}
