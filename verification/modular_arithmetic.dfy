/** Remainders by a positive modulus, as the rings of this project use them. */
module ModularArithmetic {

  predicate IsPowerOfTwo(n: nat) {
    n == 1 || (n > 1 && n % 2 == 0 && IsPowerOfTwo(n / 2))
  }

  /** The cell that position `i` of an endless tape occupies in a ring of a given length. */
  function Cell(i: int, length: nat): (cell: nat)
    requires length > 0
    ensures cell < length
  {
    i % length
  }

  lemma MultipleIsZero(q: int, n: int)
    requires n > 0
    ensures (q * n) % n == 0
  {
    ResidueUnique(q * n, q, 0, n);
  }

  lemma MultipleFar(d: int, n: int)
    requires n > 0
    ensures d >= 1 ==> d * n >= n
    ensures d <= -1 ==> d * n <= -n
  {
  }

  lemma ResidueUnique(x: int, q: int, r: int, n: int)
    requires n > 0 && x == q * n + r && 0 <= r < n
    ensures x % n == r && x / n == q
  {
    var d := x / n - q;
    assert d * n == r - x % n;
    MultipleFar(d, n);
  }

  lemma ResidueOfResidue(x: int, m: int, n: int)
    requires n > 0 && m > 0 && m % n == 0
    ensures (x % m) % n == x % n
  {
    var q, k := m / n, x / m;
    var r := x % n;
    assert x == k * m + x % m && m == q * n && x == (x / n) * n + r;
    assert k * (q * n) == (k * q) * n;
    assert x % m == (x / n - k * q) * n + r;
    ResidueUnique(x % m, x / n - k * q, r, n);
  }

  lemma SameResidue(x: int, y: int, n: int)
    requires n > 0 && x % n == y % n && -n < x - y < n
    ensures x == y
  {
    var d := x / n - y / n;
    assert x - y == d * n;
    MultipleFar(d, n);
  }
}
