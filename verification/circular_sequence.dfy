/** Unsigned 32-bit packet numbers and their circular comparison, in the sense of
    section 3.2 of RFC 1982: a difference is taken modulo 2^32 and read as signed. */
module CircularSequence {

  const MODULUS: int := 0x1_0000_0000
  const HALF: int := 0x8000_0000

  type Sequence = x: int | 0 <= x < 0x1_0000_0000

  /** `s + k` in 32-bit unsigned arithmetic; `k` may be negative. */
  function Plus(s: Sequence, k: int): Sequence {
    (s + k) % MODULUS
  }

  /** The signed 32-bit reading of `left - right`. */
  function Distance(left: Sequence, right: Sequence): int {
    var d := (left - right) % MODULUS;
    if d < HALF then d else d - MODULUS
  }

  predicate Before(left: Sequence, right: Sequence) {
    Distance(left, right) < 0
  }

  lemma DistanceSpansModulus(left: Sequence, right: Sequence)
    ensures -HALF <= Distance(left, right) < HALF
    ensures Plus(right, Distance(left, right)) == left
  {
  }

  lemma PlusPlus(s: Sequence, j: int, k: int)
    ensures Plus(Plus(s, j), k) == Plus(s, j + k)
  {
  }

  lemma DistanceOfPlus(s: Sequence, j: int, k: int)
    requires -HALF <= j - k < HALF
    ensures Distance(Plus(s, j), Plus(s, k)) == j - k
  {
  }

  /** Moving both ends moves the distance by the difference, as long as it stays in range. */
  lemma DistanceShift(left: Sequence, right: Sequence, j: int, k: int)
    requires -HALF <= Distance(left, right) + j - k < HALF
    ensures Distance(Plus(left, j), Plus(right, k)) == Distance(left, right) + j - k
  {
    DistanceSpansModulus(left, right);
    PlusPlus(right, Distance(left, right), j);
    DistanceOfPlus(right, Distance(left, right) + j, k);
  }
}
