/** Audio samples. Arithmetic on them is exact; rounding is not part of this model. */
module Samples {

  type Sample = real

  /** A number, or one of the values `std::isfinite` refuses. */
  datatype Float = Finite(value: real) | NotFinite

  function Zeros(n: nat): seq<Sample> {
    seq(n, _ => 0.0)
  }
}
