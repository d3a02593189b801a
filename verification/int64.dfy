/** Two's-complement 64-bit integers, as Go's `int64` behaves on overflow. */
module Int64 {

  const Modulus: int := 0x1_0000_0000_0000_0000
  const Min: int := -0x8000_0000_0000_0000
  const Max: int := 0x7FFF_FFFF_FFFF_FFFF

  predicate InRange(x: int) {
    Min <= x <= Max
  }

  /** The int64 value that an exact integer wraps around to. */
  function Wrap(x: int): (r: int)
    ensures InRange(r)
    ensures InRange(x) ==> r == x
    ensures (x - r) % Modulus == 0
  {
    var k := (x - Min) / Modulus;
    assert x - Min == k * Modulus + (x - Min) % Modulus;
    (x - Min) % Modulus + Min
  }

  /** Two integers that differ by a multiple of 2^64 wrap to the same int64. */
  lemma WrapCongruent(a: int, b: int)
    requires (a - b) % Modulus == 0
    ensures Wrap(a) == Wrap(b)
  {
    var ra, rb := Wrap(a), Wrap(b);
    var d := ra - rb;
    assert (a - ra) % Modulus == 0 && (b - rb) % Modulus == 0;
    var qa, qb, q := (a - ra) / Modulus, (b - rb) / Modulus, (a - b) / Modulus;
    assert a - ra == qa * Modulus;
    assert b - rb == qb * Modulus;
    assert a - b == q * Modulus;
    assert d == (q - qa + qb) * Modulus;
    assert -Modulus < d < Modulus;
  }

  /** Adding to a wrapped accumulator wraps like adding to the exact sum. */
  lemma WrapAdd(a: int, b: int)
    ensures Wrap(Wrap(a) + b) == Wrap(a + b)
  {
    var qa := (a - Wrap(a)) / Modulus;
    assert a - Wrap(a) == qa * Modulus;
    assert (a + b) - (Wrap(a) + b) == qa * Modulus;
    WrapCongruent(a + b, Wrap(a) + b);
  }
}
