/**
 * C# `int` arithmetic. The benchmarks accumulate with `+=` and `*` in an
 * unchecked context, where the mathematical result is truncated to 32 bits
 * in two's complement. Values here are mathematical integers and Wrap does
 * the truncation explicitly.
 */
module Int32 {

  const Modulus: int := 0x1_0000_0000
  const Min: int := -0x8000_0000
  const Max: int := 0x7FFF_FFFF

  predicate InRange(x: int) {
    Min <= x <= Max
  }

  /** The int32 value congruent to x modulo 2^32. */
  function Wrap(x: int): (r: int)
    ensures InRange(r)
  {
    (x - Min) % Modulus + Min
  }

  /** Unchecked `a + b` on two ints. */
  function Add(a: int, b: int): (r: int)
    requires InRange(a) && InRange(b)
    ensures InRange(r)
    ensures InRange(a + b) ==> r == a + b
  {
    WrapIdentity(a + b);
    Wrap(a + b)
  }

  /** Unchecked `a * b` on two ints. */
  function Mul(a: int, b: int): (r: int)
    requires InRange(a) && InRange(b)
    ensures InRange(r)
    ensures InRange(a * b) ==> r == a * b
  {
    WrapIdentity(a * b);
    Wrap(a * b)
  }

  /** Truncation leaves every int32 value alone. */
  lemma WrapIdentity(x: int)
    ensures InRange(x) ==> Wrap(x) == x
  {
  }

  /** Truncation only depends on the residue modulo 2^32. */
  lemma {:induction false} WrapShift(x: int, q: int)
    ensures Wrap(x + q * Modulus) == Wrap(x)
    decreases if q < 0 then -q else q
  {
    if q > 0 {
      WrapShift(x, q - 1);
      var y := x + (q - 1) * Modulus;
      WrapPeriod(y);
      assert x + q * Modulus == y + Modulus;
    } else if q < 0 {
      WrapShift(x, q + 1);
      var y := x + q * Modulus;
      WrapPeriod(y);
      assert x + (q + 1) * Modulus == y + Modulus;
    }
  }

  /** One period of 2^32 does not change the truncation. */
  lemma WrapPeriod(y: int)
    ensures Wrap(y + Modulus) == Wrap(y)
  {
  }

  /**
   * Adding truncated operands and truncating gives the truncated exact sum:
   * an accumulator that wraps at every step ends where the exact sum, wrapped
   * once, ends.
   */
  lemma WrapAdd(a: int, b: int)
    ensures Wrap(Wrap(a) + Wrap(b)) == Wrap(a + b)
  {
    var qa := (a - Min) / Modulus;
    var qb := (b - Min) / Modulus;
    assert a == Wrap(a) + qa * Modulus;
    assert b == Wrap(b) + qb * Modulus;
    assert Wrap(a) + Wrap(b) == (a + b) + (-(qa + qb)) * Modulus;
    WrapShift(a + b, -(qa + qb));
  }
}
