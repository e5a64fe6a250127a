/**
 * The Bogus random generator, as far as the benchmark setups use it. Each
 * call consumes one raw random draw, a natural number supplied by the caller;
 * the model maps the draw into the range the call promises. The randomness
 * itself is outside the model: any draw is possible.
 */
module Bogus {

  /** Characters `Randomizer.String2` picks from when no alphabet is given. */
  const DefaultChars: string := "abcdefghijklmnopqrstuvwxyz"

  /** `Random.Int(min, max)`: a value in the inclusive range [min, max]. */
  function Int(min: int, max: int, draw: nat): (r: int)
    requires min <= max
    ensures min <= r <= max
  {
    min + draw % (max - min + 1)
  }

  /** Every value of the range is the outcome of some draw. */
  lemma IntCoversRange(min: int, max: int, v: int)
    requires min <= v <= max
    ensures Int(min, max, v - min) == v
  {
  }

  /** `Random.String2(length)`: `length` characters from DefaultChars, one draw each. */
  function String2(length: nat, draws: seq<nat>): (r: string)
    requires |draws| == length
    ensures |r| == length
    ensures forall i :: 0 <= i < length ==> r[i] in DefaultChars
  {
    seq(length, i requires 0 <= i < length => DefaultChars[draws[i] % |DefaultChars|])
  }
}
