/** The System.Linq operators the benchmarks call. */
module Linq {
  import opened Wrappers

  /**
   * `source.Aggregate(func)`: a left fold seeded with the first element.
   * .NET throws InvalidOperationException for an empty source; the model
   * returns None.
   */
  function Aggregate<T>(source: seq<T>, func: (T, T) -> T): (r: Option<T>)
    ensures r.None? <==> source == []
    decreases |source|
  {
    if |source| == 0 then None
    else if |source| == 1 then Some(source[0])
    else Some(func(Aggregate(source[..|source| - 1], func).value, source[|source| - 1]))
  }

  /** The mathematical sum of the values, in order. */
  function Sum(source: seq<int>): int
    decreases |source|
  {
    if |source| == 0 then 0 else Sum(source[..|source| - 1]) + source[|source| - 1]
  }

  /** Adding one more value extends the sum of the prefix. */
  lemma SumStep(source: seq<int>, k: nat)
    requires k < |source|
    ensures Sum(source[..k + 1]) == Sum(source[..k]) + source[k]
  {
    assert source[..k + 1][..k] == source[..k];
  }

  /** Values in [0, bound] have a sum in [0, |source| * bound]. */
  lemma {:induction false} SumBounds(source: seq<int>, bound: nat)
    requires forall i :: 0 <= i < |source| ==> 0 <= source[i] <= bound
    ensures 0 <= Sum(source) <= |source| * bound
    decreases |source|
  {
    if |source| > 0 {
      SumBounds(source[..|source| - 1], bound);
      assert |source| * bound == (|source| - 1) * bound + bound;
    }
  }
}
