/**
 * FasterIterateAsSpan: a list of Total_Numbers random ints in [0, 1000],
 * summed three ways: a foreach over the list, a foreach over a span view of
 * the list's storage, and LINQ `Sum()`. The loops add with unchecked int
 * arithmetic.
 */
module FasterIterateAsSpanBenchmark {
  import Int32
  import Bogus
  import Linq
  import opened Span

  /** The values the harness gives Total_Numbers. */
  const TotalNumbers: seq<nat> := [10, 100, 1000, 10_000, 100_000, 1_000_000]

  /** The largest value the setup draws. */
  const MaxValue: nat := 1000

  class FasterIterateAsSpan {
    /** `Total_Numbers`, fixed by the harness before setup. */
    const totalNumbers: nat
    /** `_sourceNumbers`: the list's contents. */
    var sourceNumbers: seq<int>

    constructor (totalNumbers: nat)
      ensures this.totalNumbers == totalNumbers && sourceNumbers == []
    {
      this.totalNumbers := totalNumbers;
      sourceNumbers := [];
    }

    /** Every number in the list came from the setup's draws. */
    ghost predicate Valid()
      reads this
    {
      forall i :: 0 <= i < |sourceNumbers| ==> 0 <= sourceNumbers[i] <= MaxValue
    }

    /** `SetupSourceNumbers()`: appends Total_Numbers draws from [0, 1000]. */
    method SetupSourceNumbers(draws: seq<nat>)
      requires Valid()
      requires |draws| == totalNumbers
      modifies this
      ensures Valid()
      ensures |sourceNumbers| == |old(sourceNumbers)| + totalNumbers
      ensures sourceNumbers[..|old(sourceNumbers)|] == old(sourceNumbers)
      ensures forall i :: 0 <= i < totalNumbers ==>
        sourceNumbers[|old(sourceNumbers)| + i] == Bogus.Int(0, MaxValue, draws[i])
    {
      ghost var before := sourceNumbers;
      for i := 0 to totalNumbers
        invariant Valid()
        invariant |sourceNumbers| == |before| + i
        invariant sourceNumbers[..|before|] == before
        invariant forall j :: 0 <= j < i ==> sourceNumbers[|before| + j] == Bogus.Int(0, MaxValue, draws[j])
      {
        var randomNumber := Bogus.Int(0, MaxValue, draws[i]);
        sourceNumbers := sourceNumbers + [randomNumber];
      }
    }

    /** Every element is a C# `int`, as every element of a `List<int>` is. */
    ghost predicate HoldsInt32()
      reads this
    {
      forall i :: 0 <= i < |sourceNumbers| ==> Int32.InRange(sourceNumbers[i])
    }

    /** `UseNormalForLoop()`: foreach over the list, `sum += number`. */
    method UseNormalForLoop() returns (sum: int)
      requires HoldsInt32()
      ensures sum == Int32.Wrap(Linq.Sum(sourceNumbers))
    {
      sum := 0;
      var i := 0;
      while i < |sourceNumbers|
        invariant 0 <= i <= |sourceNumbers|
        invariant sum == Int32.Wrap(Linq.Sum(sourceNumbers[..i]))
      {
        var number := sourceNumbers[i];
        Linq.SumStep(sourceNumbers, i);
        Int32.WrapAdd(Linq.Sum(sourceNumbers[..i]), number);
        Int32.WrapIdentity(number);
        sum := Int32.Add(sum, number);
        i := i + 1;
      }
      assert sourceNumbers[..i] == sourceNumbers;
    }

    /**
     * `UseSpan()`: foreach over `CollectionsMarshal.AsSpan(_sourceNumbers)`.
     * The span reads the list's storage in place; nothing in the method
     * changes the list while it is live.
     */
    method UseSpan() returns (sum: int)
      requires HoldsInt32()
      ensures sum == Int32.Wrap(Linq.Sum(sourceNumbers))
    {
      var span := AsSpan(sourceNumbers);
      sum := 0;
      for i := 0 to span.length
        invariant sum == Int32.Wrap(Linq.Sum(span.Elements()[..i]))
      {
        var number := span.At(i);
        Linq.SumStep(span.Elements(), i);
        Int32.WrapAdd(Linq.Sum(span.Elements()[..i]), number);
        Int32.WrapIdentity(number);
        sum := Int32.Add(sum, number);
      }
      assert span.Elements()[..span.length] == sourceNumbers;
    }

    /**
     * `UseLinqSum()`: `_sourceNumbers.Sum()`. .NET sums checked and throws on
     * overflow; the model covers lists no longer than the largest
     * Total_Numbers, whose sum cannot overflow.
     */
    method UseLinqSum() returns (sum: int)
      requires Valid() && |sourceNumbers| <= TotalNumbers[|TotalNumbers| - 1]
      ensures sum == Linq.Sum(sourceNumbers)
      ensures 0 <= sum <= Int32.Max
    {
      SumFits(sourceNumbers);
      sum := Linq.Sum(sourceNumbers);
    }

    /**
     * The return-value validator's check: on every list the setup can build
     * for the harness's sizes, all three variants return the exact sum.
     */
    method ValidateReturnValues() returns (loop: int, span: int, linq: int)
      requires Valid() && |sourceNumbers| <= TotalNumbers[|TotalNumbers| - 1]
      ensures loop == span == linq == Linq.Sum(sourceNumbers)
    {
      assert HoldsInt32();
      loop := UseNormalForLoop();
      span := UseSpan();
      linq := UseLinqSum();
      Int32.WrapIdentity(linq);
    }
  }

  /**
   * At most 1 000 000 numbers in [0, 1000] sum to at most 10^9, inside int32,
   * so wrapping the sum changes nothing.
   */
  lemma SumFits(numbers: seq<int>)
    requires |numbers| <= TotalNumbers[|TotalNumbers| - 1]
    requires forall i :: 0 <= i < |numbers| ==> 0 <= numbers[i] <= MaxValue
    ensures 0 <= Linq.Sum(numbers) <= 1_000_000_000
    ensures Int32.Wrap(Linq.Sum(numbers)) == Linq.Sum(numbers)
  {
    Linq.SumBounds(numbers, MaxValue);
    assert |numbers| * MaxValue <= 1_000_000 * MaxValue;
    Int32.WrapIdentity(Linq.Sum(numbers));
  }

  /** An empty list sums to 0 in every variant. */
  lemma EmptySum()
    ensures Int32.Wrap(Linq.Sum([])) == 0
  {
  }
}
