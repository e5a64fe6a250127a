/**
 * ManyStringConcatenate: a list of Total_Strings random strings of length 10
 * joined with ',' four ways: a LINQ fold, a StringBuilder loop, `string.Join`
 * and a loop that writes into a char buffer sized in advance.
 */
module ManyStringConcatenateBenchmark {
  import opened Wrappers
  import Bogus
  import Linq
  import opened Text
  import opened Span

  /** The values the harness gives Total_Strings. */
  const TotalStrings: seq<nat> := [5, 10, 100, 1000, 10_000]

  /** The length of every generated string. */
  const StringLength: nat := 10

  /** The delimiter every variant places between neighbours. */
  const Delimiter: char := ','

  /** The function the LINQ variant folds with: `current + ',' + next`. */
  function AppendWithDelimiter(current: string, next: string): string {
    current + [Delimiter] + next
  }

  /** Folding with AppendWithDelimiter joins with the delimiter, in order. */
  lemma {:induction false} AggregateJoins(values: seq<string>)
    ensures Linq.Aggregate(values, AppendWithDelimiter)
         == if values == [] then None else Some(Join([Delimiter], values))
    decreases |values|
  {
    if |values| > 1 {
      AggregateJoins(values[..|values| - 1]);
    }
  }

  /** A string the setup draws contains no ',': `String2` picks from a–z. */
  lemma DrawnStringHasNoDelimiter(draws: seq<nat>)
    requires |draws| == StringLength
    ensures Delimiter !in Bogus.String2(StringLength, draws)
  {
    assert Delimiter !in Bogus.DefaultChars;
  }

  /** The text the buffer loop has written before it copies string k. */
  function Written(values: seq<string>, k: nat): string
    requires k <= |values|
  {
    if k == 0 then "" else Join([Delimiter], values[..k]) + [Delimiter]
  }

  /**
   * One pass of the buffer loop: copying string k after what is written
   * gives the join of the first k + 1 strings; it fills the buffer exactly
   * when string k is the last one.
   */
  lemma BufferStep(values: seq<string>, k: nat)
    requires k < |values|
    ensures Written(values, k) + values[k] == Join([Delimiter], values[..k + 1])
    ensures |Written(values, k)| + |values[k]| == SumLengths(values[..k + 1]) + k
    ensures k + 1 < |values| ==> SumLengths(values[..k + 1]) + k < SumLengths(values) + |values| - 1
    ensures k + 1 == |values| ==> values[..k + 1] == values
    ensures Written(values, k + 1) == Written(values, k) + values[k] + [Delimiter]
  {
    JoinStep([Delimiter], values, k);
    SumLengthsStep(values, k);
    SumLengthsPrefix(values, k + 1);
    if k > 0 {
      JoinLength([Delimiter], values[..k]);
    }
  }

  class ManyStringConcatenate {
    /** `Total_Strings`, fixed by the harness before setup. */
    const totalStrings: nat
    /** `_sourceStrings`: the list's contents. */
    var sourceStrings: seq<string>

    constructor (totalStrings: nat)
      ensures this.totalStrings == totalStrings && sourceStrings == []
    {
      this.totalStrings := totalStrings;
      sourceStrings := [];
    }

    /**
     * `SetupSourceStrings()`: appends Total_Strings random strings of
     * length 10, one row of draws each.
     */
    method SetupSourceStrings(draws: seq<seq<nat>>)
      requires |draws| == totalStrings
      requires forall i :: 0 <= i < |draws| ==> |draws[i]| == StringLength
      modifies this
      ensures |sourceStrings| == |old(sourceStrings)| + totalStrings
      ensures sourceStrings[..|old(sourceStrings)|] == old(sourceStrings)
      ensures forall i :: 0 <= i < totalStrings ==>
        sourceStrings[|old(sourceStrings)| + i] == Bogus.String2(StringLength, draws[i])
      ensures forall i :: |old(sourceStrings)| <= i < |sourceStrings| ==> |sourceStrings[i]| == StringLength
      ensures forall i :: |old(sourceStrings)| <= i < |sourceStrings| ==> Delimiter !in sourceStrings[i]
      ensures old(sourceStrings) == [] && totalStrings in TotalStrings ==> |sourceStrings| >= 5
    {
      ghost var before := sourceStrings;
      for i := 0 to totalStrings
        invariant |sourceStrings| == |before| + i
        invariant sourceStrings[..|before|] == before
        invariant forall j :: 0 <= j < i ==> sourceStrings[|before| + j] == Bogus.String2(StringLength, draws[j])
        invariant forall j :: |before| <= j < |sourceStrings| ==> |sourceStrings[j]| == StringLength
        invariant forall j :: |before| <= j < |sourceStrings| ==> Delimiter !in sourceStrings[j]
      {
        var randomString := Bogus.String2(StringLength, draws[i]);
        DrawnStringHasNoDelimiter(draws[i]);
        sourceStrings := sourceStrings + [randomString];
      }
    }

    /**
     * `UseLinqAggregate()`: `Aggregate((current, next) => current + ',' + next)`.
     * An empty list makes Aggregate throw, here None.
     */
    function UseLinqAggregate(): (r: Option<string>)
      reads this
      ensures r == if sourceStrings == [] then None else Some(Join([Delimiter], sourceStrings))
    {
      AggregateJoins(sourceStrings);
      Linq.Aggregate(sourceStrings, AppendWithDelimiter)
    }

    /**
     * `UseStringBuilder()`: appends each string and, unless it was the
     * last, a ','.
     */
    method UseStringBuilder() returns (r: string)
      ensures r == Join([Delimiter], sourceStrings)
    {
      var stringBuilder := new StringBuilder();
      var i := 0;
      while i < |sourceStrings|
        invariant 0 <= i <= |sourceStrings|
        invariant i < |sourceStrings| || sourceStrings == []
        invariant stringBuilder.chars == if i == 0 then "" else Join([Delimiter], sourceStrings[..i]) + [Delimiter]
      {
        stringBuilder.Append(sourceStrings[i]);
        JoinStep([Delimiter], sourceStrings, i);
        if i == |sourceStrings| - 1 {
          assert sourceStrings[..|sourceStrings|] == sourceStrings;
          break;
        }
        stringBuilder.AppendChar(Delimiter);
        i := i + 1;
      }
      r := stringBuilder.ToString();
    }

    /** `UseStringJoin()`: `string.Join(',', _sourceStrings)`. */
    function UseStringJoin(): (r: string)
      reads this
      ensures sourceStrings != [] ==> |r| == SumLengths(sourceStrings) + |sourceStrings| - 1
      ensures sourceStrings == [] ==> r == ""
    {
      if sourceStrings != [] then JoinLength([Delimiter], sourceStrings); Join([Delimiter], sourceStrings)
      else Join([Delimiter], sourceStrings)
    }

    /**
     * `UseSpan()`: a char buffer of length `Σ length + Count - 1`, filled by
     * copying each string at a running index and writing ',' after it,
     * stopping when the index reaches the end of the buffer. For an empty
     * list the length is -1 and allocating the buffer throws, here None.
     * The list is read through a span view; nothing changes it meanwhile.
     */
    method UseSpan() returns (r: Option<string>)
      ensures r == if sourceStrings == [] then None else Some(Join([Delimiter], sourceStrings))
    {
      var values := sourceStrings;
      var bufferLength := SumLengths(values) + |values| - 1;
      if bufferLength < 0 {
        return None;
      }
      var span := new char[bufferLength];
      var index := 0;
      var sourceSpan := AsSpan(values);
      var k := 0;
      while k < sourceSpan.length
        invariant 0 <= k < |values|
        invariant index <= span.Length
        invariant span[..index] == Written(values, k)
        decreases sourceSpan.length - k
      {
        var sourceString := sourceSpan.At(k);
        BufferStep(values, k);
        CopyTo(sourceString, span, index);
        index := index + |sourceString|;
        ghost var joined := span[..index];
        if index == span.Length {
          break;
        }
        span[index] := Delimiter;
        assert span[..index + 1] == joined + [Delimiter];
        index := index + 1;
        k := k + 1;
      }
      assert span[..] == span[..index];
      r := Some(span[..]);
    }

    /**
     * The return-value validator's check: on a non-empty list, which every
     * harness size guarantees, all four variants return the same string.
     */
    method ValidateReturnValues() returns (aggregate: string, builder: string, join: string, span: string)
      requires sourceStrings != []
      ensures aggregate == builder == join == span == Join([Delimiter], sourceStrings)
    {
      aggregate := UseLinqAggregate().value;
      builder := UseStringBuilder();
      join := UseStringJoin();
      var buffer := UseSpan();
      span := buffer.value;
    }
  }

  /**
   * On strings without ',', which is every string the setup draws, the join
   * holds exactly one ',' between neighbours: |sourceStrings| - 1 of them,
   * and removing them leaves the strings concatenated in order.
   */
  lemma JoinedDelimiters(b: ManyStringConcatenate)
    requires b.sourceStrings != []
    requires forall i :: 0 <= i < |b.sourceStrings| ==> Delimiter !in b.sourceStrings[i]
    ensures Occurrences(b.UseStringJoin(), Delimiter) == |b.sourceStrings| - 1
    ensures Without(b.UseStringJoin(), Delimiter) == Concat(b.sourceStrings)
  {
    JoinDelimiters(Delimiter, b.sourceStrings);
  }
}
