/**
 * ExtractSubstring: a random string of String_Length characters, a random
 * range in it, and two ways of taking that range out: `Substring` copies it
 * directly, `AsSpan().Slice(...).ToString()` narrows a view first and copies
 * once at the end. The benchmark fails unless both return equal strings.
 */
module ExtractSubstringBenchmark {
  import Bogus
  import Text
  import opened Span

  /** The values the harness gives String_Length. */
  const StringLengths: seq<nat> := [10, 100, 10_000, 100_000, 1_000_000]

  /**
   * The ranges the setup can choose for a string of length L: a start in
   * [0, L/2 - 1] and an end in [start + 1, L - 1], the range being
   * [start, start + length) with length = end - start.
   */
  predicate ValidSelection(stringLength: nat, start: int, length: int) {
    0 <= start <= stringLength / 2 - 1 && start + 1 <= start + length <= stringLength - 1
  }

  /**
   * A chosen range starts in the first half, is not empty, lies within the
   * string and never reaches its last character.
   */
  lemma SelectionBounds(stringLength: nat, start: int, length: int)
    requires ValidSelection(stringLength, start, length)
    ensures 0 <= start < stringLength / 2
    ensures start < start + length < stringLength
    ensures 1 <= length <= stringLength - 1 - start
  {
  }

  /** Every range ValidSelection admits is chosen by some pair of draws. */
  lemma EverySelectionReachable(stringLength: nat, start: int, length: int)
    requires ValidSelection(stringLength, start, length)
    ensures Bogus.Int(0, stringLength / 2 - 1, start) == start
    ensures Bogus.Int(start + 1, stringLength - 1, length - 1) == start + length
  {
    Bogus.IntCoversRange(0, stringLength / 2 - 1, start);
    Bogus.IntCoversRange(start + 1, stringLength - 1, start + length);
  }

  /** Every String_Length the harness uses leaves both draw ranges non-empty. */
  lemma ParametersAdmitSetup(stringLength: nat)
    requires stringLength in StringLengths
    ensures 0 <= stringLength / 2 - 1 && stringLength / 2 <= stringLength - 1
  {
  }

  class ExtractSubstring {
    /** `String_Length`, fixed by the harness before setup. */
    const stringLength: nat
    var inputString: string
    var startIndex: int
    var length: int

    /** Before setup, `_inputString` is null; the model holds the empty string. */
    constructor (stringLength: nat)
      ensures this.stringLength == stringLength
      ensures inputString == "" && startIndex == 0 && length == 0
    {
      this.stringLength := stringLength;
      inputString, startIndex, length := "", 0, 0;
    }

    /** What the setup establishes and both variants rely on. */
    ghost predicate Valid()
      reads this
    {
      |inputString| == stringLength && ValidSelection(stringLength, startIndex, length)
    }

    /**
     * `Setup()`: draws the string, then the start, then the end. The start is
     * drawn from [0, String_Length / 2 - 1], which is empty for
     * String_Length < 2; drawing from an empty range fails the setup
     * (`ok` is false) after the string has been assigned.
     */
    method Setup(chars: seq<nat>, startDraw: nat, endDraw: nat) returns (ok: bool)
      requires |chars| == stringLength
      modifies this
      ensures inputString == Bogus.String2(stringLength, chars)
      ensures ok <==> stringLength >= 2
      ensures ok ==> Valid()
      ensures ok ==> startIndex == Bogus.Int(0, stringLength / 2 - 1, startDraw)
      ensures ok ==> startIndex + length == Bogus.Int(startIndex + 1, stringLength - 1, endDraw)
      ensures !ok ==> startIndex == old(startIndex) && length == old(length)
    {
      inputString := Bogus.String2(stringLength, chars);
      if stringLength / 2 - 1 < 0 {
        return false;
      }
      startIndex := Bogus.Int(0, stringLength / 2 - 1, startDraw);
      var endIndex := Bogus.Int(startIndex + 1, stringLength - 1, endDraw);
      length := endIndex - startIndex;
      ok := true;
    }

    /** `UseSubstring()`: `_inputString.Substring(_startIndex, _length)`. */
    function UseSubstring(): (r: string)
      reads this
      requires Valid()
      ensures |r| == length
      ensures r == inputString[startIndex..startIndex + length]
    {
      Text.Substring(inputString, startIndex, length)
    }

    /** `UseSpanSlice()`: `_inputString.AsSpan().Slice(_startIndex, _length).ToString()`. */
    function UseSpanSlice(): (r: string)
      reads this
      requires Valid()
      ensures |r| == length
      ensures r == inputString[startIndex..startIndex + length]
    {
      AsSpan(inputString).Slice(startIndex, length).Elements()
    }
  }

  /** The return-value validator's check: both variants agree on every fixture the setup builds. */
  lemma VariantsAgree(b: ExtractSubstring)
    requires b.Valid()
    ensures b.UseSubstring() == b.UseSpanSlice()
    ensures |b.UseSubstring()| >= 1
  {
  }

  /** Taking a view, slicing it and copying it out equals Substring, for every in-range request. */
  lemma SliceMatchesSubstring(s: string, start: int, length: int)
    requires 0 <= start && 0 <= length && start + length <= |s|
    ensures AsSpan(s).Slice(start, length).Elements() == Text.Substring(s, start, length)
  {
  }
}
