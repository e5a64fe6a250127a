/**
 * The parts of System.String and System.Text that the benchmarks call:
 * `string.Join`, `string.Concat`, `string.Format`, `Substring` and
 * `StringBuilder`. A .NET string is a sequence of UTF-16 code units; here it
 * is a `string`, a sequence of Unicode scalar values. The two agree on strings
 * without surrogate pairs, which are all the strings the benchmarks build.
 */
module Text {
  import opened Wrappers

  /**
   * `string.Join(separator, values)`: the values in order with the separator
   * between neighbours. Defined by peeling off the last value, the order in
   * which the benchmarks' loops build the same string.
   */
  function Join(separator: string, values: seq<string>): string
    decreases |values|
  {
    if |values| == 0 then ""
    else if |values| == 1 then values[0]
    else Join(separator, values[..|values| - 1]) + separator + values[|values| - 1]
  }

  /** `string.Concat(values)`: the values in order, nothing between them. */
  function Concat(values: seq<string>): (r: string)
    ensures |r| == SumLengths(values)
    decreases |values|
  {
    if |values| == 0 then "" else Concat(values[..|values| - 1]) + values[|values| - 1]
  }

  /** The total length of the values, `values.Sum(s => s.Length)`. */
  function SumLengths(values: seq<string>): nat
    decreases |values|
  {
    if |values| == 0 then 0 else SumLengths(values[..|values| - 1]) + |values[|values| - 1]|
  }

  /** `s` with every `c` removed. */
  function Without(s: string, c: char): (r: string)
    ensures c !in r
    ensures |r| <= |s|
  {
    if s == [] then "" else (if s[0] == c then "" else [s[0]]) + Without(s[1..], c)
  }

  /** How many times `c` occurs in `s`. */
  function Occurrences(s: string, c: char): nat {
    if s == [] then 0 else (if s[0] == c then 1 else 0) + Occurrences(s[1..], c)
  }

  /**
   * Joining one more value extends the join of the prefix: the value follows
   * the prefix's join and a separator, or stands alone after an empty prefix.
   */
  lemma JoinStep(separator: string, values: seq<string>, k: nat)
    requires k < |values|
    ensures Join(separator, values[..k + 1])
         == (if k == 0 then "" else Join(separator, values[..k]) + separator) + values[k]
  {
    assert values[..k + 1][..k] == values[..k];
  }

  /** Concatenating one more value extends the concatenation of the prefix. */
  lemma ConcatStep(values: seq<string>, k: nat)
    requires k < |values|
    ensures Concat(values[..k + 1]) == Concat(values[..k]) + values[k]
  {
    assert values[..k + 1][..k] == values[..k];
  }

  /** The same step for the total length. */
  lemma SumLengthsStep(values: seq<string>, k: nat)
    requires k < |values|
    ensures SumLengths(values[..k + 1]) == SumLengths(values[..k]) + |values[k]|
  {
    assert values[..k + 1][..k] == values[..k];
  }

  /** The values of a prefix are no longer in total than all the values. */
  lemma {:induction false} SumLengthsPrefix(values: seq<string>, k: nat)
    requires k <= |values|
    ensures SumLengths(values[..k]) <= SumLengths(values)
    decreases |values|
  {
    if k < |values| {
      assert values[..|values| - 1][..k] == values[..k];
      SumLengthsPrefix(values[..|values| - 1], k);
    } else {
      assert values[..k] == values;
    }
  }

  /** A join of n values has their total length plus n - 1 separators. */
  lemma {:induction false} JoinLength(separator: string, values: seq<string>)
    requires values != []
    ensures |Join(separator, values)| == SumLengths(values) + (|values| - 1) * |separator|
    decreases |values|
  {
    if |values| > 1 {
      JoinLength(separator, values[..|values| - 1]);
      assert (|values| - 1) * |separator| == (|values| - 2) * |separator| + |separator|;
    }
  }

  /** Removing a character commutes with concatenation. */
  lemma {:induction false} WithoutAppend(a: string, b: string, c: char)
    ensures Without(a + b, c) == Without(a, c) + Without(b, c)
    ensures Occurrences(a + b, c) == Occurrences(a, c) + Occurrences(b, c)
    decreases |a|
  {
    if a != [] {
      assert (a + b)[1..] == a[1..] + b;
      WithoutAppend(a[1..], b, c);
    } else {
      assert a + b == b;
    }
  }

  /** A string without `c` is unchanged by removing `c`. */
  lemma {:induction false} WithoutAbsent(s: string, c: char)
    requires c !in s
    ensures Without(s, c) == s
    ensures Occurrences(s, c) == 0
    decreases |s|
  {
    if s != [] {
      WithoutAbsent(s[1..], c);
    }
  }

  /**
   * When no value contains the delimiter, the join holds exactly one
   * delimiter between neighbours and nothing else: it contains
   * |values| - 1 delimiters, and removing them leaves the values
   * concatenated in their original order.
   */
  lemma {:induction false} JoinDelimiters(delimiter: char, values: seq<string>)
    requires values != []
    requires forall i :: 0 <= i < |values| ==> delimiter !in values[i]
    ensures Occurrences(Join([delimiter], values), delimiter) == |values| - 1
    ensures Without(Join([delimiter], values), delimiter) == Concat(values)
    decreases |values|
  {
    var last := values[|values| - 1];
    WithoutAbsent(last, delimiter);
    if |values| == 1 {
      assert Concat(values) == Concat([]) + last;
    } else {
      var init := values[..|values| - 1];
      assert forall i :: 0 <= i < |init| ==> init[i] == values[i];
      JoinDelimiters(delimiter, init);
      var prefix := Join([delimiter], init);
      assert Join([delimiter], values) == prefix + [delimiter] + last;
      assert Concat(values) == Concat(init) + last;
      WithoutDelimited(prefix, delimiter, last);
      OccurrencesDelimited(prefix, delimiter, last);
    }
  }

  /** One delimiter between two strings is removed with the rest. */
  lemma WithoutDelimited(prefix: string, delimiter: char, last: string)
    ensures Without(prefix + [delimiter] + last, delimiter) == Without(prefix, delimiter) + Without(last, delimiter)
  {
    var withDelimiter := prefix + [delimiter];
    WithoutAppend(prefix, [delimiter], delimiter);
    WithoutAppend(withDelimiter, last, delimiter);
    WithoutDelimiter(delimiter);
  }

  /** One delimiter between two strings is counted once. */
  lemma OccurrencesDelimited(prefix: string, delimiter: char, last: string)
    ensures Occurrences(prefix + [delimiter] + last, delimiter)
         == Occurrences(prefix, delimiter) + 1 + Occurrences(last, delimiter)
  {
    var withDelimiter := prefix + [delimiter];
    WithoutAppend(prefix, [delimiter], delimiter);
    WithoutAppend(withDelimiter, last, delimiter);
    WithoutDelimiter(delimiter);
  }

  /** The delimiter alone: removing it leaves nothing, and it occurs once. */
  lemma WithoutDelimiter(delimiter: char)
    ensures Without([delimiter], delimiter) == ""
    ensures Occurrences([delimiter], delimiter) == 1
  {
    assert [delimiter][1..] == "";
  }

  /**
   * `s.Substring(startIndex, length)`: the `length` characters from
   * `startIndex` on. .NET throws ArgumentOutOfRangeException unless the range
   * lies within the string; that check is the precondition.
   */
  function Substring(s: string, startIndex: int, length: int): (r: string)
    requires 0 <= startIndex && 0 <= length && startIndex + length <= |s|
    ensures |r| == length
    ensures forall i :: 0 <= i < length ==> r[i] == s[startIndex + i]
  {
    s[startIndex..startIndex + length]
  }

  /** `System.Text.StringBuilder`: a growable character buffer. */
  class StringBuilder {
    var chars: string

    constructor ()
      ensures chars == ""
    {
      chars := "";
    }

    /** `Append(string)`. */
    method Append(value: string)
      modifies this
      ensures chars == old(chars) + value
    {
      chars := chars + value;
    }

    /** `Append(char)`. */
    method AppendChar(value: char)
      modifies this
      ensures chars == old(chars) + [value]
    {
      chars := chars + [value];
    }

    /** `ToString()`: the characters appended so far, in order. */
    function ToString(): string
      reads this
    {
      chars
    }
  }

  predicate IsDigit(c: char) {
    '0' <= c <= '9'
  }

  /** The length of the run of decimal digits that `s` starts with. */
  function DigitRun(s: string): (n: nat)
    ensures n <= |s|
    ensures forall i :: 0 <= i < n ==> IsDigit(s[i])
    ensures n < |s| ==> !IsDigit(s[n])
  {
    if s != [] && IsDigit(s[0]) then 1 + DigitRun(s[1..]) else 0
  }

  /** The number a run of decimal digits denotes. */
  function DecimalValue(digits: string): nat
    requires forall i :: 0 <= i < |digits| ==> IsDigit(digits[i])
    decreases |digits|
  {
    if digits == [] then 0
    else
      assert IsDigit(digits[|digits| - 1]);
      10 * DecimalValue(digits[..|digits| - 1]) + (digits[|digits| - 1] as int - '0' as int)
  }

  function Prepend(prefix: string, rest: Option<string>): Option<string> {
    match rest
    case None => None
    case Some(s) => Some(prefix + s)
  }

  /**
   * `string.Format(format, args)` for composite formats whose items are
   * `{index}`, with `{{` and `}}` standing for single braces. A stray brace
   * or an index past the arguments makes .NET throw FormatException; the
   * model returns None.
   */
  function Format(format: string, args: seq<string>): Option<string>
    decreases |format|
  {
    if format == [] then Some("")
    else if format[0] == '{' && |format| > 1 && format[1] == '{' then
      Prepend("{", Format(format[2..], args))
    else if format[0] == '}' && |format| > 1 && format[1] == '}' then
      Prepend("}", Format(format[2..], args))
    else if format[0] == '}' then None
    else if format[0] == '{' then
      var n := DigitRun(format[1..]);
      if n == 0 || n + 1 == |format| || format[n + 1] != '}' then None
      else
        var index := DecimalValue(format[1..n + 1]);
        if index < |args| then Prepend(args[index], Format(format[n + 2..], args)) else None
    else Prepend([format[0]], Format(format[1..], args))
  }

  /** A character other than a brace is copied. */
  lemma FormatChar(c: char, rest: string, args: seq<string>)
    requires c != '{' && c != '}'
    ensures Format([c] + rest, args) == Prepend([c], Format(rest, args))
  {
    assert ([c] + rest)[1..] == rest;
  }

  /** Every index item that names an argument is replaced by that argument. */
  lemma FormatItem(d: char, rest: string, args: seq<string>)
    requires IsDigit(d) && (d as int - '0' as int) < |args|
    ensures Format(['{', d, '}'] + rest, args)
         == Prepend(args[d as int - '0' as int], Format(rest, args))
  {
    var format := ['{', d, '}'] + rest;
    assert format[1..] == [d, '}'] + rest;
    assert DigitRun([d, '}'] + rest) == 1 by {
      assert ([d, '}'] + rest)[1..] == ['}'] + rest;
    }
    assert format[0] == '{' && format[1] == d && format[2] == '}';
    assert format[1..2] == [d];
    assert DecimalValue([d]) == d as int - '0' as int by {
      assert [d][..0] == "";
    }
    assert format[3..] == rest;
  }
}
