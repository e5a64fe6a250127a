/**
 * StringConcatenate: a first, a middle and a last name joined by single
 * spaces, six ways. The benchmark builds "John Quincy Doe" from fixed
 * literals; the variants here take the three names as parameters, and
 * ValidateReturnValues applies them to the literals.
 */
module StringConcatenateBenchmark {
  import opened Wrappers
  import opened Text
  import opened Span

  const FirstName: string := "John"
  const MiddleName: string := "Quincy"
  const LastName: string := "Doe"

  /** The composite format the `string.Format` variant uses. */
  const NameFormat: string := "{0} {1} {2}"

  /**
   * `UseStringConcatenate()`: `firstName + " " + middleName + " " + lastName`,
   * the reference the other variants are proved equal to. It places the
   * first name at 0, a space right after it, the middle name after that
   * space, a second space right after the middle name, and the last name in
   * the rest: disjoint pieces covering the whole string.
   */
  function UseStringConcatenate(first: string, middle: string, last: string): (r: string)
    ensures |r| == |first| + |middle| + |last| + 2
    ensures r[..|first|] == first && r[|first|] == ' '
    ensures r[|first| + 1..|first| + 1 + |middle|] == middle && r[|first| + 1 + |middle|] == ' '
    ensures r[|first| + 1 + |middle| + 1..] == last
  {
    var r := first + " " + middle + " " + last;
    assert r == first + ([' '] + (middle + ([' '] + last)));
    r
  }

  /**
   * `UseStringInterpolation()`: `$"{firstName} {middleName} {lastName}"`, the
   * holes and the literal parts between them concatenated in order.
   */
  function UseStringInterpolation(first: string, middle: string, last: string): (r: string)
    ensures r == UseStringConcatenate(first, middle, last)
  {
    InterpolatedParts(first, middle, last);
    Concat([first, " ", middle, " ", last])
  }

  /** The holes and literal parts of the interpolation, concatenated in order. */
  lemma InterpolatedParts(first: string, middle: string, last: string)
    ensures Concat([first, " ", middle, " ", last]) == first + " " + middle + " " + last
  {
    var parts := [first, " ", middle, " ", last];
    assert parts[..0] == [] && parts[..5] == parts;
    ConcatStep(parts, 0);
    assert Concat(parts[..1]) == first;
    ConcatStep(parts, 1);
    assert Concat(parts[..2]) == first + " ";
    ConcatStep(parts, 2);
    assert Concat(parts[..3]) == first + " " + middle;
    ConcatStep(parts, 3);
    assert Concat(parts[..4]) == first + " " + middle + " ";
    ConcatStep(parts, 4);
  }

  /** `UseStringFormat()`: `string.Format("{0} {1} {2}", firstName, middleName, lastName)`. */
  function UseStringFormat(first: string, middle: string, last: string): (r: Option<string>)
    ensures r == Some(UseStringConcatenate(first, middle, last))
  {
    FormatNames(NameFormat, first, middle, last);
    Format(NameFormat, [first, middle, last])
  }

  /** The three items of NameFormat take the three arguments in order, spaces kept. */
  lemma FormatNames(format: string, first: string, middle: string, last: string)
    requires format == NameFormat
    ensures Format(format, [first, middle, last]) == Some(first + " " + middle + " " + last)
  {
    var args := [first, middle, last];
    FormatLastItems(format, first, middle, last);
    assert Format(format[3..], args) == Some(" " + middle + " " + last) by {
      assert format[3..] == [' '] + format[4..];
      FormatChar(' ', format[4..], args);
      SpacedPieces(first, middle, last);
    }
    assert format == ['{', '0', '}'] + format[3..];
    FormatItem('0', format[3..], args);
    SpacedPieces(first, middle, last);
  }

  /** From its second item on, NameFormat gives the middle name, a space and the last name. */
  lemma FormatLastItems(format: string, first: string, middle: string, last: string)
    requires format == NameFormat
    ensures Format(format[4..], [first, middle, last]) == Some(middle + " " + last)
  {
    var args := [first, middle, last];
    assert |format| == 11;
    assert Format(format[8..], args) == Some(last) by {
      assert format[8..] == ['{', '2', '}'] + format[11..];
      FormatItem('2', format[11..], args);
      assert format[11..] == [] && last + "" == last;
    }
    assert Format(format[7..], args) == Some(" " + last) by {
      assert format[7..] == [' '] + format[8..];
      FormatChar(' ', format[8..], args);
    }
    assert format[4..] == ['{', '1', '}'] + format[7..];
    FormatItem('1', format[7..], args);
    SpacedPieces(first, middle, last);
  }

  /** The suffixes the format steps produce, read back as the reference. */
  lemma SpacedPieces(first: string, middle: string, last: string)
    ensures first + (" " + middle + " " + last) == first + " " + middle + " " + last
    ensures " " + (middle + " " + last) == " " + middle + " " + last
    ensures middle + (" " + last) == middle + " " + last
  {
  }

  /** `UseStringJoin()`: `string.Join(" ", firstName, middleName, lastName)`. */
  function UseStringJoin(first: string, middle: string, last: string): (r: string)
    ensures r == UseStringConcatenate(first, middle, last)
  {
    var values := [first, middle, last];
    JoinStep(" ", values, 0);
    JoinStep(" ", values, 1);
    JoinStep(" ", values, 2);
    assert values[..3] == values;
    Join(" ", values)
  }

  /** `UseStringBuilder()`: appends the first name, ' ', the middle name, ' ', the last name. */
  method UseStringBuilder(first: string, middle: string, last: string) returns (r: string)
    ensures r == UseStringConcatenate(first, middle, last)
  {
    var sb := new StringBuilder();
    sb.Append(first);
    sb.AppendChar(' ');
    sb.Append(middle);
    sb.AppendChar(' ');
    sb.Append(last);
    r := sb.ToString();
  }

  /**
   * `UseSpanOfChar()`: a char buffer of length |first| + |middle| + |last| + 2,
   * the first name copied to 0, a space at |first|, the middle name copied
   * to |first| + 1, a space after it and the last name copied to the rest.
   * Every copy stays within the buffer and together they write all of it.
   */
  method UseSpanOfChar(first: string, middle: string, last: string) returns (r: string)
    ensures |r| == |first| + |middle| + |last| + 2
    ensures r == UseStringConcatenate(first, middle, last)
  {
    var fullNameSpan := new char[|first| + |middle| + |last| + 2];
    CopyTo(first, fullNameSpan, 0);
    assert fullNameSpan[..|first|] == first;
    fullNameSpan[|first|] := ' ';
    assert fullNameSpan[..|first| + 1] == first + " ";
    CopyTo(middle, fullNameSpan, |first| + 1);
    fullNameSpan[|first| + 1 + |middle|] := ' ';
    assert fullNameSpan[..|first| + 1 + |middle| + 1] == first + " " + middle + " ";
    CopyTo(last, fullNameSpan, |first| + 1 + |middle| + 1);
    assert fullNameSpan[..] == fullNameSpan[..|first| + 1 + |middle| + 1 + |last|];
    r := fullNameSpan[..];
  }

  /**
   * The return-value validator's check on the benchmark's literals: every
   * variant returns "John Quincy Doe".
   */
  method ValidateReturnValues()
    returns (concatenate: string, interpolation: string, format: string, join: string,
             builder: string, span: string)
    ensures concatenate == interpolation == format == join == builder == span == "John Quincy Doe"
  {
    concatenate := UseStringConcatenate(FirstName, MiddleName, LastName);
    interpolation := UseStringInterpolation(FirstName, MiddleName, LastName);
    format := UseStringFormat(FirstName, MiddleName, LastName).value;
    join := UseStringJoin(FirstName, MiddleName, LastName);
    builder := UseStringBuilder(FirstName, MiddleName, LastName);
    span := UseSpanOfChar(FirstName, MiddleName, LastName);
    FixedFullName();
  }

  /** The benchmark's literals make "John Quincy Doe". */
  lemma FixedFullName()
    ensures UseStringConcatenate(FirstName, MiddleName, LastName) == "John Quincy Doe"
  {
  }
}
