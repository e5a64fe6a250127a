# SpanPerformanceCompare, modelled in Dafny

SpanPerformanceCompare is a set of BenchmarkDotNet benchmark classes. Each
class computes one result in several ways: with copies, with `Span<T>` or
`Span2D<T>` views over existing storage, with LINQ, or with
`StringBuilder`. Four of the classes carry BenchmarkDotNet's
`[ReturnValueValidator]`, which compares the values the ways in one class
return. Only ExtractSubstring sets `failOnError: true` and so makes a
mismatch fatal; FasterIterateAsSpan, ManyStringConcatenate and
StringConcatenate use the default, which reports it. MultiplyMatrix2D has no
validator, so nothing in the program compares its two variants. This
project models the five benchmark classes and proves that the ways in each
class agree, for MultiplyMatrix2D too. It also proves what each variant
computes, against an independent reference definition:

- **ManyStringConcatenate**: `Total_Strings` random strings of length 10,
  joined with `,` in four ways. These are a LINQ `Aggregate` fold, a
  `StringBuilder` loop, `string.Join`, and a loop that writes into a char
  buffer sized in advance. The buffer loop is proved to fill the buffer
  exactly, to stop early only after the last string, and to produce the
  join.
- **StringConcatenate**: a first, a middle and a last name, joined by single
  spaces in six ways. The names are parameters, so each variant is proved
  for all inputs. The benchmark's literals give "John Quincy Doe".
- **MultiplyMatrix2D**: two random square `int` matrices with entries in
  [0, 1000], multiplied by a triple loop that accumulates with `+=`. One
  variant uses the arrays directly and one writes through aliasing 2D
  views. Each result entry is proved to be the dot product, wrapped to 32
  bits. For the harness's sizes (up to 2000), nothing wraps, so the result
  is the exact matrix product.
- **FasterIterateAsSpan**: `Total_Numbers` random ints in [0, 1000], summed
  three ways. These are a `foreach` loop, a `foreach` over a span of the
  list, and LINQ `Sum()`. The loops are proved to compute the 32-bit
  wrapped sum. `Sum()` over `int` is checked and throws on overflow,
  unlike the unchecked `+=` loops. For the harness's sizes nothing
  overflows, and all three return the exact sum.
- **ExtractSubstring**: a random string with a random range in it, taken
  out with `Substring` and with `AsSpan().Slice(...).ToString()`. The
  chosen range is proved to lie inside the string. Both variants are
  proved to return that range.

Each benchmark class is a Dafny module. Four of them hold a `class` of the
same name. StringConcatenate has no fields, and its variants only read
their own literals; its module has no class, and its variants are
module-level functions and methods that take the three names as
parameters. `[Params]` fields are `const` fields set by the constructor. The fields
that `[GlobalSetup]` assigns are `var` fields: a `seq` for a `List<T>`, an
`array2<int>` for an `int[,]`. The library calls the benchmarks make are
modelled in the helper modules:

- `Text`: `string.Join`, `string.Concat`, `string.Format`, `Substring` and
  `StringBuilder`.
- `Span`: read-only spans, and `CopyTo` into a char buffer.
- `Linq`: `Aggregate` and `Sum`.
- `Bogus`: the random generator.
- `Int32`: unchecked 32-bit arithmetic.
- `Wrappers`: `Option`.

Modelling choices:

- **Random values.** Bogus draws become parameters, one natural number per
  draw. `Random.Int(min, max)` maps a draw into the inclusive range
  [min, max]. `Random.String2(n)` maps n draws onto its default alphabet
  `a`–`z`. Any draw is possible, so every fixture the setup could build is
  covered.
- **Range checks.** .NET checks ranges in `Substring`, `Slice`, `CopyTo`
  and span indexing, and throws when they fail. Here those checks are
  preconditions, and every call site proves them.
- **Exceptions.** Two exceptions are exercised by the benchmarks' own
  edge cases, and both are modelled as `None`. `Aggregate` on an empty
  list throws. In `UseSpan`, an empty list gives a buffer length of -1,
  and allocating it throws.
- **Unchecked arithmetic.** C# `int` arithmetic in an unchecked context is
  `Int32.Wrap` of the exact result.

## Model

| member | source | states |
|---|---|---|
| Int32.Wrap | SpanPerformanceCompare/FasterIterateAsSpan.cs:38 | the truncation of any integer to 32 bits is an int32 value |
| Int32.Add | SpanPerformanceCompare/FasterIterateAsSpan.cs:38 | unchecked `+` of two ints is an int, and is the exact sum whenever that fits |
| Int32.Mul | SpanPerformanceCompare/MultiplyMatrix2D.cs:46 | unchecked `*` of two ints is an int, and is the exact product whenever that fits |
| Int32.WrapIdentity | SpanPerformanceCompare/FasterIterateAsSpan.cs:38 | truncation leaves every int32 value unchanged |
| Int32.WrapShift | SpanPerformanceCompare/FasterIterateAsSpan.cs:38 | truncation depends only on the value modulo 2^32 |
| Int32.WrapPeriod | SpanPerformanceCompare/FasterIterateAsSpan.cs:38 | adding one period of 2^32 does not change the truncation |
| Int32.WrapAdd | SpanPerformanceCompare/FasterIterateAsSpan.cs:34-41 | adding truncated operands, then truncating, equals truncating the exact sum, so an accumulator that wraps at every step ends at the wrapped exact total |
| Bogus.Int | SpanPerformanceCompare/FasterIterateAsSpan.cs:26 | `Random.Int(min, max)` returns a value in the inclusive range [min, max] |
| Bogus.IntCoversRange | SpanPerformanceCompare/ExtractSubstring.cs:30-31 | every value in [min, max] is the outcome of some draw |
| Bogus.String2 | SpanPerformanceCompare/ManyStringConcatenate.cs:29 | `Random.String2(n)` has exactly n characters, each from the default alphabet |
| Text.Join | SpanPerformanceCompare/ManyStringConcatenate.cs:68 | `string.Join(separator, values)`: "" for no values, the single value for one, otherwise the join of all but the last, the separator, then the last value |
| Text.Concat | SpanPerformanceCompare/StringConcatenate.cs:36 | `string.Concat(values)`: the values in order with nothing between; its length is the total length of the values |
| Text.SumLengths | SpanPerformanceCompare/ManyStringConcatenate.cs:74 | `values.Sum(s => s.Length)`: 0 for no values, otherwise the total of all but the last plus the last one's length |
| Text.Format | SpanPerformanceCompare/StringConcatenate.cs:50 | `string.Format(format, args)`: literal characters are copied, `{{` and `}}` give one brace, `{d…}` gives argument d…, and a stray brace or a missing argument gives None (FormatException) |
| Text.StringBuilder.ToString | SpanPerformanceCompare/StringConcatenate.cs:82 | `ToString()`: the characters appended so far, in order |
| Linq.Sum | SpanPerformanceCompare/FasterIterateAsSpan.cs:60 | the exact sum of the values, added in order: 0 for none, otherwise the sum of all but the last plus the last |
| ManyStringConcatenateBenchmark.AppendWithDelimiter | SpanPerformanceCompare/ManyStringConcatenate.cs:37 | the fold's lambda `(current, next) => current + ',' + next` |
| ManyStringConcatenateBenchmark.DrawnStringHasNoDelimiter | SpanPerformanceCompare/ManyStringConcatenate.cs:29 | a string drawn with `String2` over `a`–`z` contains no `,` |
| ManyStringConcatenateBenchmark.JoinedDelimiters | SpanPerformanceCompare/ManyStringConcatenate.cs:68 | on strings without `,` (every string the setup draws), `string.Join(',', …)` contains exactly count - 1 commas, and removing them gives the strings concatenated in order |
| MultiplyMatrix2DBenchmark.Dot | SpanPerformanceCompare/MultiplyMatrix2D.cs:44-47 | the exact sum over the first k values of `a[i][k] * b[k][j]`, added in the order of the inner loop |
| Text.Without | SpanPerformanceCompare/ManyStringConcatenate.cs:68 | removing a character leaves no occurrence of it, and never lengthens the string |
| Text.JoinStep | SpanPerformanceCompare/ManyStringConcatenate.cs:68 | the join of the first k + 1 values is the join of the first k values, then the separator (if k > 0), then value k |
| Text.ConcatStep | SpanPerformanceCompare/StringConcatenate.cs:36 | the concatenation of the first k + 1 values extends that of the first k values by value k |
| Text.SumLengthsStep | SpanPerformanceCompare/ManyStringConcatenate.cs:74 | the total length of the first k + 1 values is that of the first k values plus the length of value k |
| Text.SumLengthsPrefix | SpanPerformanceCompare/ManyStringConcatenate.cs:74 | a prefix of the values is never longer in total than all of them |
| Text.JoinLength | SpanPerformanceCompare/ManyStringConcatenate.cs:74 | a join of n ≥ 1 values has length Σ lengths + (n - 1) · separator length, the buffer size `UseSpan` allocates |
| Text.WithoutAppend | SpanPerformanceCompare/ManyStringConcatenate.cs:68 | removing a character, and counting it, both distribute over concatenation |
| Text.WithoutAbsent | SpanPerformanceCompare/ManyStringConcatenate.cs:68 | a string without the character is unchanged by removing it, and contains it 0 times |
| Text.JoinDelimiters | SpanPerformanceCompare/ManyStringConcatenate.cs:68 | when no value contains the delimiter, the join contains exactly n - 1 delimiters, and removing them gives the values concatenated in order |
| Text.WithoutDelimited | SpanPerformanceCompare/ManyStringConcatenate.cs:68 | a delimiter between two strings is removed along with the rest |
| Text.OccurrencesDelimited | SpanPerformanceCompare/ManyStringConcatenate.cs:68 | a delimiter between two strings is counted once |
| Text.WithoutDelimiter | SpanPerformanceCompare/ManyStringConcatenate.cs:68 | the delimiter alone occurs once, and leaves nothing when removed |
| Text.Substring | SpanPerformanceCompare/ExtractSubstring.cs:38 | `Substring(start, length)` on an in-range request has `length` characters, character i being `s[start + i]` |
| Text.StringBuilder.constructor | SpanPerformanceCompare/StringConcatenate.cs:76 | a new builder is empty |
| Text.StringBuilder.Append | SpanPerformanceCompare/StringConcatenate.cs:77 | `Append(string)` adds the string at the end and changes nothing else |
| Text.StringBuilder.AppendChar | SpanPerformanceCompare/StringConcatenate.cs:78 | `Append(char)` adds the character at the end and changes nothing else |
| Text.DigitRun | SpanPerformanceCompare/StringConcatenate.cs:50 | the index of a format item is the longest run of digits after `{`: every character in the run is a digit, and the next one is not |
| Text.FormatChar | SpanPerformanceCompare/StringConcatenate.cs:50 | a character other than a brace is copied to the output |
| Text.FormatItem | SpanPerformanceCompare/StringConcatenate.cs:50 | an item `{d}` naming an argument is replaced by argument d |
| Span.ReadOnlySpan.Elements | SpanPerformanceCompare/ManyStringConcatenate.cs:79 | a view shows exactly `length` elements |
| Span.ReadOnlySpan.At | SpanPerformanceCompare/FasterIterateAsSpan.cs:49 | `span[i]` is element i of what the view shows |
| Span.ReadOnlySpan.Slice | SpanPerformanceCompare/ExtractSubstring.cs:44 | `Slice(start, count)` stays over the same storage, and shows the elements from `start` to `start + count` of the original view |
| Span.SliceOfSlice | SpanPerformanceCompare/ExtractSubstring.cs:44 | a window of a window is the window of the storage with the offsets added |
| Span.AsSpan | SpanPerformanceCompare/ManyStringConcatenate.cs:79 | `AsSpan` is a view over the whole storage that shows exactly its elements |
| Span.CopyTo | SpanPerformanceCompare/ManyStringConcatenate.cs:82 | `CopyTo(buffer.Slice(at))` writes the source at `at` and leaves every other position of the buffer as it was |
| Linq.Aggregate | SpanPerformanceCompare/ManyStringConcatenate.cs:37 | `Aggregate` fails exactly on an empty source |
| Linq.SumStep | SpanPerformanceCompare/FasterIterateAsSpan.cs:60 | the sum of the first k + 1 values extends the sum of the first k by value k |
| Linq.SumBounds | SpanPerformanceCompare/FasterIterateAsSpan.cs:26 | values in [0, bound] sum to a value in [0, count · bound] |
| ExtractSubstringBenchmark.SelectionBounds | SpanPerformanceCompare/ExtractSubstring.cs:30-32 | a chosen range starts in the first half of the string, is non-empty, lies within the string and never reaches its last character |
| ExtractSubstringBenchmark.EverySelectionReachable | SpanPerformanceCompare/ExtractSubstring.cs:30-32 | every range with those bounds is chosen by some pair of draws |
| ExtractSubstringBenchmark.ParametersAdmitSetup | SpanPerformanceCompare/ExtractSubstring.cs:13 | for every `String_Length` the harness uses, both draw ranges are non-empty |
| ExtractSubstringBenchmark.ExtractSubstring.constructor | SpanPerformanceCompare/ExtractSubstring.cs:18-20 | before setup there is no string and both offsets are 0 |
| ExtractSubstringBenchmark.ExtractSubstring.Setup | SpanPerformanceCompare/ExtractSubstring.cs:23-33 | the setup draws the string, then the start from [0, L/2 - 1], then the end from [start + 1, L - 1], with length = end - start; it succeeds exactly when L ≥ 2, and then the fixture is valid |
| ExtractSubstringBenchmark.ExtractSubstring.UseSubstring | SpanPerformanceCompare/ExtractSubstring.cs:36-39 | `Substring` returns `s[start..start + length]`, of length `length` |
| ExtractSubstringBenchmark.ExtractSubstring.UseSpanSlice | SpanPerformanceCompare/ExtractSubstring.cs:42-45 | slicing a view and copying it out returns `s[start..start + length]`, of length `length` |
| ExtractSubstringBenchmark.VariantsAgree | SpanPerformanceCompare/ExtractSubstring.cs:10 | on every fixture the setup builds, both variants return the same non-empty string, as `failOnError: true` requires |
| ExtractSubstringBenchmark.SliceMatchesSubstring | SpanPerformanceCompare/ExtractSubstring.cs:44 | for every in-range request, view-slice-copy equals `Substring` |
| FasterIterateAsSpanBenchmark.FasterIterateAsSpan.constructor | SpanPerformanceCompare/FasterIterateAsSpan.cs:17 | the list starts empty |
| FasterIterateAsSpanBenchmark.FasterIterateAsSpan.SetupSourceNumbers | SpanPerformanceCompare/FasterIterateAsSpan.cs:20-29 | the setup appends exactly `Total_Numbers` values, in draw order, each in [0, 1000], and keeps what was there |
| FasterIterateAsSpanBenchmark.FasterIterateAsSpan.UseNormalForLoop | SpanPerformanceCompare/FasterIterateAsSpan.cs:32-42 | on every list of C# ints, the `foreach` accumulator returns the sum of the list, wrapped to 32 bits |
| FasterIterateAsSpanBenchmark.FasterIterateAsSpan.UseSpan | SpanPerformanceCompare/FasterIterateAsSpan.cs:45-55 | on every list of C# ints, the accumulator over the span view returns the same wrapped sum |
| FasterIterateAsSpanBenchmark.FasterIterateAsSpan.UseLinqSum | SpanPerformanceCompare/FasterIterateAsSpan.cs:58-61 | on lists of at most 10^6 drawn values, `Sum()` returns the exact sum, which fits in an int |
| FasterIterateAsSpanBenchmark.FasterIterateAsSpan.ValidateReturnValues | SpanPerformanceCompare/FasterIterateAsSpan.cs:9 | on every list the setup builds for the harness's sizes, all three variants return the exact sum |
| FasterIterateAsSpanBenchmark.SumFits | SpanPerformanceCompare/FasterIterateAsSpan.cs:12 | at most 10^6 values in [0, 1000] sum to at most 10^9, so wrapping changes nothing |
| FasterIterateAsSpanBenchmark.EmptySum | SpanPerformanceCompare/FasterIterateAsSpan.cs:34-41 | an empty list sums to 0 |
| ManyStringConcatenateBenchmark.AggregateJoins | SpanPerformanceCompare/ManyStringConcatenate.cs:37 | folding with `current + ',' + next` joins the list with `,` in its original order, and fails only on an empty list |
| ManyStringConcatenateBenchmark.BufferStep | SpanPerformanceCompare/ManyStringConcatenate.cs:80-91 | copying string k after what is already written gives the join of the first k + 1 strings, and writing `,` after it gives what is written before string k + 1; the index then reaches the buffer's end exactly when k is the last string |
| ManyStringConcatenateBenchmark.ManyStringConcatenate.constructor | SpanPerformanceCompare/ManyStringConcatenate.cs:19 | the list starts empty |
| ManyStringConcatenateBenchmark.ManyStringConcatenate.SetupSourceStrings | SpanPerformanceCompare/ManyStringConcatenate.cs:22-32 | the setup appends exactly `Total_Strings` strings of length 10, in draw order, none containing `,`; from an empty list, with a harness parameter, at least 5 strings result |
| ManyStringConcatenateBenchmark.ManyStringConcatenate.UseLinqAggregate | SpanPerformanceCompare/ManyStringConcatenate.cs:35-38 | the fold returns the `,`-join of the list, and fails only on an empty list |
| ManyStringConcatenateBenchmark.ManyStringConcatenate.UseStringBuilder | SpanPerformanceCompare/ManyStringConcatenate.cs:47-63 | appending each string, then `,` unless it is the last, builds the `,`-join |
| ManyStringConcatenateBenchmark.ManyStringConcatenate.UseStringJoin | SpanPerformanceCompare/ManyStringConcatenate.cs:66-69 | `string.Join(',', …)` has length Σ lengths + count - 1, and is empty for an empty list |
| ManyStringConcatenateBenchmark.ManyStringConcatenate.UseSpan | SpanPerformanceCompare/ManyStringConcatenate.cs:72-94 | the buffer loop returns the `,`-join of the list, and fails exactly on an empty list |
| ManyStringConcatenateBenchmark.ManyStringConcatenate.ValidateReturnValues | SpanPerformanceCompare/ManyStringConcatenate.cs:11 | on a non-empty list, all four variants return the same string: the `,`-join |
| StringConcatenateBenchmark.UseStringConcatenate | SpanPerformanceCompare/StringConcatenate.cs:23 | `first + " " + middle + " " + last` has length `|first| + |middle| + |last| + 2`, with first at 0, a space after it, middle after that, a second space, and last in the rest |
| StringConcatenateBenchmark.UseStringInterpolation | SpanPerformanceCompare/StringConcatenate.cs:36 | the interpolation equals the `+` reference |
| StringConcatenateBenchmark.InterpolatedParts | SpanPerformanceCompare/StringConcatenate.cs:36 | the holes and literal parts `first`, `" "`, `middle`, `" "`, `last`, concatenated in order, are the `+` reference |
| StringConcatenateBenchmark.UseStringFormat | SpanPerformanceCompare/StringConcatenate.cs:50 | `string.Format("{0} {1} {2}", …)` succeeds and equals the reference |
| StringConcatenateBenchmark.FormatNames | SpanPerformanceCompare/StringConcatenate.cs:50 | the three items of the format take the three arguments in order, and the spaces are kept |
| StringConcatenateBenchmark.FormatLastItems | SpanPerformanceCompare/StringConcatenate.cs:50 | from its second item on, the format gives the middle name, a space and the last name |
| StringConcatenateBenchmark.SpacedPieces | SpanPerformanceCompare/StringConcatenate.cs:23 | regrouping the pieces of the reference does not change it |
| StringConcatenateBenchmark.UseStringJoin | SpanPerformanceCompare/StringConcatenate.cs:63 | `string.Join(" ", first, middle, last)` equals the reference |
| StringConcatenateBenchmark.UseStringBuilder | SpanPerformanceCompare/StringConcatenate.cs:67-83 | appending first, `' '`, middle, `' '`, last in order builds the reference |
| StringConcatenateBenchmark.UseSpanOfChar | SpanPerformanceCompare/StringConcatenate.cs:86-102 | the buffer of length `|first| + |middle| + |last| + 2`, with every copy in bounds, ends up holding the reference |
| StringConcatenateBenchmark.ValidateReturnValues | SpanPerformanceCompare/StringConcatenate.cs:9 | on the benchmark's literals, all six variants return "John Quincy Doe" |
| StringConcatenateBenchmark.FixedFullName | SpanPerformanceCompare/StringConcatenate.cs:17-23 | the literals "John", "Quincy", "Doe" make "John Quincy Doe" |
| MultiplyMatrix2DBenchmark.Product | SpanPerformanceCompare/MultiplyMatrix2D.cs:40-49 | the reference product is n × n, and entry (i, j) is the dot product of row i and column j |
| MultiplyMatrix2DBenchmark.Elements | SpanPerformanceCompare/MultiplyMatrix2D.cs:16-17 | the value of a 2D array has its dimensions, and entry (i, j) is `m[i, j]` |
| MultiplyMatrix2DBenchmark.ExampleProduct | SpanPerformanceCompare/MultiplyMatrix2D.cs:40-49 | [[1,2],[3,4]] times [[5,6],[7,8]] is [[19,22],[43,50]] |
| MultiplyMatrix2DBenchmark.DotBounds | SpanPerformanceCompare/MultiplyMatrix2D.cs:30-31 | with entries in [0, 1000], a k-term dot product lies in [0, k · 10^6] |
| MultiplyMatrix2DBenchmark.TermBound | SpanPerformanceCompare/MultiplyMatrix2D.cs:46 | one product of two entries in [0, 1000] lies in [0, 10^6] |
| MultiplyMatrix2DBenchmark.NoOverflow | SpanPerformanceCompare/MultiplyMatrix2D.cs:11 | for `Matrix_Size` ≤ 2000 and drawn entries, every dot product is at most 2 · 10^9, below 2^31 - 1, so wrapping changes nothing |
| MultiplyMatrix2DBenchmark.AccumulateStep | SpanPerformanceCompare/MultiplyMatrix2D.cs:46 | one `+=` of a wrapped product onto the wrapped partial dot product gives the wrapped next partial dot product |
| MultiplyMatrix2DBenchmark.Accumulated | SpanPerformanceCompare/MultiplyMatrix2D.cs:46 | the accumulator after any number of inner passes is an int |
| MultiplyMatrix2DBenchmark.AccumulatedIsWrappedDot | SpanPerformanceCompare/MultiplyMatrix2D.cs:44-47 | wrapping at every step gives the exact partial dot product, wrapped once |
| MultiplyMatrix2DBenchmark.AccumulateEntry | SpanPerformanceCompare/MultiplyMatrix2D.cs:44-47 | the inner loop for entry (i, j), started from 0, leaves in it the accumulated dot product, and changes no other entry |
| MultiplyMatrix2DBenchmark.AccumulateRow | SpanPerformanceCompare/MultiplyMatrix2D.cs:42-48 | the middle loop for row i, started from a zero row, completes every entry of the row, and changes no other row |
| MultiplyMatrix2DBenchmark.AccumulateProduct | SpanPerformanceCompare/MultiplyMatrix2D.cs:40-49 | the outer loop over a zeroed result leaves the wrapped dot product in every entry; when row i starts, the rows before it are complete and the rest are still zero |
| MultiplyMatrix2DBenchmark.MultiplyMatrix2D.constructor | SpanPerformanceCompare/MultiplyMatrix2D.cs:16-17 | before setup both matrices are empty |
| MultiplyMatrix2DBenchmark.MultiplyMatrix2D.Setup | SpanPerformanceCompare/MultiplyMatrix2D.cs:20-34 | the setup makes two new `Matrix_Size` × `Matrix_Size` arrays, fills each entry from its own draw, and leaves every entry in [0, 1000] |
| MultiplyMatrix2DBenchmark.MultiplyMatrix2D.MultiplyMatrix | SpanPerformanceCompare/MultiplyMatrix2D.cs:37-52 | a fresh n × n result whose entry (i, j) is the dot product of row i of `_matrix1` and column j of `_matrix2`, wrapped to 32 bits; the inputs are not modified |
| MultiplyMatrix2DBenchmark.MultiplyMatrix2D.MultiplyMatrixUsingSpan | SpanPerformanceCompare/MultiplyMatrix2D.cs:55-75 | writing through a view that aliases the result gives the same fresh result, entry by entry |
| MultiplyMatrix2DBenchmark.MultiplyMatrix2D.VariantsAgree | SpanPerformanceCompare/MultiplyMatrix2D.cs:37-75 | both variants return arrays with equal entries; on drawn matrices of every harness size, that is the exact matrix product |

## Left out

- `UseParallelLinqAggregate` (`ManyStringConcatenate.cs`, line 43): its point is PLINQ scheduling, which is concurrency.
- `Program.cs` and the BenchmarkDotNet attributes: they configure timing, allocation columns, ranking and ordering, which do not affect the values returned.
- The validator is not modelled as a component. For the four validated classes, `ValidateReturnValues` (or `VariantsAgree` in ExtractSubstring) states the equality the validator checks. `MultiplyMatrix2D.VariantsAgree` states an agreement that the program itself never checks.
- Bogus's random number generation: draws are parameters, so the model does not choose values. Bogus is not part of this model.
- ExtractSubstringBenchmark.ExtractSubstring.Setup: for `String_Length < 2`, the model fails the setup and keeps the old offsets. It does not reproduce what Bogus's `Random.Int(min, max)` does when `min > max`. That behaviour depends on Bogus, which is outside this model. If `Random.Int` forwards to `System.Random.Next(min, max + 1)`, then a length of 1 would give start 0 and length 1 (the whole string, its last character included). A length of 0 would throw after `_startIndex` had been set to 0. Neither length is among the harness's values.
- Negative `[Params]` values: the sizes are `nat`. None of the harness's values is negative.
- FasterIterateAsSpanBenchmark.FasterIterateAsSpan.UseLinqSum: modelled only for lists of at most 10^6 values in [0, 1000], where the sum cannot overflow. Above that, .NET's checked `Sum()` throws `OverflowException`, and that path is not modelled.
- ManyStringConcatenateBenchmark.ManyStringConcatenate.UseSpan: `Sum(s => s.Length)` is checked in .NET and would throw once the total passed 2^31 - 1. The model uses the exact total. For `Total_Strings` ≤ 10 000 strings of length 10, the total is far below that.
- Text.Format: covers items of the form `{index}`, plus the `{{` and `}}` escapes. Alignment (`{0,5}`), format strings (`{0:x}`) and spaces inside items are not modelled, because the benchmark's format uses none of them.
- Span memory semantics: a `Span`/`ReadOnlySpan` is modelled as a window on a sequence value, and a writable buffer as an `array`. Ref-struct lifetime rules and stack allocation are not modelled. The list under a view cannot change while the view is live, because the view holds the list's value. This is what the comment at `ManyStringConcatenate.cs`, lines 77-78, requires of the program.
- `Span2D<T>` views: `AsSpan2D()` is modelled as the array itself. The aliasing is therefore exact, and the two matrix variants run the same three loops. The loops are split into three methods, `AccumulateProduct`, `AccumulateRow` and `AccumulateEntry`, one loop each, and both variants call them.
- Fields that are `null` before setup are modelled as empty strings, lists or 0 × 0 arrays. No variant can run before setup in the harness.
- .NET strings are sequences of UTF-16 code units. Here they are Dafny strings, which are sequences of Unicode scalar values. The two agree only on strings without surrogate pairs: a surrogate pair is two .NET `char`s but one Dafny `char`, so `Length` and `Substring` offsets would differ. Every string the benchmarks build is made of `a`–`z`, `,`, spaces and the ASCII name literals, so none has a surrogate pair.
