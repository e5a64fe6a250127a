/**
 * MultiplyMatrix2D: two random Matrix_Size x Matrix_Size int matrices with
 * entries in [0, 1000], multiplied by the textbook triple loop, once on the
 * arrays themselves and once through 2D views of the same storage. The
 * accumulation `result[i, j] += a * b` is unchecked int arithmetic.
 */
module MultiplyMatrix2DBenchmark {
  import Int32
  import Bogus

  /** The values the harness gives Matrix_Size. */
  const MatrixSizes: seq<nat> := [2, 3, 5, 10, 20, 50, 100, 200, 300, 500, 750, 1000, 1500, 2000]

  /** The largest entry the setup draws. */
  const MaxEntry: nat := 1000

  /** A matrix as a value: its rows, in order. */
  type Matrix = seq<seq<int>>

  predicate IsSquare(m: Matrix, n: nat) {
    |m| == n && forall i :: 0 <= i < n ==> |m[i]| == n
  }

  /** The dot product of row i of a and column j of b over the first k terms. */
  function Dot(a: Matrix, b: Matrix, n: nat, i: nat, j: nat, k: nat): int
    requires IsSquare(a, n) && IsSquare(b, n) && i < n && j < n && k <= n
  {
    if k == 0 then 0 else Dot(a, b, n, i, j, k - 1) + a[i][k - 1] * b[k - 1][j]
  }

  /** The matrix product: entry (i, j) is the sum over k of a[i][k] * b[k][j]. */
  function Product(a: Matrix, b: Matrix, n: nat): (c: Matrix)
    requires IsSquare(a, n) && IsSquare(b, n)
    ensures IsSquare(c, n)
    ensures forall i, j :: 0 <= i < n && 0 <= j < n ==> c[i][j] == Dot(a, b, n, i, j, n)
  {
    seq(n, i requires 0 <= i < n => seq(n, j requires 0 <= j < n => Dot(a, b, n, i, j, n)))
  }

  /** The contents of a 2D array, row by row. */
  function Elements(m: array2<int>): (r: Matrix)
    reads m
    ensures |r| == m.Length0
    ensures forall i :: 0 <= i < m.Length0 ==> |r[i]| == m.Length1
    ensures forall i, j :: 0 <= i < m.Length0 && 0 <= j < m.Length1 ==> r[i][j] == m[i, j]
  {
    seq(m.Length0, i requires 0 <= i < m.Length0 reads m =>
      seq(m.Length1, j requires 0 <= j < m.Length1 reads m => m[i, j]))
  }

  /** The worked example: [[1,2],[3,4]] times [[5,6],[7,8]] is [[19,22],[43,50]]. */
  lemma ExampleProduct()
    ensures Product([[1, 2], [3, 4]], [[5, 6], [7, 8]], 2) == [[19, 22], [43, 50]]
  {
    var a: Matrix := [[1, 2], [3, 4]];
    var b: Matrix := [[5, 6], [7, 8]];
    assert Dot(a, b, 2, 0, 0, 2) == 19;
    assert Dot(a, b, 2, 0, 1, 2) == 22;
    assert Dot(a, b, 2, 1, 0, 2) == 43;
    assert Dot(a, b, 2, 1, 1, 2) == 50;
    assert Product(a, b, 2)[0] == [19, 22];
    assert Product(a, b, 2)[1] == [43, 50];
  }

  /** Entries in [0, 1000] make a k-term dot product lie in [0, k * 10^6]. */
  lemma {:induction false} DotBounds(a: Matrix, b: Matrix, n: nat, i: nat, j: nat, k: nat)
    requires IsSquare(a, n) && IsSquare(b, n) && i < n && j < n && k <= n
    requires forall r, c :: 0 <= r < n && 0 <= c < n ==> 0 <= a[r][c] <= MaxEntry && 0 <= b[r][c] <= MaxEntry
    ensures 0 <= Dot(a, b, n, i, j, k) <= k * 1_000_000
  {
    if k > 0 {
      DotBounds(a, b, n, i, j, k - 1);
      TermBound(a[i][k - 1], b[k - 1][j]);
    }
  }

  /** One term of such a dot product lies in [0, 10^6]. */
  lemma TermBound(x: int, y: int)
    requires 0 <= x <= MaxEntry && 0 <= y <= MaxEntry
    ensures 0 <= x * y <= 1_000_000
  {
    assert x * y <= MaxEntry * y;
  }

  /**
   * For Matrix_Size up to 2000 and entries in [0, 1000] every dot product is
   * at most 2 * 10^9, below 2^31 - 1: the 32-bit accumulation never wraps and
   * each result entry is the exact product entry.
   */
  lemma NoOverflow(a: Matrix, b: Matrix, n: nat, i: nat, j: nat)
    requires n <= MatrixSizes[|MatrixSizes| - 1]
    requires IsSquare(a, n) && IsSquare(b, n) && i < n && j < n
    requires forall r, c :: 0 <= r < n && 0 <= c < n ==> 0 <= a[r][c] <= MaxEntry && 0 <= b[r][c] <= MaxEntry
    ensures 0 <= Dot(a, b, n, i, j, n) <= 2_000_000_000
    ensures Int32.Wrap(Dot(a, b, n, i, j, n)) == Dot(a, b, n, i, j, n)
  {
    DotBounds(a, b, n, i, j, n);
    Int32.WrapIdentity(Dot(a, b, n, i, j, n));
  }

  /** One step of the inner loop: the wrapped accumulator takes the next term. */
  lemma AccumulateStep(a: Matrix, b: Matrix, n: nat, i: nat, j: nat, k: nat, acc: int)
    requires IsSquare(a, n) && IsSquare(b, n) && i < n && j < n && k < n
    requires Int32.InRange(a[i][k]) && Int32.InRange(b[k][j])
    requires acc == Int32.Wrap(Dot(a, b, n, i, j, k))
    ensures Int32.Add(acc, Int32.Mul(a[i][k], b[k][j])) == Int32.Wrap(Dot(a, b, n, i, j, k + 1))
  {
    Int32.WrapAdd(Dot(a, b, n, i, j, k), a[i][k] * b[k][j]);
  }

  /** Every entry of the n x n matrix m is an int value. */
  predicate HoldsInt32(m: Matrix, n: nat)
    requires IsSquare(m, n)
  {
    forall r, c :: 0 <= r < n && 0 <= c < n ==> Int32.InRange(m[r][c])
  }

  /**
   * The accumulator `result[i, j]` after the first k passes of the inner
   * loop, computed as the program does: each product and each sum wraps to
   * 32 bits.
   */
  function Accumulated(a: Matrix, b: Matrix, n: nat, i: nat, j: nat, k: nat): (r: int)
    requires IsSquare(a, n) && IsSquare(b, n) && HoldsInt32(a, n) && HoldsInt32(b, n)
    requires i < n && j < n && k <= n
    ensures Int32.InRange(r)
  {
    if k == 0 then 0 else Int32.Add(Accumulated(a, b, n, i, j, k - 1), Int32.Mul(a[i][k - 1], b[k - 1][j]))
  }

  /** Wrapping each step gives the exact dot product, wrapped once at the end. */
  lemma {:induction false} AccumulatedIsWrappedDot(a: Matrix, b: Matrix, n: nat, i: nat, j: nat, k: nat)
    requires IsSquare(a, n) && IsSquare(b, n) && HoldsInt32(a, n) && HoldsInt32(b, n)
    requires i < n && j < n && k <= n
    ensures Accumulated(a, b, n, i, j, k) == Int32.Wrap(Dot(a, b, n, i, j, k))
  {
    if k == 0 {
      Int32.WrapIdentity(0);
    } else {
      AccumulatedIsWrappedDot(a, b, n, i, j, k - 1);
      AccumulateStep(a, b, n, i, j, k - 1, Accumulated(a, b, n, i, j, k - 1));
    }
  }

  /** The n x n array m holds the matrix value a. */
  ghost predicate Represents(m: array2<int>, a: Matrix, n: nat)
    reads m
  {
    m.Length0 == n && m.Length1 == n && IsSquare(a, n) &&
    forall r, c :: 0 <= r < n && 0 <= c < n ==> m[r, c] == a[r][c]
  }

  /**
   * The innermost loop for entry (i, j): `result[i, j] += left[i, k] *
   * right[k, j]` for k from 0 up to n, starting from 0. Only that entry of
   * `result` changes.
   */
  method AccumulateEntry(result: array2<int>, left: array2<int>, right: array2<int>, n: nat, i: nat, j: nat,
                         ghost a: Matrix, ghost b: Matrix)
    requires result != left && result != right
    requires result.Length0 == n && result.Length1 == n && i < n && j < n
    requires Represents(left, a, n) && Represents(right, b, n) && HoldsInt32(a, n) && HoldsInt32(b, n)
    requires result[i, j] == 0
    modifies result
    ensures result[i, j] == Accumulated(a, b, n, i, j, n)
    ensures forall r, c :: 0 <= r < n && 0 <= c < n && (r != i || c != j) ==> result[r, c] == old(result[r, c])
  {
    for k := 0 to n
      invariant result[i, j] == Accumulated(a, b, n, i, j, k)
      invariant forall r, c :: 0 <= r < n && 0 <= c < n && (r != i || c != j) ==> result[r, c] == old(result[r, c])
    {
      result[i, j] := Int32.Add(result[i, j], Int32.Mul(left[i, k], right[k, j]));
    }
  }

  /**
   * The middle loop for row i: every entry of the row, column by column,
   * through the innermost loop. Only row i of `result` changes.
   */
  method AccumulateRow(result: array2<int>, left: array2<int>, right: array2<int>, n: nat, i: nat,
                       ghost a: Matrix, ghost b: Matrix)
    requires result != left && result != right
    requires result.Length0 == n && result.Length1 == n && i < n
    requires Represents(left, a, n) && Represents(right, b, n) && HoldsInt32(a, n) && HoldsInt32(b, n)
    requires forall c :: 0 <= c < n ==> result[i, c] == 0
    modifies result
    ensures forall c :: 0 <= c < n ==> result[i, c] == Accumulated(a, b, n, i, c, n)
    ensures forall r, c :: 0 <= r < n && 0 <= c < n && r != i ==> result[r, c] == old(result[r, c])
  {
    for j := 0 to n
      invariant forall c :: 0 <= c < j ==> result[i, c] == Accumulated(a, b, n, i, c, n)
      invariant forall c :: j <= c < n ==> result[i, c] == 0
      invariant forall r, c :: 0 <= r < n && 0 <= c < n && r != i ==> result[r, c] == old(result[r, c])
    {
      AccumulateEntry(result, left, right, n, i, j, a, b);
    }
  }

  /**
   * The outer loop over a zeroed n x n result, row by row. Each entry ends
   * as the wrapped dot product of its row and column.
   */
  method AccumulateProduct(result: array2<int>, left: array2<int>, right: array2<int>, n: nat,
                           ghost a: Matrix, ghost b: Matrix)
    requires result != left && result != right
    requires result.Length0 == n && result.Length1 == n
    requires Represents(left, a, n) && Represents(right, b, n) && HoldsInt32(a, n) && HoldsInt32(b, n)
    requires forall r, c :: 0 <= r < n && 0 <= c < n ==> result[r, c] == 0
    modifies result
    ensures forall i, j :: 0 <= i < n && 0 <= j < n ==> result[i, j] == Int32.Wrap(Dot(a, b, n, i, j, n))
  {
    for i := 0 to n
      invariant forall r, c :: 0 <= r < i && 0 <= c < n ==> result[r, c] == Accumulated(a, b, n, r, c, n)
      invariant forall r, c :: i <= r < n && 0 <= c < n ==> result[r, c] == 0
    {
      AccumulateRow(result, left, right, n, i, a, b);
    }
    forall i, j | 0 <= i < n && 0 <= j < n
      ensures result[i, j] == Int32.Wrap(Dot(a, b, n, i, j, n))
    {
      AccumulatedIsWrappedDot(a, b, n, i, j, n);
    }
  }

  class MultiplyMatrix2D {
    /** `Matrix_Size`, fixed by the harness before setup. */
    const matrixSize: nat
    /** `_matrix1` and `_matrix2`. */
    var matrix1: array2<int>
    var matrix2: array2<int>

    /** Before setup the fields are null; the model holds empty arrays. */
    constructor (matrixSize: nat)
      ensures this.matrixSize == matrixSize
      ensures matrix1.Length0 == matrix1.Length1 == matrix2.Length0 == matrix2.Length1 == 0
    {
      this.matrixSize := matrixSize;
      matrix1 := new int[0, 0];
      matrix2 := new int[0, 0];
    }

    /** Both matrices are Matrix_Size x Matrix_Size and hold int values. */
    ghost predicate Valid()
      reads this, matrix1, matrix2
    {
      matrix1.Length0 == matrix1.Length1 == matrix2.Length0 == matrix2.Length1 == matrixSize &&
      (forall i, j :: 0 <= i < matrixSize && 0 <= j < matrixSize ==>
        Int32.InRange(matrix1[i, j]) && Int32.InRange(matrix2[i, j]))
    }

    /** Every entry lies in the range the setup draws from. */
    ghost predicate EntriesDrawn()
      reads this, matrix1, matrix2
    {
      Valid() &&
      forall i, j :: 0 <= i < matrixSize && 0 <= j < matrixSize ==>
        0 <= matrix1[i, j] <= MaxEntry && 0 <= matrix2[i, j] <= MaxEntry
    }

    /**
     * `Setup()`: two new arrays, filled row by row, each entry of each
     * matrix from its own draw in [0, 1000].
     */
    method Setup(draws1: seq<seq<nat>>, draws2: seq<seq<nat>>)
      requires |draws1| == matrixSize && |draws2| == matrixSize
      requires forall i :: 0 <= i < matrixSize ==> |draws1[i]| == matrixSize && |draws2[i]| == matrixSize
      modifies this
      ensures fresh(matrix1) && fresh(matrix2)
      ensures Valid() && EntriesDrawn()
      ensures forall i, j :: 0 <= i < matrixSize && 0 <= j < matrixSize ==>
        matrix1[i, j] == Bogus.Int(0, MaxEntry, draws1[i][j]) &&
        matrix2[i, j] == Bogus.Int(0, MaxEntry, draws2[i][j])
    {
      var n := matrixSize;
      matrix1 := new int[n, n];
      matrix2 := new int[n, n];
      for i := 0 to n
        invariant fresh(matrix1) && fresh(matrix2) && matrix1 != matrix2
        invariant matrix1.Length0 == matrix1.Length1 == matrix2.Length0 == matrix2.Length1 == n
        invariant forall r, c :: 0 <= r < i && 0 <= c < n ==>
          matrix1[r, c] == Bogus.Int(0, MaxEntry, draws1[r][c]) &&
          matrix2[r, c] == Bogus.Int(0, MaxEntry, draws2[r][c])
      {
        for j := 0 to n
          invariant fresh(matrix1) && fresh(matrix2) && matrix1 != matrix2
          invariant matrix1.Length0 == matrix1.Length1 == matrix2.Length0 == matrix2.Length1 == n
          invariant forall r, c :: 0 <= r < i && 0 <= c < n ==>
            matrix1[r, c] == Bogus.Int(0, MaxEntry, draws1[r][c]) &&
            matrix2[r, c] == Bogus.Int(0, MaxEntry, draws2[r][c])
          invariant forall c :: 0 <= c < j ==>
            matrix1[i, c] == Bogus.Int(0, MaxEntry, draws1[i][c]) &&
            matrix2[i, c] == Bogus.Int(0, MaxEntry, draws2[i][c])
        {
          matrix1[i, j] := Bogus.Int(0, MaxEntry, draws1[i][j]);
          matrix2[i, j] := Bogus.Int(0, MaxEntry, draws2[i][j]);
        }
      }
    }

    /**
     * `MultiplyMatrix()`: a new zeroed result; for each row i and column j,
     * `result[i, j] += _matrix1[i, k] * _matrix2[k, j]` for k from 0 up (the
     * three loops are `AccumulateProduct`, `AccumulateRow` and
     * `AccumulateEntry`). Neither input is modified. Each entry ends as the
     * dot product, wrapped to 32 bits.
     */
    method MultiplyMatrix() returns (result: array2<int>)
      requires Valid()
      ensures fresh(result)
      ensures result.Length0 == matrixSize && result.Length1 == matrixSize
      ensures forall i, j :: 0 <= i < matrixSize && 0 <= j < matrixSize ==>
        result[i, j] == Int32.Wrap(Dot(Elements(matrix1), Elements(matrix2), matrixSize, i, j, matrixSize))
    {
      var n := matrixSize;
      ghost var a := Elements(matrix1);
      ghost var b := Elements(matrix2);
      result := new int[n, n]((_, _) => 0);
      AccumulateProduct(result, matrix1, matrix2, n, a, b);
    }

    /**
     * `MultiplyMatrixUsingSpan()`: the same triple loop through `AsSpan2D()`
     * views. `resultSpan` aliases `result`, so every write through it lands
     * in the array that is returned; the input views read `_matrix1` and
     * `_matrix2` in place.
     */
    method MultiplyMatrixUsingSpan() returns (result: array2<int>)
      requires Valid()
      ensures fresh(result)
      ensures result.Length0 == matrixSize && result.Length1 == matrixSize
      ensures forall i, j :: 0 <= i < matrixSize && 0 <= j < matrixSize ==>
        result[i, j] == Int32.Wrap(Dot(Elements(matrix1), Elements(matrix2), matrixSize, i, j, matrixSize))
    {
      var n := matrixSize;
      ghost var a := Elements(matrix1);
      ghost var b := Elements(matrix2);
      result := new int[n, n]((_, _) => 0);
      var resultSpan := result;
      var matrixASpan := matrix1;
      var matrixBSpan := matrix2;
      AccumulateProduct(resultSpan, matrixASpan, matrixBSpan, n, a, b);
    }

    /**
     * Both variants return arrays with equal contents; on matrices the setup
     * draws, for every harness size, those contents are the exact product.
     */
    method VariantsAgree() returns (baseline: array2<int>, span: array2<int>)
      requires Valid()
      ensures baseline.Length0 == span.Length0 == matrixSize
      ensures baseline.Length1 == span.Length1 == matrixSize
      ensures forall i, j :: 0 <= i < matrixSize && 0 <= j < matrixSize ==> baseline[i, j] == span[i, j]
      ensures EntriesDrawn() && matrixSize <= MatrixSizes[|MatrixSizes| - 1] ==>
        Elements(baseline) == Product(Elements(matrix1), Elements(matrix2), matrixSize)
    {
      baseline := MultiplyMatrix();
      span := MultiplyMatrixUsingSpan();
      if EntriesDrawn() && matrixSize <= MatrixSizes[|MatrixSizes| - 1] {
        var a, b, n := Elements(matrix1), Elements(matrix2), matrixSize;
        forall i | 0 <= i < n
          ensures Elements(baseline)[i] == Product(a, b, n)[i]
        {
          forall j | 0 <= j < n
            ensures Elements(baseline)[i][j] == Product(a, b, n)[i][j]
          {
            NoOverflow(a, b, n, i, j);
          }
        }
      }
    }
  }
}
