// The matrix helpers of src/topics/transformer-explorer/lib/transformer.ts,
// src/hooks/useTransformer.ts and src/topics/attention-variants/lib/attention.ts.
// A matrix is a sequence of rows; entries are mathematical reals (the
// two-decimal rounding of the hook's copies is not modelled). Each helper
// requires that every entry it reads exists: a missing row is a TypeError
// in JavaScript, a missing entry a NaN.

module Matrices {
  type Vector = seq<real>
  type Matrix = seq<seq<real>>

  predicate Shaped(m: Matrix, rows: int, cols: int) {
    |m| == rows && forall i :: 0 <= i < |m| ==> |m[i]| == cols
  }

  /** `A[0].length`, and `B[0]?.length ?? 0`: the width read off the first row. */
  function Width(m: Matrix): nat { if |m| == 0 then 0 else |m[0]| }

  /** The length `Array.from({ length: n })` gives an integer n: negative lengths are 0. */
  function Count(n: int): nat { if n < 0 then 0 else n }

  // ----- multiplyMatrices -----

  /** Every A[i][k] and B[k][j] the triple loop reads exists. */
  predicate Fits(A: Matrix, B: Matrix) {
    (forall i :: 0 <= i < |A| ==> |A[i]| >= Width(A))
    && Width(A) <= |B|
    && (forall k :: 0 <= k < Width(A) ==> |B[k]| >= Width(B))
  }

  /** The running sum of the inner loop after n steps: A[i][0]·B[0][j] + … + A[i][n-1]·B[n-1][j]. */
  function Dot(A: Matrix, B: Matrix, i: int, j: int, n: nat): real
    requires 0 <= i < |A| && n <= |A[i]| && n <= |B| && 0 <= j
    requires forall k :: 0 <= k < n ==> j < |B[k]|
  {
    if n == 0 then 0.0 else Dot(A, B, i, j, n - 1) + A[i][n - 1] * B[n - 1][j]
  }

  /** What the triple loop leaves in result: |A| rows of Width(B) sums over Width(A) terms. */
  function Full(A: Matrix, B: Matrix): (r: Matrix)
    requires Fits(A, B)
    ensures Shaped(r, |A|, Width(B))
  {
    seq(|A|, i requires 0 <= i < |A| => seq(Width(B), j requires 0 <= j < Width(B) => Dot(A, B, i, j, Width(A))))
  }

  predicate CanMultiply(A: Matrix, B: Matrix) {
    |A| == 0 || Width(A) == 0 || Width(B) == 0 || Fits(A, B)
  }

  /** multiplyMatrices of transformer.ts, with its guards for no rows and for zero widths. */
  function Product(A: Matrix, B: Matrix): Matrix
    requires CanMultiply(A, B)
  {
    if |A| == 0 then []
    else if Width(A) == 0 || Width(B) == 0 then seq(|A|, i => [])
    else Full(A, B)
  }

  /**
   * multiplyMatrices of useTransformer.ts and attention.ts: no guards, so an
   * empty A or B throws on `[0].length`, and a zero inner width gives zeros.
   */
  function PlainProduct(A: Matrix, B: Matrix): Matrix
    requires |A| > 0 && |B| > 0 && Fits(A, B)
  {
    Full(A, B)
  }

  /** The triple loop shared by every copy of multiplyMatrices. */
  method FillProduct(A: Matrix, B: Matrix) returns (C: Matrix)
    requires Fits(A, B)
    ensures C == Full(A, B)
  {
    var rowsA, colsA, colsB := |A|, Width(A), Width(B);
    C := seq(rowsA, i => seq(colsB, j => 0.0));
    var i := 0;
    while i < rowsA
      invariant 0 <= i <= rowsA && Shaped(C, rowsA, colsB)
      invariant forall r :: 0 <= r < i ==> C[r] == Full(A, B)[r]
    {
      var j := 0;
      while j < colsB
        invariant 0 <= j <= colsB && Shaped(C, rowsA, colsB)
        invariant forall r :: 0 <= r < i ==> C[r] == Full(A, B)[r]
        invariant forall c :: 0 <= c < j ==> C[i][c] == Dot(A, B, i, c, colsA)
      {
        var sum := 0.0;
        var k := 0;
        while k < colsA
          invariant 0 <= k <= colsA
          invariant sum == Dot(A, B, i, j, k)
        {
          sum := sum + A[i][k] * B[k][j];
          k := k + 1;
        }
        C := C[i := C[i][j := sum]];
        j := j + 1;
      }
      i := i + 1;
    }
  }

  /** multiplyMatrices of transformer.ts. */
  method MultiplyMatrices(A: Matrix, B: Matrix) returns (C: Matrix)
    requires CanMultiply(A, B)
    ensures C == Product(A, B)
  {
    var rowsA := |A|;
    if rowsA == 0 {
      return [];
    }
    var colsA := |A[0]|;
    if colsA == 0 {
      return seq(rowsA, i => []);
    }
    var colsB := if |B| > 0 then |B[0]| else 0;
    if colsB == 0 {
      return seq(rowsA, i => []);
    }
    C := FillProduct(A, B);
  }

  /** multiplyMatrices of useTransformer.ts and attention.ts. */
  method MultiplyPlain(A: Matrix, B: Matrix) returns (C: Matrix)
    requires |A| > 0 && |B| > 0 && Fits(A, B)
    ensures C == PlainProduct(A, B)
  {
    C := FillProduct(A, B);
  }

  /**
   * The guards of transformer.ts: no rows give [], a zero width gives one
   * empty row per row of A, and otherwise the product is |A| × Width(B).
   */
  lemma {:induction false} ProductShape(A: Matrix, B: Matrix, n: nat, m: nat, p: nat)
    requires Shaped(A, n, m) && Shaped(B, m, p)
    ensures CanMultiply(A, B)
    ensures n == 0 ==> Product(A, B) == []
    ensures n > 0 && (m == 0 || p == 0) ==> Product(A, B) == seq(n, i => [])
    ensures n > 0 && m > 0 && p > 0 ==> Shaped(Product(A, B), n, p)
  {
  }

  /** An n × m by m × p product with m, p positive (or no rows at all) is n × p. */
  lemma {:induction false} ProductShaped(A: Matrix, B: Matrix, n: nat, m: nat, p: nat)
    requires Shaped(A, n, m) && Shaped(B, m, p) && (n == 0 || (m >= 1 && p >= 1))
    ensures CanMultiply(A, B) && Shaped(Product(A, B), n, p)
  {
  }

  /** Where both copies run without throwing and the inner width is positive, they agree. */
  lemma {:induction false} ProductsAgree(A: Matrix, B: Matrix)
    requires |A| > 0 && |B| > 0 && Width(A) > 0 && Fits(A, B)
    ensures PlainProduct(A, B) == Product(A, B)
  {
  }

  /** The unguarded copy with an inner width of 0 gives rows of zeros, where transformer.ts gives empty rows. */
  lemma {:induction false} PlainProductOfZeroWidth(A: Matrix, B: Matrix)
    requires |A| > 0 && |B| > 0 && Width(A) == 0 && Width(B) > 0
    ensures Shaped(PlainProduct(A, B), |A|, Width(B))
    ensures forall i, j :: 0 <= i < |A| && 0 <= j < Width(B) ==> PlainProduct(A, B)[i][j] == 0.0
    ensures Product(A, B) == seq(|A|, i => [])
  {
  }

  /** The m × m identity matrix. */
  function Identity(m: nat): (r: Matrix)
    ensures Shaped(r, m, m)
  {
    seq(m, i => seq(m, j => if i == j then 1.0 else 0.0))
  }

  /** A sum against a column of the identity picks out one entry. */
  lemma {:induction false} DotIdentity(A: Matrix, m: nat, i: nat, j: nat, n: nat)
    requires i < |A| && n <= |A[i]| && n <= m && j < m
    ensures Dot(A, Identity(m), i, j, n) == if j < n then A[i][j] else 0.0
  {
    if n > 0 {
      DotIdentity(A, m, i, j, n - 1);
    }
  }

  /** Multiplying by the identity gives A back: the sums are the dot products they should be. */
  lemma {:induction false} ProductByIdentity(A: Matrix, n: nat, m: nat)
    requires Shaped(A, n, m) && n > 0 && m > 0
    ensures CanMultiply(A, Identity(m)) && Product(A, Identity(m)) == A
  {
    var P := Product(A, Identity(m));
    forall i | 0 <= i < n
      ensures P[i] == A[i]
    {
      forall j | 0 <= j < m
        ensures P[i][j] == A[i][j]
      {
        DotIdentity(A, m, i, j, m);
      }
    }
  }

  // ----- elementwise helpers -----

  /** Every B[i][j] that A's entries read exists. */
  predicate Covers(B: Matrix, A: Matrix) {
    |A| <= |B| && forall i :: 0 <= i < |A| ==> |A[i]| <= |B[i]|
  }

  /** addMatrices: A's shape, entries A[i][j] + B[i][j]. */
  function AddMatrices(A: Matrix, B: Matrix): (r: Matrix)
    requires Covers(B, A)
    ensures |r| == |A| && forall i :: 0 <= i < |A| ==> |r[i]| == |A[i]|
  {
    seq(|A|, i requires 0 <= i < |A| => seq(|A[i]|, j requires 0 <= j < |A[i]| => A[i][j] + B[i][j]))
  }

  /** On equal shapes the sum does not depend on the order. */
  lemma {:induction false} AddCommutes(A: Matrix, B: Matrix, n: nat, m: nat)
    requires Shaped(A, n, m) && Shaped(B, n, m)
    ensures AddMatrices(A, B) == AddMatrices(B, A)
  {
    forall i | 0 <= i < n
      ensures AddMatrices(A, B)[i] == AddMatrices(B, A)[i]
    {
    }
  }

  /** Every b[j] that A's entries read exists. */
  predicate BiasCovers(b: Vector, A: Matrix) {
    forall i :: 0 <= i < |A| ==> |A[i]| <= |b|
  }

  /** addBias: A's shape, entries A[i][j] + b[j]. */
  function AddBias(A: Matrix, b: Vector): (r: Matrix)
    requires BiasCovers(b, A)
    ensures |r| == |A| && forall i :: 0 <= i < |A| ==> |r[i]| == |A[i]|
  {
    seq(|A|, i requires 0 <= i < |A| => seq(|A[i]|, j requires 0 <= j < |A[i]| => A[i][j] + b[j]))
  }

  /** n copies of the row b. */
  function Broadcast(b: Vector, n: nat): (r: Matrix)
    ensures Shaped(r, n, |b|)
  {
    seq(n, i => b)
  }

  /** Adding a bias is adding the matrix whose every row is the bias. */
  lemma {:induction false} BiasIsBroadcastSum(A: Matrix, b: Vector)
    requires BiasCovers(b, A)
    ensures Covers(Broadcast(b, |A|), A) && AddBias(A, b) == AddMatrices(A, Broadcast(b, |A|))
  {
  }

  function Relu(v: real): real { if v < 0.0 then 0.0 else v }

  /** applyReLU: `Math.max(0, val)` entry by entry. */
  function ApplyReLU(A: Matrix): (r: Matrix)
    ensures |r| == |A| && forall i :: 0 <= i < |A| ==> |r[i]| == |A[i]|
    ensures forall i, j :: 0 <= i < |r| && 0 <= j < |r[i]| ==> r[i][j] >= 0.0
  {
    seq(|A|, i requires 0 <= i < |A| => seq(|A[i]|, j requires 0 <= j < |A[i]| => Relu(A[i][j])))
  }

  /** ReLU keeps non-negative entries and zeroes the negative ones. */
  lemma {:induction false} ReluKeepsNonNegative(A: Matrix, i: int, j: int)
    requires 0 <= i < |A| && 0 <= j < |A[i]|
    ensures A[i][j] >= 0.0 ==> ApplyReLU(A)[i][j] == A[i][j]
    ensures A[i][j] < 0.0 ==> ApplyReLU(A)[i][j] == 0.0
  {
  }

  /** Applying ReLU twice is applying it once. */
  lemma {:induction false} ReluIdempotent(A: Matrix)
    ensures ApplyReLU(ApplyReLU(A)) == ApplyReLU(A)
  {
    var once := ApplyReLU(A);
    forall i | 0 <= i < |once|
      ensures ApplyReLU(once)[i] == once[i]
    {
      forall j | 0 <= j < |once[i]|
        ensures ApplyReLU(once)[i][j] == once[i][j]
      {
        ReluKeepsNonNegative(once, i, j);
      }
    }
  }

  /** applyMask: every entry above the diagonal (j > i) becomes maskValue. */
  function ApplyMask<T>(A: seq<seq<T>>, maskValue: T): (r: seq<seq<T>>)
    ensures |r| == |A| && forall i :: 0 <= i < |A| ==> |r[i]| == |A[i]|
  {
    seq(|A|, i requires 0 <= i < |A| => seq(|A[i]|, j requires 0 <= j < |A[i]| => if j > i then maskValue else A[i][j]))
  }

  /** Row i keeps its first i + 1 entries and holds maskValue after them. */
  lemma {:induction false} MaskKeepsLowerTriangle<T>(A: seq<seq<T>>, maskValue: T, i: int)
    requires 0 <= i < |A|
    ensures var r := ApplyMask(A, maskValue)[i];
      var keep := if i + 1 < |A[i]| then i + 1 else |A[i]|;
      r[..keep] == A[i][..keep] && forall j :: keep <= j < |r| ==> r[j] == maskValue
  {
  }

  /** Masking twice is masking once. */
  lemma {:induction false} MaskIdempotent<T>(A: seq<seq<T>>, maskValue: T)
    ensures ApplyMask(ApplyMask(A, maskValue), maskValue) == ApplyMask(A, maskValue)
  {
    var once := ApplyMask(A, maskValue);
    forall i | 0 <= i < |A|
      ensures ApplyMask(once, maskValue)[i] == once[i]
    {
    }
  }

  /** `Array.from({ length: rows }, (_, r) => Array.from({ length: cols }, (_, c) => K[c][r]))`. */
  function Transpose(K: Matrix, rows: nat, cols: nat): (r: Matrix)
    requires cols <= |K| && forall c :: 0 <= c < cols ==> rows <= |K[c]|
    ensures Shaped(r, rows, cols)
    ensures forall a, b :: 0 <= a < rows && 0 <= b < cols ==> r[a][b] == K[b][a]
  {
    seq(rows, a requires 0 <= a < rows => seq(cols, b requires 0 <= b < cols => K[b][a]))
  }

  /** Row i of A against row j of K: A[i][0]·K[j][0] + … + A[i][n-1]·K[j][n-1]. */
  function RowDot(A: Matrix, K: Matrix, i: nat, j: nat, n: nat): real
    requires i < |A| && j < |K| && n <= |A[i]| && n <= |K[j]|
  {
    if n == 0 then 0.0 else RowDot(A, K, i, j, n - 1) + A[i][n - 1] * K[j][n - 1]
  }

  /** Multiplying by a transpose pairs rows with rows: (A·Kᵀ)[i][j] sums A's row i against K's row j. */
  lemma {:induction false} DotOfTranspose(A: Matrix, K: Matrix, rows: nat, cols: nat, i: nat, j: nat, n: nat)
    requires cols <= |K| && forall c :: 0 <= c < cols ==> rows <= |K[c]|
    requires i < |A| && j < cols && n <= |A[i]| && n <= rows
    ensures n <= |Transpose(K, rows, cols)| && Dot(A, Transpose(K, rows, cols), i, j, n) == RowDot(A, K, i, j, n)
  {
    if n > 0 {
      DotOfTranspose(A, K, rows, cols, i, j, n - 1);
    }
  }

  /** Transposing twice gives the matrix back. */
  lemma {:induction false} TransposeTwice(K: Matrix, n: nat, d: nat)
    requires Shaped(K, n, d)
    ensures Transpose(Transpose(K, d, n), n, d) == K
  {
    var T := Transpose(Transpose(K, d, n), n, d);
    forall i | 0 <= i < n
      ensures T[i] == K[i]
    {
    }
  }

  // ----- concatenation -----

  /**
   * `headOutputs.reduce((acc, cur) => acc.map((row, r) => [...row, ...cur[r]]), n empty rows)`:
   * row r of each matrix appended in order.
   */
  function ConcatRows(ms: seq<Matrix>, n: nat): (r: Matrix)
    requires forall k :: 0 <= k < |ms| ==> n <= |ms[k]|
    ensures |r| == n
  {
    if |ms| == 0 then seq(n, i => [])
    else
      var acc := ConcatRows(ms[..|ms| - 1], n);
      seq(n, i requires 0 <= i < n => acc[i] + ms[|ms| - 1][i])
  }

  /** Every matrix of ms is n × w. */
  predicate AllShaped(ms: seq<Matrix>, n: nat, w: nat) {
    forall k :: 0 <= k < |ms| ==> |ms[k]| == n && forall i :: 0 <= i < n ==> |ms[k][i]| == w
  }

  /** With every matrix n × w, the concatenation is n × (|ms|·w). */
  lemma {:induction false} ConcatRowsShape(ms: seq<Matrix>, n: nat, w: nat)
    requires AllShaped(ms, n, w)
    ensures Shaped(ConcatRows(ms, n), n, |ms| * w)
  {
    forall i | 0 <= i < n
      ensures |ConcatRows(ms, n)[i]| == |ms| * w
    {
      ConcatRowsRow(ms, n, i);
      RowOfLength(ms, i, w);
    }
  }

  /** Column k·w + c of the concatenation of n × w matrices is column c of matrix k. */
  lemma {:induction false} ConcatRowsEntry(ms: seq<Matrix>, n: nat, w: nat, i: nat, k: nat, c: nat)
    requires AllShaped(ms, n, w)
    requires i < n && k < |ms| && c < w
    ensures k * w + c < |ConcatRows(ms, n)[i]| && ConcatRows(ms, n)[i][k * w + c] == ms[k][i][c]
  {
    ConcatRowsRow(ms, n, i);
    RowOfEntry(ms, i, w, k, c);
  }

  /** Row i of the concatenation has |ms|·w entries. */
  lemma {:induction false} RowOfLength(ms: seq<Matrix>, i: nat, w: nat)
    requires forall k :: 0 <= k < |ms| ==> i < |ms[k]| && |ms[k][i]| == w
    ensures |RowOf(ms, i)| == |ms| * w
  {
    if |ms| > 0 {
      RowOfLength(ms[..|ms| - 1], i, w);
      assert (|ms| - 1) * w + w == |ms| * w;
    }
  }

  /** Column c of matrix k sits at k·w + c of row i. */
  lemma {:induction false} RowOfEntry(ms: seq<Matrix>, i: nat, w: nat, k: nat, c: nat)
    requires forall j :: 0 <= j < |ms| ==> i < |ms[j]| && |ms[j][i]| == w
    requires k < |ms| && c < w
    ensures k * w + c < |RowOf(ms, i)| && RowOf(ms, i)[k * w + c] == ms[k][i][c]
  {
    var init := ms[..|ms| - 1];
    RowOfLength(ms, i, w);
    RowOfLength(init, i, w);
    assert RowOf(ms, i) == RowOf(init, i) + ms[|ms| - 1][i];
    if k < |ms| - 1 {
      RowOfEntry(init, i, w, k, c);
      MulLeqStep(k, |ms| - 1, w);
    }
  }

  /** k·w + w <= m·w for k < m. */
  lemma {:induction false} MulLeqStep(k: nat, m: nat, w: nat)
    requires k < m
    ensures k * w + w <= m * w
  {
    assert m * w == (m - 1) * w + w;
    if k < m - 1 {
      MulLeqStep(k, m - 1, w);
    }
  }

  /** Row i of the concatenation, built by pushing each matrix's row i in turn. */
  function RowOf(ms: seq<Matrix>, i: nat): seq<real>
    requires forall k :: 0 <= k < |ms| ==> i < |ms[k]|
  {
    if |ms| == 0 then [] else RowOf(ms[..|ms| - 1], i) + ms[|ms| - 1][i]
  }

  /** Row i of the reduce is the pushed row. */
  lemma {:induction false} ConcatRowsRow(ms: seq<Matrix>, n: nat, i: nat)
    requires forall k :: 0 <= k < |ms| ==> n <= |ms[k]|
    requires i < n
    ensures ConcatRows(ms, n)[i] == RowOf(ms, i)
  {
    if |ms| > 0 {
      ConcatRowsRow(ms[..|ms| - 1], n, i);
    }
  }

  /**
   * concatMatricesHorizontally of attention.ts: the row count is that of the
   * first matrix (none at all throws), and row i gets every matrix's row i
   * pushed in argument order. It builds the same rows as the reduce.
   */
  method ConcatMatricesHorizontally(ms: seq<Matrix>) returns (result: Matrix)
    requires |ms| > 0 && forall k :: 0 <= k < |ms| ==> |ms[0]| <= |ms[k]|
    ensures result == ConcatRows(ms, |ms[0]|)
  {
    var numRows := |ms[0]|;
    result := seq(numRows, i => []);
    var i := 0;
    while i < numRows
      invariant 0 <= i <= numRows && |result| == numRows
      invariant forall r :: 0 <= r < i ==> result[r] == RowOf(ms, r)
      invariant forall r :: i <= r < numRows ==> result[r] == []
    {
      var k := 0;
      while k < |ms|
        invariant 0 <= k <= |ms| && |result| == numRows
        invariant forall r :: 0 <= r < i ==> result[r] == RowOf(ms, r)
        invariant forall r :: i < r < numRows ==> result[r] == []
        invariant result[i] == RowOf(ms[..k], i)
      {
        assert ms[..k + 1][..k] == ms[..k];
        result := result[i := result[i] + ms[k][i]];
        k := k + 1;
      }
      assert ms[..|ms|] == ms;
      i := i + 1;
    }
    forall r | 0 <= r < numRows
      ensures result[r] == ConcatRows(ms, numRows)[r]
    {
      ConcatRowsRow(ms, numRows, r);
    }
  }

  /** `.slice(0, end)`: a prefix, end counted from the back when negative, clamped to the length. */
  function SliceTo<T>(s: seq<T>, end: int): (r: seq<T>)
    ensures |r| <= |s| && r == s[..|r|]
    ensures 0 <= end <= |s| ==> |r| == end
    ensures end > |s| ==> r == s
    ensures end < 0 ==> |r| == Count(|s| + end)
  {
    if end < 0 then s[..Count(|s| + end)] else if end > |s| then s else s[..end]
  }

  /** `row.slice(lo, hi)` for 0 <= lo: the part of the row between the clamped bounds. */
  function Slice(row: seq<real>, lo: nat, hi: nat): (r: seq<real>)
    ensures |r| <= |row|
  {
    var a := if lo < |row| then lo else |row|;
    var b := if hi < |row| then hi else |row|;
    if a < b then row[a..b] else []
  }

  /** `M.map(row => row.slice(lo, hi))`: the columns [lo, hi) of M. */
  function Columns(M: Matrix, lo: nat, hi: nat): (r: Matrix)
    ensures |r| == |M|
  {
    seq(|M|, i requires 0 <= i < |M| => Slice(M[i], lo, hi))
  }

  /** Columns [k·w, (k+1)·w) of a concatenation of n × w matrices are matrix k. */
  lemma {:induction false} ColumnsOfConcat(ms: seq<Matrix>, n: nat, w: nat, k: nat)
    requires AllShaped(ms, n, w)
    requires k < |ms|
    ensures Columns(ConcatRows(ms, n), k * w, (k + 1) * w) == ms[k]
  {
    ConcatRowsShape(ms, n, w);
    var C := ConcatRows(ms, n);
    MulLeqStep(k, |ms|, w);
    assert (k + 1) * w == k * w + w;
    forall i | 0 <= i < n
      ensures Slice(C[i], k * w, (k + 1) * w) == ms[k][i]
    {
      var s := Slice(C[i], k * w, (k + 1) * w);
      assert |s| == w;
      forall c | 0 <= c < w
        ensures s[c] == ms[k][i][c]
      {
        ConcatRowsEntry(ms, n, w, i, k, c);
        assert s[c] == C[i][k * w + c];
      }
    }
  }

  // ----- row and entry maps -----

  /** `A.map(row => f(row))`. */
  function MapRows(A: Matrix, f: seq<real> -> seq<real>): (r: Matrix)
    ensures |r| == |A|
  {
    seq(|A|, i requires 0 <= i < |A| => f(A[i]))
  }

  /** `A.map(row => row.map(g))`. */
  function MapEntries(A: Matrix, g: real -> real): (r: Matrix)
    ensures |r| == |A| && forall i :: 0 <= i < |A| ==> |r[i]| == |A[i]|
  {
    seq(|A|, i requires 0 <= i < |A| => seq(|A[i]|, j requires 0 <= j < |A[i]| => g(A[i][j])))
  }

  ghost predicate KeepsLength(f: seq<real> -> seq<real>) {
    forall row :: |f(row)| == |row|
  }

  /** A row map that keeps row lengths keeps the shape. */
  lemma {:induction false} MapRowsShape(A: Matrix, f: seq<real> -> seq<real>, n: int, m: int)
    requires KeepsLength(f) && Shaped(A, n, m)
    ensures Shaped(MapRows(A, f), n, m)
  {
  }
}
