/** Shape logic of the weighted least-squares helper
    (goGreek/regression/regression.go): the decay weights, the row-major
    n-by-n diagonal weight matrix, the n-by-2 design matrix and the order of
    the returned coefficients. `math.Exp` and the linear-algebra solve are
    external: they are passed in as uninterpreted functions. */
module Regression {
  import opened Wrappers

  /** A dense matrix as the linear-algebra library stores it: `rows` times
      `cols` entries in row-major order. */
  datatype Dense = Dense(rows: nat, cols: nat, data: seq<real>) {
    predicate Valid() {
      |data| == rows * cols
    }

    /** The entry in row `r`, column `c`. */
    function At(r: nat, c: nat): real
      requires Valid() && r < rows && c < cols
    {
      RowMajorInRange(rows, cols, r, c);
      data[r * cols + c]
    }
  }

  /** The solved coefficient vector: `b0` (index 0, intercept) and `b1` (index 1, slope). */
  datatype Beta = Beta(b0: real, b1: real)

  /** The two panics of `WeightedLinearRegression`. */
  datatype RegressionError = LengthMismatch | SolveFailed

  lemma RowMajorInRange(rows: nat, cols: nat, r: nat, c: nat)
    requires r < rows && c < cols
    ensures r * cols + c < rows * cols
  {
    assert r * cols <= (rows - 1) * cols by {
      MulMonotone(r, rows - 1, cols);
    }
  }

  lemma {:induction false} MulMonotone(a: nat, b: nat, c: nat)
    requires a <= b
    ensures a * c <= b * c
    decreases b - a
  {
    if a < b {
      MulMonotone(a + 1, b, c);
      assert (a + 1) * c == a * c + c;
    }
  }

  /** Row `r`, column `c` is the only position stored at index `r * n + c`. */
  lemma RowMajorDecompose(n: nat, r: nat, c: nat)
    requires c < n
    ensures (r * n + c) / n == r && (r * n + c) % n == c
  {
    var k := r * n + c;
    var q, m := k / n, k % n;
    assert k == q * n + m;
    if q > r {
      MulMonotone(r + 1, q, n);
      assert false;
    } else if q < r {
      MulMonotone(q + 1, r, n);
      assert false;
    }
  }

  // ---------------------------------------------------------------------
  // GenerateWeights
  // ---------------------------------------------------------------------

  /** The `i`-th decay weight, `exp(-decayRate * i)`. */
  function Weight(exp: real -> real, decayRate: real, i: nat): real {
    exp(-decayRate * i as real)
  }

  /** `GenerateWeights(length, decayRate)`: a fresh buffer of `length`
      entries, entry `i` set to the `i`-th decay weight. */
  method GenerateWeights(length: nat, decayRate: real, exp: real -> real) returns (weights: seq<real>)
    ensures |weights| == length
    ensures forall i :: 0 <= i < length ==> weights[i] == exp(-decayRate * i as real)
  {
    var buffer := new real[length](_ => 0.0);
    for i := 0 to length
      invariant forall j :: 0 <= j < i ==> buffer[j] == Weight(exp, decayRate, j)
    {
      buffer[i] := Weight(exp, decayRate, i);
    }
    weights := buffer[..];
  }

  // ---------------------------------------------------------------------
  // NewDiagonalMatrix
  // ---------------------------------------------------------------------

  /** The buffer index written for the `i`-th weight. */
  function DiagonalIndex(n: nat, i: nat): nat {
    i * n + i
  }

  /** Entry `k` of the n-by-n row-major buffer with `weights` on the diagonal. */
  function DiagonalEntry(weights: seq<real>, k: nat): real
    requires k < |weights| * |weights|
  {
    var n := |weights|;
    if k / n == k % n then (RowMajorRowInRange(n, k); weights[k / n]) else 0.0
  }

  lemma RowMajorRowInRange(n: nat, k: nat)
    requires k < n * n
    ensures n > 0 && k / n < n
  {
    if k / n >= n {
      MulMonotone(n, k / n, n);
    }
  }

  /** The matrix `NewDiagonalMatrix(weights)` builds. */
  function Diagonal(weights: seq<real>): (m: Dense)
    ensures m.Valid() && m.rows == |weights| && m.cols == |weights|
  {
    var n := |weights|;
    Dense(n, n, seq(n * n, k requires 0 <= k < n * n => DiagonalEntry(weights, k)))
  }

  /** Every index written by the loop lies inside the `n * n` buffer. */
  lemma DiagonalIndexInRange(n: nat, i: nat)
    requires i < n
    ensures DiagonalIndex(n, i) < n * n
  {
    RowMajorInRange(n, n, i, i);
  }

  /** Entry `k` of the buffer once the first `i` weights have been written. */
  function PartialDiagonal(weights: seq<real>, i: nat, k: nat): real
    requires k < |weights| * |weights|
  {
    var n := |weights|;
    if k / n == k % n && k / n < i then DiagonalEntry(weights, k) else 0.0
  }

  /** Writing the `i`-th weight changes exactly the entry at `i*n + i`. */
  lemma PartialDiagonalStep(weights: seq<real>, i: nat, k: nat)
    requires i < |weights| && k < |weights| * |weights|
    ensures PartialDiagonal(weights, i + 1, k) ==
            if k == DiagonalIndex(|weights|, i) then weights[i] else PartialDiagonal(weights, i, k)
  {
    var n := |weights|;
    RowMajorDecompose(n, i, i);
    assert k == (k / n) * n + k % n;
  }

  /** The loop of `NewDiagonalMatrix`: an n*n zero buffer, then `weights[i]`
      stored at index `i*n + i`. */
  method NewDiagonalMatrix(weights: seq<real>) returns (m: Dense)
    ensures m == Diagonal(weights)
  {
    var n := |weights|;
    var data := new real[n * n](_ => 0.0);
    for i := 0 to n
      invariant forall k :: 0 <= k < n * n ==> data[k] == PartialDiagonal(weights, i, k)
    {
      DiagonalIndexInRange(n, i);
      data[DiagonalIndex(n, i)] := weights[i];
      forall k | 0 <= k < n * n
        ensures data[k] == PartialDiagonal(weights, i + 1, k)
      {
        PartialDiagonalStep(weights, i, k);
      }
    }
    m := Dense(n, n, data[..]);
    forall k | 0 <= k < n * n
      ensures data[k] == DiagonalEntry(weights, k)
    {
      RowMajorRowInRange(n, k);
    }
  }

  /** Row-major layout of the diagonal matrix: `weights[r]` at (r, r), zero elsewhere. */
  lemma DiagonalAt(weights: seq<real>, r: nat, c: nat)
    requires r < |weights| && c < |weights|
    ensures Diagonal(weights).At(r, c) == if r == c then weights[r] else 0.0
  {
    var n := |weights|;
    RowMajorInRange(n, n, r, c);
    RowMajorDecompose(n, r, c);
    assert Diagonal(weights).At(r, c) == DiagonalEntry(weights, r * n + c);
  }

  /** Every buffer entry whose index is not `i*n + i` for some row `i` is zero. */
  lemma OffDiagonalZero(weights: seq<real>, k: nat)
    requires k < |weights| * |weights|
    requires forall i :: 0 <= i < |weights| ==> k != DiagonalIndex(|weights|, i)
    ensures Diagonal(weights).data[k] == 0.0
  {
    var n := |weights|;
    RowMajorRowInRange(n, k);
    assert k != DiagonalIndex(n, k / n);
  }

  // ---------------------------------------------------------------------
  // WeightedLinearRegression
  // ---------------------------------------------------------------------

  /** The n-by-2 design matrix: a column of ones (intercept) beside `x`. */
  function Design(x: seq<real>): (m: Dense)
    ensures m.Valid() && m.rows == |x| && m.cols == 2
  {
    Dense(|x|, 2, seq(2 * |x|, k requires 0 <= k < 2 * |x| => if k % 2 == 0 then 1.0 else x[k / 2]))
  }

  /** Row `i` of the design matrix is `[1, x[i]]`. */
  lemma DesignAt(x: seq<real>, i: nat)
    requires i < |x|
    ensures Design(x).At(i, 0) == 1.0 && Design(x).At(i, 1) == x[i]
  {
  }

  /** The `y` vector as the n-by-1 matrix the library wraps it in. */
  function ColumnVector(y: seq<real>): (m: Dense)
    ensures m.Valid() && m.rows == |y| && m.cols == 1
  {
    Dense(|y|, 1, y)
  }

  /** `WeightedLinearRegression(x, y, weights)`: panics unless the three
      slices have one length; otherwise fills the design matrix, builds the
      weight matrix, hands both to the solver together with `y`, and returns
      the coefficients slope first, intercept second. `solve` stands for the
      products X'WX and X'WY and `SolveVec`; `None` is its failure. */
  method WeightedLinearRegression(x: seq<real>, y: seq<real>, weights: seq<real>,
                                  solve: (Dense, Dense, Dense) -> Option<Beta>)
    returns (r: Result<(real, real), RegressionError>)
    ensures (|y| != |x| || |weights| != |x|) <==> r == Failure(LengthMismatch)
    ensures |y| == |x| && |weights| == |x| ==>
      match solve(Design(x), ColumnVector(y), Diagonal(weights))
      case None => r == Failure(SolveFailed)
      case Some(beta) => r == Success((beta.b1, beta.b0))
  {
    var n := |x|;
    if |y| != n || |weights| != n {
      return Failure(LengthMismatch);
    }

    var design := new real[2 * n](_ => 0.0);
    for i := 0 to n
      invariant forall k :: 0 <= k < 2 * i ==> design[k] == if k % 2 == 0 then 1.0 else x[k / 2]
    {
      design[2 * i] := 1.0;  // intercept term
      design[2 * i + 1] := x[i];
    }
    var xMatrix := Dense(n, 2, design[..]);
    assert xMatrix == Design(x);

    var yMatrix := ColumnVector(y);
    var wMatrix := NewDiagonalMatrix(weights);

    match solve(xMatrix, yMatrix, wMatrix)
    case None =>
      return Failure(SolveFailed);
    case Some(beta) =>
      var b := beta.b0;
      var m := beta.b1;
      return Success((m, b));
  }
}
