/** Dense real matrices with shape-checked arithmetic (matrix.go). */
module Matrices {
  import opened Errors

  /** A matrix: `rows` rows of exactly `cols` reals each. */
  datatype Matrix = Matrix(rows: nat, cols: nat, data: seq<seq<real>>) {

    predicate Valid() {
      |data| == rows && forall i | 0 <= i < rows :: |data[i]| == cols
    }

    function At(i: int, j: int): real
      requires Valid() && 0 <= i < rows && 0 <= j < cols
    {
      data[i][j]
    }

    /** Entry (i, j), or 0.0 outside the matrix: At without a precondition, for the
        entry formulas handed to Tabulate. */
    function Get(i: int, j: int): real {
      if 0 <= i < |data| && 0 <= j < |data[i]| then data[i][j] else 0.0
    }

    /** The matrix with entry (i, j) replaced by v: an in-place store of the source. */
    function Set(i: int, j: int, v: real): (m: Matrix)
      requires Valid() && 0 <= i < rows && 0 <= j < cols
      ensures m.Valid() && m.rows == rows && m.cols == cols
      ensures m.At(i, j) == v
      ensures forall i', j' | 0 <= i' < rows && 0 <= j' < cols && (i', j') != (i, j) :: m.At(i', j') == At(i', j')
    {
      Matrix(rows, cols, data[i := data[i][j := v]])
    }
  }

  predicate SameShape(a: Matrix, b: Matrix) {
    a.rows == b.rows && a.cols == b.cols
  }

  /** Two well-formed matrices of one shape are equal when all their entries are. */
  lemma {:induction false} Extensionality(a: Matrix, b: Matrix)
    requires a.Valid() && b.Valid() && SameShape(a, b)
    requires forall i, j | 0 <= i < a.rows && 0 <= j < a.cols :: a.At(i, j) == b.At(i, j)
    ensures a == b
  {
    forall i | 0 <= i < a.rows ensures a.data[i] == b.data[i] {
      assert forall j | 0 <= j < a.cols :: a.data[i][j] == a.At(i, j) == b.At(i, j) == b.data[i][j];
    }
  }

  /** Row i of Tabulate: the entries f(i, 0), ..., f(i, n - 1). */
  function TabulateRow(i: nat, n: nat, f: (nat, nat) -> real): (row: seq<real>)
    ensures |row| == n
  {
    if n == 0 then [] else TabulateRow(i, n - 1, f) + [f(i, n - 1)]
  }

  /** The first n rows of Tabulate. */
  function TabulateRows(n: nat, cols: nat, f: (nat, nat) -> real): (d: seq<seq<real>>)
    ensures |d| == n && forall i | 0 <= i < n :: |d[i]| == cols
  {
    if n == 0 then [] else TabulateRows(n - 1, cols, f) + [TabulateRow(n - 1, cols, f)]
  }

  lemma {:induction false} TabulateRowEntries(i: nat, n: nat, f: (nat, nat) -> real)
    ensures forall j | 0 <= j < n :: TabulateRow(i, n, f)[j] == f(i, j)
  {
    if n > 0 {
      TabulateRowEntries(i, n - 1, f);
    }
  }

  lemma {:induction false} TabulateRowsEntries(n: nat, cols: nat, f: (nat, nat) -> real)
    ensures forall i, j | 0 <= i < n && 0 <= j < cols :: TabulateRows(n, cols, f)[i][j] == f(i, j)
  {
    if n > 0 {
      TabulateRowsEntries(n - 1, cols, f);
      TabulateRowEntries(n - 1, cols, f);
    }
  }

  /** The rows x cols matrix whose entry (i, j) is f(i, j). */
  function Tabulate(rows: nat, cols: nat, f: (nat, nat) -> real): (r: Matrix)
    ensures r.Valid() && r.rows == rows && r.cols == cols
    ensures forall i, j {:trigger r.At(i, j)} | 0 <= i < rows && 0 <= j < cols :: r.At(i, j) == f(i, j)
  {
    TabulateRowsEntries(rows, cols, f);
    Matrix(rows, cols, TabulateRows(rows, cols, f))
  }

  /** The zero-filled rows x cols matrix. */
  function Zeros(rows: nat, cols: nat): Matrix {
    Matrix(rows, cols, seq(rows, _ => seq(cols, _ => 0.0)))
  }

  /** Σ_{k < n} a[i][k] · b[k][j], summed in increasing k as the source's loop does. */
  function Dot(a: Matrix, b: Matrix, i: nat, j: nat, n: nat): real
    requires a.Valid() && b.Valid() && i < a.rows && j < b.cols && n <= a.cols && n <= b.rows
  {
    if n == 0 then 0.0 else Dot(a, b, i, j, n - 1) + a.At(i, n - 1) * b.At(n - 1, j)
  }

  /** The matrix product a × b. */
  function Product(a: Matrix, b: Matrix): Matrix
    requires a.Valid() && b.Valid() && a.cols == b.rows
  {
    Matrix(a.rows, b.cols,
      seq(a.rows, i requires 0 <= i < a.rows =>
        seq(b.cols, j requires 0 <= j < b.cols => Dot(a, b, i, j, a.cols))))
  }

  /** The element-wise sum of two matrices of one shape. */
  function Sum(a: Matrix, b: Matrix): Matrix
    requires a.Valid() && b.Valid() && SameShape(a, b)
  {
    Matrix(a.rows, a.cols,
      seq(a.rows, i requires 0 <= i < a.rows =>
        seq(a.cols, j requires 0 <= j < a.cols => a.At(i, j) + b.At(i, j))))
  }

  /** Every entry of a multiplied by s. */
  function Scaled(a: Matrix, s: real): Matrix
    requires a.Valid()
  {
    Matrix(a.rows, a.cols,
      seq(a.rows, i requires 0 <= i < a.rows =>
        seq(a.cols, j requires 0 <= j < a.cols => a.At(i, j) * s)))
  }

  /** NewMatrix: allocates `rows` zero-filled rows of `cols` entries. */
  method NewMatrix(rows: nat, cols: nat) returns (m: Matrix)
    ensures m.Valid() && m.rows == rows && m.cols == cols
    ensures forall i, j | 0 <= i < rows && 0 <= j < cols :: m.At(i, j) == 0.0
    ensures m == Zeros(rows, cols)
  {
    var data: seq<seq<real>> := [];
    var i := 0;
    while i < rows
      invariant 0 <= i <= rows
      invariant data == Zeros(rows, cols).data[..i]
    {
      data := data + [seq(cols, _ => 0.0)];
      i := i + 1;
    }
    m := Matrix(rows, cols, data);
  }

  /** Matrix.Multiply: fails exactly when the inner dimensions differ; otherwise the
      a.rows x b.cols matrix whose (i, j) entry is the dot product of row i of a and column j of b. */
  method Multiply(a: Matrix, b: Matrix) returns (r: Result<Matrix>)
    requires a.Valid() && b.Valid()
    ensures r.Err? <==> a.cols != b.rows
    ensures r.Err? ==> r.error == DimensionMismatch
    ensures r.Ok? ==> r.value.Valid() && r.value.rows == a.rows && r.value.cols == b.cols
    ensures r.Ok? ==> forall i, j | 0 <= i < a.rows && 0 <= j < b.cols :: r.value.At(i, j) == Dot(a, b, i, j, a.cols)
    ensures r.Ok? ==> r.value == Product(a, b)
  {
    if a.cols != b.rows {
      return Err(DimensionMismatch);
    }
    ghost var p := Product(a, b);
    var data: seq<seq<real>> := [];
    var i := 0;
    while i < a.rows
      invariant 0 <= i <= a.rows
      invariant data == p.data[..i]
    {
      var row: seq<real> := [];
      var j := 0;
      while j < b.cols
        invariant 0 <= j <= b.cols
        invariant row == p.data[i][..j]
      {
        var sum := 0.0;
        var k := 0;
        while k < a.cols
          invariant 0 <= k <= a.cols
          invariant sum == Dot(a, b, i, j, k)
        {
          sum := sum + a.data[i][k] * b.data[k][j];
          k := k + 1;
        }
        row := row + [sum];
        j := j + 1;
      }
      assert row == p.data[i];
      data := data + [row];
      i := i + 1;
    }
    r := Ok(Matrix(a.rows, b.cols, data));
  }

  /** Matrix.Add: fails unless both shapes agree; otherwise the element-wise sum. */
  method Add(a: Matrix, b: Matrix) returns (r: Result<Matrix>)
    requires a.Valid() && b.Valid()
    ensures r.Err? <==> !SameShape(a, b)
    ensures r.Err? ==> r.error == DimensionMismatch
    ensures r.Ok? ==> r.value.Valid() && SameShape(r.value, a)
    ensures r.Ok? ==> forall i, j | 0 <= i < a.rows && 0 <= j < a.cols :: r.value.At(i, j) == a.At(i, j) + b.At(i, j)
    ensures r.Ok? ==> r.value == Sum(a, b)
  {
    if a.rows != b.rows || a.cols != b.cols {
      return Err(DimensionMismatch);
    }
    ghost var s := Sum(a, b);
    var data: seq<seq<real>> := [];
    var i := 0;
    while i < a.rows
      invariant 0 <= i <= a.rows
      invariant data == s.data[..i]
    {
      var row: seq<real> := [];
      var j := 0;
      while j < a.cols
        invariant 0 <= j <= a.cols
        invariant row == s.data[i][..j]
      {
        row := row + [a.data[i][j] + b.data[i][j]];
        j := j + 1;
      }
      assert row == s.data[i];
      data := data + [row];
      i := i + 1;
    }
    r := Ok(Matrix(a.rows, a.cols, data));
  }

  /** Matrix.Scale: always succeeds, keeps the shape and multiplies every entry by s. */
  method Scale(a: Matrix, s: real) returns (r: Matrix)
    requires a.Valid()
    ensures r.Valid() && SameShape(r, a)
    ensures forall i, j | 0 <= i < a.rows && 0 <= j < a.cols :: r.At(i, j) == a.At(i, j) * s
    ensures r == Scaled(a, s)
  {
    ghost var t := Scaled(a, s);
    var data: seq<seq<real>> := [];
    var i := 0;
    while i < a.rows
      invariant 0 <= i <= a.rows
      invariant data == t.data[..i]
    {
      var row: seq<real> := [];
      var j := 0;
      while j < a.cols
        invariant 0 <= j <= a.cols
        invariant row == t.data[i][..j]
      {
        assert t.data[i][j] == a.data[i][j] * s;
        row := row + [a.data[i][j] * s];
        j := j + 1;
      }
      assert row == t.data[i];
      data := data + [row];
      i := i + 1;
    }
    r := Matrix(a.rows, a.cols, data);
  }

  /** Element-wise addition is commutative, so Add(a, b) and Add(b, a) agree. */
  lemma {:induction false} SumCommutes(a: Matrix, b: Matrix)
    requires a.Valid() && b.Valid() && SameShape(a, b)
    ensures Sum(a, b) == Sum(b, a)
  {
    Extensionality(Sum(a, b), Sum(b, a));
  }

  /** Scaling by one gives back the matrix itself. */
  lemma {:induction false} ScaleByOne(a: Matrix)
    requires a.Valid()
    ensures Scaled(a, 1.0) == a
  {
    Extensionality(Scaled(a, 1.0), a);
  }

  /** The product is m.rows x other.cols; entries are the finite sums Dot. */
  lemma {:induction false} ProductEntries(a: Matrix, b: Matrix)
    requires a.Valid() && b.Valid() && a.cols == b.rows
    ensures Product(a, b).Valid() && Product(a, b).rows == a.rows && Product(a, b).cols == b.cols
    ensures forall i, j | 0 <= i < a.rows && 0 <= j < b.cols :: Product(a, b).At(i, j) == Dot(a, b, i, j, a.cols)
  {
  }
}
