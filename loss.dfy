/** Loss functions (loss.go): binary cross-entropy, categorical cross-entropy and mean squared
    error, each with a shape-checked Forward (the scalar loss) and Backward (its gradient). */
module Losses {
  import opened Errors
  import opened Elementary
  import opened Matrices

  const DefaultEpsilon: real := 1.0e-7

  datatype Loss = BinaryCrossEntropy(epsilon: real) | CategoricalCrossEntropy(epsilon: real) | MSE
  {
    /** The clamping bound keeps every division and logarithm argument away from 0. */
    predicate Valid() {
      match this
      case BinaryCrossEntropy(eps) => 0.0 < eps < 1.0
      case CategoricalCrossEntropy(eps) => 0.0 < eps
      case MSE => true
    }

    /** The count the summed loss is divided by: every element for BCE and MSE (MSE also
        halves), the rows only for CCE. */
    function Count(rows: nat, cols: nat): nat {
      if CategoricalCrossEntropy? then rows else rows * cols
    }

    function Divisor(rows: nat, cols: nat): real {
      if MSE? then 2.0 * ((rows * cols) as real) else Count(rows, cols) as real
    }

    /** The clamped prediction: into [eps, 1 - eps] for BCE, into [eps, +inf) for CCE. */
    function Clamped(p: real): real
      requires !MSE?
    {
      if BinaryCrossEntropy? then Max(epsilon, Min(1.0 - epsilon, p)) else Max(epsilon, p)
    }

    /** The contribution of one prediction p with target t to the summed loss. */
    function Term(p: real, t: real): real
      requires Valid()
    {
      match this
      case BinaryCrossEntropy(_) => -(t * Log(Clamped(p)) + (1.0 - t) * Log(1.0 - Clamped(p)))
      case CategoricalCrossEntropy(_) => -t * Log(Clamped(p))
      case MSE => (t - p) * (t - p)
    }

    /** Gradient entry for prediction p and target t, with n the Count of the batch. */
    function GradientTerm(p: real, t: real, n: real): real
      requires Valid() && n > 0.0
    {
      match this
      case BinaryCrossEntropy(_) =>
        ClampedInRange(p);
        -(t / Clamped(p) - (1.0 - t) / (1.0 - Clamped(p))) / n
      case CategoricalCrossEntropy(_) =>
        ClampedInRange(p);
        -t / Clamped(p) / n
      case MSE => -(t - p) / n
    }

    /** BCE clamps into (0, 1) and CCE into [eps, +inf): both divisions are defined. */
    lemma ClampedInRange(p: real)
      requires Valid() && !MSE?
      ensures Clamped(p) >= epsilon > 0.0
      ensures BinaryCrossEntropy? ==> 0.0 < Clamped(p) < 1.0
      ensures BinaryCrossEntropy? && epsilon <= 0.5 ==> epsilon <= Clamped(p) <= 1.0 - epsilon
      ensures CategoricalCrossEntropy? ==> (p >= epsilon ==> Clamped(p) == p)
    {
    }

    /** Σ_{j < n} Term over row i. */
    function RowTotal(P: Matrix, T: Matrix, i: nat, n: nat): real
      requires Valid() && P.Valid() && T.Valid() && SameShape(P, T) && i < P.rows && n <= P.cols
    {
      if n == 0 then 0.0 else RowTotal(P, T, i, n - 1) + Term(P.At(i, n - 1), T.At(i, n - 1))
    }

    /** Σ over rows < m of the whole-row totals, row-major as the source's loops. */
    function GridTotal(P: Matrix, T: Matrix, m: nat): real
      requires Valid() && P.Valid() && T.Valid() && SameShape(P, T) && m <= P.rows
    {
      if m == 0 then 0.0 else GridTotal(P, T, m - 1) + RowTotal(P, T, m - 1, P.cols)
    }

    /** What Forward demands: when the shapes agree the divisor is not zero (the source's
        0/0 would be a NaN). */
    predicate ForwardReady(P: Matrix, T: Matrix) {
      SameShape(P, T) ==> Count(P.rows, P.cols) > 0
    }

    /** The loss value Forward computes. */
    function Value(P: Matrix, T: Matrix): (r: Result<real>)
      requires Valid() && P.Valid() && T.Valid() && ForwardReady(P, T)
      ensures r.Err? <==> !SameShape(P, T)
      ensures r.Err? ==> r.error == ShapeMismatch
    {
      if !SameShape(P, T) then Err(ShapeMismatch)
      else Ok(GridTotal(P, T, P.rows) / Divisor(P.rows, P.cols))
    }

    /** The gradient Backward computes. */
    function Gradient(P: Matrix, T: Matrix): (r: Result<Matrix>)
      requires Valid() && P.Valid() && T.Valid()
      ensures r.Err? <==> !SameShape(P, T)
      ensures r.Err? ==> r.error == ShapeMismatch
      ensures r.Ok? ==> r.value.Valid() && SameShape(r.value, P)
    {
      if !SameShape(P, T) then Err(ShapeMismatch)
      else
        var n := Count(P.rows, P.cols) as real;
        Ok(Matrix(P.rows, P.cols,
          seq(P.rows, i requires 0 <= i < P.rows =>
            seq(P.cols, j requires 0 <= j < P.cols =>
              PositiveCount(P.rows, P.cols);
              GradientTerm(P.At(i, j), T.At(i, j), n)))))
    }

    lemma PositiveCount(rows: nat, cols: nat)
      requires rows > 0 && cols > 0
      ensures Count(rows, cols) > 0
    {
      assert rows * cols >= rows;
    }

    /** Forward of the three losses: fails exactly when the shapes differ; otherwise the
        summed per-element term divided by Divisor. */
    method Forward(P: Matrix, T: Matrix) returns (r: Result<real>)
      requires Valid() && P.Valid() && T.Valid() && ForwardReady(P, T)
      ensures r.Err? <==> !SameShape(P, T)
      ensures r.Err? ==> r.error == ShapeMismatch
      ensures r == Value(P, T)
    {
      if P.rows != T.rows || P.cols != T.cols {
        return Err(ShapeMismatch);
      }
      var totalLoss := 0.0;
      var n := Divisor(P.rows, P.cols);
      var i := 0;
      while i < P.rows
        invariant 0 <= i <= P.rows
        invariant totalLoss == GridTotal(P, T, i)
      {
        var j := 0;
        while j < P.cols
          invariant 0 <= j <= P.cols
          invariant totalLoss == GridTotal(P, T, i) + RowTotal(P, T, i, j)
        {
          totalLoss := totalLoss + Term(P.data[i][j], T.data[i][j]);
          j := j + 1;
        }
        i := i + 1;
      }
      r := Ok(totalLoss / n);
    }

    /** Backward of the three losses: fails exactly when the shapes differ; otherwise a fresh
        matrix of the predictions' shape filled with GradientTerm. */
    method Backward(P: Matrix, T: Matrix) returns (r: Result<Matrix>)
      requires Valid() && P.Valid() && T.Valid()
      ensures r.Err? <==> !SameShape(P, T)
      ensures r.Err? ==> r.error == ShapeMismatch
      ensures r.Ok? ==> r.value.Valid() && SameShape(r.value, P)
      ensures r == Gradient(P, T)
    {
      if P.rows != T.rows || P.cols != T.cols {
        return Err(ShapeMismatch);
      }
      ghost var want := Gradient(P, T).value;
      var gradient := NewMatrix(P.rows, P.cols);
      var n := Count(P.rows, P.cols) as real;
      var i := 0;
      while i < P.rows
        invariant 0 <= i <= P.rows
        invariant gradient.Valid() && SameShape(gradient, P)
        invariant forall i', j | 0 <= i' < i && 0 <= j < P.cols :: gradient.At(i', j) == want.At(i', j)
      {
        var j := 0;
        while j < P.cols
          invariant 0 <= j <= P.cols
          invariant gradient.Valid() && SameShape(gradient, P)
          invariant forall i', j' | 0 <= i' < i && 0 <= j' < P.cols :: gradient.At(i', j') == want.At(i', j')
          invariant forall j' | 0 <= j' < j :: gradient.At(i, j') == want.At(i, j')
        {
          PositiveCount(P.rows, P.cols);
          gradient := gradient.Set(i, j, GradientTerm(P.data[i][j], T.data[i][j], n));
          j := j + 1;
        }
        i := i + 1;
      }
      Extensionality(gradient, want);
      r := Ok(gradient);
    }
  }

  function NewBinaryCrossEntropy(): (l: Loss)
    ensures l.Valid() && l == BinaryCrossEntropy(1.0e-7)
  {
    BinaryCrossEntropy(DefaultEpsilon)
  }

  function NewCategoricalCrossEntropy(): (l: Loss)
    ensures l.Valid() && l == CategoricalCrossEntropy(1.0e-7)
  {
    CategoricalCrossEntropy(DefaultEpsilon)
  }

  function NewMSE(): (l: Loss)
    ensures l.Valid() && l == MSE
  {
    MSE
  }

  // ---------------------------------------------------------------- properties of the losses

  lemma {:induction false} MSERowNonNegative(P: Matrix, T: Matrix, i: nat, n: nat)
    requires P.Valid() && T.Valid() && SameShape(P, T) && i < P.rows && n <= P.cols
    ensures MSE.RowTotal(P, T, i, n) >= 0.0
  {
    if n > 0 {
      MSERowNonNegative(P, T, i, n - 1);
      var d := T.At(i, n - 1) - P.At(i, n - 1);
      assert d * d >= 0.0;
    }
  }

  lemma {:induction false} MSEGridNonNegative(P: Matrix, T: Matrix, m: nat)
    requires P.Valid() && T.Valid() && SameShape(P, T) && m <= P.rows
    ensures MSE.GridTotal(P, T, m) >= 0.0
  {
    if m > 0 {
      MSEGridNonNegative(P, T, m - 1);
      MSERowNonNegative(P, T, m - 1, P.cols);
    }
  }

  /** The MSE loss is never negative. */
  lemma MSENonNegative(P: Matrix, T: Matrix)
    requires P.Valid() && T.Valid() && SameShape(P, T) && P.rows * P.cols > 0
    ensures MSE.Value(P, T).Ok? && MSE.Value(P, T).value >= 0.0
  {
    MSEGridNonNegative(P, T, P.rows);
  }

  lemma {:induction false} MSERowSymmetric(P: Matrix, T: Matrix, i: nat, n: nat)
    requires P.Valid() && T.Valid() && SameShape(P, T) && i < P.rows && n <= P.cols
    ensures MSE.RowTotal(P, T, i, n) == MSE.RowTotal(T, P, i, n)
  {
    if n > 0 {
      MSERowSymmetric(P, T, i, n - 1);
      var a, b := P.At(i, n - 1), T.At(i, n - 1);
      assert (b - a) * (b - a) == (a - b) * (a - b);
    }
  }

  lemma {:induction false} MSEGridSymmetric(P: Matrix, T: Matrix, m: nat)
    requires P.Valid() && T.Valid() && SameShape(P, T) && m <= P.rows
    ensures MSE.GridTotal(P, T, m) == MSE.GridTotal(T, P, m)
  {
    if m > 0 {
      MSEGridSymmetric(P, T, m - 1);
      MSERowSymmetric(P, T, m - 1, P.cols);
    }
  }

  /** The MSE loss does not depend on which argument is the prediction. */
  lemma MSESymmetric(P: Matrix, T: Matrix)
    requires P.Valid() && T.Valid() && MSE.ForwardReady(P, T)
    ensures MSE.Value(P, T) == MSE.Value(T, P)
  {
    if SameShape(P, T) {
      MSEGridSymmetric(P, T, P.rows);
    }
  }

  /** Swapping predictions and targets negates the MSE gradient. */
  lemma MSEGradientAntisymmetric(P: Matrix, T: Matrix)
    requires P.Valid() && T.Valid() && SameShape(P, T)
    ensures MSE.Gradient(P, T).Ok? && MSE.Gradient(T, P).Ok?
    ensures MSE.Gradient(T, P).value == Scaled(MSE.Gradient(P, T).value, -1.0)
  {
    var g, h := MSE.Gradient(P, T).value, MSE.Gradient(T, P).value;
    forall i, j | 0 <= i < P.rows && 0 <= j < P.cols
      ensures h.At(i, j) == Scaled(g, -1.0).At(i, j)
    {
      PositiveCount'(P.rows, P.cols);
      var n := (P.rows * P.cols) as real;
      assert g.At(i, j) == -(T.At(i, j) - P.At(i, j)) / n;
      assert h.At(i, j) == -(P.At(i, j) - T.At(i, j)) / n;
      QuotientNegated(P.At(i, j), T.At(i, j), n);
      assert Scaled(g, -1.0).At(i, j) == g.At(i, j) * -1.0;
    }
    Extensionality(h, Scaled(g, -1.0));
  }

  /** Swapping a and b negates -(b - a) / n. */
  lemma QuotientNegated(a: real, b: real, n: real)
    requires n > 0.0
    ensures -(a - b) / n == (-(b - a) / n) * -1.0
  {
  }

  lemma PositiveCount'(rows: nat, cols: nat)
    requires rows > 0 && cols > 0
    ensures rows * cols > 0
  {
    MSE.PositiveCount(rows, cols);
  }

  /** Each MSE gradient entry is (p - t) / (rows · cols). */
  lemma MSEGradientEntries(P: Matrix, T: Matrix)
    requires P.Valid() && T.Valid() && SameShape(P, T)
    ensures MSE.Gradient(P, T).Ok?
    ensures forall i, j | 0 <= i < P.rows && 0 <= j < P.cols ::
              MSE.Gradient(P, T).value.At(i, j) == (P.At(i, j) - T.At(i, j)) / ((P.rows * P.cols) as real)
  {
    forall i, j | 0 <= i < P.rows && 0 <= j < P.cols
      ensures MSE.Gradient(P, T).value.At(i, j) == (P.At(i, j) - T.At(i, j)) / ((P.rows * P.cols) as real)
    {
      PositiveCount'(P.rows, P.cols);
    }
  }

  /** P = [[2]], T = [[0]]: loss (0 - 2)² / 2 = 2 and gradient -(0 - 2) / 1 = 2. */
  lemma MSEExample()
    ensures MSE.Value(Matrix(1, 1, [[2.0]]), Matrix(1, 1, [[0.0]])) == Ok(2.0)
    ensures MSE.Gradient(Matrix(1, 1, [[2.0]]), Matrix(1, 1, [[0.0]])) == Ok(Matrix(1, 1, [[2.0]]))
  {
    var P, T := Matrix(1, 1, [[2.0]]), Matrix(1, 1, [[0.0]]);
    assert MSE.RowTotal(P, T, 0, 1) == 4.0;
    var g := MSE.Gradient(P, T).value;
    assert g.At(0, 0) == 2.0;
    Extensionality(g, Matrix(1, 1, [[2.0]]));
  }

  /** P = [[0.5]], T = [[1]]: the BCE loss is -log(0.5). */
  lemma BCEExample()
    ensures NewBinaryCrossEntropy().Value(Matrix(1, 1, [[0.5]]), Matrix(1, 1, [[1.0]])) == Ok(-Log(0.5))
  {
    var l, P, T := NewBinaryCrossEntropy(), Matrix(1, 1, [[0.5]]), Matrix(1, 1, [[1.0]]);
    assert l.Clamped(0.5) == 0.5;
    assert l.RowTotal(P, T, 0, 1) == -(1.0 * Log(0.5) + 0.0 * Log(0.5));
    assert l.GridTotal(P, T, 1) == -Log(0.5);
    assert l.Divisor(1, 1) == 1.0;
  }

  /** CCE passes no gradient where the target is zero. */
  lemma CCEGradientZeroWithoutTarget(l: Loss, P: Matrix, T: Matrix, i: nat, j: nat)
    requires l.CategoricalCrossEntropy? && l.Valid() && P.Valid() && T.Valid() && SameShape(P, T)
    requires i < P.rows && j < P.cols && T.At(i, j) == 0.0
    ensures l.Gradient(P, T).Ok? && l.Gradient(P, T).value.At(i, j) == 0.0
  {
    l.ClampedInRange(P.At(i, j));
  }
}
