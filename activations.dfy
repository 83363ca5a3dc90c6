/** Activation functions (activations.go): ReLU and the numerically stabilised softmax. */
module Activations {
  import opened Elementary
  import opened Matrices

  /** ReLU(x): x when x > 0, else 0, i.e. max(0, x). */
  function ReLU(x: real): (r: real)
    ensures r >= 0.0 && r >= x && (r == x || r == 0.0)
    ensures r == x <==> x >= 0.0
  {
    if x > 0.0 then x else 0.0
  }

  lemma ReLUIdempotent(x: real)
    ensures ReLU(ReLU(x)) == ReLU(x)
  {
  }

  /** The running maximum of s[..n+1] as the source's loop computes it: start from s[0] and
      replace it by every strictly larger element. */
  function RunningMax(s: seq<real>, n: nat): real
    requires n < |s|
  {
    if n == 0 then s[0]
    else if s[n] > RunningMax(s, n - 1) then s[n] else RunningMax(s, n - 1)
  }

  function MaxOf(s: seq<real>): real
    requires |s| > 0
  {
    RunningMax(s, |s| - 1)
  }

  /** The running maximum bounds every element it has seen and is one of them. */
  lemma {:induction false} RunningMaxIsMax(s: seq<real>, n: nat)
    requires n < |s|
    ensures forall i | 0 <= i <= n :: s[i] <= RunningMax(s, n)
    ensures exists i | 0 <= i <= n :: s[i] == RunningMax(s, n)
  {
    if n == 0 {
      assert s[0] == RunningMax(s, 0);
    } else {
      RunningMaxIsMax(s, n - 1);
      if s[n] > RunningMax(s, n - 1) {
        assert s[n] == RunningMax(s, n);
      } else {
        var k :| 0 <= k <= n - 1 && s[k] == RunningMax(s, n - 1);
        assert s[k] == RunningMax(s, n);
      }
    }
  }

  /** Sum of a sequence, added left to right. */
  function Total(s: seq<real>): real {
    if s == [] then 0.0 else Total(s[..|s| - 1]) + s[|s| - 1]
  }

  lemma TotalStep(s: seq<real>, i: nat)
    requires i < |s|
    ensures Total(s[..i + 1]) == Total(s[..i]) + s[i]
  {
    assert s[..i + 1][..i] == s[..i];
  }

  /** The shifted exponentials exp(v - max) of the source's second loop. */
  function Exponentials(s: seq<real>): (e: seq<real>)
    requires |s| > 0
  {
    seq(|s|, i requires 0 <= i < |s| => Exp(s[i] - MaxOf(s)))
  }

  /** Every element divided by d. */
  function Normalised(e: seq<real>, d: real): (q: seq<real>)
    requires d != 0.0
  {
    seq(|e|, i requires 0 <= i < |e| => e[i] / d)
  }

  /** Softmax of a non-empty vector: each shifted exponential divided by their total. */
  function SoftmaxOf(s: seq<real>): seq<real>
    requires |s| > 0
  {
    PositiveTotal(Exponentials(s));
    Normalised(Exponentials(s), Total(Exponentials(s)))
  }

  lemma {:induction false} PositiveTotal(e: seq<real>)
    requires |e| > 0 && forall i | 0 <= i < |e| :: e[i] > 0.0
    ensures Total(e) > 0.0
  {
    if |e| > 1 {
      PositiveTotal(e[..|e| - 1]);
    }
  }

  lemma {:induction false} TotalDivided(e: seq<real>, d: real)
    requires d != 0.0
    ensures Total(Normalised(e, d)) == Total(e) / d
  {
    if e != [] {
      var n := |e| - 1;
      assert Normalised(e, d)[..n] == Normalised(e[..n], d);
      TotalDivided(e[..n], d);
      assert Total(Normalised(e, d)) == Total(e[..n]) / d + e[n] / d;
    }
  }

  lemma PositiveQuotients(e: seq<real>, d: real)
    requires d > 0.0 && forall i | 0 <= i < |e| :: e[i] > 0.0
    ensures forall i | 0 <= i < |e| :: Normalised(e, d)[i] > 0.0
  {
    forall i | 0 <= i < |e| ensures Normalised(e, d)[i] > 0.0 {
      assert Normalised(e, d)[i] == e[i] / d;
    }
  }

  /** Every exponent argument v - max is at most zero, and one of them is exactly zero. */
  lemma ExponentArgumentsNonPositive(s: seq<real>)
    requires |s| > 0
    ensures forall i | 0 <= i < |s| :: s[i] - MaxOf(s) <= 0.0
    ensures exists i | 0 <= i < |s| :: s[i] - MaxOf(s) == 0.0
  {
    RunningMaxIsMax(s, |s| - 1);
  }

  /** The softmax vector has the input's length, positive entries, and sums to one. */
  lemma SoftmaxIsDistribution(s: seq<real>)
    requires |s| > 0
    ensures |SoftmaxOf(s)| == |s|
    ensures forall i | 0 <= i < |s| :: SoftmaxOf(s)[i] > 0.0
    ensures Total(SoftmaxOf(s)) == 1.0
  {
    var e := Exponentials(s);
    PositiveTotal(e);
    TotalDivided(e, Total(e));
    PositiveQuotients(e, Total(e));
    assert Total(e) / Total(e) == 1.0;
  }

  /** Every element plus c. */
  function Shift(s: seq<real>, c: real): (t: seq<real>) {
    seq(|s|, i requires 0 <= i < |s| => s[i] + c)
  }

  /** Shifting the input shifts the running maximum by the same constant. */
  lemma {:induction false} RunningMaxShift(s: seq<real>, c: real, n: nat)
    requires n < |s|
    ensures RunningMax(Shift(s, c), n) == RunningMax(s, n) + c
  {
    if n > 0 {
      RunningMaxShift(s, c, n - 1);
    }
  }

  lemma ExponentialsShift(s: seq<real>, c: real)
    requires |s| > 0
    ensures Exponentials(Shift(s, c)) == Exponentials(s)
  {
    var t := Shift(s, c);
    RunningMaxShift(s, c, |s| - 1);
    forall i | 0 <= i < |s| ensures Exponentials(t)[i] == Exponentials(s)[i] {
      assert t[i] - MaxOf(t) == s[i] - MaxOf(s);
    }
  }

  /** Softmax is invariant under adding one constant to every input. */
  lemma SoftmaxShiftInvariant(s: seq<real>, c: real)
    requires |s| > 0
    ensures SoftmaxOf(Shift(s, c)) == SoftmaxOf(s)
  {
    ExponentialsShift(s, c);
  }

  /** The maximum of the input, found by the source's first loop. */
  method MaxElement(input: seq<real>) returns (max: real)
    requires |input| > 0
    ensures max == MaxOf(input)
  {
    max := input[0];
    var k := 0;
    while k < |input|
      invariant 0 <= k <= |input|
      invariant k == 0 ==> max == input[0]
      invariant k > 0 ==> max == RunningMax(input, k - 1)
    {
      if input[k] > max {
        max := input[k];
      }
      k := k + 1;
    }
  }

  /** The shifted exponentials and their running total (the source's second loop). */
  method ShiftedExponentials(input: seq<real>, max: real) returns (expValues: seq<real>, sum: real)
    requires |input| > 0 && max == MaxOf(input)
    ensures expValues == Exponentials(input)
    ensures sum == Total(expValues) && sum > 0.0
  {
    ghost var e := Exponentials(input);
    expValues := [];
    sum := 0.0;
    var i := 0;
    while i < |input|
      invariant 0 <= i <= |input|
      invariant expValues == e[..i]
      invariant sum == Total(e[..i])
    {
      expValues := expValues + [Exp(input[i] - max)];
      TotalStep(e, i);
      sum := sum + expValues[i];
      i := i + 1;
    }
    assert e[..|input|] == e;
    PositiveTotal(e);
  }

  /** Each exponential divided by their total (the source's third loop). */
  method Normalise(expValues: seq<real>, sum: real) returns (output: seq<real>)
    requires sum > 0.0
    ensures output == Normalised(expValues, sum)
  {
    output := [];
    var i := 0;
    while i < |expValues|
      invariant 0 <= i <= |expValues|
      invariant output == Normalised(expValues, sum)[..i]
    {
      output := output + [expValues[i] / sum];
      i := i + 1;
    }
  }

  /** Softmax: max-subtraction, exponentials with their running total, then normalisation.
      The result has the input's length, positive entries, and sums to one. */
  method Softmax(input: seq<real>) returns (output: seq<real>)
    requires |input| > 0
    ensures output == SoftmaxOf(input)
    ensures |output| == |input|
    ensures forall i | 0 <= i < |input| :: output[i] > 0.0
    ensures Total(output) == 1.0
  {
    var max := MaxElement(input);
    var expValues, sum := ShiftedExponentials(input, max);
    output := Normalise(expValues, sum);
    SoftmaxIsDistribution(input);
  }

  /** Row-wise softmax of a matrix whose rows are non-empty (or that has no rows). */
  function SoftmaxRows(m: Matrix): Matrix
    requires m.Valid() && (m.rows == 0 || m.cols > 0)
  {
    Matrix(m.rows, m.cols, seq(m.rows, i requires 0 <= i < m.rows => SoftmaxOf(m.data[i])))
  }

  /** SoftmaxMatrix: same shape; row i is the softmax of input row i alone. */
  method SoftmaxMatrix(m: Matrix) returns (r: Matrix)
    requires m.Valid() && (m.rows == 0 || m.cols > 0)
    ensures r.Valid() && SameShape(r, m)
    ensures forall i | 0 <= i < m.rows :: r.data[i] == SoftmaxOf(m.data[i])
    ensures r == SoftmaxRows(m)
  {
    ghost var spec := SoftmaxRows(m);
    var result := NewMatrix(m.rows, m.cols);
    var data := result.data;
    var i := 0;
    while i < m.rows
      invariant 0 <= i <= m.rows && |data| == m.rows
      invariant data[..i] == spec.data[..i]
      invariant data[i..] == result.data[i..]
    {
      var row := Softmax(m.data[i]);
      data := data[i := row];
      i := i + 1;
    }
    assert data == spec.data;
    r := Matrix(m.rows, m.cols, data);
  }

  /** ReLU applied to every entry. */
  function ReLUAll(m: Matrix): Matrix
    requires m.Valid()
  {
    Matrix(m.rows, m.cols,
      seq(m.rows, i requires 0 <= i < m.rows =>
        seq(m.cols, j requires 0 <= j < m.cols => ReLU(m.At(i, j)))))
  }

  /** ReLUMatrix: same shape, ReLU of every entry. */
  method ReLUMatrix(m: Matrix) returns (r: Matrix)
    requires m.Valid()
    ensures r.Valid() && SameShape(r, m)
    ensures forall i, j | 0 <= i < m.rows && 0 <= j < m.cols :: r.At(i, j) == ReLU(m.At(i, j))
    ensures r == ReLUAll(m)
  {
    ghost var spec := ReLUAll(m);
    var data: seq<seq<real>> := [];
    var i := 0;
    while i < m.rows
      invariant 0 <= i <= m.rows
      invariant data == spec.data[..i]
    {
      var row: seq<real> := [];
      var j := 0;
      while j < m.cols
        invariant 0 <= j <= m.cols
        invariant row == spec.data[i][..j]
      {
        row := row + [ReLU(m.data[i][j])];
        j := j + 1;
      }
      assert row == spec.data[i];
      data := data + [row];
      i := i + 1;
    }
    r := Matrix(m.rows, m.cols, data);
  }
}
