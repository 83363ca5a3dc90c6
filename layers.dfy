/** Layers (layers.go): Dense, ReLULayer and SoftmaxLayer behind one Layer type.
    A layer is a value; its Forward and Backward return the layer with its caches updated
    alongside their result, which is how the model threads the source's in-place field writes. */
module Layers {
  import opened Errors
  import opened Elementary
  import opened Matrices
  import opened Activations

  /** Architecture of a layer: what Forward and Backward never change. */
  datatype Kind = DenseKind(inputSize: nat, outputSize: nat) | ReLUKind | SoftmaxKind

  /** The three layer kinds with their parameters and caches. `lastInput` of a Dense or ReLU
      layer is the copy of the batch its last successful Forward saw (an empty batch before
      the first Forward stands in for the source's nil pointer). */
  datatype Layer =
    | Dense(inputSize: nat, outputSize: nat, weights: Matrix, bias: Matrix,
            lastInput: Matrix, weightsGrad: Matrix, biasGrad: Matrix)
    | ReLULayer(lastInput: Matrix)
    | SoftmaxLayer(lastOutput: Matrix)
  {
    /** Weights are inputSize x outputSize, bias is 1 x outputSize, each gradient buffer has its
        parameter's shape, and the cached input has inputSize columns. */
    predicate Valid() {
      match this
      case Dense(inS, outS, w, b, x, wg, bg) =>
        w.Valid() && w.rows == inS && w.cols == outS &&
        b.Valid() && b.rows == 1 && b.cols == outS &&
        wg.Valid() && SameShape(wg, w) && bg.Valid() && SameShape(bg, b) &&
        x.Valid() && x.cols == inS
      case ReLULayer(x) => x.Valid()
      case SoftmaxLayer(y) => y.Valid()
    }

    function Kind(): Kind {
      match this
      case Dense(inS, outS, _, _, _, _, _) => DenseKind(inS, outS)
      case ReLULayer(_) => ReLUKind
      case SoftmaxLayer(_) => SoftmaxKind
    }

    /** The batch cached by the last Forward (the input for Dense and ReLU, the output for
        softmax). */
    function Cache(): Matrix {
      match this
      case Dense(_, _, _, _, x, _, _) => x
      case ReLULayer(x) => x
      case SoftmaxLayer(y) => y
    }

    /** GetParams: Dense has [weights, bias], activation layers none. */
    function GetParams(): (ps: seq<Matrix>)
      ensures Dense? ==> ps == [weights, bias]
      ensures !Dense? ==> ps == []
    {
      if Dense? then [weights, bias] else []
    }

    /** GetGrads: aligned with GetParams, each gradient with its parameter's shape. */
    function GetGrads(): (gs: seq<Matrix>)
      requires Valid()
      ensures |gs| == |GetParams()|
      ensures forall s | 0 <= s < |gs| :: gs[s].Valid() && SameShape(gs[s], GetParams()[s])
    {
      if Dense? then [weightsGrad, biasGrad] else []
    }

    /** GetParamNames: "weights" then "bias" for Dense, nothing for activation layers. */
    function GetParamNames(): (ns: seq<string>)
      ensures |ns| == |GetParams()|
      ensures Dense? ==> ns == ["weights", "bias"]
      ensures forall s, t | 0 <= s < t < |ns| :: ns[s] != ns[t]
    {
      if Dense? then ["weights", "bias"] else []
    }

    /** The layer with parameter slot s replaced by p (the source's in-place copy-back). */
    function WithParam(s: nat, p: Matrix): (l: Layer)
      requires Valid() && s < |GetParams()| && p.Valid() && SameShape(p, GetParams()[s])
      ensures l.Valid() && l.Kind() == Kind() && l.GetGrads() == GetGrads()
      ensures |l.GetParams()| == |GetParams()|
      ensures l.GetParams() == GetParams()[s := p]
    {
      if s == 0 then this.(weights := p) else this.(bias := p)
    }

    /** m has this layer's kind and parameters. Stated on fields rather than on GetParams so
        that the facts stay cheap for the verifier; WeightsAgree turns it into GetParams. */
    predicate SameWeights(m: Layer) {
      Kind() == m.Kind() && (Dense? && m.Dense? ==> weights == m.weights && bias == m.bias)
    }

    /** m has this layer's gradient buffers. */
    predicate SameGradBuffers(m: Layer) {
      Dense? && m.Dense? ==> weightsGrad == m.weightsGrad && biasGrad == m.biasGrad
    }

    /** What Forward demands: softmax reads row 0 of every row it normalises. */
    predicate ForwardReady(input: Matrix) {
      SoftmaxLayer? ==> input.rows == 0 || input.cols > 0
    }

    /** The layer after Forward and the Forward result. */
    function ForwardResult(input: Matrix): (r: (Layer, Result<Matrix>))
      requires Valid() && input.Valid() && ForwardReady(input)
      ensures r.0.Valid() && r.0.SameWeights(this) && r.0.SameGradBuffers(this)
      ensures r.1.Err? ==> r.0 == this
      ensures r.1.Ok? ==> r.1.value.Valid() && r.1.value.rows == input.rows
    {
      match this
      case Dense(inS, _, w, b, _, _, _) =>
        if input.cols != inS then (this, Err(InputSizeMismatch(input.cols, inS)))
        else (this.(lastInput := input), Ok(BiasAdded(Product(input, w), b)))
      case ReLULayer(_) => (ReLULayer(input), Ok(ReLUAll(input)))
      case SoftmaxLayer(_) => (SoftmaxLayer(SoftmaxRows(input)), Ok(SoftmaxRows(input)))
    }

    /** What Backward demands of its gradient and of the cache left by Forward: Dense reads
        lastInput.rows rows of the gradient and divides by the batch size; ReLU reads the cached
        input at every position of the gradient. */
    predicate BackwardReady(g: Matrix) {
      match this
      case Dense(_, outS, _, _, x, _, _) =>
        g.cols == outS ==> x.rows <= g.rows && (outS > 0 ==> g.rows > 0)
      case ReLULayer(x) =>
        g.rows > 0 && g.cols > 0 ==> g.rows <= x.rows && g.cols <= x.cols
      case SoftmaxLayer(_) => true
    }

    /** The layer after Backward and the gradient it passes upstream. */
    function BackwardResult(g: Matrix): (r: (Layer, Result<Matrix>))
      requires Valid() && g.Valid() && BackwardReady(g)
      ensures r.0.Valid() && r.0.SameWeights(this) && r.0.Cache() == Cache()
      ensures r.1.Err? ==> r.0 == this
      ensures r.1.Ok? ==> r.1.value.Valid() && r.1.value.rows == g.rows
    {
      match this
      case Dense(inS, outS, w, _, x, _, _) =>
        if g.cols != outS then (this, Err(GradientSizeMismatch))
        else (this.(weightsGrad := WeightGradient(x, g, inS), biasGrad := BiasGradient(g)),
              Ok(InputGradient(g, w)))
      case ReLULayer(x) => (this, Ok(ReLUMask(x, g)))
      case SoftmaxLayer(_) => (this, Ok(g))
    }

    /** Dense.Forward, ReLULayer.Forward, SoftmaxLayer.Forward. */
    method Forward(input: Matrix) returns (next: Layer, r: Result<Matrix>)
      requires Valid() && input.Valid() && ForwardReady(input)
      ensures (next, r) == ForwardResult(input)
      ensures next.Valid() && next.SameWeights(this)
      ensures Dense? ==> (r.Err? <==> input.cols != inputSize)
      ensures Dense? && r.Err? ==> next == this && r.error == InputSizeMismatch(input.cols, inputSize)
      ensures Dense? && r.Ok? ==> next == this.(lastInput := input)
      ensures r.Ok? && Dense? ==> r.value.Valid() && r.value.rows == input.rows && r.value.cols == outputSize
      ensures r.Ok? && Dense? ==> forall i, j | 0 <= i < input.rows && 0 <= j < outputSize ::
                r.value.At(i, j) == Dot(input, weights, i, j, inputSize) + bias.At(0, j)
      ensures ReLULayer? ==> next == ReLULayer(input) && r == Ok(ReLUAll(input))
      ensures SoftmaxLayer? ==> r.Ok? && next == SoftmaxLayer(r.value) && r.value == SoftmaxRows(input)
    {
      match this
      case Dense(inS, outS, w, b, _, _, _) =>
        if input.cols != inS {
          return this, Err(InputSizeMismatch(input.cols, inS));
        }
        next := this.(lastInput := input);
        var product := Multiply(input, w);
        var output := product.value;
        output := AddBiasInPlace(output, b);
        r := Ok(output);
      case ReLULayer(_) =>
        next := ReLULayer(input);
        var output := ReLUMatrix(input);
        r := Ok(output);
      case SoftmaxLayer(_) =>
        var output := SoftmaxMatrix(input);
        next := SoftmaxLayer(output);
        r := Ok(output);
    }

    /** Dense.Backward, ReLULayer.Backward, SoftmaxLayer.Backward. */
    method Backward(g: Matrix) returns (next: Layer, r: Result<Matrix>)
      requires Valid() && g.Valid() && BackwardReady(g)
      ensures (next, r) == BackwardResult(g)
      ensures next.Valid() && next.SameWeights(this)
      ensures Dense? ==> (r.Err? <==> g.cols != outputSize)
      ensures Dense? && r.Err? ==> next == this && r.error == GradientSizeMismatch
      ensures !Dense? ==> r.Ok? && next == this
      ensures r.Ok? ==> r.value.Valid() && r.value.rows == g.rows
      ensures r.Ok? && Dense? ==> r.value.cols == inputSize
      ensures r.Ok? && !Dense? ==> r.value.cols == g.cols
      ensures Dense? && r.Ok? ==> next.weights == weights && next.bias == bias && next.lastInput == lastInput
      ensures Dense? && r.Ok? ==> forall i, j | 0 <= i < inputSize && 0 <= j < outputSize ::
                next.weightsGrad.At(i, j) == ColumnDot(lastInput, g, i, j, lastInput.rows) / (g.rows as real)
      ensures Dense? && r.Ok? ==> forall j | 0 <= j < outputSize ::
                next.biasGrad.At(0, j) == ColumnSum(g, j, g.rows) / (g.rows as real)
      ensures Dense? && r.Ok? ==> forall i, j | 0 <= i < g.rows && 0 <= j < inputSize ::
                r.value.At(i, j) == RowDot(g, weights, i, j, outputSize)
      ensures ReLULayer? ==> forall i, j | 0 <= i < g.rows && 0 <= j < g.cols ::
                r.value.At(i, j) == if lastInput.At(i, j) > 0.0 then g.At(i, j) else 0.0
      ensures SoftmaxLayer? ==> r.value == g
    {
      match this
      case Dense(inS, outS, w, _, x, wg, bg) =>
        if g.cols != outS {
          return this, Err(GradientSizeMismatch);
        }
        var weightsGrad' := OverwriteWeightGradient(wg, x, g);
        var biasGrad' := OverwriteBiasGradient(bg, g);
        var gradInput := PropagateGradient(g, w);
        next := this.(weightsGrad := weightsGrad', biasGrad := biasGrad');
        r := Ok(gradInput);
      case ReLULayer(x) =>
        var gradInput := MaskGradient(x, g);
        next := this;
        r := Ok(gradInput);
      case SoftmaxLayer(_) =>
        next := this;
        r := Ok(g);
    }
  }

  /** NewDense: inputSize x outputSize weights, He-scaled from the caller's standard-normal draws
      (the source draws them from math/rand), a zero 1 x outputSize bias, and zero gradient
      buffers of the parameters' shapes. */
  method NewDense(inputSize: nat, outputSize: nat, normals: Matrix) returns (d: Layer)
    requires normals.Valid() && normals.rows == inputSize && normals.cols == outputSize
    ensures d.Valid() && d.Dense? && d.Kind() == DenseKind(inputSize, outputSize)
    ensures forall i, j | 0 <= i < inputSize && 0 <= j < outputSize ::
              d.weights.At(i, j) == normals.At(i, j) * Sqrt(2.0 / (inputSize as real))
    ensures d.bias == Zeros(1, outputSize)
    ensures d.weightsGrad == Zeros(inputSize, outputSize) && d.biasGrad == Zeros(1, outputSize)
    ensures d.lastInput.rows == 0
  {
    var weights := NewMatrix(inputSize, outputSize);
    if inputSize > 0 {
      var scale := Sqrt(2.0 / (inputSize as real));
      var i := 0;
      while i < inputSize
        invariant 0 <= i <= inputSize
        invariant weights.Valid() && weights.rows == inputSize && weights.cols == outputSize
        invariant forall i', j | 0 <= i' < i && 0 <= j < outputSize :: weights.At(i', j) == normals.At(i', j) * scale
      {
        var j := 0;
        while j < outputSize
          invariant 0 <= j <= outputSize
          invariant weights.Valid() && weights.rows == inputSize && weights.cols == outputSize
          invariant forall i', j' | 0 <= i' < i && 0 <= j' < outputSize :: weights.At(i', j') == normals.At(i', j') * scale
          invariant forall j' | 0 <= j' < j :: weights.At(i, j') == normals.At(i, j') * scale
        {
          weights := weights.Set(i, j, normals.data[i][j] * scale);
          j := j + 1;
        }
        i := i + 1;
      }
    }
    var bias := NewMatrix(1, outputSize);
    var weightsGrad := NewMatrix(inputSize, outputSize);
    var biasGrad := NewMatrix(1, outputSize);
    var noInput := NewMatrix(0, inputSize);
    d := Dense(inputSize, outputSize, weights, bias, noInput, weightsGrad, biasGrad);
  }

  /** NewReLULayer: no parameters and nothing cached yet. */
  function NewReLULayer(): (l: Layer)
    ensures l.Valid() && l.Kind() == ReLUKind && l.GetParams() == [] && l.lastInput.rows == 0
  {
    ReLULayer(Zeros(0, 0))
  }

  /** NewSoftmaxLayer: no parameters and nothing cached yet. */
  function NewSoftmaxLayer(): (l: Layer)
    ensures l.Valid() && l.Kind() == SoftmaxKind && l.GetParams() == [] && l.lastOutput.rows == 0
  {
    SoftmaxLayer(Zeros(0, 0))
  }

  /** Layers with the same kind and parameters (and gradient buffers) report the same
      GetParams (and GetGrads). */
  lemma WeightsAgree(l: Layer, m: Layer)
    requires l.Valid() && m.Valid() && l.SameWeights(m)
    ensures l.GetParams() == m.GetParams()
    ensures l.SameGradBuffers(m) ==> l.GetGrads() == m.GetGrads()
  {
  }

  // ---------------------------------------------------------------- specification functions

  /** m with row vector b added to every row. */
  function BiasAdded(m: Matrix, b: Matrix): Matrix
    requires m.Valid() && b.Valid() && b.rows == 1 && b.cols == m.cols
  {
    Matrix(m.rows, m.cols,
      seq(m.rows, i requires 0 <= i < m.rows =>
        seq(m.cols, j requires 0 <= j < m.cols => m.At(i, j) + b.At(0, j))))
  }

  /** Σ_{b < n} x[b][i] · g[b][j]: column i of x against column j of g. */
  function ColumnDot(x: Matrix, g: Matrix, i: nat, j: nat, n: nat): real
    requires x.Valid() && g.Valid() && i < x.cols && j < g.cols && n <= x.rows && n <= g.rows
  {
    if n == 0 then 0.0 else ColumnDot(x, g, i, j, n - 1) + x.At(n - 1, i) * g.At(n - 1, j)
  }

  /** Σ_{b < n} g[b][j]. */
  function ColumnSum(g: Matrix, j: nat, n: nat): real
    requires g.Valid() && j < g.cols && n <= g.rows
  {
    if n == 0 then 0.0 else ColumnSum(g, j, n - 1) + g.At(n - 1, j)
  }

  /** Σ_{k < n} g[i][k] · w[j][k]: row i of g against row j of w (g × wᵀ). */
  function RowDot(g: Matrix, w: Matrix, i: nat, j: nat, n: nat): real
    requires g.Valid() && w.Valid() && i < g.rows && j < w.rows && n <= g.cols && n <= w.cols
  {
    if n == 0 then 0.0 else RowDot(g, w, i, j, n - 1) + g.At(i, n - 1) * w.At(j, n - 1)
  }

  /** The batch-averaged weight gradient (xᵀ g) / rows(g), over the rows x caches. */
  function WeightGradient(x: Matrix, g: Matrix, inputSize: nat): Matrix
    requires x.Valid() && g.Valid() && x.cols == inputSize && x.rows <= g.rows
    requires g.cols > 0 ==> g.rows > 0
  {
    Matrix(inputSize, g.cols,
      seq(inputSize, i requires 0 <= i < inputSize =>
        seq(g.cols, j requires 0 <= j < g.cols => ColumnDot(x, g, i, j, x.rows) / (g.rows as real))))
  }

  /** The batch-averaged bias gradient: column sums of g divided by rows(g). */
  function BiasGradient(g: Matrix): Matrix
    requires g.Valid() && (g.cols > 0 ==> g.rows > 0)
  {
    Matrix(1, g.cols,
      seq(1, _ => seq(g.cols, j requires 0 <= j < g.cols => ColumnSum(g, j, g.rows) / (g.rows as real))))
  }

  /** The gradient passed upstream, g × wᵀ, with no batch averaging. */
  function InputGradient(g: Matrix, w: Matrix): Matrix
    requires g.Valid() && w.Valid() && g.cols == w.cols
  {
    Matrix(g.rows, w.rows,
      seq(g.rows, i requires 0 <= i < g.rows =>
        seq(w.rows, j requires 0 <= j < w.rows => RowDot(g, w, i, j, g.cols))))
  }

  /** g where the cached input was strictly positive, 0 elsewhere. */
  function ReLUMask(x: Matrix, g: Matrix): Matrix
    requires x.Valid() && g.Valid()
    requires g.rows > 0 && g.cols > 0 ==> g.rows <= x.rows && g.cols <= x.cols
  {
    Matrix(g.rows, g.cols,
      seq(g.rows, i requires 0 <= i < g.rows =>
        seq(g.cols, j requires 0 <= j < g.cols => if x.At(i, j) > 0.0 then g.At(i, j) else 0.0)))
  }

  // ---------------------------------------------------------------- the loops of layers.go

  /** The bias loop of Dense.Forward: adds b[0][j] to every entry of column j, in place. */
  method AddBiasInPlace(m: Matrix, b: Matrix) returns (output: Matrix)
    requires m.Valid() && b.Valid() && b.rows == 1 && b.cols == m.cols
    ensures output == BiasAdded(m, b)
  {
    output := m;
    var i := 0;
    while i < output.rows
      invariant 0 <= i <= m.rows
      invariant output.Valid() && SameShape(output, m)
      invariant forall i', j | 0 <= i' < i && 0 <= j < m.cols :: output.At(i', j) == m.At(i', j) + b.At(0, j)
      invariant forall i', j | i <= i' < m.rows && 0 <= j < m.cols :: output.At(i', j) == m.At(i', j)
    {
      var j := 0;
      while j < output.cols
        invariant 0 <= j <= m.cols
        invariant output.Valid() && SameShape(output, m)
        invariant forall i', j' | 0 <= i' < i && 0 <= j' < m.cols :: output.At(i', j') == m.At(i', j') + b.At(0, j')
        invariant forall j' | 0 <= j' < j :: output.At(i, j') == m.At(i, j') + b.At(0, j')
        invariant forall i', j' | i <= i' < m.rows && 0 <= j' < m.cols && (i' > i || j' >= j) :: output.At(i', j') == m.At(i', j')
      {
        output := output.Set(i, j, output.At(i, j) + b.At(0, j));
        j := j + 1;
      }
      i := i + 1;
    }
    Extensionality(output, BiasAdded(m, b));
  }

  /** The weight-gradient loop of Dense.Backward: every entry of the buffer wg is overwritten
      with its batch-averaged sum. */
  method OverwriteWeightGradient(wg: Matrix, x: Matrix, g: Matrix) returns (r: Matrix)
    requires wg.Valid() && x.Valid() && g.Valid()
    requires wg.rows == x.cols && wg.cols == g.cols && x.rows <= g.rows && (g.cols > 0 ==> g.rows > 0)
    ensures r == WeightGradient(x, g, x.cols)
  {
    ghost var want := WeightGradient(x, g, x.cols);
    var batchSize := g.rows as real;
    r := wg;
    var i := 0;
    while i < x.cols
      invariant 0 <= i <= x.cols
      invariant r.Valid() && SameShape(r, wg)
      invariant forall i', j | 0 <= i' < i && 0 <= j < g.cols :: r.At(i', j) == want.At(i', j)
    {
      var j := 0;
      while j < g.cols
        invariant 0 <= j <= g.cols
        invariant r.Valid() && SameShape(r, wg)
        invariant forall i', j' | 0 <= i' < i && 0 <= j' < g.cols :: r.At(i', j') == want.At(i', j')
        invariant forall j' | 0 <= j' < j :: r.At(i, j') == want.At(i, j')
      {
        var sum := 0.0;
        var b := 0;
        while b < x.rows
          invariant 0 <= b <= x.rows
          invariant sum == ColumnDot(x, g, i, j, b)
        {
          sum := sum + x.data[b][i] * g.data[b][j];
          b := b + 1;
        }
        r := r.Set(i, j, sum / batchSize);
        j := j + 1;
      }
      i := i + 1;
    }
    Extensionality(r, want);
  }

  /** The bias-gradient loop of Dense.Backward: entry j of the buffer bg is overwritten with the
      batch average of column j of g. */
  method OverwriteBiasGradient(bg: Matrix, g: Matrix) returns (r: Matrix)
    requires bg.Valid() && g.Valid() && bg.rows == 1 && bg.cols == g.cols && (g.cols > 0 ==> g.rows > 0)
    ensures r == BiasGradient(g)
  {
    ghost var want := BiasGradient(g);
    var batchSize := g.rows as real;
    r := bg;
    var j := 0;
    while j < g.cols
      invariant 0 <= j <= g.cols
      invariant r.Valid() && SameShape(r, bg)
      invariant forall j' | 0 <= j' < j :: r.At(0, j') == want.At(0, j')
    {
      var sum := 0.0;
      var i := 0;
      while i < g.rows
        invariant 0 <= i <= g.rows
        invariant sum == ColumnSum(g, j, i)
      {
        sum := sum + g.data[i][j];
        i := i + 1;
      }
      r := r.Set(0, j, sum / batchSize);
      j := j + 1;
    }
    Extensionality(r, want);
  }

  /** The input-gradient loop of Dense.Backward: a fresh g.rows x w.rows matrix g × wᵀ. */
  method PropagateGradient(g: Matrix, w: Matrix) returns (r: Matrix)
    requires g.Valid() && w.Valid() && g.cols == w.cols
    ensures r == InputGradient(g, w)
  {
    ghost var want := InputGradient(g, w);
    var data: seq<seq<real>> := [];
    var i := 0;
    while i < g.rows
      invariant 0 <= i <= g.rows
      invariant data == want.data[..i]
    {
      var row: seq<real> := [];
      var j := 0;
      while j < w.rows
        invariant 0 <= j <= w.rows
        invariant row == want.data[i][..j]
      {
        var sum := 0.0;
        var k := 0;
        while k < g.cols
          invariant 0 <= k <= g.cols
          invariant sum == RowDot(g, w, i, j, k)
        {
          sum := sum + g.data[i][k] * w.data[j][k];
          k := k + 1;
        }
        row := row + [sum];
        j := j + 1;
      }
      assert row == want.data[i];
      data := data + [row];
      i := i + 1;
    }
    r := Matrix(g.rows, w.rows, data);
  }

  /** ReLULayer.Backward: a zero matrix of g's shape, with g copied in where the cached
      input is strictly positive. */
  method MaskGradient(x: Matrix, g: Matrix) returns (r: Matrix)
    requires x.Valid() && g.Valid()
    requires g.rows > 0 && g.cols > 0 ==> g.rows <= x.rows && g.cols <= x.cols
    ensures r == ReLUMask(x, g)
  {
    ghost var want := ReLUMask(x, g);
    r := NewMatrix(g.rows, g.cols);
    var i := 0;
    while i < g.rows
      invariant 0 <= i <= g.rows
      invariant r.Valid() && SameShape(r, g)
      invariant forall i', j | 0 <= i' < i && 0 <= j < g.cols :: r.At(i', j) == want.At(i', j)
      invariant forall i', j | i <= i' < g.rows && 0 <= j < g.cols :: r.At(i', j) == 0.0
    {
      var j := 0;
      while j < g.cols
        invariant 0 <= j <= g.cols
        invariant r.Valid() && SameShape(r, g)
        invariant forall i', j' | 0 <= i' < i && 0 <= j' < g.cols :: r.At(i', j') == want.At(i', j')
        invariant forall j' | 0 <= j' < j :: r.At(i, j') == want.At(i, j')
        invariant forall i', j' | i <= i' < g.rows && 0 <= j' < g.cols && (i' > i || j' >= j) :: r.At(i', j') == 0.0
      {
        if x.data[i][j] > 0.0 {
          r := r.Set(i, j, g.data[i][j]);
        }
        j := j + 1;
      }
      i := i + 1;
    }
    Extensionality(r, want);
  }
}
