/** The Sequential model (model.go): a stack of layers with a loss and an optimizer. Its
    methods run the loops of the source over the layer sequence and are proved against the
    value-level passes (Passes) and training functions (Training). */
module Model {
  import opened Errors
  import opened Matrices
  import opened Layers
  import opened Losses
  import opened Optimizers
  import opened Keys
  import opened Updates
  import opened Passes
  import opened Training

  /** The optimizer a model is compiled with: one of the engine's two optimizers. */
  datatype OptimizerRef = AdamRef(adam: AdamOptimizer) | SGDRef(sgd: SGD)
  {
    function Object(): object {
      if AdamRef? then adam else sgd
    }

    /** The optimizer's value state: its constants and its per-key matrices. */
    function State(): OptState
      reads Object()
    {
      match this
      case AdamRef(a) => AdamSt(a.learningRate, a.State())
      case SGDRef(s) => SGDSt(s.learningRate, s.momentum, s.velocity)
    }

    /** Optimizer.Update: the compiled optimizer's own Update, which is its value Step. */
    method Update(key: string, p: Matrix, g: Matrix) returns (updated: Matrix)
      requires State().Valid() && p.Valid() && g.Valid() && p.rows <= g.rows && p.cols <= g.cols
      requires State().Covers(key, p.rows, p.cols)
      modifies Object()
      ensures State() == old(State()).Step(key, p, g).0 && updated == old(State()).Step(key, p, g).1
    {
      match this
      case AdamRef(a) =>
        updated := a.Update(key, p, g);
      case SGDRef(s) =>
        updated := s.Update(key, p, g);
    }
  }

  // ---------------------------------------------------------------- loop states

  /** The state of Forward's loop after i layers: f holds the first i layers stepped and the
      rest as they were, out is the matrix leaving layer i - 1. */
  predicate ForwardLoop(ls: seq<Layer>, x: Matrix, i: nat, f: seq<Layer>, out: Matrix) {
    AllValid(ls) && x.Valid() && ForwardSafe(ls, |ls|, x) &&
    i <= |ls| && |f| == |ls| &&
    (ForwardSafeShorter(ls, |ls|, i, x); Through(ls, i, x) == Ok(out)) &&
    (forall j | 0 <= j < i :: f[j] == Forwarded(ls, x, j)) &&
    (forall j | i <= j < |ls| :: f[j] == ls[j])
  }

  /** (next, y) is layer l's forward step on input. */
  predicate ForwardStepOf(l: Layer, input: Matrix, next: Layer, y: Result<Matrix>) {
    l.Valid() && input.Valid() && l.ForwardReady(input) && (next, y) == l.ForwardResult(input)
  }

  /** Layer i is ready for the matrix reaching it and has not been stepped yet. */
  lemma ForwardLoopReady(ls: seq<Layer>, x: Matrix, i: nat, f: seq<Layer>, out: Matrix)
    requires ForwardLoop(ls, x, i, f, out) && i < |ls|
    ensures out.Valid() && f[i].Valid() && f[i].ForwardReady(out) && f[i] == ls[i]
  {
    ForwardSafeShorter(ls, |ls|, i + 1, x);
  }

  /** Layer i's step (next, y) either advances Forward's loop state or ends ForwardAll. */
  lemma ForwardLoopStep(ls: seq<Layer>, x: Matrix, i: nat, f: seq<Layer>, out: Matrix, next: Layer, y: Result<Matrix>)
    requires ForwardLoop(ls, x, i, f, out) && i < |ls| && ForwardStepOf(ls[i], out, next, y)
    ensures y.Ok? ==> ForwardLoop(ls, x, i + 1, f[i := next], y.value)
    ensures y.Err? ==> ForwardAll(ls, x) == (f[i := next], Err(ForwardFailed(i, y.error)))
  {
    ForwardSafeShorter(ls, |ls|, i + 1, x);
    if y.Err? {
      ForwardFailsAt(ls, x, i);
      ForwardKeepsFrom(ls, x, i);
      assert ForwardAll(ls, x).0 == f[i := next];
    }
  }

  /** After the last layer, Forward's loop state is ForwardAll. */
  lemma ForwardLoopDone(ls: seq<Layer>, x: Matrix, f: seq<Layer>, out: Matrix)
    requires ForwardLoop(ls, x, |ls|, f, out)
    ensures ForwardAll(ls, x) == (f, Ok(out))
  {
    assert ForwardAll(ls, x).0 == f;
  }

  /** From layer i on, every layer is ready for the matrix that reaches it. */
  predicate ReadyFrom(f: seq<Layer>, i: nat, out: Matrix)
    requires AllValid(f) && out.Valid() && i <= |f|
    decreases |f| - i
  {
    i == |f| ||
    (f[i].ForwardReady(out) &&
     var (next, y) := f[i].ForwardResult(out);
     y.Ok? ==> ReadyFrom(f[i := next], i + 1, y.value))
  }

  /** Forward's loop from layer i on, out the matrix reaching layer i: each layer in turn is
      stepped and replaced, and the first failure stops the loop. */
  function ForwardFrom(f: seq<Layer>, i: nat, out: Matrix): (r: (seq<Layer>, Result<Matrix>))
    requires AllValid(f) && out.Valid() && i <= |f| && ReadyFrom(f, i, out)
    decreases |f| - i
  {
    if i == |f| then (f, Ok(out))
    else
      var (next, y) := f[i].ForwardResult(out);
      if y.Err? then (f[i := next], Err(ForwardFailed(i, y.error)))
      else ForwardFrom(f[i := next], i + 1, y.value)
  }

  /** Every layer of a loop state is valid, as is the matrix reaching the next layer. */
  lemma ForwardLoopValid(ls: seq<Layer>, x: Matrix, i: nat, f: seq<Layer>, out: Matrix)
    requires ForwardLoop(ls, x, i, f, out)
    ensures AllValid(f) && out.Valid()
  {
  }

  lemma {:induction false} ForwardLoopFrom(ls: seq<Layer>, x: Matrix, i: nat, f: seq<Layer>, out: Matrix)
    requires ForwardLoop(ls, x, i, f, out)
    ensures AllValid(f) && out.Valid() && ReadyFrom(f, i, out)
    ensures ForwardFrom(f, i, out) == ForwardAll(ls, x)
    decreases |ls| - i
  {
    ForwardLoopValid(ls, x, i, f, out);
    if i == |ls| {
      ForwardLoopDone(ls, x, f, out);
    } else {
      ForwardLoopReady(ls, x, i, f, out);
      var step := f[i].ForwardResult(out);
      var next, y := step.0, step.1;
      ForwardLoopStep(ls, x, i, f, out, next, y);
      if y.Ok? {
        ForwardLoopFrom(ls, x, i + 1, f[i := next], y.value);
        ForwardFromCompose(f, i, out, next, y);
      } else {
        ForwardFromCompose(f, i, out, next, y);
      }
    }
  }

  /** A layer ready for the matrix reaching it, followed by a loop ready from the next layer,
      makes the loop ready from this layer; the loop is this step followed by the rest. */
  lemma ForwardFromCompose(f: seq<Layer>, i: nat, out: Matrix, next: Layer, y: Result<Matrix>)
    requires AllValid(f) && out.Valid() && i < |f| && f[i].ForwardReady(out)
    requires (next, y) == f[i].ForwardResult(out)
    requires y.Ok? ==> AllValid(f[i := next]) && y.value.Valid() && ReadyFrom(f[i := next], i + 1, y.value)
    ensures ReadyFrom(f, i, out)
    ensures y.Err? ==> ForwardFrom(f, i, out) == (f[i := next], Err(ForwardFailed(i, y.error)))
    ensures y.Ok? ==> ForwardFrom(f, i, out) == ForwardFrom(f[i := next], i + 1, y.value)
  {
  }

  /** Sequential.Forward's loop, layer by layer, computes ForwardAll: the layers in order, each
      layer's output the next one's input. */
  lemma ForwardFromAll(ls: seq<Layer>, x: Matrix)
    requires AllValid(ls) && x.Valid() && ForwardSafe(ls, |ls|, x)
    ensures ReadyFrom(ls, 0, x) && ForwardFrom(ls, 0, x) == ForwardAll(ls, x)
  {
    ForwardLoopFrom(ls, x, 0, ls, x);
  }

  /** One layer's Forward, seen through its value step only. */
  method StepForward(l: Layer, input: Matrix) returns (next: Layer, y: Result<Matrix>)
    requires l.Valid() && input.Valid() && l.ForwardReady(input)
    ensures (next, y) == l.ForwardResult(input)
  {
    next, y := l.Forward(input);
  }

  /** Layer i of Forward's loop is valid and ready for the matrix reaching it. */
  lemma ForwardFromReady(f: seq<Layer>, i: nat, out: Matrix)
    requires AllValid(f) && out.Valid() && i < |f| && ReadyFrom(f, i, out)
    ensures f[i].Valid() && f[i].ForwardReady(out)
  {
  }

  /** Layer i's step (next, y) ends Forward's loop on an error and otherwise leaves the rest of
      the loop still to run. */
  lemma ForwardFromStep(f: seq<Layer>, i: nat, out: Matrix, next: Layer, y: Result<Matrix>)
    requires AllValid(f) && out.Valid() && i < |f| && ReadyFrom(f, i, out)
    requires f[i].ForwardReady(out) && (next, y) == f[i].ForwardResult(out)
    ensures AllValid(f[i := next])
    ensures y.Err? ==> ForwardFrom(f, i, out) == (f[i := next], Err(ForwardFailed(i, y.error)))
    ensures y.Ok? ==> y.value.Valid() && ReadyFrom(f[i := next], i + 1, y.value) &&
                      ForwardFrom(f[i := next], i + 1, y.value) == ForwardFrom(f, i, out)
  {
  }

  /** Forward's loop over the layers: each layer's output is the next one's input, each stepped
      layer replaces the old one, and the first failure stops the loop. */
  method ForwardLayers(ls: seq<Layer>, x: Matrix) returns (f: seq<Layer>, r: Result<Matrix>)
    requires AllValid(ls) && x.Valid() && ReadyFrom(ls, 0, x)
    ensures (f, r) == ForwardFrom(ls, 0, x)
  {
    f := ls;
    var output := x;
    var i := 0;
    while i < |f|
      invariant AllValid(f) && output.Valid() && i <= |f| && ReadyFrom(f, i, output)
      invariant ForwardFrom(f, i, output) == ForwardFrom(ls, 0, x)
      decreases |f| - i
    {
      ForwardFromReady(f, i, output);
      var next, res := StepForward(f[i], output);
      ForwardFromStep(f, i, output, next, res);
      f := f[i := next];
      if res.Err? {
        return f, Err(ForwardFailed(i, res.error));
      }
      output := res.value;
      i := i + 1;
    }
    return f, Ok(output);
  }

  /** The state of Backward's loop down to layer i: b holds layers i.. stepped and the ones
      below as they were, grad is the gradient leaving layer i. */
  predicate BackwardLoop(ls: seq<Layer>, g: Matrix, i: nat, b: seq<Layer>, grad: Matrix)
    requires AllValid(ls) && g.Valid() && BackwardSafe(ls, 0, g)
  {
    i <= |ls| && |b| == |ls| &&
    (BackwardSafeLower(ls, 0, i, g); GradFrom(ls, i, g) == Ok(grad)) &&
    (forall j | i <= j < |ls| :: b[j] == Backwarded(ls, g, j)) &&
    (forall j | 0 <= j < i :: b[j] == ls[j])
  }

  /** Layer i, not yet stepped, is ready for the gradient reaching it. */
  lemma BackwardLoopReady(ls: seq<Layer>, g: Matrix, i: nat, b: seq<Layer>, grad: Matrix)
    requires AllValid(ls) && g.Valid() && BackwardSafe(ls, 0, g)
    requires BackwardLoop(ls, g, i + 1, b, grad) && i < |ls|
    ensures grad.Valid() && ls[i].Valid() && ls[i].BackwardReady(grad) && b[i] == ls[i]
  {
    BackwardSafeLower(ls, 0, i, g);
  }

  /** A successful step of layer i moves Backward's loop state down to i. */
  lemma BackwardLoopOk(ls: seq<Layer>, g: Matrix, i: nat, b: seq<Layer>, grad: Matrix, next: Layer, d: Result<Matrix>)
    requires AllValid(ls) && g.Valid() && BackwardSafe(ls, 0, g)
    requires BackwardLoop(ls, g, i + 1, b, grad) && i < |ls|
    requires grad.Valid() && ls[i].BackwardReady(grad) && (next, d) == ls[i].BackwardResult(grad) && d.Ok?
    ensures BackwardLoop(ls, g, i, b[i := next], d.value)
  {
    BackwardSafeLower(ls, 0, i, g);
    assert Backwarded(ls, g, i) == next;
  }

  /** A failing step of layer i ends Backward with BackwardAll's result. */
  lemma BackwardLoopErr(ls: seq<Layer>, g: Matrix, i: nat, b: seq<Layer>, grad: Matrix, next: Layer, d: Result<Matrix>)
    requires AllValid(ls) && g.Valid() && BackwardSafe(ls, 0, g)
    requires BackwardLoop(ls, g, i + 1, b, grad) && i < |ls|
    requires grad.Valid() && ls[i].BackwardReady(grad) && (next, d) == ls[i].BackwardResult(grad) && d.Err?
    ensures BackwardAll(ls, g) == (b[i := next], Err(BackwardFailed(i, d.error)))
  {
    BackwardSafeLower(ls, 0, i, g);
    BackwardFailsAt(ls, g, i);
    assert BackwardAll(ls, g).0 == b[i := next];
  }

  /** One layer's Backward, seen through its value step only. */
  method StepBackward(l: Layer, g: Matrix) returns (next: Layer, d: Result<Matrix>)
    requires l.Valid() && g.Valid() && l.BackwardReady(g)
    ensures (next, d) == l.BackwardResult(g)
  {
    next, d := l.Backward(g);
  }

  lemma BackwardLoopDone(ls: seq<Layer>, g: Matrix, b: seq<Layer>, grad: Matrix)
    requires AllValid(ls) && g.Valid() && BackwardSafe(ls, 0, g)
    requires BackwardLoop(ls, g, 0, b, grad)
    ensures BackwardAll(ls, g) == (b, Ok(grad))
  {
    assert BackwardAll(ls, g).0 == b;
  }

  /** Parameter s of layer l goes through the optimizer's Step under its key and is replaced
      by the result; the remaining parameters follow from the new state. */
  lemma LayerUpdateStep(o: OptState, kinds: seq<Kind>, i: nat, l: Layer, s: nat, key: string, p: Matrix, g: Matrix)
    requires o.Valid() && Compatible(o, kinds) && i < |kinds| && kinds[i] == l.Kind()
    requires l.Valid() && s < |l.GetParams()|
    requires key == Key(i, ParamNames(kinds[i])[s]) && p == l.GetParams()[s] && g == l.GetGrads()[s]
    ensures p.Valid() && g.Valid() && p.rows <= g.rows && p.cols <= g.cols && o.Covers(key, p.rows, p.cols)
    ensures Compatible(o.Step(key, p, g).0, kinds) && SameShape(o.Step(key, p, g).1, p)
    ensures LayerUpdate(o, kinds, i, l, s) == LayerUpdate(o.Step(key, p, g).0, kinds, i, l.WithParam(s, o.Step(key, p, g).1), s + 1)
  {
    LayerParams(l);
    StepKeepsCompatible(o, kinds, i, s, p, g);
  }

  /** The inner loop of UpdateWeights on layer idx: its parameters in GetParams order, each
      through the optimizer under layer_<idx>_<name> and overwritten by the result. */
  method UpdateLayer(opt: OptimizerRef, ghost kinds: seq<Kind>, idx: nat, layer: Layer) returns (updated: Layer)
    requires opt.State().Valid() && Compatible(opt.State(), kinds) && idx < |kinds| && kinds[idx] == layer.Kind()
    requires layer.Valid()
    modifies opt.Object()
    ensures (opt.State(), updated) == LayerUpdate(old(opt.State()), kinds, idx, layer, 0)
  {
    LayerParams(layer);
    var count := |layer.GetParams()|;
    var grads := layer.GetGrads();
    var names := layer.GetParamNames();
    ghost var goal := LayerUpdate(opt.State(), kinds, idx, layer, 0);
    updated := layer;
    var s := 0;
    while s < count
      invariant s <= count && opt.State().Valid() && Compatible(opt.State(), kinds)
      invariant updated.Valid() && updated.Kind() == layer.Kind() && updated.GetGrads() == grads
      invariant |updated.GetParams()| == count
      invariant LayerUpdate(opt.State(), kinds, idx, updated, s) == goal
      decreases count - s
    {
      var key := Key(idx, names[s]);
      var p := updated.GetParams()[s];
      LayerUpdateStep(opt.State(), kinds, idx, updated, s, key, p, grads[s]);
      var u := opt.Update(key, p, grads[s]);
      updated := updated.WithParam(s, u);
      s := s + 1;
    }
  }

  /** One layer of UpdateFrom. */
  lemma UpdateFromStep(o: OptState, ls: seq<Layer>, i: nat, o': OptState, l': Layer)
    requires o.Valid() && AllValid(ls) && i < |ls| && Compatible(o, Kinds(ls))
    requires (o', l') == LayerUpdate(o, Kinds(ls), i, ls[i], 0)
    ensures o'.Valid() && AllValid(ls[i := l']) && Kinds(ls[i := l']) == Kinds(ls) && Compatible(o', Kinds(ls))
    ensures UpdateFrom(o, ls, i) == UpdateFrom(o', ls[i := l'], i + 1)
  {
    LayerParams(ls[i]);
    KindsUpdate(ls, i, l');
  }

  /** UpdateWeights' outer loop: the layers in index order, each through UpdateLayer. */
  method UpdateLayers(opt: OptimizerRef, ls: seq<Layer>) returns (updated: seq<Layer>)
    requires AllValid(ls) && opt.State().Valid() && Compatible(opt.State(), Kinds(ls))
    modifies opt.Object()
    ensures (opt.State(), updated) == UpdateFrom(old(opt.State()), ls, 0)
  {
    ghost var goal := UpdateFrom(opt.State(), ls, 0);
    updated := ls;
    var idx := 0;
    while idx < |updated|
      invariant idx <= |updated| && AllValid(updated) && opt.State().Valid() && Compatible(opt.State(), Kinds(updated))
      invariant UpdateFrom(opt.State(), updated, idx) == goal
      decreases |updated| - idx
    {
      ghost var before := opt.State();
      var layer := UpdateLayer(opt, Kinds(updated), idx, updated[idx]);
      UpdateFromStep(before, updated, idx, opt.State(), layer);
      updated := updated[idx := layer];
      idx := idx + 1;
    }
  }

  /** Sequential.Backward's loop on the layers ls: from the last layer to the first, each
      layer's input gradient the next lower layer's output gradient; the first layer i (from
      the top) that fails stops the loop with BackwardFailed(i, its error). */
  method BackwardLayers(ls: seq<Layer>, g: Matrix) returns (b: seq<Layer>, err: Option<Error>)
    requires AllValid(ls) && g.Valid() && BackwardSafe(ls, 0, g)
    ensures b == BackwardAll(ls, g).0
    ensures err.Some? <==> BackwardAll(ls, g).1.Err?
    ensures err.Some? ==> err.value == BackwardAll(ls, g).1.error
  {
    b := ls;
    var grad := g;
    var i: nat := |b|;
    while i > 0
      invariant BackwardLoop(ls, g, i, b, grad)
    {
      i := i - 1;
      BackwardLoopReady(ls, g, i, b, grad);
      var next, d := StepBackward(b[i], grad);
      if d.Err? {
        BackwardLoopErr(ls, g, i, b, grad, next, d);
        b, err := b[i := next], Some(BackwardFailed(i, d.error));
        return;
      }
      BackwardLoopOk(ls, g, i, b, grad, next, d);
      b := b[i := next];
      grad := d.value;
    }
    assert i == 0;
    BackwardLoopDone(ls, g, b, grad);
    err := None;
  }

  /** TrainOnBatch's passes on the layers ls, before UpdateWeights: Forward, the loss and its
      gradient, and Backward, run by the loops the methods of those names delegate to. On
      failure b is what TrainOnBatch leaves behind; on success b is what UpdateWeights gets. */
  method TrainPasses(ls: seq<Layer>, ghost o: Option<OptState>, loss: Loss, X: Matrix, y: Matrix)
    returns (b: seq<Layer>, value: Result<real>)
    requires TrainReady(ls, o, loss, X, y)
    ensures value.Err? ==> TrainStep(ls, o, loss, X, y) == (b, o, value)
    ensures value.Ok? ==> AllValid(b) && OptReady(o, Kinds(b)) &&
                          TrainStep(ls, o, loss, X, y) == (UpdateAll(b, o).0, UpdateAll(b, o).1, value)
  {
    ForwardFromAll(ls, X);
    var f, predictions := ForwardLayers(ls, X);
    if predictions.Err? {
      TrainStepForwardFailed(ls, o, loss, X, y);
      return f, Err(predictions.error);
    }
    TrainStepLossFailed(ls, o, loss, X, y);
    value := loss.Forward(predictions.value, y);
    if value.Err? {
      return f, value;
    }
    // Under the shapes Forward and the loss have just checked, the gradient and Backward
    // cannot fail, so the source's error returns after them are not reached.
    var gradLoss := loss.Backward(predictions.value, y);
    TrainStepGradient(ls, o, loss, X, y, f, predictions.value, value.value, gradLoss);
    var err;
    b, err := BackwardLayers(f, gradLoss.value);
    TrainStepBackward(ls, o, loss, X, y, f, predictions.value, value.value, gradLoss.value, b);
  }

  /** Fit's batch copy: a new (e − i)×cols zero matrix whose row a is then overwritten, entry by
      entry, with row i + a of m. */
  method CopyRows(m: Matrix, i: nat, e: nat) returns (b: Matrix)
    requires m.Valid() && i <= e <= m.rows
    ensures b == RowBlock(m, i, e)
  {
    b := NewMatrix(e - i, m.cols);
    var j := i;
    while j < e
      invariant i <= j <= e && b.Valid() && b.rows == e - i && b.cols == m.cols
      invariant forall a, c | 0 <= a < b.rows && 0 <= c < b.cols ::
                  b.At(a, c) == if a < j - i then m.At(i + a, c) else 0.0
    {
      var k := 0;
      while k < m.cols
        invariant k <= m.cols && b.Valid() && b.rows == e - i && b.cols == m.cols
        invariant forall a, c | 0 <= a < b.rows && 0 <= c < b.cols ::
                    b.At(a, c) == if a < j - i || (a == j - i && c < k) then m.At(i + a, c) else 0.0
      {
        b := b.Set(j - i, k, m.At(j, k));
        k := k + 1;
      }
      j := j + 1;
    }
    Extensionality(b, RowBlock(m, i, e));
  }

  /** The batch of Fit's loop at row i: it ends at min(i + batchSize, rows), and its rows are
      copied out of X and y. */
  method BatchRows(X: Matrix, y: Matrix, i: nat, batchSize: nat) returns (end: nat, batchX: Matrix, batchY: Matrix)
    requires X.Valid() && y.Valid() && i < X.rows <= y.rows
    ensures end == BatchEnd(i, batchSize, X.rows)
    ensures batchX == RowBlock(X, i, end) && batchY == RowBlock(y, i, end)
  {
    end := i + batchSize;
    if end > X.rows {
      end := X.rows;
    }
    batchX := CopyRows(X, i, end);
    batchY := CopyRows(y, i, end);
  }

  class Sequential {
    var layers: seq<Layer>
    var loss: Option<Loss>
    var optimizer: Option<OptimizerRef>

    /** The optimizer object, which UpdateWeights changes. */
    function Optimizer(): set<object>
      reads this`optimizer
    {
      if optimizer.Some? then {optimizer.value.Object()} else {}
    }

    function OptState(): Option<OptState>
      reads this`optimizer, Optimizer()
    {
      if optimizer.Some? then Some(optimizer.value.State()) else None
    }

    /** NewSequential: no layers, not compiled. */
    constructor ()
      ensures layers == [] && loss == None && optimizer == None
    {
      layers := [];
      loss := None;
      optimizer := None;
    }

    /** Add appends the layer; nothing else changes. */
    method Add(layer: Layer)
      modifies this
      ensures layers == old(layers) + [layer]
      ensures loss == old(loss) && optimizer == old(optimizer)
    {
      layers := layers + [layer];
    }

    /** Compile sets the loss and the optimizer; the layers stay. */
    method Compile(loss: Loss, optimizer: OptimizerRef)
      modifies this
      ensures this.loss == Some(loss) && this.optimizer == Some(optimizer)
      ensures layers == old(layers)
    {
      this.loss := Some(loss);
      this.optimizer := Some(optimizer);
    }

    /** Forward through the layers in order, each layer's output the next one's input; the
        first layer i that fails stops the loop with ForwardFailed(i, its error), the layers
        from i on untouched. */
    method Forward(input: Matrix) returns (r: Result<Matrix>)
      requires AllValid(layers) && input.Valid() && ForwardSafe(layers, |layers|, input)
      modifies this
      ensures (layers, r) == ForwardAll(old(layers), input)
      ensures loss == old(loss) && optimizer == old(optimizer)
    {
      ForwardFromAll(layers, input);
      layers, r := ForwardLayers(layers, input);
    }

    /** UpdateWeights: every parameter of every layer, layer by layer and in GetParams order,
        through the optimizer under the key layer_<layer index>_<name>, the result replacing
        the parameter. */
    method UpdateWeights()
      requires AllValid(layers) && OptReady(OptState(), Kinds(layers))
      modifies this, Optimizer()
      ensures (layers, OptState()) == UpdateAll(old(layers), old(OptState()))
      ensures loss == old(loss) && optimizer == old(optimizer)
    {
      if optimizer.None? {
        // No layer has a parameter, so the source's loops never reach the optimizer.
        return;
      }
      var opt := optimizer.value;
      assert opt.Object() != this;
      var updated := UpdateLayers(opt, layers);
      layers := updated;
    }

    /** Predict is Forward. */
    method Predict(input: Matrix) returns (r: Result<Matrix>)
      requires AllValid(layers) && input.Valid() && ForwardSafe(layers, |layers|, input)
      modifies this
      ensures (layers, r) == ForwardAll(old(layers), input)
      ensures loss == old(loss) && optimizer == old(optimizer)
    {
      r := Forward(input);
    }

    /** Backward through the layers from the last to the first, each layer's input gradient
        the next lower layer's output gradient; the first layer i (from the top) that fails
        stops the loop with BackwardFailed(i, its error), the layers below i untouched. */
    method Backward(gradOutput: Matrix) returns (err: Option<Error>)
      requires AllValid(layers) && gradOutput.Valid() && BackwardSafe(layers, 0, gradOutput)
      modifies this
      ensures layers == BackwardAll(old(layers), gradOutput).0
      ensures err.Some? <==> BackwardAll(old(layers), gradOutput).1.Err?
      ensures err.Some? ==> err.value == BackwardAll(old(layers), gradOutput).1.error
      ensures loss == old(loss) && optimizer == old(optimizer)
    {
      layers, err := BackwardLayers(layers, gradOutput);
    }

    /** TrainOnBatch: Forward, the loss and its gradient, Backward, then UpdateWeights; the
        first failure returns its error. */
    method TrainOnBatch(X: Matrix, y: Matrix) returns (r: Result<real>)
      requires loss.Some? && TrainReady(layers, OptState(), loss.value, X, y)
      modifies this, Optimizer()
      ensures (layers, OptState(), r) == TrainStep(old(layers), old(OptState()), old(loss).value, X, y)
      ensures loss == old(loss) && optimizer == old(optimizer)
    {
      ghost var o := OptState();
      ghost var lossValue := loss.value;
      assert forall x | x in Optimizer() :: allocated(x);
      var b, value := TrainPasses(layers, o, loss.value, X, y);
      assert OptState() == o;
      ghost var step := TrainStep(old(layers), o, lossValue, X, y);
      layers := b;
      assert OptState() == o;
      if value.Err? {
        assert step == (b, o, value);
        return value;
      }
      assert AllValid(b) && OptReady(o, Kinds(b));
      assert step == (UpdateAll(b, o).0, UpdateAll(b, o).1, value);
      UpdateWeights();
      assert (layers, OptState()) == UpdateAll(b, o);
      return value;
    }

    /** The batch at row i, copied out of X and y, trained on. */
    method TrainBatchRows(X: Matrix, y: Matrix, batchSize: int, i: nat) returns (r: Result<real>)
      requires loss.Some? && FitReady(layers, OptState(), loss.value, X, y, batchSize) && i < X.rows
      modifies this, Optimizer()
      ensures loss == old(loss) && optimizer == old(optimizer)
      ensures TrainReady(old(layers), old(OptState()), loss.value, RowBlock(X, i, BatchEnd(i, batchSize as nat, X.rows)),
                         RowBlock(y, i, BatchEnd(i, batchSize as nat, X.rows)))
      ensures (layers, OptState(), r) ==
              TrainStep(old(layers), old(OptState()), loss.value, RowBlock(X, i, BatchEnd(i, batchSize as nat, X.rows)),
                        RowBlock(y, i, BatchEnd(i, batchSize as nat, X.rows)))
    {
      ghost var ls0, o0, l0 := layers, OptState(), loss.value;
      var end, batchX, batchY := BatchRows(X, y, i, batchSize);
      BatchReady(ls0, o0, l0, X, y, batchSize, i);
      assert TrainReady(ls0, o0, l0, batchX, batchY);
      assert forall x | x in Optimizer() :: allocated(x);
      r := TrainOnBatch(batchX, batchY);
      assert (layers, OptState(), r) == TrainStep(ls0, o0, l0, batchX, batchY);
    }

    /** One pass of Fit's batch loop body at row i, as a step of EpochFrom: an error ends the
        epoch with it; a loss leaves the epoch to go on from row i + batchSize. */
    method TrainBatchAt(X: Matrix, y: Matrix, batchSize: int, i: nat, ghost total: real, ghost count: nat)
      returns (r: Result<real>)
      requires loss.Some? && FitReady(layers, OptState(), loss.value, X, y, batchSize) && i < X.rows
      modifies this, Optimizer()
      ensures loss == old(loss) && optimizer == old(optimizer)
      ensures r.Err? ==> EpochFrom(old(layers), old(OptState()), loss.value, X, y, batchSize, i, total, count) ==
                         (layers, OptState(), Err(r.error))
      ensures r.Ok? ==> FitReady(layers, OptState(), loss.value, X, y, batchSize) &&
                        EpochFrom(old(layers), old(OptState()), loss.value, X, y, batchSize, i, total, count) ==
                        EpochFrom(layers, OptState(), loss.value, X, y, batchSize, i + batchSize as nat, total + r.value, count + 1)
    {
      ghost var ls, o := layers, OptState();
      assert forall x | x in Optimizer() :: allocated(x);
      r := TrainBatchRows(X, y, batchSize, i);
      EpochPass(ls, o, loss.value, X, y, batchSize, i, total, count, layers, OptState(), r);
    }

    /** The batch loop of one epoch of Fit: the batches [i, min(i + batchSize, X.rows)) from
        row 0, copied out of X and y and trained on, their losses summed and counted. */
    method Epoch(X: Matrix, y: Matrix, batchSize: int) returns (r: Result<(real, nat)>)
      requires loss.Some? && FitReady(layers, OptState(), loss.value, X, y, batchSize)
      modifies this, Optimizer()
      ensures (layers, OptState(), r) == EpochFrom(old(layers), old(OptState()), old(loss).value, X, y, batchSize, 0, 0.0, 0)
      ensures loss == old(loss) && optimizer == old(optimizer)
    {
      ghost var goal := EpochFrom(layers, OptState(), loss.value, X, y, batchSize, 0, 0.0, 0);
      var totalLoss := 0.0;
      var numBatches: nat := 0;
      var i: nat := 0;
      while i < X.rows
        invariant loss == old(loss) && optimizer == old(optimizer)
        invariant FitReady(layers, OptState(), loss.value, X, y, batchSize)
        invariant EpochFrom(layers, OptState(), loss.value, X, y, batchSize, i, totalLoss, numBatches) == goal
        decreases X.rows - i
      {
        assert forall x | x in Optimizer() :: allocated(x);
        var batchLoss := TrainBatchAt(X, y, batchSize, i, totalLoss, numBatches);
        if batchLoss.Err? {
          return Err(batchLoss.error);
        }
        totalLoss := totalLoss + batchLoss.value;
        numBatches := numBatches + 1;
        i := i + batchSize;
      }
      EpochDone(layers, OptState(), loss.value, X, y, batchSize, i, totalLoss, numBatches);
      r := Ok((totalLoss, numBatches));
    }

    /** Fit: epochs times the batch loop of Epoch, each from row 0 with a fresh total and
        count; the first failing batch ends Fit with its error. The mean loss of each epoch,
        which the source prints when verbose, is returned instead. */
    method Fit(X: Matrix, y: Matrix, epochs: int, batchSize: int) returns (r: Result<seq<Option<real>>>)
      requires loss.Some? && FitReady(layers, OptState(), loss.value, X, y, batchSize)
      modifies this, Optimizer()
      ensures (layers, OptState(), r) == FitFrom(old(layers), old(OptState()), old(loss).value, X, y, epochs, batchSize, 0, [])
      ensures loss == old(loss) && optimizer == old(optimizer)
    {
      ghost var goal := FitFrom(layers, OptState(), loss.value, X, y, epochs, batchSize, 0, []);
      var means: seq<Option<real>> := [];
      var epoch: nat := 0;
      while epoch < epochs
        invariant loss == old(loss) && optimizer == old(optimizer)
        invariant FitReady(layers, OptState(), loss.value, X, y, batchSize) && DefinedIff(means, X.rows > 0)
        invariant FitFrom(layers, OptState(), loss.value, X, y, epochs, batchSize, epoch, means) == goal
        decreases epochs - epoch
      {
        ghost var ls, o := layers, OptState();
        assert forall x | x in Optimizer() :: allocated(x);
        var sums := Epoch(X, y, batchSize);
        FitStep(ls, o, loss.value, X, y, epochs, batchSize, epoch, means, (layers, OptState(), sums));
        if sums.Err? {
          return Err(sums.error);
        }
        means := means + [EpochMean(sums.value.0, sums.value.1)];
        epoch := epoch + 1;
      }
      FitDone(layers, OptState(), loss.value, X, y, epochs, batchSize, epoch, means);
      r := Ok(means);
    }

    /** Evaluate: Predict, then the loss of the predictions against y. */
    method Evaluate(X: Matrix, y: Matrix) returns (r: Result<real>)
      requires loss.Some? && EvalReady(layers, loss.value, X, y)
      modifies this
      ensures (layers, r) == Training.Evaluate(old(layers), old(loss).value, X, y)
      ensures loss == old(loss) && optimizer == old(optimizer)
    {
      var predictions := Predict(X);
      if predictions.Err? {
        return Err(predictions.error);
      }
      r := loss.value.Forward(predictions.value, y);
    }
  }
}
