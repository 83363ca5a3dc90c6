/** Training of the Sequential model on value states (model.go TrainOnBatch, Fit, Evaluate):
    the layers, the optimizer's state and the result of each call, as functions of the state
    before it. */
module Training {
  import opened Errors
  import opened Matrices
  import opened Layers
  import opened Losses
  import opened Updates
  import opened Passes
  import opened Optimizers

  /** Kinds are determined position by position. */
  lemma SameKinds(a: seq<Layer>, b: seq<Layer>)
    requires |a| == |b| && forall k | 0 <= k < |a| :: a[k].Kind() == b[k].Kind()
    ensures Kinds(a) == Kinds(b)
  {
  }

  lemma PositiveCells(rows: nat, cols: nat)
    requires rows * cols > 0
    ensures rows > 0 && cols > 0
  {
  }

  /** What UpdateWeights needs of the optimizer: without one there must be no parameter (the
      source would call through a nil interface), otherwise it is valid and its stored state
      covers every parameter. */
  predicate OptReady(o: Option<OptState>, kinds: seq<Kind>) {
    match o
    case None => ParamCount(kinds, 0) == 0
    case Some(s) => s.Valid() && Compatible(s, kinds)
  }

  /** What Evaluate demands: valid inputs, a forward pass that keeps softmax defined, and a
      loss whose divisor is not zero whenever the shapes agree. */
  predicate EvalReady(ls: seq<Layer>, loss: Loss, X: Matrix, y: Matrix) {
    AllValid(ls) && X.Valid() && y.Valid() && loss.Valid() && ForwardSafe(ls, |ls|, X) &&
    (X.rows == y.rows && WidthUpTo(Kinds(ls), |ls|, X.cols) == Some(y.cols) ==> loss.Count(y.rows, y.cols) > 0)
  }

  /** What TrainOnBatch demands: what Evaluate demands and an optimizer ready for every
      parameter. */
  predicate TrainReady(ls: seq<Layer>, o: Option<OptState>, loss: Loss, X: Matrix, y: Matrix) {
    EvalReady(ls, loss, X, y) && OptReady(o, Kinds(ls))
  }

  /** The predictions have the targets' shape. */
  predicate ShapesAgree(ls: seq<Layer>, X: Matrix, y: Matrix) {
    X.rows == y.rows && WidthUpTo(Kinds(ls), |ls|, X.cols) == Some(y.cols)
  }

  /** Evaluate: Forward (which sets the caches), then the loss of the predictions against y. */
  function Evaluate(ls: seq<Layer>, loss: Loss, X: Matrix, y: Matrix): (r: (seq<Layer>, Result<real>))
    requires EvalReady(ls, loss, X, y)
    ensures AllValid(r.0) && SameParams(r.0, ls)
    ensures r.1.Ok? <==> ShapesAgree(ls, X, y)
    ensures r.1.Err? ==> r.1.error.ForwardFailed? || r.1.error == ShapeMismatch
  {
    var (f, out) := ForwardAll(ls, X);
    if out.Err? then (f, Err(out.error)) else (f, loss.Value(out.value, y))
  }

  /** Forward keeps kinds, and so does Backward. */
  lemma PassesKeepKinds(ls: seq<Layer>, X: Matrix, g: Matrix)
    requires AllValid(ls) && X.Valid() && ForwardSafe(ls, |ls|, X)
    ensures Kinds(ForwardAll(ls, X).0) == Kinds(ls)
    ensures g.Valid() && BackwardSafe(ForwardAll(ls, X).0, 0, g) ==>
              Kinds(BackwardAll(ForwardAll(ls, X).0, g).0) == Kinds(ls)
  {
    var f := ForwardAll(ls, X).0;
    SameKinds(f, ls);
    if g.Valid() && BackwardSafe(f, 0, g) {
      SameKinds(BackwardAll(f, g).0, f);
    }
  }

  /** When the predictions P have the targets' shape the batch is not empty (the loss divisor
      is positive), so Backward with a gradient G of P's shape is safe and succeeds. */
  lemma GradientPrimed(ls: seq<Layer>, loss: Loss, X: Matrix, y: Matrix, P: Matrix, G: Matrix)
    requires EvalReady(ls, loss, X, y) && ForwardAll(ls, X).1 == Ok(P) && SameShape(P, y)
    requires G.Valid() && SameShape(G, P)
    ensures BackwardSafe(ForwardAll(ls, X).0, 0, G) && BackwardAll(ForwardAll(ls, X).0, G).1.Ok?
  {
    var out := ForwardAll(ls, X).1;
    assert out.value == P && P.rows == X.rows;
    assert loss.Count(y.rows, y.cols) > 0;
    if !loss.CategoricalCrossEntropy? {
      PositiveCells(y.rows, y.cols);
    }
    assert G.rows == X.rows && G.cols == out.value.cols;
    ForwardPrimesBackward(ls, X, G);
  }

  /** o2 is o after ticks optimizer steps: the same kind of optimizer with the same learning
      rate, and for Adam a time step ticks further on. */
  predicate Advanced(o: Option<OptState>, o2: Option<OptState>, ticks: int) {
    o.Some? && o2.Some? ==>
      o2.value.AdamSt? == o.value.AdamSt? && o2.value.lr == o.value.lr &&
      (o.value.AdamSt? ==> o2.value.adam.t == o.value.adam.t + ticks)
  }

  /** UpdateWeights on value states: every parameter through the optimizer; nothing without
      an optimizer (there are no parameters then). */
  function UpdateAll(ls: seq<Layer>, o: Option<OptState>): (r: (seq<Layer>, Option<OptState>))
    requires AllValid(ls) && OptReady(o, Kinds(ls))
    ensures AllValid(r.0) && |r.0| == |ls| && Kinds(r.0) == Kinds(ls) && OptReady(r.1, Kinds(ls))
    ensures r.1.Some? == o.Some?
    ensures Advanced(o, r.1, ParamCount(Kinds(ls), 0))
  {
    if o.None? then (ls, o)
    else
      var (o', u) := UpdateFrom(o.value, ls, 0);
      (u, Some(o'))
  }

  /** What a training step leaves behind: valid layers of the same kinds, and an optimizer that
      is still ready for every parameter. */
  predicate StepKeeps(ls: seq<Layer>, o: Option<OptState>, r: (seq<Layer>, Option<OptState>, Result<real>)) {
    AllValid(r.0) && |r.0| == |ls| && Kinds(r.0) == Kinds(ls) && OptReady(r.1, Kinds(ls)) && r.1.Some? == o.Some?
  }

  /** TrainOnBatch: Forward, the loss and its gradient, Backward, then UpdateWeights; the first
      failure returns its error with the state as it then is. */
  function TrainStep(ls: seq<Layer>, o: Option<OptState>, loss: Loss, X: Matrix, y: Matrix)
    : (r: (seq<Layer>, Option<OptState>, Result<real>))
    requires TrainReady(ls, o, loss, X, y)
    ensures StepKeeps(ls, o, r)
  {
    var (f, out) := ForwardAll(ls, X);
    SameKinds(f, ls);
    if out.Err? then (f, o, Err(out.error)) else LossStage(ls, o, loss, X, y)
  }

  /** TrainOnBatch after a successful Forward: the loss of the predictions. */
  function LossStage(ls: seq<Layer>, o: Option<OptState>, loss: Loss, X: Matrix, y: Matrix)
    : (r: (seq<Layer>, Option<OptState>, Result<real>))
    requires TrainReady(ls, o, loss, X, y) && ForwardAll(ls, X).1.Ok?
    ensures StepKeeps(ls, o, r)
  {
    var f := ForwardAll(ls, X).0;
    SameKinds(f, ls);
    var v := loss.Value(ForwardAll(ls, X).1.value, y);
    if v.Err? then (f, o, Err(v.error)) else BackwardStage(ls, o, loss, X, y, v.value)
  }

  /** TrainOnBatch once the loss v is known: the loss gradient (which the agreeing shapes make
      succeed), Backward (which then succeeds too), UpdateWeights, and v as the result. */
  function BackwardStage(ls: seq<Layer>, o: Option<OptState>, loss: Loss, X: Matrix, y: Matrix, v: real)
    : (r: (seq<Layer>, Option<OptState>, Result<real>))
    requires TrainReady(ls, o, loss, X, y) && ForwardAll(ls, X).1.Ok?
    requires SameShape(ForwardAll(ls, X).1.value, y)
    ensures StepKeeps(ls, o, r)
  {
    var f := ForwardAll(ls, X).0;
    var G := loss.Gradient(ForwardAll(ls, X).1.value, y).value;
    GradientPrimed(ls, loss, X, y, ForwardAll(ls, X).1.value, G);
    PassesKeepKinds(ls, X, G);
    var (b, d) := BackwardAll(f, G);
    var (u, o') := UpdateAll(b, o);
    (u, o', Ok(v))
  }

  // ---------------------------------------------------------------- one batch

  /** TrainOnBatch when Forward fails: the error, and the layers as Forward left them. */
  lemma TrainStepForwardFailed(ls: seq<Layer>, o: Option<OptState>, loss: Loss, X: Matrix, y: Matrix)
    requires TrainReady(ls, o, loss, X, y) && ForwardAll(ls, X).1.Err?
    ensures TrainStep(ls, o, loss, X, y) == (ForwardAll(ls, X).0, o, Err(ForwardAll(ls, X).1.error))
  {
  }

  /** TrainOnBatch after Forward: the predictions are ready for the loss, and a failing loss
      is TrainOnBatch's error. */
  lemma TrainStepLossFailed(ls: seq<Layer>, o: Option<OptState>, loss: Loss, X: Matrix, y: Matrix)
    requires TrainReady(ls, o, loss, X, y) && ForwardAll(ls, X).1.Ok?
    ensures var P := ForwardAll(ls, X).1.value;
            P.Valid() && loss.ForwardReady(P, y) &&
            (loss.Value(P, y).Err? ==> TrainStep(ls, o, loss, X, y) == (ForwardAll(ls, X).0, o, Err(loss.Value(P, y).error)))
  {
    var P := ForwardAll(ls, X).1.value;
    if SameShape(P, y) {
      assert loss.Count(y.rows, y.cols) > 0;
    }
  }

  /** TrainOnBatch once Forward has returned (f, Ok(P)) and the loss v: the gradient G exists
      and Backward succeeds on it. */
  lemma TrainStepGradient(ls: seq<Layer>, o: Option<OptState>, loss: Loss, X: Matrix, y: Matrix,
                          f: seq<Layer>, P: Matrix, v: real, G: Result<Matrix>)
    requires TrainReady(ls, o, loss, X, y) && (f, Ok(P)) == ForwardAll(ls, X)
    requires P.Valid() && loss.ForwardReady(P, y) && loss.Value(P, y) == Ok(v) && G == loss.Gradient(P, y)
    ensures G.Ok? && AllValid(f) && G.value.Valid() && BackwardSafe(f, 0, G.value) && BackwardAll(f, G.value).1.Ok?
  {
    GradientPrimed(ls, loss, X, y, P, G.value);
  }

  /** ... and once Backward has returned the layers b: the optimizer is ready for them, and
      TrainOnBatch's result is theirs after UpdateWeights, with v as the value. */
  lemma TrainStepBackward(ls: seq<Layer>, o: Option<OptState>, loss: Loss, X: Matrix, y: Matrix,
                          f: seq<Layer>, P: Matrix, v: real, G: Matrix, b: seq<Layer>)
    requires TrainReady(ls, o, loss, X, y) && (f, Ok(P)) == ForwardAll(ls, X)
    requires P.Valid() && loss.ForwardReady(P, y) && loss.Value(P, y) == Ok(v) && loss.Gradient(P, y) == Ok(G)
    requires G.Valid() && BackwardSafe(f, 0, G) && b == BackwardAll(f, G).0
    ensures AllValid(b) && OptReady(o, Kinds(b))
    ensures TrainStep(ls, o, loss, X, y) == (UpdateAll(b, o).0, UpdateAll(b, o).1, Ok(v))
  {
    GradientPrimed(ls, loss, X, y, P, G);
    PassesKeepKinds(ls, X, G);
    assert TrainStep(ls, o, loss, X, y) == BackwardStage(ls, o, loss, X, y, v);
  }

  /** TrainOnBatch reports exactly what Evaluate on the layers before the call reports: the
      loss of the predictions made before the weights move, or the same error. */
  lemma TrainStepLoss(ls: seq<Layer>, o: Option<OptState>, loss: Loss, X: Matrix, y: Matrix)
    requires TrainReady(ls, o, loss, X, y)
    ensures TrainStep(ls, o, loss, X, y).2 == Evaluate(ls, loss, X, y).1
    ensures TrainStep(ls, o, loss, X, y).2.Ok? <==> ShapesAgree(ls, X, y)
  {
  }

  /** A failed TrainOnBatch leaves the optimizer and every parameter as they were: the
      failure happens before UpdateWeights. */
  lemma TrainStepFailure(ls: seq<Layer>, o: Option<OptState>, loss: Loss, X: Matrix, y: Matrix)
    requires TrainReady(ls, o, loss, X, y)
    ensures var r := TrainStep(ls, o, loss, X, y);
            r.2.Err? ==> r.1 == o && SameParams(r.0, ls) &&
                         (r.2.error.ForwardFailed? || r.2.error == ShapeMismatch)
  {
  }

  /** A successful TrainOnBatch keeps the optimizer's kind and learning rate, and advances
      Adam's time step once per parameter of the model. */
  lemma TrainStepClock(ls: seq<Layer>, o: Option<OptState>, loss: Loss, X: Matrix, y: Matrix)
    requires TrainReady(ls, o, loss, X, y)
    ensures var r := TrainStep(ls, o, loss, X, y);
            r.2.Ok? ==> Advanced(o, r.1, ParamCount(Kinds(ls), 0))
  {
    var r := TrainStep(ls, o, loss, X, y);
    if r.2.Ok? {
      var P := ForwardAll(ls, X).1.value;
      var G := loss.Gradient(P, y).value;
      GradientPrimed(ls, loss, X, y, P, G);
      PassesKeepKinds(ls, X, G);
      assert r == BackwardStage(ls, o, loss, X, y, loss.Value(P, y).value);
    }
  }

  /** One step of c ticks followed by n − (count + 1) more steps of c ticks. */
  lemma ClockAdvance(t0: int, t1: int, t2: int, c: int, c2: int, count: int, n: int)
    requires c == c2
    requires t1 == t0 + c
    requires t2 == t1 + (n - (count + 1)) * c2
    ensures t2 == t0 + (n - count) * c
  {
    assert (n - (count + 1)) * c == (n - count) * c - c;
  }

  // ---------------------------------------------------------------- batches

  /** The end of the batch starting at row i: i + bs, cut off at the n rows. */
  function BatchEnd(i: nat, bs: nat, n: nat): nat {
    if i + bs > n then n else i + bs
  }

  /** The row ranges [start, end) of Fit's batches from row i on, in order. */
  function Batches(n: nat, bs: nat, i: nat): seq<(nat, nat)>
    requires bs > 0
    decreases n - i
  {
    if i >= n then [] else [(i, BatchEnd(i, bs, n))] + Batches(n, bs, i + bs)
  }

  /** The batches from row i < n are the one at i followed by those from i + bs. */
  lemma BatchesStep(n: nat, bs: nat, i: nat)
    requires bs > 0 && i < n
    ensures |Batches(n, bs, i)| == 1 + if i + bs < n then |Batches(n, bs, i + bs)| else 0
  {
  }

  /** There are ⌈(n − i) / bs⌉ batches from row i on: the smallest count whose batches of bs
      rows reach n. */
  lemma {:induction false} BatchCount(n: nat, bs: nat, i: nat)
    requires bs > 0 && i <= n
    ensures (|Batches(n, bs, i)| - 1) * bs < n - i <= |Batches(n, bs, i)| * bs
    ensures |Batches(n, bs, i)| == (n - i + bs - 1) / bs
    decreases n - i
  {
    var c := |Batches(n, bs, i)|;
    if i < n {
      if i + bs <= n {
        BatchCount(n, bs, i + bs);
        var c' := |Batches(n, bs, i + bs)|;
        assert c == c' + 1;
        assert c * bs == c' * bs + bs && (c - 1) * bs == c' * bs;
      } else {
        assert Batches(n, bs, i + bs) == [];
      }
    }
    CeilingQuotient(n - i, bs, c);
  }

  /** A count c with (c − 1)·bs < m ≤ c·bs is ⌈m / bs⌉. */
  lemma CeilingQuotient(m: nat, bs: nat, c: nat)
    requires bs > 0 && (c - 1) * bs < m <= c * bs
    ensures c == (m + bs - 1) / bs
  {
    var q, r := (m + bs - 1) / bs, (m + bs - 1) % bs;
    assert m + bs - 1 == q * bs + r && 0 <= r < bs;
    if q < c {
      assert (q + 1) * bs == q * bs + bs;
      ScaledMonotone(q + 1, c, bs);
    } else if q > c {
      assert (c + 1) * bs == c * bs + bs;
      ScaledMonotone(c + 1, q, bs);
    }
  }

  lemma ScaledMonotone(a: int, b: int, k: nat)
    requires a <= b
    ensures a * k <= b * k
  {
    assert b * k - a * k == (b - a) * k;
  }

  /** Fit's batches cover rows i..n contiguously and in order; each has bs rows except the last,
      which has between 1 and bs and ends at n. */
  lemma {:induction false} BatchesTile(n: nat, bs: nat, i: nat)
    requires bs > 0 && i < n
    ensures var B := Batches(n, bs, i);
            |B| > 0 && B[0].0 == i && B[|B| - 1].1 == n &&
            (forall k | 0 <= k < |B| :: B[k].0 < B[k].1 <= B[k].0 + bs) &&
            (forall k | 0 <= k < |B| - 1 :: B[k].1 == B[k + 1].0 && B[k].1 - B[k].0 == bs)
    decreases n - i
  {
    var B := Batches(n, bs, i);
    if i + bs < n {
      BatchesTile(n, bs, i + bs);
      var C := Batches(n, bs, i + bs);
      assert B == [(i, i + bs)] + C;
      forall k | 0 <= k < |B| - 1
        ensures B[k].1 == B[k + 1].0 && B[k].1 - B[k].0 == bs
      {
        if k > 0 {
          assert B[k] == C[k - 1] && B[k + 1] == C[k];
        }
      }
    } else {
      assert Batches(n, bs, i + bs) == [];
      assert B == [(i, n)];
    }
  }

  /** Rows i..e of m, as Fit copies them into a batch. */
  function RowBlock(m: Matrix, i: nat, e: nat): (r: Matrix)
    requires m.Valid() && i <= e <= m.rows
    ensures r.Valid() && r.rows == e - i && r.cols == m.cols
    ensures forall a, b | 0 <= a < r.rows && 0 <= b < r.cols :: r.At(a, b) == m.At(i + a, b)
  {
    Matrix(e - i, m.cols, m.data[i..e])
  }

  // ---------------------------------------------------------------- epochs

  /** What Fit demands of its caller. With samples to train on: a positive batch size, a
      target row for every sample, widths that keep softmax defined, and a loss divisor that
      is not zero for non-empty batches whenever the predictions fit the targets. Throughout:
      valid layers, inputs, loss and optimizer. Only the layers' kinds matter, and training
      keeps them. */
  predicate FitReady(ls: seq<Layer>, o: Option<OptState>, loss: Loss, X: Matrix, y: Matrix, bs: int) {
    AllValid(ls) && X.Valid() && y.Valid() && loss.Valid() && OptReady(o, Kinds(ls)) &&
    (X.rows > 0 ==>
       bs > 0 && y.rows >= X.rows && WidthsSafe(Kinds(ls), |ls|, X.cols) &&
       (WidthUpTo(Kinds(ls), |ls|, X.cols) == Some(y.cols) ==> loss.CategoricalCrossEntropy? || y.cols > 0))
  }

  /** Under FitReady every batch is ready for TrainOnBatch. */
  lemma BatchReady(ls: seq<Layer>, o: Option<OptState>, loss: Loss, X: Matrix, y: Matrix, bs: int, i: nat)
    requires FitReady(ls, o, loss, X, y, bs) && i < X.rows
    ensures var e := BatchEnd(i, bs as nat, X.rows);
            TrainReady(ls, o, loss, RowBlock(X, i, e), RowBlock(y, i, e))
  {
    var e := BatchEnd(i, bs as nat, X.rows);
    var bx, bY := RowBlock(X, i, e), RowBlock(y, i, e);
    if WidthUpTo(Kinds(ls), |ls|, bx.cols) == Some(bY.cols) && !loss.CategoricalCrossEntropy? {
      PositiveRows(bY.rows, bY.cols);
    }
  }

  lemma PositiveRows(rows: nat, cols: nat)
    requires rows > 0 && cols > 0
    ensures rows * cols > 0
  {
  }

  /** TrainOnBatch on the batch starting at row i is ready, keeps the model ready for the
      remaining batches, and on success advances Adam's clock once per parameter. */
  lemma EpochBatch(ls: seq<Layer>, o: Option<OptState>, loss: Loss, X: Matrix, y: Matrix, bs: int, i: nat)
    requires FitReady(ls, o, loss, X, y, bs) && i < X.rows
    ensures var e := BatchEnd(i, bs as nat, X.rows);
            TrainReady(ls, o, loss, RowBlock(X, i, e), RowBlock(y, i, e))
    ensures var e := BatchEnd(i, bs as nat, X.rows);
            var r := TrainStep(ls, o, loss, RowBlock(X, i, e), RowBlock(y, i, e));
            FitReady(r.0, r.1, loss, X, y, bs) && Kinds(r.0) == Kinds(ls) && r.1.Some? == o.Some? &&
            (r.2.Ok? ==> Advanced(o, r.1, ParamCount(Kinds(ls), 0)))
  {
    var e := BatchEnd(i, bs as nat, X.rows);
    BatchReady(ls, o, loss, X, y, bs, i);
    TrainStepClock(ls, o, loss, RowBlock(X, i, e), RowBlock(y, i, e));
  }

  /** One successful batch of EpochFrom followed by the rest of the epoch r: the batch counts
      once and advances the clock by c; the rest of the epoch does the remainder. */
  lemma EpochCompose(c: nat, c2: nat, o: Option<OptState>, s: (seq<Layer>, Option<OptState>, Result<real>),
                     r: (seq<Layer>, Option<OptState>, Result<(real, nat)>), n: nat, bs: nat, i: nat, count: nat)
    requires bs > 0 && i < n && c == c2
    requires s.1.Some? == o.Some?
    requires s.2.Ok? && Advanced(o, s.1, c) && r.1.Some? == s.1.Some?
    requires r.2.Ok? ==> r.2.value.1 == count + 1 + (if i + bs < n then |Batches(n, bs, i + bs)| else 0)
    requires r.2.Ok? ==> Advanced(s.1, r.1, (r.2.value.1 - (count + 1)) * c2)
    ensures r.2.Ok? ==> r.2.value.1 == count + |Batches(n, bs, i)|
    ensures r.2.Ok? ==> Advanced(o, r.1, (r.2.value.1 - count) * c)
  {
    BatchesStep(n, bs, i);
    if o.Some? && o.value.AdamSt? && r.2.Ok? {
      ClockAdvance(o.value.adam.t, s.1.value.adam.t, r.1.value.adam.t, c, c2, count, r.2.value.1);
    }
  }

  /** What TrainOnBatch on one batch leaves for the rest of the epoch: a model ready for the
      remaining batches, the same kinds of layers, and on success an optimizer clock advanced
      once per parameter. */
  predicate BatchKeeps(ls: seq<Layer>, o: Option<OptState>, loss: Loss, X: Matrix, y: Matrix, bs: int,
                       s: (seq<Layer>, Option<OptState>, Result<real>)) {
    FitReady(s.0, s.1, loss, X, y, bs) && Kinds(s.0) == Kinds(ls) && s.1.Some? == o.Some? &&
    (s.2.Ok? ==> Advanced(o, s.1, ParamCount(Kinds(ls), 0)))
  }

  /** The batches of one epoch from row i on, with totalLoss and numBatches accumulated so far,
      one function per part of Fit's batch loop: the loop test (EpochFrom), the end of the
      batch (EpochAt), TrainOnBatch on its rows (EpochTrain), and the error check and the
      accumulation before the next batch at row i + bs (EpochAfter). The first failure ends
      the epoch with its error. */
  function EpochFrom(ls: seq<Layer>, o: Option<OptState>, loss: Loss, X: Matrix, y: Matrix, bs: int,
                     i: nat, total: real, count: nat)
    : (seq<Layer>, Option<OptState>, Result<(real, nat)>)
    requires FitReady(ls, o, loss, X, y, bs)
    decreases X.rows - i, 3
  {
    if i >= X.rows then (ls, o, Ok((total, count))) else EpochAt(ls, o, loss, X, y, bs, i, total, count)
  }

  /** The batch at row i ends at min(i + bs, X.rows). */
  function EpochAt(ls: seq<Layer>, o: Option<OptState>, loss: Loss, X: Matrix, y: Matrix, bs: int,
                   i: nat, total: real, count: nat)
    : (seq<Layer>, Option<OptState>, Result<(real, nat)>)
    requires FitReady(ls, o, loss, X, y, bs) && i < X.rows
    decreases X.rows - i, 2
  {
    EpochTrain(ls, o, loss, X, y, bs, i, BatchEnd(i, bs as nat, X.rows), total, count)
  }

  /** TrainOnBatch on rows [i, e) of X and y. */
  function EpochTrain(ls: seq<Layer>, o: Option<OptState>, loss: Loss, X: Matrix, y: Matrix, bs: int,
                      i: nat, e: nat, total: real, count: nat)
    : (seq<Layer>, Option<OptState>, Result<(real, nat)>)
    requires FitReady(ls, o, loss, X, y, bs) && i < X.rows && e == BatchEnd(i, bs as nat, X.rows)
    decreases X.rows - i, 1
  {
    EpochBatch(ls, o, loss, X, y, bs, i);
    EpochAfter(ls, o, loss, X, y, bs, i, total, count, TrainStep(ls, o, loss, RowBlock(X, i, e), RowBlock(y, i, e)))
  }

  /** The epoch after TrainOnBatch returned s on the batch at row i: an error ends the epoch
      with it; a loss is added to the total, the batch is counted, and the batches from
      i + bs follow. */
  function EpochAfter(ls: seq<Layer>, o: Option<OptState>, loss: Loss, X: Matrix, y: Matrix, bs: int,
                      i: nat, total: real, count: nat, s: (seq<Layer>, Option<OptState>, Result<real>))
    : (seq<Layer>, Option<OptState>, Result<(real, nat)>)
    requires i < X.rows && BatchKeeps(ls, o, loss, X, y, bs, s)
    decreases X.rows - i, 0
  {
    if s.2.Ok? then EpochFrom(s.0, s.1, loss, X, y, bs, i + bs as nat, total + s.2.value, count + 1)
    else (s.0, s.1, Err(s.2.error))
  }

  /** EpochFrom on a row before the end trains on the batch that starts there. */
  lemma {:induction false} EpochEnter(ls: seq<Layer>, o: Option<OptState>, loss: Loss, X: Matrix, y: Matrix, bs: int,
                                      i: nat, total: real, count: nat)
    requires FitReady(ls, o, loss, X, y, bs) && i < X.rows
    ensures EpochFrom(ls, o, loss, X, y, bs, i, total, count) ==
            EpochTrain(ls, o, loss, X, y, bs, i, BatchEnd(i, bs as nat, X.rows), total, count)
  {
  }

  /** EpochTrain hands TrainOnBatch's result s on the batch to EpochAfter. */
  lemma {:induction false} EpochStep(ls: seq<Layer>, o: Option<OptState>, loss: Loss, X: Matrix, y: Matrix, bs: int,
                                     i: nat, e: nat, total: real, count: nat, s: (seq<Layer>, Option<OptState>, Result<real>))
    requires FitReady(ls, o, loss, X, y, bs) && i < X.rows && e == BatchEnd(i, bs as nat, X.rows)
    requires TrainReady(ls, o, loss, RowBlock(X, i, e), RowBlock(y, i, e))
    requires s == TrainStep(ls, o, loss, RowBlock(X, i, e), RowBlock(y, i, e))
    ensures BatchKeeps(ls, o, loss, X, y, bs, s)
    ensures EpochTrain(ls, o, loss, X, y, bs, i, e, total, count) == EpochAfter(ls, o, loss, X, y, bs, i, total, count, s)
  {
    EpochBatch(ls, o, loss, X, y, bs, i);
  }

  /** One whole pass of the batch loop body: from the batch at i to what follows TrainOnBatch's
      result s on it. */
  lemma {:induction false} EpochBatchStep(ls: seq<Layer>, o: Option<OptState>, loss: Loss, X: Matrix, y: Matrix, bs: int,
                                          i: nat, total: real, count: nat, s: (seq<Layer>, Option<OptState>, Result<real>))
    requires FitReady(ls, o, loss, X, y, bs) && i < X.rows
    requires TrainReady(ls, o, loss, RowBlock(X, i, BatchEnd(i, bs as nat, X.rows)), RowBlock(y, i, BatchEnd(i, bs as nat, X.rows)))
    requires s == TrainStep(ls, o, loss, RowBlock(X, i, BatchEnd(i, bs as nat, X.rows)), RowBlock(y, i, BatchEnd(i, bs as nat, X.rows)))
    ensures BatchKeeps(ls, o, loss, X, y, bs, s)
    ensures EpochFrom(ls, o, loss, X, y, bs, i, total, count) == EpochAfter(ls, o, loss, X, y, bs, i, total, count, s)
  {
    EpochEnter(ls, o, loss, X, y, bs, i, total, count);
    EpochStep(ls, o, loss, X, y, bs, i, BatchEnd(i, bs as nat, X.rows), total, count, s);
  }

  /** The batch loop body from the batch at i, where TrainOnBatch on the batch left layers ls2,
      optimizer state o2 and result r: an error ends the epoch with it, a loss goes on to the
      batch at i + bs with the loss added and counted. */
  lemma {:induction false} EpochPass(ls: seq<Layer>, o: Option<OptState>, loss: Loss, X: Matrix, y: Matrix, bs: int,
                                     i: nat, total: real, count: nat, ls2: seq<Layer>, o2: Option<OptState>, r: Result<real>)
    requires FitReady(ls, o, loss, X, y, bs) && i < X.rows
    requires TrainReady(ls, o, loss, RowBlock(X, i, BatchEnd(i, bs as nat, X.rows)), RowBlock(y, i, BatchEnd(i, bs as nat, X.rows)))
    requires (ls2, o2, r) == TrainStep(ls, o, loss, RowBlock(X, i, BatchEnd(i, bs as nat, X.rows)), RowBlock(y, i, BatchEnd(i, bs as nat, X.rows)))
    ensures r.Err? ==> EpochFrom(ls, o, loss, X, y, bs, i, total, count) == (ls2, o2, Err(r.error))
    ensures r.Ok? ==> FitReady(ls2, o2, loss, X, y, bs)
    ensures r.Ok? ==> EpochFrom(ls, o, loss, X, y, bs, i, total, count) ==
                      EpochFrom(ls2, o2, loss, X, y, bs, i + bs as nat, total + r.value, count + 1)
  {
    EpochBatchStep(ls, o, loss, X, y, bs, i, total, count, (ls2, o2, r));
    EpochPassThen(ls, o, loss, X, y, bs, i, total, count, ls2, o2, r);
  }

  /** The second half of EpochPass: from the epoch continuing after the batch's result to the
      epoch ending with an error or going on at row i + bs. */
  lemma {:induction false} EpochPassThen(ls: seq<Layer>, o: Option<OptState>, loss: Loss, X: Matrix, y: Matrix, bs: int,
                                         i: nat, total: real, count: nat, ls2: seq<Layer>, o2: Option<OptState>, r: Result<real>)
    requires i < X.rows && BatchKeeps(ls, o, loss, X, y, bs, (ls2, o2, r)) && FitReady(ls, o, loss, X, y, bs)
    requires EpochFrom(ls, o, loss, X, y, bs, i, total, count) == EpochAfter(ls, o, loss, X, y, bs, i, total, count, (ls2, o2, r))
    ensures r.Err? ==> EpochFrom(ls, o, loss, X, y, bs, i, total, count) == (ls2, o2, Err(r.error))
    ensures r.Ok? ==> FitReady(ls2, o2, loss, X, y, bs)
    ensures r.Ok? ==> EpochFrom(ls, o, loss, X, y, bs, i, total, count) ==
                      EpochFrom(ls2, o2, loss, X, y, bs, i + bs as nat, total + r.value, count + 1)
  {
    if r.Ok? {
      EpochStepOk(ls, o, loss, X, y, bs, i, total, count, (ls2, o2, r));
    } else {
      EpochStepErr(ls, o, loss, X, y, bs, i, total, count, (ls2, o2, r));
    }
  }

  /** A failed batch ends the epoch with its error. */
  lemma {:induction false} EpochStepErr(ls: seq<Layer>, o: Option<OptState>, loss: Loss, X: Matrix, y: Matrix, bs: int,
                                        i: nat, total: real, count: nat, s: (seq<Layer>, Option<OptState>, Result<real>))
    requires i < X.rows && BatchKeeps(ls, o, loss, X, y, bs, s) && s.2.Err?
    ensures EpochAfter(ls, o, loss, X, y, bs, i, total, count, s) == (s.0, s.1, Err(s.2.error))
  {
  }

  /** A batch loss goes on to the batch at i + bs, with the model still ready for it. */
  lemma {:induction false} EpochStepOk(ls: seq<Layer>, o: Option<OptState>, loss: Loss, X: Matrix, y: Matrix, bs: int,
                                       i: nat, total: real, count: nat, s: (seq<Layer>, Option<OptState>, Result<real>))
    requires i < X.rows && BatchKeeps(ls, o, loss, X, y, bs, s) && s.2.Ok?
    ensures FitReady(s.0, s.1, loss, X, y, bs)
    ensures EpochAfter(ls, o, loss, X, y, bs, i, total, count, s) ==
            EpochFrom(s.0, s.1, loss, X, y, bs, i + bs as nat, total + s.2.value, count + 1)
  {
  }

  /** EpochFrom past the last row returns the total and the count. */
  lemma {:induction false} EpochDone(ls: seq<Layer>, o: Option<OptState>, loss: Loss, X: Matrix, y: Matrix, bs: int,
                  i: nat, total: real, count: nat)
    requires FitReady(ls, o, loss, X, y, bs) && i >= X.rows
    ensures EpochFrom(ls, o, loss, X, y, bs, i, total, count) == (ls, o, Ok((total, count)))
  {
  }

  /** What an epoch from row i leaves, r: a model ready for the next epoch with the same kinds
      of layers and, on success, one count per batch from row i and Adam's clock advanced once
      per parameter per batch. */
  predicate EpochPost(ls: seq<Layer>, o: Option<OptState>, loss: Loss, X: Matrix, y: Matrix, bs: int, i: nat, count: nat,
                      r: (seq<Layer>, Option<OptState>, Result<(real, nat)>)) {
    FitReady(r.0, r.1, loss, X, y, bs) && Kinds(r.0) == Kinds(ls) && r.1.Some? == o.Some? &&
    (r.2.Ok? ==> r.2.value.1 == count + (if i < X.rows && bs > 0 then |Batches(X.rows, bs as nat, i)| else 0)) &&
    (r.2.Ok? ==> Advanced(o, r.1, (r.2.value.1 - count) * ParamCount(Kinds(ls), 0)))
  }

  /** EpochFrom keeps the model ready, counts its batches and advances Adam's clock by the
      parameter count per batch. */
  lemma {:induction false} EpochFromPost(ls: seq<Layer>, o: Option<OptState>, loss: Loss, X: Matrix, y: Matrix, bs: int,
                                         i: nat, total: real, count: nat)
    requires FitReady(ls, o, loss, X, y, bs)
    ensures EpochPost(ls, o, loss, X, y, bs, i, count, EpochFrom(ls, o, loss, X, y, bs, i, total, count))
    decreases X.rows - i, 1
  {
    if i < X.rows {
      var e := BatchEnd(i, bs as nat, X.rows);
      EpochBatch(ls, o, loss, X, y, bs, i);
      var s := TrainStep(ls, o, loss, RowBlock(X, i, e), RowBlock(y, i, e));
      EpochBatchStep(ls, o, loss, X, y, bs, i, total, count, s);
      EpochAfterPost(ls, o, loss, X, y, bs, i, total, count, s);
    } else {
      EpochDone(ls, o, loss, X, y, bs, i, total, count);
    }
  }

  /** The same for the rest of the epoch after TrainOnBatch returned s on the batch at row i. */
  lemma {:induction false} EpochAfterPost(ls: seq<Layer>, o: Option<OptState>, loss: Loss, X: Matrix, y: Matrix, bs: int,
                                          i: nat, total: real, count: nat, s: (seq<Layer>, Option<OptState>, Result<real>))
    requires i < X.rows && BatchKeeps(ls, o, loss, X, y, bs, s)
    ensures EpochPost(ls, o, loss, X, y, bs, i, count, EpochAfter(ls, o, loss, X, y, bs, i, total, count, s))
    decreases X.rows - i, 0
  {
    if s.2.Ok? {
      EpochStepOk(ls, o, loss, X, y, bs, i, total, count, s);
      var r := EpochFrom(s.0, s.1, loss, X, y, bs, i + bs as nat, total + s.2.value, count + 1);
      EpochFromPost(s.0, s.1, loss, X, y, bs, i + bs as nat, total + s.2.value, count + 1);
      EpochCompose(ParamCount(Kinds(ls), 0), ParamCount(Kinds(s.0), 0), o, s, r, X.rows, bs as nat, i, count);
    } else {
      EpochStepErr(ls, o, loss, X, y, bs, i, total, count, s);
    }
  }

  /** The loss Fit reports for an epoch: the unweighted mean of the batch losses, undefined
      (Go's 0/0) when there was no batch. */
  function EpochMean(total: real, count: nat): Option<real> {
    if count == 0 then None else Some(total / count as real)
  }

  /** With count the number of Batches of n rows, the epoch mean is defined exactly when
      there are rows. */
  lemma MeanDefined(n: nat, bs: int, total: real, count: nat)
    requires n > 0 ==> bs > 0
    requires count == 0 + (if 0 < n && bs > 0 then |Batches(n, bs as nat, 0)| else 0)
    ensures EpochMean(total, count).Some? <==> n > 0
  {
  }

  /** Every epoch mean in s is defined exactly when b holds. */
  predicate DefinedIff(s: seq<Option<real>>, b: bool) {
    forall k | 0 <= k < |s| :: s[k].Some? == b
  }

  lemma DefinedAppend(s: seq<Option<real>>, m: Option<real>, b: bool)
    requires DefinedIff(s, b) && m.Some? == b
    ensures DefinedIff(s + [m], b)
  {
  }

  /** A sequence that starts with b, which starts with a, starts with a. */
  lemma PrefixOfPrefix<T>(a: seq<T>, b: seq<T>, c: seq<T>)
    requires |a| <= |b| && b[..|a|] == a && |b| <= |c| && c[..|b|] == b
    ensures c[..|a|] == a
  {
    assert c[..|a|] == c[..|b|][..|a|];
  }

  /** Fit from epoch e on, with the means of the epochs so far: each epoch runs the batches
      from row 0 with a fresh total and count; the first failure ends Fit with its error. */
  function FitFrom(ls: seq<Layer>, o: Option<OptState>, loss: Loss, X: Matrix, y: Matrix, epochs: int, bs: int,
                   e: nat, means: seq<Option<real>>)
    : (r: (seq<Layer>, Option<OptState>, Result<seq<Option<real>>>))
    requires FitReady(ls, o, loss, X, y, bs) && DefinedIff(means, X.rows > 0)
    ensures FitReady(r.0, r.1, loss, X, y, bs) && Kinds(r.0) == Kinds(ls)
    ensures r.2.Ok? ==> |r.2.value| == |means| + (if e < epochs then epochs - e else 0)
    ensures r.2.Ok? ==> r.2.value[..|means|] == means && DefinedIff(r.2.value, X.rows > 0)
    decreases epochs - e
  {
    if e >= epochs then (ls, o, Ok(means))
    else
      EpochFromPost(ls, o, loss, X, y, bs, 0, 0.0, 0);
      var (ls', o', v) := EpochFrom(ls, o, loss, X, y, bs, 0, 0.0, 0);
      if v.Err? then (ls', o', Err(v.error))
      else
        MeanDefined(X.rows, bs, v.value.0, v.value.1);
        var means' := means + [EpochMean(v.value.0, v.value.1)];
        DefinedAppend(means, EpochMean(v.value.0, v.value.1), X.rows > 0);
        var r := FitFrom(ls', o', loss, X, y, epochs, bs, e + 1, means');
        PrefixOfPrefix(means, means', if r.2.Ok? then r.2.value else means');
        r
  }

  /** One epoch of FitFrom, given its result s: an error ends Fit, a total and a count add the
      epoch's mean and go on to the next epoch. */
  lemma {:induction false} FitStep(ls: seq<Layer>, o: Option<OptState>, loss: Loss, X: Matrix, y: Matrix, epochs: int, bs: int,
                e: nat, means: seq<Option<real>>, s: (seq<Layer>, Option<OptState>, Result<(real, nat)>))
    requires FitReady(ls, o, loss, X, y, bs) && DefinedIff(means, X.rows > 0) && e < epochs
    requires s == EpochFrom(ls, o, loss, X, y, bs, 0, 0.0, 0)
    ensures FitReady(s.0, s.1, loss, X, y, bs)
    ensures s.2.Err? ==> FitFrom(ls, o, loss, X, y, epochs, bs, e, means) == (s.0, s.1, Err(s.2.error))
    ensures s.2.Ok? ==>
              DefinedIff(means + [EpochMean(s.2.value.0, s.2.value.1)], X.rows > 0) &&
              FitFrom(ls, o, loss, X, y, epochs, bs, e, means) ==
              FitFrom(s.0, s.1, loss, X, y, epochs, bs, e + 1, means + [EpochMean(s.2.value.0, s.2.value.1)])
  {
    EpochFromPost(ls, o, loss, X, y, bs, 0, 0.0, 0);
    if s.2.Ok? {
      MeanDefined(X.rows, bs, s.2.value.0, s.2.value.1);
      DefinedAppend(means, EpochMean(s.2.value.0, s.2.value.1), X.rows > 0);
    }
  }

  /** FitFrom past the last epoch returns the means. */
  lemma {:induction false} FitDone(ls: seq<Layer>, o: Option<OptState>, loss: Loss, X: Matrix, y: Matrix, epochs: int, bs: int,
                e: nat, means: seq<Option<real>>)
    requires FitReady(ls, o, loss, X, y, bs) && DefinedIff(means, X.rows > 0) && e >= epochs
    ensures FitFrom(ls, o, loss, X, y, epochs, bs, e, means) == (ls, o, Ok(means))
  {
  }
}
