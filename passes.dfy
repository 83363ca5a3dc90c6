/** The forward and backward passes of the Sequential model (model.go Forward, Backward):
    layers in index order forward, in reverse order backward, stopping at the first layer that
    fails with an error naming it.

    Each layer's step reads only that layer and the matrix reaching it, so the passes are
    specified per layer: the matrix reaching layer j (`Through`, `GradFrom`) and the state layer j
    is left in (`Forwarded`, `Backwarded`). */
module Passes {
  import opened Errors
  import opened Matrices
  import opened Layers
  import opened Updates

  // ---------------------------------------------------------------- widths

  /** The output width of one layer for inputs of width c; None when Dense rejects them. */
  function LayerWidth(k: Kind, c: nat): Option<nat> {
    match k
    case DenseKind(inS, outS) => if c == inS then Some(outS) else None
    case _ => Some(c)
  }

  /** The width after the first k layers for inputs of width cols; None once a layer rejects
      its input. */
  function WidthUpTo(kinds: seq<Kind>, k: nat, cols: nat): Option<nat>
    requires k <= |kinds|
  {
    if k == 0 then Some(cols)
    else
      var w := WidthUpTo(kinds, k - 1, cols);
      if w.None? then None else LayerWidth(kinds[k - 1], w.value)
  }

  /** No softmax layer among the first k is reached by zero-width rows (its row maximum reads
      entry 0). */
  predicate WidthsSafe(kinds: seq<Kind>, k: nat, cols: nat)
    requires k <= |kinds|
  {
    k == 0 ||
    (WidthsSafe(kinds, k - 1, cols) &&
     (kinds[k - 1].SoftmaxKind? && WidthUpTo(kinds, k - 1, cols).Some? ==> WidthUpTo(kinds, k - 1, cols).value > 0))
  }

  /** What Forward through the first k layers demands: an empty batch, or widths that keep
      softmax defined. */
  predicate ForwardSafe(ls: seq<Layer>, k: nat, x: Matrix)
    requires k <= |ls|
  {
    x.rows == 0 || WidthsSafe(Kinds(ls), k, x.cols)
  }

  lemma ForwardSafeShorter(ls: seq<Layer>, k: nat, m: nat, x: Matrix)
    requires m <= k <= |ls| && ForwardSafe(ls, k, x)
    ensures ForwardSafe(ls, m, x)
    decreases k
  {
    if m < k {
      ForwardSafeShorter(ls, k - 1, m, x);
    }
  }

  /** One layer's Forward succeeds exactly when LayerWidth accepts its input width, and then
      produces that width. */
  lemma LayerForwardWidth(l: Layer, x: Matrix)
    requires l.Valid() && x.Valid() && l.ForwardReady(x)
    ensures l.ForwardResult(x).1.Ok? <==> LayerWidth(l.Kind(), x.cols).Some?
    ensures l.ForwardResult(x).1.Ok? ==> l.ForwardResult(x).1.value.cols == LayerWidth(l.Kind(), x.cols).value
  {
  }

  // ---------------------------------------------------------------- forward

  /** The result of Forward through the first k layers: the matrix leaving layer k-1, or
      ForwardFailed(i, e) for the first layer i that fails. It is defined exactly when the
      widths chain, with the batch's rows and the last width. */
  function Through(ls: seq<Layer>, k: nat, x: Matrix): (r: Result<Matrix>)
    requires AllValid(ls) && x.Valid() && k <= |ls| && ForwardSafe(ls, k, x)
    ensures r.Ok? <==> WidthUpTo(Kinds(ls), k, x.cols).Some?
    ensures r.Ok? ==> r.value.Valid() && r.value.rows == x.rows && r.value.cols == WidthUpTo(Kinds(ls), k, x.cols).value
    ensures r.Err? ==> r.error.ForwardFailed? && r.error.layer < k
  {
    if k == 0 then Ok(x)
    else
      ForwardSafeShorter(ls, k, k - 1, x);
      var prev := Through(ls, k - 1, x);
      if prev.Err? then prev
      else
        LayerForwardWidth(ls[k - 1], prev.value);
        var y := ls[k - 1].ForwardResult(prev.value).1;
        if y.Err? then Err(ForwardFailed(k - 1, y.error)) else y
  }

  /** Layer j after Forward: stepped if the matrix reached it, as it was otherwise. */
  function Forwarded(ls: seq<Layer>, x: Matrix, j: nat): (l: Layer)
    requires AllValid(ls) && x.Valid() && j < |ls| && ForwardSafe(ls, |ls|, x)
    ensures l.Valid() && l.SameWeights(ls[j]) && l.SameGradBuffers(ls[j])
  {
    ForwardSafeShorter(ls, |ls|, j + 1, x);
    ForwardSafeShorter(ls, |ls|, j, x);
    var input := Through(ls, j, x);
    if input.Err? then ls[j]
    else
      LayerForwardWidth(ls[j], input.value);
      ls[j].ForwardResult(input.value).0
  }

  /** Forward through all layers: the layers with their caches set and the output. Only
      caches change: kinds, parameters and gradient buffers stay. */
  function ForwardAll(ls: seq<Layer>, x: Matrix): (r: (seq<Layer>, Result<Matrix>))
    requires AllValid(ls) && x.Valid() && ForwardSafe(ls, |ls|, x)
    ensures AllValid(r.0) && SameParams(r.0, ls)
    ensures r.1.Ok? <==> WidthUpTo(Kinds(ls), |ls|, x.cols).Some?
    ensures r.1.Ok? ==> r.1.value.Valid() && r.1.value.rows == x.rows && r.1.value.cols == WidthUpTo(Kinds(ls), |ls|, x.cols).value
    ensures r.1.Err? ==> r.1.error.ForwardFailed? && r.1.error.layer < |ls|
  {
    (seq(|ls|, j requires 0 <= j < |ls| => Forwarded(ls, x, j)), Through(ls, |ls|, x))
  }

  /** The layers a and b agree on kind, parameters and gradient buffers, position by position. */
  predicate SameParams(a: seq<Layer>, b: seq<Layer>)
    requires AllValid(a) && AllValid(b)
  {
    |a| == |b| &&
    forall k | 0 <= k < |a| ::
      a[k].SameWeights(b[k]) && a[k].SameGradBuffers(b[k])
  }

  /** The layers a and b agree on kind, parameters and caches, position by position. */
  predicate SameCaches(a: seq<Layer>, b: seq<Layer>) {
    |a| == |b| &&
    forall k | 0 <= k < |a| ::
      a[k].SameWeights(b[k]) && a[k].Cache() == b[k].Cache()
  }

  /** Once the first m layers have failed, Forward through more layers fails the same way. */
  lemma {:induction false} ForwardErrorPersists(ls: seq<Layer>, x: Matrix, m: nat, k: nat)
    requires AllValid(ls) && x.Valid() && m <= k <= |ls| && ForwardSafe(ls, k, x)
    requires ForwardSafe(ls, m, x) && Through(ls, m, x).Err?
    ensures Through(ls, k, x) == Through(ls, m, x)
    decreases k
  {
    if m < k {
      ForwardSafeShorter(ls, k, k - 1, x);
      ForwardErrorPersists(ls, x, m, k - 1);
    }
  }

  /** When layer i is reached and fails, Forward returns its error under index i. */
  lemma ForwardFailsAt(ls: seq<Layer>, x: Matrix, i: nat)
    requires AllValid(ls) && x.Valid() && i < |ls| && ForwardSafe(ls, |ls|, x)
    requires ForwardSafe(ls, i, x) && Through(ls, i, x).Ok?
    requires ForwardSafe(ls, i + 1, x) && Through(ls, i + 1, x).Err?
    ensures Through(ls, i + 1, x).error.layer == i
    ensures WidthUpTo(Kinds(ls), i, x.cols).Some? && WidthUpTo(Kinds(ls), i + 1, x.cols).None?
    ensures Through(ls, |ls|, x) == Through(ls, i + 1, x)
  {
    LayerForwardWidth(ls[i], Through(ls, i, x).value);
    ForwardErrorPersists(ls, x, i + 1, |ls|);
  }

  /** A layer the matrix never reaches keeps its state. */
  lemma ForwardedUnreached(ls: seq<Layer>, x: Matrix, j: nat)
    requires AllValid(ls) && x.Valid() && j < |ls| && ForwardSafe(ls, |ls|, x)
    requires ForwardSafe(ls, j, x) && Through(ls, j, x).Err?
    ensures Forwarded(ls, x, j) == ls[j]
  {
  }

  /** The layer that fails keeps its state. */
  lemma ForwardedFailing(ls: seq<Layer>, x: Matrix, i: nat)
    requires AllValid(ls) && x.Valid() && i < |ls| && ForwardSafe(ls, |ls|, x)
    requires ForwardSafe(ls, i, x) && Through(ls, i, x).Ok?
    requires ForwardSafe(ls, i + 1, x) && Through(ls, i + 1, x).Err?
    ensures Forwarded(ls, x, i) == ls[i]
  {
    LayerForwardWidth(ls[i], Through(ls, i, x).value);
  }

  /** When layer i is reached and fails, it and every later layer keep their state. */
  lemma ForwardKeepsFrom(ls: seq<Layer>, x: Matrix, i: nat)
    requires AllValid(ls) && x.Valid() && i < |ls| && ForwardSafe(ls, |ls|, x)
    requires ForwardSafe(ls, i, x) && Through(ls, i, x).Ok?
    requires ForwardSafe(ls, i + 1, x) && Through(ls, i + 1, x).Err?
    ensures forall j | i <= j < |ls| :: Forwarded(ls, x, j) == ls[j]
  {
    forall j | i <= j < |ls|
      ensures Forwarded(ls, x, j) == ls[j]
    {
      if j == i {
        ForwardedFailing(ls, x, i);
      } else {
        ForwardedPastFailure(ls, x, i, j);
      }
    }
  }

  /** A layer above the failing layer i keeps its state. */
  lemma ForwardedPastFailure(ls: seq<Layer>, x: Matrix, i: nat, j: nat)
    requires AllValid(ls) && x.Valid() && i < j < |ls| && ForwardSafe(ls, |ls|, x)
    requires ForwardSafe(ls, i + 1, x) && Through(ls, i + 1, x).Err?
    ensures Forwarded(ls, x, j) == ls[j]
  {
    ForwardSafeShorter(ls, |ls|, j, x);
    ForwardErrorPersists(ls, x, i + 1, j);
    ForwardedUnreached(ls, x, j);
  }

  /** A failing Forward names the first layer whose input width is wrong: the widths before it
      are defined, it rejects its input, and it and the later layers keep their caches. */
  lemma {:induction false} ForwardStopsAtFailure(ls: seq<Layer>, x: Matrix)
    requires AllValid(ls) && x.Valid() && ForwardSafe(ls, |ls|, x)
    requires ForwardAll(ls, x).1.Err?
    ensures var i := ForwardAll(ls, x).1.error.layer;
            i < |ls| && WidthUpTo(Kinds(ls), i, x.cols).Some? && WidthUpTo(Kinds(ls), i + 1, x.cols).None? &&
            forall j | i <= j < |ls| :: ForwardAll(ls, x).0[j] == ls[j]
  {
    var i := FirstFailure(ls, x, |ls|);
    ForwardFailsAt(ls, x, i);
    ForwardKeepsFrom(ls, x, i);
  }

  /** The layer whose failure makes Forward through the first k layers fail. */
  lemma {:induction false} FirstFailure(ls: seq<Layer>, x: Matrix, k: nat) returns (i: nat)
    requires AllValid(ls) && x.Valid() && k <= |ls| && ForwardSafe(ls, k, x) && Through(ls, k, x).Err?
    ensures i < k && ForwardSafe(ls, i, x) && ForwardSafe(ls, i + 1, x)
    ensures Through(ls, i, x).Ok? && Through(ls, i + 1, x).Err? && Through(ls, k, x) == Through(ls, i + 1, x)
    decreases k
  {
    ForwardSafeShorter(ls, k, k - 1, x);
    if Through(ls, k - 1, x).Err? {
      i := FirstFailure(ls, x, k - 1);
    } else {
      i := k - 1;
    }
  }

  /** Forward through a model without layers returns its input. */
  lemma ForwardEmpty(x: Matrix)
    requires x.Valid()
    ensures ForwardAll([], x) == ([], Ok(x))
  {
  }

  // ---------------------------------------------------------------- backward

  /** What Backward from layer |ls|-1 down to layer i demands: each layer reached is ready for
      the gradient reaching it. */
  predicate BackwardSafe(ls: seq<Layer>, i: nat, g: Matrix)
    requires AllValid(ls) && g.Valid() && i <= |ls|
    decreases |ls| - i, 0
  {
    i == |ls| ||
    (BackwardSafe(ls, i + 1, g) &&
     (GradFrom(ls, i + 1, g).Ok? ==> ls[i].BackwardReady(GradFrom(ls, i + 1, g).value)))
  }

  /** The result of Backward through layers |ls|-1 down to i: the gradient leaving layer i
      towards its input, or BackwardFailed(j, e) for the first layer j (from the top) that
      fails. */
  function GradFrom(ls: seq<Layer>, i: nat, g: Matrix): (r: Result<Matrix>)
    requires AllValid(ls) && g.Valid() && i <= |ls| && BackwardSafe(ls, i, g)
    ensures r.Ok? ==> r.value.Valid() && r.value.rows == g.rows
    ensures r.Err? ==> r.error.BackwardFailed? && i <= r.error.layer < |ls|
    decreases |ls| - i, 1
  {
    if i == |ls| then Ok(g)
    else
      var prev := GradFrom(ls, i + 1, g);
      if prev.Err? then prev
      else
        var d := ls[i].BackwardResult(prev.value).1;
        if d.Err? then Err(BackwardFailed(i, d.error)) else d
  }

  lemma BackwardSafeLower(ls: seq<Layer>, i: nat, m: nat, g: Matrix)
    requires AllValid(ls) && g.Valid() && i <= m <= |ls| && BackwardSafe(ls, i, g)
    ensures BackwardSafe(ls, m, g)
    decreases m - i
  {
    if i < m {
      BackwardSafeLower(ls, i + 1, m, g);
    }
  }

  /** Layer j after Backward: stepped if a gradient reached it, as it was otherwise. */
  function Backwarded(ls: seq<Layer>, g: Matrix, j: nat): (l: Layer)
    requires AllValid(ls) && g.Valid() && j < |ls| && BackwardSafe(ls, 0, g)
    ensures l.Valid() && l.SameWeights(ls[j]) && l.Cache() == ls[j].Cache()
  {
    BackwardSafeLower(ls, 0, j, g);
    var d := GradFrom(ls, j + 1, g);
    if d.Err? then ls[j] else ls[j].BackwardResult(d.value).0
  }

  /** Backward through all layers: the layers with their gradient buffers set, and the gradient
      reaching the input (the source returns only the error). Only gradient buffers change. */
  function BackwardAll(ls: seq<Layer>, g: Matrix): (r: (seq<Layer>, Result<Matrix>))
    requires AllValid(ls) && g.Valid() && BackwardSafe(ls, 0, g)
    ensures AllValid(r.0) && SameCaches(r.0, ls)
    ensures r.1.Err? ==> r.1.error.BackwardFailed? && r.1.error.layer < |ls|
  {
    (seq(|ls|, j requires 0 <= j < |ls| => Backwarded(ls, g, j)), GradFrom(ls, 0, g))
  }

  /** Once Backward from the top down to layer m has failed, going further down fails the
      same way. */
  lemma {:induction false} BackwardErrorPersists(ls: seq<Layer>, g: Matrix, i: nat, m: nat)
    requires AllValid(ls) && g.Valid() && i <= m <= |ls| && BackwardSafe(ls, i, g)
    requires BackwardSafe(ls, m, g) && GradFrom(ls, m, g).Err?
    ensures GradFrom(ls, i, g) == GradFrom(ls, m, g)
    decreases m - i
  {
    if i < m {
      BackwardSafeLower(ls, i, i + 1, g);
      BackwardErrorPersists(ls, g, i + 1, m);
    }
  }

  /** When layer i is reached by a gradient and fails, Backward returns its error under index i
      and leaves layer i and every layer below it as it was. */
  lemma BackwardFailsAt(ls: seq<Layer>, g: Matrix, i: nat)
    requires AllValid(ls) && g.Valid() && i < |ls| && BackwardSafe(ls, 0, g)
    requires BackwardSafe(ls, i + 1, g) && GradFrom(ls, i + 1, g).Ok?
    requires BackwardSafe(ls, i, g) && GradFrom(ls, i, g).Err?
    ensures GradFrom(ls, i, g).error.layer == i
    ensures GradFrom(ls, 0, g) == GradFrom(ls, i, g)
    ensures forall j | 0 <= j <= i :: Backwarded(ls, g, j) == ls[j]
  {
    BackwardErrorPersists(ls, g, 0, i);
    forall j | 0 <= j < i
      ensures Backwarded(ls, g, j) == ls[j]
    {
      BackwardSafeLower(ls, 0, j + 1, g);
      BackwardErrorPersists(ls, g, j + 1, i);
    }
  }

  /** The cache one successful Forward leaves makes Backward safe for any gradient of the
      output's shape (given a non-empty batch), and Backward returns a gradient of the
      input's shape. */
  lemma LayerChain(l: Layer, x: Matrix, g: Matrix)
    requires l.Valid() && x.Valid() && l.ForwardReady(x) && x.rows > 0
    requires l.ForwardResult(x).1.Ok?
    requires g.Valid() && g.rows == x.rows && g.cols == l.ForwardResult(x).1.value.cols
    ensures l.ForwardResult(x).0.BackwardReady(g)
    ensures l.ForwardResult(x).0.BackwardResult(g).1.Ok?
    ensures l.ForwardResult(x).0.BackwardResult(g).1.value.rows == x.rows
    ensures l.ForwardResult(x).0.BackwardResult(g).1.value.cols == x.cols
  {
  }

  /** A Forward that succeeds through all layers succeeds through every prefix. */
  lemma ThroughOk(ls: seq<Layer>, x: Matrix, i: nat)
    requires AllValid(ls) && x.Valid() && ForwardSafe(ls, |ls|, x) && Through(ls, |ls|, x).Ok? && i <= |ls|
    ensures ForwardSafe(ls, i, x) && Through(ls, i, x).Ok?
  {
    ForwardSafeShorter(ls, |ls|, i, x);
    if Through(ls, i, x).Err? {
      ForwardErrorPersists(ls, x, i, |ls|);
    }
  }

  /** After a successful Forward on a non-empty batch, leaving the layers f, Backward with a
      gradient of the output's shape is safe and, from the top down to layer i, passes on a
      gradient of the shape of the matrix that reached layer i. */
  lemma {:induction false} ForwardPrimesBackwardFrom(ls: seq<Layer>, x: Matrix, f: seq<Layer>, g: Matrix, i: nat)
    requires AllValid(ls) && x.Valid() && ForwardSafe(ls, |ls|, x) && x.rows > 0 && Through(ls, |ls|, x).Ok?
    requires AllValid(f) && |f| == |ls| && forall j {:trigger Forwarded(ls, x, j)} | 0 <= j < |ls| :: f[j] == Forwarded(ls, x, j)
    requires g.Valid() && g.rows == x.rows && g.cols == Through(ls, |ls|, x).value.cols && i <= |ls|
    ensures ForwardSafe(ls, i, x) && Through(ls, i, x).Ok?
    ensures BackwardSafe(f, i, g) && GradFrom(f, i, g).Ok? && GradFrom(f, i, g).value.cols == Through(ls, i, x).value.cols
    decreases |ls| - i
  {
    ThroughOk(ls, x, i);
    if i < |ls| {
      ThroughOk(ls, x, i + 1);
      ForwardPrimesBackwardFrom(ls, x, f, g, i + 1);
      PrimedStep(ls, x, f, g, i);
    }
  }

  /** The inductive step of ForwardPrimesBackwardFrom at layer i. */
  lemma PrimedStep(ls: seq<Layer>, x: Matrix, f: seq<Layer>, g: Matrix, i: nat)
    requires AllValid(ls) && x.Valid() && ForwardSafe(ls, |ls|, x) && x.rows > 0 && i < |ls|
    requires ForwardSafe(ls, i, x) && Through(ls, i, x).Ok? && ForwardSafe(ls, i + 1, x) && Through(ls, i + 1, x).Ok?
    requires AllValid(f) && |f| == |ls| && f[i] == Forwarded(ls, x, i) && g.Valid() && g.rows == x.rows
    requires BackwardSafe(f, i + 1, g) && GradFrom(f, i + 1, g).Ok?
    requires GradFrom(f, i + 1, g).value.cols == Through(ls, i + 1, x).value.cols
    ensures BackwardSafe(f, i, g) && GradFrom(f, i, g).Ok? && GradFrom(f, i, g).value.cols == Through(ls, i, x).value.cols
  {
    ForwardStepAt(ls, x, i);
    BackwardStepPrimed(f, g, i, ls[i], Through(ls, i, x).value);
  }

  /** Layer i, reached by the matrix xi, takes it to the matrix reaching layer i + 1 and is
      left as Forwarded says. */
  lemma ForwardStepAt(ls: seq<Layer>, x: Matrix, i: nat)
    requires AllValid(ls) && x.Valid() && i < |ls| && ForwardSafe(ls, |ls|, x)
    requires ForwardSafe(ls, i, x) && ForwardSafe(ls, i + 1, x) && Through(ls, i, x).Ok?
    ensures ls[i].ForwardReady(Through(ls, i, x).value)
    ensures Forwarded(ls, x, i) == ls[i].ForwardResult(Through(ls, i, x).value).0
    ensures Through(ls, i + 1, x).Ok? ==> Through(ls, i + 1, x) == ls[i].ForwardResult(Through(ls, i, x).value).1
  {
    LayerForwardWidth(ls[i], Through(ls, i, x).value);
  }

  /** The inductive step of ForwardPrimesBackwardFrom: a layer left by a successful Forward on
      xi takes any gradient of its output's shape reaching it to one of xi's shape. */
  lemma BackwardStepPrimed(f: seq<Layer>, g: Matrix, i: nat, l: Layer, xi: Matrix)
    requires AllValid(f) && g.Valid() && i < |f| && BackwardSafe(f, i + 1, g) && GradFrom(f, i + 1, g).Ok?
    requires l.Valid() && xi.Valid() && l.ForwardReady(xi) && xi.rows > 0 && l.ForwardResult(xi).1.Ok?
    requires f[i] == l.ForwardResult(xi).0 && g.rows == xi.rows
    requires GradFrom(f, i + 1, g).value.cols == l.ForwardResult(xi).1.value.cols
    ensures BackwardSafe(f, i, g) && GradFrom(f, i, g).Ok? && GradFrom(f, i, g).value.cols == xi.cols
  {
    LayerChain(l, xi, GradFrom(f, i + 1, g).value);
  }

  /** After a successful Forward on a non-empty batch, Backward with a gradient of the output's
      shape is safe and never fails: every layer finds the cache it needs. */
  lemma ForwardPrimesBackward(ls: seq<Layer>, x: Matrix, g: Matrix)
    requires AllValid(ls) && x.Valid() && ForwardSafe(ls, |ls|, x) && x.rows > 0
    requires ForwardAll(ls, x).1.Ok?
    requires g.Valid() && g.rows == x.rows && g.cols == ForwardAll(ls, x).1.value.cols
    ensures BackwardSafe(ForwardAll(ls, x).0, 0, g) && BackwardAll(ForwardAll(ls, x).0, g).1.Ok?
  {
    ForwardPrimesBackwardFrom(ls, x, ForwardAll(ls, x).0, g, 0);
  }
}
