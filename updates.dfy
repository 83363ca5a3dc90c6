/** Parameter updates of the Sequential model (model.go UpdateWeights): every parameter of
    every layer, in layer-then-parameter order, goes through the optimizer under its key and the
    result is copied back into the parameter. */
module Updates {
  import opened Matrices
  import opened Layers
  import opened Optimizers
  import opened Keys

  /** The value state of either optimizer: its constants and its per-key map. */
  datatype OptState =
    | AdamSt(lr: real, adam: AdamState)
    | SGDSt(lr: real, momentum: real, velocity: map<string, Matrix>)
  {
    predicate Valid() {
      match this
      case AdamSt(_, st) => st.Valid()
      case SGDSt(_, _, vel) => VelocitiesValid(vel)
    }

    /** The per-key matrices whose shapes the next update indexes (Adam's M, SGD's Velocity). */
    function Stored(): map<string, Matrix> {
      match this
      case AdamSt(_, st) => st.m
      case SGDSt(_, _, vel) => vel
    }

    /** Any state stored under key covers a rows×cols parameter. */
    predicate Covers(key: string, rows: nat, cols: nat) {
      key in Stored() ==> rows <= Stored()[key].rows && cols <= Stored()[key].cols
    }

    /** Optimizer.Update on the value state: the optimizer's own step. */
    function Step(key: string, p: Matrix, g: Matrix): (r: (OptState, Matrix))
      requires Valid() && p.Valid() && g.Valid() && p.rows <= g.rows && p.cols <= g.cols
      requires Covers(key, p.rows, p.cols)
      ensures r.0.Valid() && r.1.Valid() && SameShape(r.1, p)
      ensures r.0.AdamSt? == AdamSt? && r.0.lr == lr && (SGDSt? ==> r.0.momentum == momentum)
      ensures AdamSt? ==> r.0.adam.t == adam.t + 1
      ensures r.0.Covers(key, p.rows, p.cols)
      ensures forall k, rows, cols | k != key :: r.0.Covers(k, rows, cols) == Covers(k, rows, cols)
    {
      match this
      case AdamSt(lr, st) =>
        var (st', u) := AdamStep(lr, st, key, p, g);
        (AdamSt(lr, st'), u)
      case SGDSt(lr, mu, vel) =>
        var (vel', u) := SGDStep(lr, mu, vel, key, p, g);
        (SGDSt(lr, mu, vel'), u)
    }
  }

  // ---------------------------------------------------------------- parameters by kind

  /** GetParamNames as a function of the layer's kind. */
  function ParamNames(k: Kind): seq<string> {
    if k.DenseKind? then ["weights", "bias"] else []
  }

  /** The shape of parameter s of a layer of kind k. */
  function ParamShape(k: Kind, s: nat): (nat, nat)
    requires s < |ParamNames(k)|
  {
    if s == 0 then (k.inputSize, k.outputSize) else (1, k.outputSize)
  }

  lemma LayerParams(l: Layer)
    requires l.Valid()
    ensures l.GetParamNames() == ParamNames(l.Kind())
    ensures forall s | 0 <= s < |l.GetParams()| ::
              (l.GetParams()[s].rows, l.GetParams()[s].cols) == ParamShape(l.Kind(), s)
  {
  }

  function Kinds(ls: seq<Layer>): (ks: seq<Kind>)
    ensures |ks| == |ls| && forall k | 0 <= k < |ls| :: ks[k] == ls[k].Kind()
  {
    seq(|ls|, k requires 0 <= k < |ls| => ls[k].Kind())
  }

  predicate AllValid(ls: seq<Layer>) {
    forall k | 0 <= k < |ls| :: ls[k].Valid()
  }

  /** The number of parameters of the layers from index i on. */
  function ParamCount(kinds: seq<Kind>, i: nat): nat
    requires i <= |kinds|
    decreases |kinds| - i
  {
    if i == |kinds| then 0 else |ParamNames(kinds[i])| + ParamCount(kinds, i + 1)
  }

  /** Every parameter's stored optimizer state covers the parameter: what the optimizer's
      loops need for each key UpdateWeights will use. */
  predicate Compatible(o: OptState, kinds: seq<Kind>) {
    forall i, s | 0 <= i < |kinds| && 0 <= s < |ParamNames(kinds[i])| ::
      o.Covers(Key(i, ParamNames(kinds[i])[s]), ParamShape(kinds[i], s).0, ParamShape(kinds[i], s).1)
  }

  /** A step on one parameter's key keeps every parameter covered: keys of other parameters
      are different keys. */
  lemma StepKeepsCompatible(o: OptState, kinds: seq<Kind>, i: nat, s: nat, p: Matrix, g: Matrix)
    requires o.Valid() && Compatible(o, kinds) && i < |kinds| && s < |ParamNames(kinds[i])|
    requires p.Valid() && g.Valid() && (p.rows, p.cols) == ParamShape(kinds[i], s)
    requires p.rows <= g.rows && p.cols <= g.cols
    ensures o.Covers(Key(i, ParamNames(kinds[i])[s]), p.rows, p.cols)
    ensures Compatible(o.Step(Key(i, ParamNames(kinds[i])[s]), p, g).0, kinds)
  {
    var key := Key(i, ParamNames(kinds[i])[s]);
    var o' := o.Step(key, p, g).0;
    forall i', s' | 0 <= i' < |kinds| && 0 <= s' < |ParamNames(kinds[i'])|
      ensures o'.Covers(Key(i', ParamNames(kinds[i'])[s']), ParamShape(kinds[i'], s').0, ParamShape(kinds[i'], s').1)
    {
      var k' := Key(i', ParamNames(kinds[i'])[s']);
      if k' == key {
        KeyInjective(i', ParamNames(kinds[i'])[s'], i, ParamNames(kinds[i])[s]);
      } else {
        assert o.Covers(k', ParamShape(kinds[i'], s').0, ParamShape(kinds[i'], s').1);
      }
    }
  }

  // ---------------------------------------------------------------- the update fold

  /** Parameters s.. of layer l, at index i of a model whose layers have the given kinds, in
      GetParams order: each goes through the optimizer under Key(i, name) and the result
      replaces it in place. */
  function LayerUpdate(o: OptState, kinds: seq<Kind>, i: nat, l: Layer, s: nat): (r: (OptState, Layer))
    requires o.Valid() && Compatible(o, kinds) && i < |kinds| && kinds[i] == l.Kind()
    requires l.Valid() && s <= |l.GetParams()|
    ensures r.0.Valid() && Compatible(r.0, kinds) && r.1.Valid() && r.1.Kind() == l.Kind()
    ensures r.0.AdamSt? == o.AdamSt? && r.0.lr == o.lr && (o.SGDSt? ==> r.0.momentum == o.momentum)
    ensures o.AdamSt? ==> r.0.adam.t == o.adam.t + |l.GetParams()| - s
    ensures r.1.GetParams()[..s] == l.GetParams()[..s]
    ensures r.1.GetGrads() == l.GetGrads() && r.1.Cache() == l.Cache()
    decreases |l.GetParams()| - s
  {
    if s == |l.GetParams()| then (o, l)
    else
      LayerParams(l);
      var p, g := l.GetParams()[s], l.GetGrads()[s];
      StepKeepsCompatible(o, kinds, i, s, p, g);
      var (o', u) := o.Step(Key(i, l.GetParamNames()[s]), p, g);
      var r := LayerUpdate(o', kinds, i, l.WithParam(s, u), s + 1);
      assert l.WithParam(s, u).GetParams()[..s] == l.GetParams()[..s];
      r
  }

  lemma KindsUpdate(ls: seq<Layer>, i: nat, l: Layer)
    requires i < |ls| && l.Kind() == ls[i].Kind()
    ensures Kinds(ls[i := l]) == Kinds(ls)
  {
  }

  /** Layers i..: UpdateWeights from layer index i on. */
  function UpdateFrom(o: OptState, ls: seq<Layer>, i: nat): (r: (OptState, seq<Layer>))
    requires o.Valid() && AllValid(ls) && i <= |ls| && Compatible(o, Kinds(ls))
    ensures r.0.Valid() && AllValid(r.1) && |r.1| == |ls| && Kinds(r.1) == Kinds(ls)
    ensures Compatible(r.0, Kinds(ls))
    ensures r.0.AdamSt? == o.AdamSt? && r.0.lr == o.lr && (o.SGDSt? ==> r.0.momentum == o.momentum)
    ensures o.AdamSt? ==> r.0.adam.t == o.adam.t + ParamCount(Kinds(ls), i)
    ensures forall k | 0 <= k < i :: r.1[k] == ls[k]
    ensures forall k | 0 <= k < |ls| :: r.1[k].GetGrads() == ls[k].GetGrads() && r.1[k].Cache() == ls[k].Cache()
    decreases |ls| - i
  {
    if i == |ls| then (o, ls)
    else
      var (o', l') := LayerUpdate(o, Kinds(ls), i, ls[i], 0);
      LayerParams(ls[i]);
      KindsUpdate(ls, i, l');
      UpdateFrom(o', ls[i := l'], i + 1)
  }

  /** A model without parameters leaves the optimizer and the layers as they were. */
  lemma {:induction false} UpdateWithoutParams(o: OptState, ls: seq<Layer>, i: nat)
    requires o.Valid() && AllValid(ls) && i <= |ls| && Compatible(o, Kinds(ls))
    requires ParamCount(Kinds(ls), i) == 0
    ensures UpdateFrom(o, ls, i) == (o, ls)
    decreases |ls| - i
  {
    if i < |ls| {
      LayerParams(ls[i]);
      assert LayerUpdate(o, Kinds(ls), i, ls[i], 0) == (o, ls[i]);
      assert ls[i := ls[i]] == ls;
      UpdateWithoutParams(o, ls, i + 1);
    }
  }
}
