/** Optimizers (optimizer.go): Adam and SGD with momentum. Each keeps per-parameter state in
    a map keyed by parameter name and returns the updated parameter as a fresh matrix. */
module Optimizers {
  import opened Elementary
  import opened Matrices

  /** The Adam constructor's fixed hyper-parameters; nothing in the core changes them. */
  const Beta1: real := 0.9
  const Beta2: real := 0.999
  const AdamEpsilon: real := 1.0e-8

  predicate NonNegative(m: Matrix)
    requires m.Valid()
  {
    forall i, j | 0 <= i < m.rows && 0 <= j < m.cols :: m.At(i, j) >= 0.0
  }

  /** g[i][j], or its square for the second moment. */
  function GradientTerm(g: Matrix, i: nat, j: nat, squared: bool): real {
    if squared then g.Get(i, j) * g.Get(i, j) else g.Get(i, j)
  }

  /** The moment m with its top-left rows×cols block moved towards the gradient:
      beta·m + (1 − beta)·g (or g² when squared); entries outside the block keep their value. */
  function Blended(m: Matrix, g: Matrix, rows: nat, cols: nat, beta: real, squared: bool): (r: Matrix)
    requires m.Valid() && g.Valid() && rows <= m.rows && cols <= m.cols && rows <= g.rows && cols <= g.cols
    ensures r.Valid() && SameShape(r, m)
    ensures forall a, b {:trigger r.At(a, b)} | 0 <= a < m.rows && 0 <= b < m.cols ::
              r.At(a, b) == if a < rows && b < cols then beta * m.At(a, b) + (1.0 - beta) * GradientTerm(g, a, b, squared)
                            else m.At(a, b)
  {
    Tabulate(m.rows, m.cols, (a: nat, b: nat) =>
      if a < rows && b < cols then beta * m.Get(a, b) + (1.0 - beta) * GradientTerm(g, a, b, squared)
      else m.Get(a, b))
  }

  /** A rows×cols matrix of m's entries divided by the bias correction c. */
  function Corrected(m: Matrix, rows: nat, cols: nat, c: real): (r: Matrix)
    requires m.Valid() && rows <= m.rows && cols <= m.cols && c != 0.0
    ensures r.Valid() && r.rows == rows && r.cols == cols
    ensures forall a, b {:trigger r.At(a, b)} | 0 <= a < rows && 0 <= b < cols :: r.At(a, b) == m.At(a, b) / c
  {
    Tabulate(rows, cols, (a: nat, b: nat) => m.Get(a, b) / c)
  }

  /** The Adam parameter step p − lr·m̂ / (√v̂ + ε) entry by entry. */
  function Applied(p: Matrix, mHat: Matrix, vHat: Matrix, lr: real): (r: Matrix)
    requires p.Valid() && mHat.Valid() && vHat.Valid() && SameShape(mHat, p) && SameShape(vHat, p)
    requires NonNegative(vHat)
    ensures r.Valid() && SameShape(r, p)
    ensures forall a, b {:trigger r.At(a, b)} | 0 <= a < p.rows && 0 <= b < p.cols ::
              r.At(a, b) == p.At(a, b) - lr * mHat.At(a, b) / (Sqrt(vHat.At(a, b)) + AdamEpsilon)
  {
    assert forall a, b | 0 <= a < p.rows && 0 <= b < p.cols :: vHat.Get(a, b) == vHat.At(a, b);
    Tabulate(p.rows, p.cols, (a: nat, b: nat) => p.Get(a, b) - lr * mHat.Get(a, b) / (Sqrt(vHat.Get(a, b)) + AdamEpsilon))
  }

  // ---------------------------------------------------------------- Adam state and step

  /** The mutable part of an Adam optimizer: the time step and the two moment maps. */
  datatype AdamState = AdamState(t: nat, m: map<string, Matrix>, v: map<string, Matrix>)
  {
    /** Both maps have the same keys; moments of one key share a shape; second moments are
        never negative (they are running averages of squares). */
    predicate Valid() {
      m.Keys == v.Keys &&
      forall k | k in m :: m[k].Valid() && v[k].Valid() && SameShape(m[k], v[k]) && NonNegative(v[k])
    }
  }

  /** What Update demands of its caller: the gradient, and any stored moment of the key,
      cover the parameter's rows×cols block that the loops index. */
  predicate AdamReady(st: AdamState, key: string, p: Matrix, g: Matrix)
    requires st.Valid()
  {
    p.Valid() && g.Valid() && p.rows <= g.rows && p.cols <= g.cols &&
    (key in st.m ==> p.rows <= st.m[key].rows && p.cols <= st.m[key].cols)
  }

  /** The moments Update starts from: the stored ones, or zero matrices of the parameter's
      shape the first time the key is seen. */
  function StartMoments(st: AdamState, key: string, p: Matrix): (r: (Matrix, Matrix))
    requires st.Valid() && p.Valid()
    ensures r.0.Valid() && r.1.Valid() && SameShape(r.0, r.1) && NonNegative(r.1)
    ensures key !in st.m ==> r.0 == Zeros(p.rows, p.cols) && r.1 == Zeros(p.rows, p.cols)
    ensures key in st.m ==> r == (st.m[key], st.v[key])
  {
    if key in st.m then (st.m[key], st.v[key]) else (Zeros(p.rows, p.cols), Zeros(p.rows, p.cols))
  }

  lemma {:induction false} BlendedSquaresNonNegative(v: Matrix, g: Matrix, rows: nat, cols: nat, beta: real)
    requires v.Valid() && g.Valid() && rows <= v.rows && cols <= v.cols && rows <= g.rows && cols <= g.cols
    requires NonNegative(v) && 0.0 < beta < 1.0
    ensures NonNegative(Blended(v, g, rows, cols, beta, true))
  {
    var r := Blended(v, g, rows, cols, beta, true);
    forall a, b | 0 <= a < r.rows && 0 <= b < r.cols
      ensures r.At(a, b) >= 0.0
    {
      if a < rows && b < cols {
        var x := g.At(a, b);
        assert x * x >= 0.0;
        ProductNonNegative(beta, v.At(a, b));
        ProductNonNegative(1.0 - beta, x * x);
      }
    }
  }

  lemma ProductNonNegative(a: real, b: real)
    requires a >= 0.0 && b >= 0.0
    ensures a * b >= 0.0
  {
  }

  lemma CorrectedNonNegative(m: Matrix, rows: nat, cols: nat, c: real)
    requires m.Valid() && rows <= m.rows && cols <= m.cols && c > 0.0 && NonNegative(m)
    ensures NonNegative(Corrected(m, rows, cols, c))
  {
    var r := Corrected(m, rows, cols, c);
    forall a, b | 0 <= a < rows && 0 <= b < cols
      ensures r.At(a, b) >= 0.0
    {
      assert r.At(a, b) == m.At(a, b) / c;
    }
  }

  /** 1 − βᵗ for the step count t ≥ 1: strictly between 0 and 1, so a valid divisor. */
  function Correction(beta: real, t: nat): (c: real)
    requires 0.0 < beta < 1.0 && t >= 1
    ensures 0.0 < c < 1.0
  {
    PowInUnitInterval(beta, t);
    1.0 - Pow(beta, t)
  }

  /** The two moments after blending in the gradient. */
  function Moments(m0: Matrix, v0: Matrix, p: Matrix, g: Matrix): (r: (Matrix, Matrix))
    requires m0.Valid() && v0.Valid() && SameShape(m0, v0) && NonNegative(v0)
    requires p.Valid() && g.Valid() && p.rows <= g.rows && p.cols <= g.cols
    requires p.rows <= m0.rows && p.cols <= m0.cols
    ensures r.0.Valid() && r.1.Valid() && SameShape(r.0, m0) && SameShape(r.1, v0) && NonNegative(r.1)
  {
    BlendedSquaresNonNegative(v0, g, p.rows, p.cols, Beta2);
    (Blended(m0, g, p.rows, p.cols, Beta1, false), Blended(v0, g, p.rows, p.cols, Beta2, true))
  }

  /** The bias-corrected moments m̂ and v̂ at time step t ≥ 1, of the parameter's shape. */
  function CorrectedMoments(t: nat, m1: Matrix, v1: Matrix, p: Matrix): (r: (Matrix, Matrix))
    requires t >= 1 && m1.Valid() && v1.Valid() && SameShape(m1, v1) && NonNegative(v1)
    requires p.Valid() && p.rows <= m1.rows && p.cols <= m1.cols
    ensures r.0.Valid() && r.1.Valid() && SameShape(r.0, p) && SameShape(r.1, p) && NonNegative(r.1)
  {
    CorrectedNonNegative(v1, p.rows, p.cols, Correction(Beta2, t));
    (Corrected(m1, p.rows, p.cols, Correction(Beta1, t)), Corrected(v1, p.rows, p.cols, Correction(Beta2, t)))
  }

  /** The arithmetic of one Adam step for moments m0, v0 at time step t ≥ 1: the blended
      moments and the updated parameter. */
  function AdamKernel(lr: real, t: nat, m0: Matrix, v0: Matrix, p: Matrix, g: Matrix): (r: (Matrix, Matrix, Matrix))
    requires t >= 1 && m0.Valid() && v0.Valid() && SameShape(m0, v0) && NonNegative(v0)
    requires p.Valid() && g.Valid() && p.rows <= g.rows && p.cols <= g.cols
    requires p.rows <= m0.rows && p.cols <= m0.cols
    ensures SameShape(r.0, m0) && SameShape(r.1, v0) && r.0.Valid() && r.1.Valid() && NonNegative(r.1)
    ensures r.2.Valid() && SameShape(r.2, p)
  {
    var (m1, v1) := Moments(m0, v0, p, g);
    var (mHat, vHat) := CorrectedMoments(t, m1, v1, p);
    (m1, v1, Applied(p, mHat, vHat, lr))
  }

  /** One call of Adam's Update on the value state: the time step advances, the key's moments
      are (lazily created and) blended with the gradient, and the parameter moves by the
      bias-corrected ratio. Only the updated key's moments change. */
  function AdamStep(lr: real, st: AdamState, key: string, p: Matrix, g: Matrix): (r: (AdamState, Matrix))
    requires st.Valid() && AdamReady(st, key, p, g)
    ensures r.0.Valid() && r.0.t == st.t + 1
    ensures r.0.m.Keys == st.m.Keys + {key}
    ensures forall k | k in st.m && k != key :: r.0.m[k] == st.m[k] && r.0.v[k] == st.v[k]
    ensures SameShape(r.0.m[key], StartMoments(st, key, p).0)
    ensures r.1.Valid() && SameShape(r.1, p)
  {
    var (m0, v0) := StartMoments(st, key, p);
    var (m1, v1, updated) := AdamKernel(lr, st.t + 1, m0, v0, p, g);
    (AdamState(st.t + 1, st.m[key := m1], st.v[key := v1]), updated)
  }

  lemma AdamStepUnfolds(lr: real, st: AdamState, key: string, p: Matrix, g: Matrix,
                        m0: Matrix, v0: Matrix, m1: Matrix, v1: Matrix, updated: Matrix)
    requires st.Valid() && AdamReady(st, key, p, g)
    requires (m0, v0) == StartMoments(st, key, p)
    requires (m1, v1, updated) == AdamKernel(lr, st.t + 1, m0, v0, p, g)
    ensures AdamStep(lr, st, key, p, g) == (AdamState(st.t + 1, st.m[key := m1], st.v[key := v1]), updated)
  {
  }

  // ---------------------------------------------------------------- Adam loops

  /** The in-place moment loop: rewrites m's rows×cols block with Blended. */
  method BlendMoment(m: Matrix, g: Matrix, rows: nat, cols: nat, beta: real, squared: bool) returns (r: Matrix)
    requires m.Valid() && g.Valid() && rows <= m.rows && cols <= m.cols && rows <= g.rows && cols <= g.cols
    ensures r == Blended(m, g, rows, cols, beta, squared)
  {
    ghost var want := Blended(m, g, rows, cols, beta, squared);
    r := m;
    var i := 0;
    while i < rows
      invariant 0 <= i <= rows
      invariant r.Valid() && SameShape(r, m)
      invariant forall a, b | 0 <= a < m.rows && 0 <= b < m.cols ::
                  r.At(a, b) == if a < i && b < cols then want.At(a, b) else m.At(a, b)
    {
      var j := 0;
      while j < cols
        invariant 0 <= j <= cols
        invariant r.Valid() && SameShape(r, m)
        invariant forall a, b | 0 <= a < m.rows && 0 <= b < m.cols ::
                    r.At(a, b) == if (a < i && b < cols) || (a == i && b < j) then want.At(a, b) else m.At(a, b)
      {
        var x := g.data[i][j];
        var term := if squared then x * x else x;
        r := r.Set(i, j, beta * r.data[i][j] + (1.0 - beta) * term);
        j := j + 1;
      }
      i := i + 1;
    }
    Extensionality(r, want);
  }

  /** The bias-correction loop: a fresh rows×cols matrix of m's entries divided by c. */
  method BiasCorrect(m: Matrix, rows: nat, cols: nat, c: real) returns (r: Matrix)
    requires m.Valid() && rows <= m.rows && cols <= m.cols && c != 0.0
    ensures r == Corrected(m, rows, cols, c)
  {
    ghost var want := Corrected(m, rows, cols, c);
    r := NewMatrix(rows, cols);
    var i := 0;
    while i < rows
      invariant 0 <= i <= rows
      invariant r.Valid() && SameShape(r, want)
      invariant forall a, b | 0 <= a < i && 0 <= b < cols :: r.At(a, b) == want.At(a, b)
    {
      var j := 0;
      while j < cols
        invariant 0 <= j <= cols
        invariant r.Valid() && SameShape(r, want)
        invariant forall a, b | 0 <= a < i && 0 <= b < cols :: r.At(a, b) == want.At(a, b)
        invariant forall b | 0 <= b < j :: r.At(i, b) == want.At(i, b)
      {
        r := r.Set(i, j, m.data[i][j] / c);
        j := j + 1;
      }
      i := i + 1;
    }
    Extensionality(r, want);
  }

  /** The parameter loop: a fresh matrix p − lr·m̂ / (√v̂ + ε). */
  method ApplyStep(p: Matrix, mHat: Matrix, vHat: Matrix, lr: real) returns (r: Matrix)
    requires p.Valid() && mHat.Valid() && vHat.Valid() && SameShape(mHat, p) && SameShape(vHat, p)
    requires NonNegative(vHat)
    ensures r == Applied(p, mHat, vHat, lr)
  {
    ghost var want := Applied(p, mHat, vHat, lr);
    r := NewMatrix(p.rows, p.cols);
    var i := 0;
    while i < p.rows
      invariant 0 <= i <= p.rows
      invariant r.Valid() && SameShape(r, p)
      invariant forall a, b | 0 <= a < i && 0 <= b < p.cols :: r.At(a, b) == want.At(a, b)
    {
      var j := 0;
      while j < p.cols
        invariant 0 <= j <= p.cols
        invariant r.Valid() && SameShape(r, p)
        invariant forall a, b | 0 <= a < i && 0 <= b < p.cols :: r.At(a, b) == want.At(a, b)
        invariant forall b | 0 <= b < j :: r.At(i, b) == want.At(i, b)
      {
        assert vHat.At(i, j) >= 0.0;
        r := r.Set(i, j, p.data[i][j] - lr * mHat.data[i][j] / (Sqrt(vHat.data[i][j]) + AdamEpsilon));
        j := j + 1;
      }
      i := i + 1;
    }
    Extensionality(r, want);
  }

  /** The five loops of Adam's Update: both moment loops, both bias corrections and the
      parameter loop. */
  method AdamLoops(lr: real, t: nat, m0: Matrix, v0: Matrix, p: Matrix, g: Matrix)
    returns (m1: Matrix, v1: Matrix, updated: Matrix)
    requires t >= 1 && m0.Valid() && v0.Valid() && SameShape(m0, v0) && NonNegative(v0)
    requires p.Valid() && g.Valid() && p.rows <= g.rows && p.cols <= g.cols
    requires p.rows <= m0.rows && p.cols <= m0.cols
    ensures (m1, v1, updated) == AdamKernel(lr, t, m0, v0, p, g)
  {
    m1 := BlendMoment(m0, g, p.rows, p.cols, Beta1, false);
    v1 := BlendMoment(v0, g, p.rows, p.cols, Beta2, true);
    assert (m1, v1) == Moments(m0, v0, p, g);
    var mHat := BiasCorrect(m1, p.rows, p.cols, Correction(Beta1, t));
    var vHat := BiasCorrect(v1, p.rows, p.cols, Correction(Beta2, t));
    assert (mHat, vHat) == CorrectedMoments(t, m1, v1, p);
    updated := ApplyStep(p, mHat, vHat, lr);
  }

  // ---------------------------------------------------------------- Adam optimizer

  /** The body of AdamOptimizer.Update on st: the key's stored moments (zero matrices of the
      parameter's shape when the key is new) through the loops at time step t + 1. */
  method AdamMoments(lr: real, st: AdamState, key: string, p: Matrix, g: Matrix)
    returns (mk: Matrix, vk: Matrix, updated: Matrix)
    requires st.Valid() && AdamReady(st, key, p, g)
    ensures AdamStep(lr, st, key, p, g) == (AdamState(st.t + 1, st.m[key := mk], st.v[key := vk]), updated)
  {
    var m0, v0;
    if key in st.m {
      m0, v0 := st.m[key], st.v[key];
    } else {
      m0 := NewMatrix(p.rows, p.cols);
      v0 := NewMatrix(p.rows, p.cols);
    }
    assert (m0, v0) == StartMoments(st, key, p);
    mk, vk, updated := AdamLoops(lr, st.t + 1, m0, v0, p, g);
    AdamStepUnfolds(lr, st, key, p, g, m0, v0, mk, vk, updated);
  }

  /** Adam: the learning rate is fixed at construction, the time step and the moment maps
      change with every Update. */
  class AdamOptimizer {
    const learningRate: real
    var t: nat
    var m: map<string, Matrix>
    var v: map<string, Matrix>

    function State(): AdamState
      reads this
    {
      AdamState(t, m, v)
    }

    predicate Valid()
      reads this
    {
      State().Valid()
    }

    /** A fresh optimizer: time step 0 and no moments. */
    constructor (learningRate: real)
      ensures this.learningRate == learningRate
      ensures State() == AdamState(0, map[], map[]) && Valid()
    {
      this.learningRate := learningRate;
      t := 0;
      m := map[];
      v := map[];
    }

    /** One optimisation step for the parameter named key: returns the updated parameter and
        leaves the optimizer in AdamStep's new state. */
    method Update(key: string, p: Matrix, g: Matrix) returns (updated: Matrix)
      requires Valid() && AdamReady(State(), key, p, g)
      modifies this
      ensures Valid()
      ensures (State(), updated) == AdamStep(learningRate, old(State()), key, p, g)
    {
      var mk, vk;
      mk, vk, updated := AdamMoments(learningRate, State(), key, p, g);
      t, m, v := t + 1, m[key := mk], v[key := vk];
    }
  }

  // ---------------------------------------------------------------- SGD

  /** The velocity's rows×cols block after one step: momentum·velocity − lr·g. */
  function Accelerated(vel: Matrix, g: Matrix, rows: nat, cols: nat, lr: real, momentum: real): (r: Matrix)
    requires vel.Valid() && g.Valid() && rows <= vel.rows && cols <= vel.cols && rows <= g.rows && cols <= g.cols
    ensures r.Valid() && SameShape(r, vel)
    ensures forall a, b {:trigger r.At(a, b)} | 0 <= a < vel.rows && 0 <= b < vel.cols ::
              r.At(a, b) == if a < rows && b < cols then momentum * vel.At(a, b) - lr * g.At(a, b) else vel.At(a, b)
  {
    Tabulate(vel.rows, vel.cols, (a: nat, b: nat) =>
      if a < rows && b < cols then momentum * vel.Get(a, b) - lr * g.Get(a, b) else vel.Get(a, b))
  }

  /** The parameter plus the new velocity, entry by entry. */
  function Moved(p: Matrix, vel: Matrix): (r: Matrix)
    requires p.Valid() && vel.Valid() && p.rows <= vel.rows && p.cols <= vel.cols
    ensures r.Valid() && SameShape(r, p)
    ensures forall a, b {:trigger r.At(a, b)} | 0 <= a < p.rows && 0 <= b < p.cols :: r.At(a, b) == p.At(a, b) + vel.At(a, b)
  {
    Tabulate(p.rows, p.cols, (a: nat, b: nat) => p.Get(a, b) + vel.Get(a, b))
  }

  /** SGD's loop: updates the velocity's block in place and writes the moved parameter. */
  method MomentumLoop(v0: Matrix, p: Matrix, g: Matrix, lr: real, momentum: real) returns (vel: Matrix, updated: Matrix)
    requires v0.Valid() && p.Valid() && g.Valid() && p.rows <= g.rows && p.cols <= g.cols
    requires p.rows <= v0.rows && p.cols <= v0.cols
    ensures vel == Accelerated(v0, g, p.rows, p.cols, lr, momentum)
    ensures updated == Moved(p, vel)
  {
    vel := v0;
    ghost var wantV := Accelerated(v0, g, p.rows, p.cols, lr, momentum);
    ghost var wantP := Moved(p, wantV);
    updated := NewMatrix(p.rows, p.cols);
    var i := 0;
    while i < p.rows
      invariant 0 <= i <= p.rows
      invariant vel.Valid() && SameShape(vel, v0) && updated.Valid() && SameShape(updated, p)
      invariant forall a, b | 0 <= a < v0.rows && 0 <= b < v0.cols ::
                  vel.At(a, b) == if a < i && b < p.cols then wantV.At(a, b) else v0.At(a, b)
      invariant forall a, b | 0 <= a < i && 0 <= b < p.cols :: updated.At(a, b) == wantP.At(a, b)
    {
      var j := 0;
      while j < p.cols
        invariant 0 <= j <= p.cols
        invariant vel.Valid() && SameShape(vel, v0) && updated.Valid() && SameShape(updated, p)
        invariant forall a, b | 0 <= a < v0.rows && 0 <= b < v0.cols ::
                    vel.At(a, b) == if (a < i && b < p.cols) || (a == i && b < j) then wantV.At(a, b) else v0.At(a, b)
        invariant forall a, b | 0 <= a < i && 0 <= b < p.cols :: updated.At(a, b) == wantP.At(a, b)
        invariant forall b | 0 <= b < j :: updated.At(i, b) == wantP.At(i, b)
      {
        vel := vel.Set(i, j, momentum * vel.data[i][j] - lr * g.data[i][j]);
        updated := updated.Set(i, j, p.data[i][j] + vel.data[i][j]);
        j := j + 1;
      }
      i := i + 1;
    }
    Extensionality(vel, wantV);
    Extensionality(updated, wantP);
  }

  predicate VelocitiesValid(velocity: map<string, Matrix>) {
    forall k | k in velocity :: velocity[k].Valid()
  }

  /** What SGD's Update demands: the gradient, and any stored velocity of the key, cover the
      parameter's rows×cols block. */
  predicate SGDReady(velocity: map<string, Matrix>, key: string, p: Matrix, g: Matrix)
    requires VelocitiesValid(velocity)
  {
    p.Valid() && g.Valid() && p.rows <= g.rows && p.cols <= g.cols &&
    (key in velocity ==> p.rows <= velocity[key].rows && p.cols <= velocity[key].cols)
  }

  /** One call of SGD's Update on the velocity map: the key's velocity (zero the first time)
      takes the momentum step and the parameter moves by the new velocity. */
  function SGDStep(lr: real, momentum: real, velocity: map<string, Matrix>, key: string, p: Matrix, g: Matrix)
    : (r: (map<string, Matrix>, Matrix))
    requires VelocitiesValid(velocity) && SGDReady(velocity, key, p, g)
    ensures VelocitiesValid(r.0) && r.0.Keys == velocity.Keys + {key}
    ensures forall k | k in velocity && k != key :: r.0[k] == velocity[k]
    ensures key in velocity ==> SameShape(r.0[key], velocity[key])
    ensures key !in velocity ==> SameShape(r.0[key], p)
    ensures r.1.Valid() && SameShape(r.1, p)
  {
    var v0 := if key in velocity then velocity[key] else Zeros(p.rows, p.cols);
    var v1 := Accelerated(v0, g, p.rows, p.cols, lr, momentum);
    (velocity[key := v1], Moved(p, v1))
  }

  /** SGD with momentum: learning rate and momentum fixed at construction, velocities
      updated by every call. */
  class SGD {
    const learningRate: real
    const momentum: real
    var velocity: map<string, Matrix>

    predicate Valid()
      reads this
    {
      VelocitiesValid(velocity)
    }

    constructor (learningRate: real, momentum: real)
      ensures this.learningRate == learningRate && this.momentum == momentum
      ensures velocity == map[] && Valid()
    {
      this.learningRate := learningRate;
      this.momentum := momentum;
      velocity := map[];
    }

    /** One optimisation step for the parameter named key; the single loop updates the
        velocity in place and writes the moved parameter. */
    method Update(key: string, p: Matrix, g: Matrix) returns (updated: Matrix)
      requires Valid() && SGDReady(velocity, key, p, g)
      modifies this
      ensures Valid()
      ensures (velocity, updated) == SGDStep(learningRate, momentum, old(velocity), key, p, g)
    {
      ghost var old0 := velocity;
      var v0;
      if key in velocity {
        v0 := velocity[key];
      } else {
        v0 := NewMatrix(p.rows, p.cols);
      }
      var vel;
      vel, updated := MomentumLoop(v0, p, g, learningRate, momentum);
      velocity := velocity[key := vel];
      assert (velocity, updated) == SGDStep(learningRate, momentum, old0, key, p, g);
    }
  }
}

module OptimizerProperties {
  import opened Elementary
  import opened Matrices
  import opened Optimizers

  lemma QuotientSign(x: real, d: real)
    requires d > 0.0
    ensures x / d > 0.0 <==> x > 0.0
    ensures x / d == 0.0 <==> x == 0.0
  {
    if x > 0.0 {
      assert x / d > 0.0;
    } else if x < 0.0 {
      assert x / d < 0.0;
    }
  }

  lemma ProductSign(lr: real, x: real)
    requires lr > 0.0
    ensures lr * x > 0.0 <==> x > 0.0
    ensures lr * x == 0.0 <==> x == 0.0
  {
    if x > 0.0 {
      assert lr * x > 0.0;
    } else if x < 0.0 {
      assert lr * x < 0.0;
    }
  }

  /** From a zero moment at time step 1, bias correction recovers the gradient (or its
      square) exactly. */
  lemma FirstMomentCorrected(g: Matrix, rows: nat, cols: nat, beta: real, squared: bool, i: nat, j: nat)
    requires g.Valid() && rows <= g.rows && cols <= g.cols && 0.0 < beta < 1.0 && i < rows && j < cols
    ensures Corrected(Blended(Zeros(rows, cols), g, rows, cols, beta, squared), rows, cols, Correction(beta, 1)).At(i, j)
            == GradientTerm(g, i, j, squared)
  {
    var m1 := Blended(Zeros(rows, cols), g, rows, cols, beta, squared);
    assert Pow(beta, 1) == beta;
    assert Correction(beta, 1) == 1.0 - beta;
    assert m1.At(i, j) == beta * 0.0 + (1.0 - beta) * GradientTerm(g, i, j, squared);
  }

  /** One entry of the first Adam update, computed from zero moments at time step 1. */
  lemma FirstKernelEntry(lr: real, p: Matrix, g: Matrix, i: nat, j: nat)
    requires p.Valid() && g.Valid() && p.rows <= g.rows && p.cols <= g.cols
    requires i < p.rows && j < p.cols
    ensures AdamKernel(lr, 1, Zeros(p.rows, p.cols), Zeros(p.rows, p.cols), p, g).2.At(i, j)
            == p.At(i, j) - lr * g.At(i, j) / (Sqrt(g.At(i, j) * g.At(i, j)) + AdamEpsilon)
  {
    var z := Zeros(p.rows, p.cols);
    var (m1, v1) := Moments(z, z, p, g);
    var (mHat, vHat) := CorrectedMoments(1, m1, v1, p);
    FirstMomentCorrected(g, p.rows, p.cols, Beta1, false, i, j);
    FirstMomentCorrected(g, p.rows, p.cols, Beta2, true, i, j);
    AppliedEntry(p, mHat, vHat, lr, i, j, g.At(i, j), g.At(i, j) * g.At(i, j));
  }

  lemma AppliedEntry(p: Matrix, mHat: Matrix, vHat: Matrix, lr: real, i: nat, j: nat, x: real, y: real)
    requires p.Valid() && mHat.Valid() && vHat.Valid() && SameShape(mHat, p) && SameShape(vHat, p)
    requires NonNegative(vHat) && i < p.rows && j < p.cols
    requires mHat.At(i, j) == x && vHat.At(i, j) == y
    ensures Applied(p, mHat, vHat, lr).At(i, j) == p.At(i, j) - lr * x / (Sqrt(y) + AdamEpsilon)
  {
  }

  /** On the first update of a key with a fresh time step the bias corrections cancel the
      decay exactly: m̂ = g and v̂ = g², so each entry moves by lr·g / (√(g²) + ε). */
  lemma AdamFirstStepEntries(lr: real, st: AdamState, key: string, p: Matrix, g: Matrix)
    requires st.Valid() && AdamReady(st, key, p, g) && st.t == 0 && key !in st.m
    ensures forall i, j | 0 <= i < p.rows && 0 <= j < p.cols ::
              AdamStep(lr, st, key, p, g).1.At(i, j)
                == p.At(i, j) - lr * g.At(i, j) / (Sqrt(g.At(i, j) * g.At(i, j)) + AdamEpsilon)
  {
    var z := Zeros(p.rows, p.cols);
    assert AdamStep(lr, st, key, p, g).1 == AdamKernel(lr, 1, z, z, p, g).2;
    forall i, j | 0 <= i < p.rows && 0 <= j < p.cols
      ensures AdamStep(lr, st, key, p, g).1.At(i, j)
                == p.At(i, j) - lr * g.At(i, j) / (Sqrt(g.At(i, j) * g.At(i, j)) + AdamEpsilon)
    {
      FirstKernelEntry(lr, p, g, i, j);
    }
  }

  /** With a positive learning rate the first Adam update of a key moves every entry against
      its gradient: down where the gradient is positive, nowhere where it is zero. */
  lemma AdamFirstStepDescends(lr: real, st: AdamState, key: string, p: Matrix, g: Matrix, i: nat, j: nat)
    requires st.Valid() && AdamReady(st, key, p, g) && st.t == 0 && key !in st.m
    requires lr > 0.0 && i < p.rows && j < p.cols
    ensures AdamStep(lr, st, key, p, g).1.At(i, j) < p.At(i, j) <==> g.At(i, j) > 0.0
    ensures AdamStep(lr, st, key, p, g).1.At(i, j) == p.At(i, j) <==> g.At(i, j) == 0.0
  {
    AdamFirstStepEntries(lr, st, key, p, g);
    var x := g.At(i, j);
    var d := Sqrt(x * x) + AdamEpsilon;
    assert x * x >= 0.0;
    assert d > 0.0;
    ProductSign(lr, x);
    QuotientSign(lr * x, d);
  }

  /** A zero gradient on the first update leaves the parameter as it was. */
  lemma AdamFirstStepZeroGradient(lr: real, st: AdamState, key: string, p: Matrix, g: Matrix)
    requires st.Valid() && AdamReady(st, key, p, g) && st.t == 0 && key !in st.m
    requires forall i, j | 0 <= i < g.rows && 0 <= j < g.cols :: g.At(i, j) == 0.0
    ensures AdamStep(lr, st, key, p, g).1 == p
  {
    AdamFirstStepEntries(lr, st, key, p, g);
    var u := AdamStep(lr, st, key, p, g).1;
    forall i, j | 0 <= i < p.rows && 0 <= j < p.cols
      ensures u.At(i, j) == p.At(i, j)
    {
      assert g.At(i, j) == 0.0;
      assert Sqrt(0.0) >= 0.0;
    }
    Extensionality(u, p);
  }

  /** The first SGD update of a key is plain gradient descent: p − lr·g. */
  lemma SGDFirstStep(lr: real, momentum: real, velocity: map<string, Matrix>, key: string, p: Matrix, g: Matrix)
    requires VelocitiesValid(velocity) && SGDReady(velocity, key, p, g) && key !in velocity
    requires SameShape(p, g)
    ensures SGDStep(lr, momentum, velocity, key, p, g).1 == Sum(p, Scaled(g, -lr))
    ensures SGDStep(lr, momentum, velocity, key, p, g).0[key] == Scaled(g, -lr)
  {
    var (vs, u) := SGDStep(lr, momentum, velocity, key, p, g);
    forall i, j | 0 <= i < p.rows && 0 <= j < p.cols
      ensures u.At(i, j) == Sum(p, Scaled(g, -lr)).At(i, j)
      ensures vs[key].At(i, j) == Scaled(g, -lr).At(i, j)
    {
    }
    Extensionality(u, Sum(p, Scaled(g, -lr)));
    Extensionality(vs[key], Scaled(g, -lr));
  }

  /** Without momentum every SGD update is plain gradient descent, whatever velocity is
      stored. */
  lemma SGDWithoutMomentum(lr: real, velocity: map<string, Matrix>, key: string, p: Matrix, g: Matrix)
    requires VelocitiesValid(velocity) && SGDReady(velocity, key, p, g) && SameShape(p, g)
    ensures SGDStep(lr, 0.0, velocity, key, p, g).1 == Sum(p, Scaled(g, -lr))
  {
    var u := SGDStep(lr, 0.0, velocity, key, p, g).1;
    forall i, j | 0 <= i < p.rows && 0 <= j < p.cols
      ensures u.At(i, j) == Sum(p, Scaled(g, -lr)).At(i, j)
    {
    }
    Extensionality(u, Sum(p, Scaled(g, -lr)));
  }

  /** A parameter 1.0 with gradient 0.5 and learning rate 0.1 becomes 0.95 on its first
      update. */
  lemma SGDExample(momentum: real)
    ensures SGDStep(0.1, momentum, map[], "w", Matrix(1, 1, [[1.0]]), Matrix(1, 1, [[0.5]])).1
            == Matrix(1, 1, [[0.95]])
  {
    var u := SGDStep(0.1, momentum, map[], "w", Matrix(1, 1, [[1.0]]), Matrix(1, 1, [[0.5]])).1;
    assert u.At(0, 0) == 0.95;
    Extensionality(u, Matrix(1, 1, [[0.95]]));
  }

  /** Two SGD updates of one key with the same gradient from a fresh velocity: the second
      step is (1 + momentum) times the first, the momentum effect. */
  lemma SGDSecondStepAccelerates(lr: real, momentum: real, key: string, p: Matrix, g: Matrix)
    requires p.Valid() && g.Valid() && SameShape(p, g)
    ensures var (v1, p1) := SGDStep(lr, momentum, map[], key, p, g);
            SGDReady(v1, key, p1, g) &&
            forall i, j | 0 <= i < p.rows && 0 <= j < p.cols ::
              SGDStep(lr, momentum, v1, key, p1, g).1.At(i, j)
                == p.At(i, j) - lr * g.At(i, j) - (1.0 + momentum) * lr * g.At(i, j)
  {
  }
}
