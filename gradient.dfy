/** The Gradient engine of the hCRF trainer: a thread budget that only grows,
    a pointwise decoder over precomputed beliefs, and the aggregation of
    per-sequence gradients and losses over a dataset with L2 regularisation.
    Doubles are modelled as reals. */
module HcrfGradient {
  import opened Numerics

  /** What the engine reads of the model: its weight vector, the L2 strength,
      and the objective and sequence-weighting flags. */
  datatype Model = Model(weights: seq<real>, regL2Sigma: real, maxMargin: bool, weightSequence: bool)

  /** One observation sequence: what the per-sequence primitive reads (left
      abstract as O) and its importance weight (1.0 by default). */
  datatype DataSequence<O> = DataSequence(observation: O, weightSequence: real)

  /** What one call of the per-sequence primitive produces: the gradient it
      adds into the vector it is given, and the loss it returns. */
  datatype Contribution = Contribution(gradient: seq<real>, loss: real)

  /** The per-sequence primitive computeGradient(dVector&, Model*, DataSequence*)
      that each model family supplies. */
  type Primitive<!O> = (Model, DataSequence<O>) -> Contribution

  /** Per-node belief vectors, one per node of the sequence. */
  datatype Beliefs = Beliefs(belStates: seq<seq<real>>)

  // ---------------------------------------------------------------------
  // Thread budget

  /** One setMaxNumberThreads request applied to the current budget. */
  function RatchetStep(current: int, request: int): (r: int)
    ensures r >= current && r >= request
    ensures r == current || r == request
    ensures request <= current ==> r == current
  {
    if current < request then request else current
  }

  /** The budget after a series of requests, starting from init. */
  function Ratchet(init: int, requests: seq<int>): int
    decreases |requests|
  {
    if |requests| == 0 then init
    else RatchetStep(Ratchet(init, requests[..|requests| - 1]), requests[|requests| - 1])
  }

  // ---------------------------------------------------------------------
  // Decoder

  /** Number of states: the length of the first belief vector, 0 without nodes. */
  function NbStates(bel: Beliefs): nat
  {
    if |bel.belStates| > 0 then |bel.belStates[0]| else 0
  }

  /** The decoder reads entries 0 .. NbStates(bel)-1 of every node's vector,
      and entry 0 of each even when that count is 0, so every vector must be
      non-empty and at least as long as the first. */
  predicate DecodableBeliefs(bel: Beliefs)
  {
    forall xi :: 0 <= xi < |bel.belStates| ==> 0 < NbStates(bel) <= |bel.belStates[xi]|
  }

  // ---------------------------------------------------------------------
  // Gradient aggregation

  /** The factor a sequence's contribution is scaled by: its own weight when
      the model uses sequence weights and that weight is not 1.0, else 1. */
  function EffectiveWeight<O>(m: Model, x: DataSequence<O>): (w: real)
    ensures w == if m.weightSequence then x.weightSequence else 1.0
  {
    if m.weightSequence && x.weightSequence != 1.0 then x.weightSequence else 1.0
  }

  /** Entry f of v; entries past the end read as 0. */
  function Entry(v: seq<real>, f: nat): real
  {
    if f < |v| then v[f] else 0.0
  }

  /** Entry f of a sequence's weighted gradient. */
  function GradTerm<O>(m: Model, prim: Primitive<O>, f: nat): DataSequence<O> -> real
  {
    x => Entry(prim(m, x).gradient, f) * EffectiveWeight(m, x)
  }

  lemma GradTermAt<O>(m: Model, prim: Primitive<O>, f: nat, x: DataSequence<O>)
    ensures GradTerm(m, prim, f)(x) == Entry(prim(m, x).gradient, f) * EffectiveWeight(m, x)
  {
  }

  /** A sequence's weighted loss. */
  function LossTerm<O>(m: Model, prim: Primitive<O>): DataSequence<O> -> real
  {
    x => prim(m, x).loss * EffectiveWeight(m, x)
  }

  /** sigma under max-margin, 1/sigma^2 under maximum likelihood. */
  function RegScale(m: Model): real
    requires m.regL2Sigma != 0.0
  {
    if m.maxMargin then m.regL2Sigma else 1.0 / (m.regL2Sigma * m.regL2Sigma)
  }

  /** What an aggregation call needs of its inputs: the weights cover every
      feature when they are read (sigma != 0), and a max-margin average is
      over a non-empty dataset. */
  predicate Admissible<O>(m: Model, X: seq<DataSequence<O>>, nbFeatures: nat)
  {
    (m.regL2Sigma != 0.0 ==> nbFeatures <= |m.weights|) && (m.maxMargin ==> |X| > 0)
  }

  /** The weighted sum of the per-sequence gradients, one entry per feature. */
  function WeightedGradientSum<O>(m: Model, X: seq<DataSequence<O>>, prim: Primitive<O>, nbFeatures: nat): seq<real>
  {
    seq(nbFeatures, f requires 0 <= f < nbFeatures => SumOver(X, GradTerm(m, prim, f)))
  }

  /** The returned gradient vector: the negated weighted sum, plus scale
      times the weights when regularisation is on. */
  function ExpectedGradient<O>(m: Model, X: seq<DataSequence<O>>, prim: Primitive<O>, nbFeatures: nat): seq<real>
    requires Admissible(m, X, nbFeatures)
  {
    var unregularized := Negated(WeightedGradientSum(m, X, prim, nbFeatures));
    if m.regL2Sigma != 0.0 then AddScaled(unregularized, m.weights, RegScale(m)) else unregularized
  }

  /** The loss before regularisation: the weighted sum, averaged over the
      dataset under max-margin. */
  function UnregularizedLoss<O>(m: Model, X: seq<DataSequence<O>>, prim: Primitive<O>): real
    requires m.maxMargin ==> |X| > 0
  {
    var total := SumOver(X, LossTerm(m, prim));
    if m.maxMargin then (1.0 / (|X| as real)) * total else total
  }

  /** The returned loss. */
  function ExpectedLoss<O>(m: Model, X: seq<DataSequence<O>>, prim: Primitive<O>): real
    requires m.maxMargin ==> |X| > 0
  {
    UnregularizedLoss(m, X, prim)
      + (if m.regL2Sigma != 0.0 then 0.5 * RegScale(m) * SqNorm(m.weights) else 0.0)
  }

  /** One more sequence adds its gradient, scaled by its effective weight, to
      the weighted sum. */
  lemma WeightedGradientSumStep<O>(m: Model, X: seq<DataSequence<O>>, prim: Primitive<O>, nbFeatures: nat, i: nat)
    requires i < |X| && |prim(m, X[i]).gradient| == nbFeatures
    ensures WeightedGradientSum(m, X[..i + 1], prim, nbFeatures) ==
      AddScaled(WeightedGradientSum(m, X[..i], prim, nbFeatures), prim(m, X[i]).gradient, EffectiveWeight(m, X[i]))
  {
    var next := WeightedGradientSum(m, X[..i + 1], prim, nbFeatures);
    var step := AddScaled(WeightedGradientSum(m, X[..i], prim, nbFeatures), prim(m, X[i]).gradient, EffectiveWeight(m, X[i]));
    assert |next| == |step| == nbFeatures;
    forall f | 0 <= f < nbFeatures
      ensures next[f] == step[f]
    {
      SumOverStep(X, i, GradTerm(m, prim, f));
      GradTermAt(m, prim, f, X[i]);
    }
  }

  /** Adding a vector into a zeroed buffer gives that vector. */
  lemma AddedToZeros(v: seq<real>)
    ensures AddScaled(Zeros(|v|), v, 1.0) == v
  {
    assert forall f :: 0 <= f < |v| ==> AddScaled(Zeros(|v|), v, 1.0)[f] == v[f];
  }

  /** The loss the engine assembles: the worker's weighted sum, averaged
      under max-margin, then regularised, is the expected loss. */
  lemma AssembledLoss<O>(m: Model, X: seq<DataSequence<O>>, prim: Primitive<O>,
                         total: real, averaged: real, scale: real, result: real)
    requires m.maxMargin ==> |X| > 0
    requires total == SumOver(X, LossTerm(m, prim))
    requires averaged == if m.maxMargin then (1.0 / (|X| as real)) * total else total
    requires m.regL2Sigma != 0.0 ==> scale == RegScale(m)
    requires result == if m.regL2Sigma != 0.0 then averaged + 0.5 * scale * SqNorm(m.weights) else averaged
    ensures result == ExpectedLoss(m, X, prim)
  {
  }

  // ---------------------------------------------------------------------
  // State

  /** A dVector: a numeric buffer that create() replaces by a new one. */
  class DVector {
    var data: array<real>

    constructor (n: nat)
      ensures fresh(data) && data.Length == n
      ensures forall f :: 0 <= f < n ==> data[f] == 0.0
    {
      data := new real[n](_ => 0.0);
    }
  }

  class Gradient {
    var nbThreadsMP: int
    /** Every setMaxNumberThreads request this budget has seen. */
    ghost var requests: seq<int>

    /** The budget is the initial 1 ratcheted by every request. */
    ghost predicate Valid()
      reads this
    {
      nbThreadsMP == Ratchet(1, requests)
    }

    constructor ()
      ensures Valid() && nbThreadsMP == 1 && requests == []
    {
      nbThreadsMP := 1;
      requests := [];
    }

    /** The copy constructor. */
    constructor Copy(other: Gradient)
      requires other.Valid()
      ensures Valid() && nbThreadsMP == other.nbThreadsMP && requests == other.requests
    {
      nbThreadsMP := other.nbThreadsMP;
      requests := other.requests;
    }

    /** Copy assignment. */
    method Assign(other: Gradient)
      requires other.Valid()
      modifies this
      ensures Valid() && nbThreadsMP == old(other.nbThreadsMP) && requests == old(other.requests)
    {
      nbThreadsMP := other.nbThreadsMP;
      requests := other.requests;
    }

    /** Raises the budget to maxThreads; a smaller request changes nothing. */
    method SetMaxNumberThreads(maxThreads: int)
      requires Valid()
      modifies this
      ensures Valid() && requests == old(requests) + [maxThreads]
      ensures nbThreadsMP == RatchetStep(old(nbThreadsMP), maxThreads)
      ensures nbThreadsMP >= old(nbThreadsMP)
      ensures maxThreads <= old(nbThreadsMP) ==> nbThreadsMP == old(nbThreadsMP)
    {
      if nbThreadsMP < maxThreads {
        nbThreadsMP := maxThreads;
      }
      requests := requests + [maxThreads];
      assert requests[..|requests| - 1] == old(requests);
    }

    /** For each node, the first state of largest belief; and the beliefs
        transposed into a states-by-nodes matrix. */
    method ViterbiDecoding(bel: Beliefs) returns (ystar: array<int>, pystar: array2<real>)
      requires DecodableBeliefs(bel)
      ensures ystar.Length == |bel.belStates|
      ensures pystar.Length0 == NbStates(bel) && pystar.Length1 == |bel.belStates|
      ensures |bel.belStates| == 0 ==> pystar.Length0 == 0
      ensures forall xi :: 0 <= xi < ystar.Length ==>
        ystar[xi] == ArgMaxFirst(bel.belStates[xi][..NbStates(bel)])
      ensures forall xi :: 0 <= xi < ystar.Length ==>
        IsFirstMax(bel.belStates[xi][..NbStates(bel)], ystar[xi])
      ensures forall yi, xi :: 0 <= yi < pystar.Length0 && 0 <= xi < pystar.Length1 ==>
        pystar[yi, xi] == bel.belStates[xi][yi]
    {
      var nbNodes := |bel.belStates|;
      var nbStates := 0;
      if nbNodes > 0 {
        nbStates := |bel.belStates[0]|;
      }
      ystar := new int[nbNodes];
      pystar := new real[nbStates, nbNodes];

      for xi := 0 to nbNodes
        invariant forall j :: 0 <= j < xi ==> ystar[j] == ArgMaxFirst(bel.belStates[j][..nbStates])
        invariant forall r, j :: 0 <= r < nbStates && 0 <= j < xi ==> pystar[r, j] == bel.belStates[j][r]
      {
        DecodeNode(bel.belStates[xi], nbStates, xi, ystar, pystar);
      }
      forall xi | 0 <= xi < nbNodes
        ensures IsFirstMax(bel.belStates[xi][..nbStates], ystar[xi])
      {
        ArgMaxFirstUnique(bel.belStates[xi][..nbStates], ystar[xi]);
      }
    }

    /** One pass of the node loop: column xi of pystar receives the first
        nbStates beliefs of the node, and ystar[xi] the first index of their
        maximum. Nothing else changes. */
    method DecodeNode(belief: seq<real>, nbStates: nat, xi: nat, ystar: array<int>, pystar: array2<real>)
      requires 0 < nbStates <= |belief|
      requires xi < ystar.Length && pystar.Length0 == nbStates && xi < pystar.Length1
      modifies ystar, pystar
      ensures ystar[xi] == ArgMaxFirst(belief[..nbStates])
      ensures forall j :: 0 <= j < ystar.Length && j != xi ==> ystar[j] == old(ystar[j])
      ensures forall r :: 0 <= r < nbStates ==> pystar[r, xi] == belief[r]
      ensures forall r, j :: 0 <= r < nbStates && 0 <= j < pystar.Length1 && j != xi ==>
        pystar[r, j] == old(pystar[r, j])
    {
      ghost var row := belief[..nbStates];
      ystar[xi] := 0;
      var maxVal := belief[0];
      pystar[0, xi] := belief[0];
      assert row[..1] == [row[0]];
      for yi := 1 to nbStates
        invariant ystar[xi] == ArgMaxFirst(row[..yi]) && maxVal == row[ystar[xi]]
        invariant forall j :: 0 <= j < ystar.Length && j != xi ==> ystar[j] == old(ystar[j])
        invariant forall r :: 0 <= r < yi ==> pystar[r, xi] == belief[r]
        invariant forall r, j :: 0 <= r < nbStates && 0 <= j < pystar.Length1 && j != xi ==>
          pystar[r, j] == old(pystar[r, j])
      {
        pystar[yi, xi] := belief[yi];
        ArgMaxFirstStep(row, yi);
        if maxVal < belief[yi] {
          ystar[xi] := yi;
          maxVal := belief[yi];
        }
      }
      assert row[..nbStates] == row;
    }

    /** Sums the weighted per-sequence gradients and losses of X, negates the
        gradient, averages the loss under max-margin and adds the L2 term.
        vecGradient is re-created when its length is not nbFeatures and
        zeroed in place otherwise. */
    method ComputeGradient<O>(vecGradient: DVector, m: Model, X: seq<DataSequence<O>>,
                              prim: Primitive<O>, nbFeatures: nat) returns (ans: real)
      requires Admissible(m, X, nbFeatures)
      requires forall i :: 0 <= i < |X| ==> |prim(m, X[i]).gradient| == nbFeatures
      modifies vecGradient, vecGradient.data
      ensures vecGradient.data.Length == nbFeatures
      ensures old(vecGradient.data.Length) == nbFeatures ==> vecGradient.data == old(vecGradient.data)
      ensures old(vecGradient.data.Length) != nbFeatures ==> fresh(vecGradient.data)
      ensures vecGradient.data[..] == ExpectedGradient(m, X, prim, nbFeatures)
      ensures ans == ExpectedLoss(m, X, prim)
    {
      PrepareOutput(vecGradient, nbFeatures);
      var out := vecGradient.data;

      var g;
      g, ans := AccumulateSequences(m, X, prim, nbFeatures);
      ghost var total := ans;
      // The fold of the worker's accumulator into the shared output.
      AddInPlace(out, g[..]);
      AddedToZeros(g[..]);
      NegateInPlace(out);
      ghost var negated := out[..];
      assert negated == Negated(WeightedGradientSum(m, X, prim, nbFeatures));

      // The source computes 1/sigma^2 here even when sigma is 0 (an infinity
      // it never uses); the model only computes the scale it uses.
      var scale := if m.regL2Sigma != 0.0 then RegScale(m) else 0.0;

      if m.maxMargin {
        ans := (1.0 / (|X| as real)) * ans;
      }
      ghost var averaged := ans;

      if m.regL2Sigma != 0.0 {
        AddScaledInPlace(out, m.weights, scale);
        ans := ans + 0.5 * scale * SqNorm(m.weights);
      }
      AssembledLoss(m, X, prim, total, averaged, scale, ans);
    }

    /** The parallel region run by one worker that claims the indices in
        order: a fresh accumulator holding the weighted sum of the
        per-sequence gradients, and the weighted sum of their losses. */
    method AccumulateSequences<O>(m: Model, X: seq<DataSequence<O>>, prim: Primitive<O>, nbFeatures: nat)
      returns (g: array<real>, ans: real)
      requires forall i :: 0 <= i < |X| ==> |prim(m, X[i]).gradient| == nbFeatures
      ensures g[..] == WeightedGradientSum(m, X, prim, nbFeatures)
      ensures ans == SumOver(X, LossTerm(m, prim))
    {
      ans := 0.0;
      g := new real[nbFeatures](_ => 0.0);
      assert g[..] == WeightedGradientSum(m, X[..0], prim, nbFeatures);
      for i := 0 to |X|
        invariant g.Length == nbFeatures
        invariant g[..] == WeightedGradientSum(m, X[..i], prim, nbFeatures)
        invariant ans == SumOver(X[..i], LossTerm(m, prim))
      {
        var x := X[i];
        ans := AccumulateSequence(g, m, x, prim(m, x), ans);
        WeightedGradientSumStep(m, X, prim, nbFeatures, i);
        SumOverStep(X, i, LossTerm(m, prim));
      }
      assert X[..|X|] == X;
    }

    /** One iteration of the parallel loop: the sequence's gradient c.gradient
        and loss c.loss are added to the worker's accumulators g and partial,
        scaled by the sequence weight when it applies. In that case the
        gradient goes through a zeroed temporary that is scaled before it is
        added. */
    method AccumulateSequence<O>(g: array<real>, m: Model, x: DataSequence<O>, c: Contribution, partial: real)
      returns (ans: real)
      requires |c.gradient| == g.Length
      modifies g
      ensures g[..] == AddScaled(old(g[..]), c.gradient, EffectiveWeight(m, x))
      ensures ans == partial + c.loss * EffectiveWeight(m, x)
    {
      ans := partial;
      if m.weightSequence && x.weightSequence != 1.0 {
        var tmp := new real[g.Length](_ => 0.0);
        assert tmp[..] == Zeros(g.Length);
        AddInPlace(tmp, c.gradient);
        ans := ans + c.loss * x.weightSequence;
        ScaleInPlace(tmp, x.weightSequence);
        AddInPlace(g, tmp[..]);
        AddThroughTemporary(old(g[..]), c.gradient, x.weightSequence);
      } else {
        AddInPlace(g, c.gradient);
        ans := ans + c.loss;
      }
    }
  }

  /** The size check at the start of computeGradient: re-create the vector
      at length n when its length differs, otherwise zero it in place.
      Either way it holds n zeros. */
  method PrepareOutput(vecGradient: DVector, n: nat)
    modifies vecGradient, vecGradient.data
    ensures vecGradient.data.Length == n
    ensures old(vecGradient.data.Length) == n ==> vecGradient.data == old(vecGradient.data)
    ensures old(vecGradient.data.Length) != n ==> fresh(vecGradient.data)
    ensures vecGradient.data[..] == Zeros(n)
  {
    if vecGradient.data.Length != n {
      vecGradient.data := new real[n](_ => 0.0);
    } else {
      forall f | 0 <= f < vecGradient.data.Length {
        vecGradient.data[f] := 0.0;
      }
    }
    assert vecGradient.data[..] == Zeros(n);
  }

  /** dVector::add. */
  method AddInPlace(a: array<real>, v: seq<real>)
    requires a.Length == |v|
    modifies a
    ensures a[..] == AddScaled(old(a[..]), v, 1.0)
  {
    forall f | 0 <= f < a.Length {
      a[f] := a[f] + v[f];
    }
  }

  /** dVector::multiply by a scalar. */
  method ScaleInPlace(a: array<real>, k: real)
    modifies a
    ensures a[..] == Scaled(old(a[..]), k)
  {
    ghost var before := a[..];
    forall f | 0 <= f < a.Length {
      a[f] := a[f] * k;
    }
    assert forall f :: 0 <= f < a.Length ==> a[..][f] == Scaled(before, k)[f];
  }

  /** dVector::negate. */
  method NegateInPlace(a: array<real>)
    modifies a
    ensures a[..] == Negated(old(a[..]))
  {
    forall f | 0 <= f < a.Length {
      a[f] := -a[f];
    }
  }

  /** The regularisation loop: a[f] += w[f] * scale for every feature f. */
  method AddScaledInPlace(a: array<real>, w: seq<real>, scale: real)
    requires a.Length <= |w|
    modifies a
    ensures a[..] == AddScaled(old(a[..]), w, scale)
  {
    ghost var before := a[..];
    for f := 0 to a.Length
      invariant forall k :: 0 <= k < f ==> a[k] == old(a[k]) + w[k] * scale
      invariant forall k :: f <= k < a.Length ==> a[k] == old(a[k])
    {
      a[f] := a[f] + w[f] * scale;
    }
    assert forall k :: 0 <= k < a.Length ==> a[..][k] == AddScaled(before, w, scale)[k];
  }
}
