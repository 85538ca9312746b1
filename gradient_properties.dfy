/** Properties of the Gradient engine's specification: the thread budget is
    the maximum of all requests, the aggregate does not depend on the order
    the sequences are processed in, and the regularisation, averaging and
    weighting rules behave as the trainer's objectives require. */
module GradientProperties {
  import opened Numerics
  import opened HcrfGradient

  // ---------------------------------------------------------------------
  // Thread budget

  /** After any series of requests the budget is the largest of the initial
      value and the requests: at least each of them, and equal to one. */
  lemma {:induction false} RatchetIsMaximum(init: int, requests: seq<int>)
    ensures Ratchet(init, requests) >= init
    ensures forall i :: 0 <= i < |requests| ==> Ratchet(init, requests) >= requests[i]
    ensures Ratchet(init, requests) == init ||
      exists i :: 0 <= i < |requests| && Ratchet(init, requests) == requests[i]
    decreases |requests|
  {
    if |requests| > 0 {
      var n := |requests| - 1;
      var prefix := requests[..n];
      RatchetIsMaximum(init, prefix);
      assert forall i :: 0 <= i < n ==> prefix[i] == requests[i];
      if Ratchet(init, requests) != init && Ratchet(init, requests) != requests[n] {
        var i :| 0 <= i < n && Ratchet(init, prefix) == prefix[i];
        assert Ratchet(init, requests) == requests[i];
      }
    }
  }

  /** The budget never decreases as requests arrive. */
  lemma {:induction false} RatchetNeverDecreases(init: int, requests: seq<int>, k: nat)
    requires k <= |requests|
    ensures Ratchet(init, requests[..k]) <= Ratchet(init, requests)
    decreases |requests|
  {
    if k < |requests| {
      var n := |requests| - 1;
      assert requests[..n][..k] == requests[..k];
      RatchetNeverDecreases(init, requests[..n], k);
    } else {
      assert requests[..k] == requests;
    }
  }

  /** A Gradient object's budget is the maximum of its initial 1 and every
      request it has received. */
  lemma BudgetIsMaximum(g: Gradient)
    requires g.Valid()
    ensures g.nbThreadsMP >= 1
    ensures forall i :: 0 <= i < |g.requests| ==> g.nbThreadsMP >= g.requests[i]
    ensures g.nbThreadsMP == 1 || exists i :: 0 <= i < |g.requests| && g.nbThreadsMP == g.requests[i]
  {
    RatchetIsMaximum(1, g.requests);
  }

  // ---------------------------------------------------------------------
  // Decoder

  /** Equal beliefs resolve to the lowest state; otherwise the largest wins. */
  lemma DecodeExamples()
    ensures ArgMaxFirst([0.5, 0.5]) == 0
    ensures ArgMaxFirst([0.2, 0.9, 0.1]) == 1
  {
    assert [0.5, 0.5][..1] == [0.5];
    assert [0.2, 0.9, 0.1][..2] == [0.2, 0.9];
    assert [0.2, 0.9][..1] == [0.2];
  }

  // ---------------------------------------------------------------------
  // Gradient aggregation

  /** Entry f of the returned gradient is minus the weighted sum of the
      sequences' entries f, plus scale * w[f] when sigma is not 0. */
  lemma ExpectedGradientEntry<O>(m: Model, X: seq<DataSequence<O>>, prim: Primitive<O>, nbFeatures: nat, f: nat)
    requires Admissible(m, X, nbFeatures) && f < nbFeatures
    ensures |ExpectedGradient(m, X, prim, nbFeatures)| == nbFeatures
    ensures ExpectedGradient(m, X, prim, nbFeatures)[f] ==
      -SumOver(X, GradTerm(m, prim, f)) + (if m.regL2Sigma != 0.0 then m.weights[f] * RegScale(m) else 0.0)
  {
  }

  /** Processing the sequences in any order gives the same gradient and loss. */
  lemma OrderInvariance<O>(m: Model, X: seq<DataSequence<O>>, Y: seq<DataSequence<O>>,
                           prim: Primitive<O>, nbFeatures: nat)
    requires Admissible(m, X, nbFeatures)
    requires multiset(X) == multiset(Y)
    ensures Admissible(m, Y, nbFeatures)
    ensures ExpectedGradient(m, X, prim, nbFeatures) == ExpectedGradient(m, Y, prim, nbFeatures)
    ensures ExpectedLoss(m, X, prim) == ExpectedLoss(m, Y, prim)
  {
    assert |X| == |multiset(X)| == |multiset(Y)| == |Y|;
    forall f | 0 <= f < nbFeatures
      ensures WeightedGradientSum(m, X, prim, nbFeatures)[f] == WeightedGradientSum(m, Y, prim, nbFeatures)[f]
    {
      SumOverPermutation(X, Y, GradTerm(m, prim, f));
    }
    assert WeightedGradientSum(m, X, prim, nbFeatures) == WeightedGradientSum(m, Y, prim, nbFeatures);
    SumOverPermutation(X, Y, LossTerm(m, prim));
  }

  /** With sigma == 0 nothing is added: the gradient is the negated weighted
      sum and the loss the (averaged) weighted loss. */
  lemma UnregularizedWhenSigmaZero<O>(m: Model, X: seq<DataSequence<O>>, prim: Primitive<O>, nbFeatures: nat)
    requires Admissible(m, X, nbFeatures) && m.regL2Sigma == 0.0
    ensures ExpectedGradient(m, X, prim, nbFeatures) == Negated(WeightedGradientSum(m, X, prim, nbFeatures))
    ensures ExpectedLoss(m, X, prim) == UnregularizedLoss(m, X, prim)
  {
  }

  /** Under maximum likelihood with sigma != 0, entry f of the gradient grows
      by exactly w[f] / sigma^2 and the loss by ||w||^2 / (2 sigma^2). */
  lemma LikelihoodRegularization<O>(m: Model, X: seq<DataSequence<O>>, prim: Primitive<O>, nbFeatures: nat, f: nat)
    requires Admissible(m, X, nbFeatures) && !m.maxMargin && m.regL2Sigma != 0.0 && f < nbFeatures
    ensures ExpectedGradient(m, X, prim, nbFeatures)[f] + SumOver(X, GradTerm(m, prim, f))
      == m.weights[f] / (m.regL2Sigma * m.regL2Sigma)
    ensures ExpectedLoss(m, X, prim) - SumOver(X, LossTerm(m, prim))
      == SqNorm(m.weights) / (2.0 * m.regL2Sigma * m.regL2Sigma)
  {
    var s2 := m.regL2Sigma * m.regL2Sigma;
    assert s2 != 0.0;
    assert m.weights[f] * (1.0 / s2) == m.weights[f] / s2;
    assert 0.5 * (1.0 / s2) * SqNorm(m.weights) == SqNorm(m.weights) / (2.0 * s2);
  }

  /** Under max-margin with sigma != 0, entry f of the gradient grows by
      sigma * w[f] and the loss by sigma * ||w||^2 / 2. */
  lemma MarginRegularization<O>(m: Model, X: seq<DataSequence<O>>, prim: Primitive<O>, nbFeatures: nat, f: nat)
    requires Admissible(m, X, nbFeatures) && m.maxMargin && m.regL2Sigma != 0.0 && f < nbFeatures
    ensures ExpectedGradient(m, X, prim, nbFeatures)[f] + SumOver(X, GradTerm(m, prim, f))
      == m.regL2Sigma * m.weights[f]
    ensures ExpectedLoss(m, X, prim) - UnregularizedLoss(m, X, prim)
      == 0.5 * m.regL2Sigma * SqNorm(m.weights)
  {
  }

  /** The regularisation term never lowers the loss. */
  lemma RegularizationNonNegative<O>(m: Model, X: seq<DataSequence<O>>, prim: Primitive<O>)
    requires (m.maxMargin ==> |X| > 0) && (m.maxMargin ==> m.regL2Sigma >= 0.0)
    ensures ExpectedLoss(m, X, prim) >= UnregularizedLoss(m, X, prim)
  {
    SqNormNonNegative(m.weights);
    if m.regL2Sigma != 0.0 && !m.maxMargin {
      SquarePositive(m.regL2Sigma);
      assert 1.0 / (m.regL2Sigma * m.regL2Sigma) > 0.0;
    }
  }

  /** Under max-margin the weighted loss is averaged over the dataset size;
      under maximum likelihood it is not averaged. */
  lemma LossAveraging<O>(m: Model, X: seq<DataSequence<O>>, prim: Primitive<O>)
    requires m.maxMargin ==> |X| > 0
    ensures m.maxMargin ==> UnregularizedLoss(m, X, prim) * (|X| as real) == SumOver(X, LossTerm(m, prim))
    ensures !m.maxMargin ==> UnregularizedLoss(m, X, prim) == SumOver(X, LossTerm(m, prim))
  {
    if m.maxMargin {
      var n := |X| as real;
      var total := SumOver(X, LossTerm(m, prim));
      assert (1.0 / n) * total * n == total;
    }
  }

  /** Under maximum likelihood an empty dataset gives the regularisation
      term alone: scale * w for the gradient (zeros when sigma == 0). */
  lemma EmptyDataset<O>(m: Model, X: seq<DataSequence<O>>, prim: Primitive<O>, nbFeatures: nat)
    requires |X| == 0 && !m.maxMargin && Admissible(m, X, nbFeatures)
    ensures ExpectedGradient(m, X, prim, nbFeatures) ==
      if m.regL2Sigma != 0.0 then AddScaled(Zeros(nbFeatures), m.weights, RegScale(m)) else Zeros(nbFeatures)
    ensures ExpectedLoss(m, X, prim) ==
      if m.regL2Sigma != 0.0 then 0.5 * RegScale(m) * SqNorm(m.weights) else 0.0
  {
    assert Negated(WeightedGradientSum(m, X, prim, nbFeatures)) == Zeros(nbFeatures);
  }

  /** A sequence of weight 2 contributes what two copies of weight 1 do:
      the gradients agree, and so do the losses under maximum likelihood.
      Under max-margin the losses are averaged over 1 + |X| and 2 + |X|
      sequences respectively, so they differ by that ratio. */
  lemma WeightedEquivalence<O>(m: Model, X: seq<DataSequence<O>>, x: DataSequence<O>, y: DataSequence<O>,
                               prim: Primitive<O>, nbFeatures: nat)
    requires m.weightSequence && x.weightSequence == 2.0 && y.weightSequence == 1.0
    requires prim(m, x) == prim(m, y)
    requires Admissible(m, X + [x], nbFeatures)
    ensures Admissible(m, X + [y, y], nbFeatures)
    ensures ExpectedGradient(m, X + [x], prim, nbFeatures) == ExpectedGradient(m, X + [y, y], prim, nbFeatures)
    ensures !m.maxMargin ==> ExpectedLoss(m, X + [x], prim) == ExpectedLoss(m, X + [y, y], prim)
    ensures m.maxMargin ==>
      UnregularizedLoss(m, X + [x], prim) * ((|X| + 1) as real) ==
      UnregularizedLoss(m, X + [y, y], prim) * ((|X| + 2) as real)
  {
    forall f | 0 <= f < nbFeatures
      ensures SumOver(X + [x], GradTerm(m, prim, f)) == SumOver(X + [y, y], GradTerm(m, prim, f))
    {
      GradTermAt(m, prim, f, x);
      GradTermAt(m, prim, f, y);
      TwoCopies(X, x, y, GradTerm(m, prim, f));
    }
    assert WeightedGradientSum(m, X + [x], prim, nbFeatures) == WeightedGradientSum(m, X + [y, y], prim, nbFeatures);
    TwoCopies(X, x, y, LossTerm(m, prim));
    LossAveraging(m, X + [x], prim);
    LossAveraging(m, X + [y, y], prim);
  }

  /** Summing X + [x] and X + [y, y] differs only in F(x) against 2 F(y). */
  lemma TwoCopies<T>(X: seq<T>, x: T, y: T, F: T -> real)
    requires F(x) == 2.0 * F(y)
    ensures SumOver(X + [x], F) == SumOver(X + [y, y], F)
  {
    SumOverAppend(X, [x], F);
    SumOverAppend(X, [y, y], F);
    assert [x][..0] == [];
    assert [y, y][..1] == [y] && [y][..0] == [];
  }
}
