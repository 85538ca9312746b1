# hCRF `Gradient` engine: a Dafny model

This project models the `Gradient` base class of the hCRF-light library
(`src/hcrf/gradient.cpp`). The C++ file is where the trainer gets its
objective value and gradient, and it does three things:

- **Thread budget.** `setMaxNumberThreads` is a ratchet. The stored budget
  `nbThreadsMP` starts at 1, a copy takes it over unchanged, and after that
  it only grows: each request leaves it at the larger of the old value and
  the request.
- **Decoder.** `viterbiDecoding` takes the per-node marginal beliefs. For
  every node it picks the label with the largest belief, taking the lowest
  label when several are equal. It also writes a transposed copy of the
  beliefs, one row per label and one column per node.
- **Dataset objective.** The dataset-level `computeGradient` works as follows:
  - It zeroes or resizes the output vector.
  - For each sequence it calls a per-sequence primitive. That primitive
    adds the sequence's gradient into the vector it is given and returns
    the sequence's loss. When sequence weighting is on and a sequence's
    weight is not 1, that sequence's gradient and loss are scaled by its
    weight.
  - It negates the summed gradient.
  - Under max-margin it averages the loss over the number of sequences.
  - When sigma is not 0 it adds the L2 term. The scale is sigma under
    max-margin and 1/sigma² under maximum likelihood.

The model is split into three files:

- `numerics.dfy` (module `Numerics`): a left-to-right sum over a sequence
  with its permutation and concatenation laws, dense vectors as `seq<real>`,
  the squared norm, and `ArgMaxFirst`. `ArgMaxFirst` is the first-maximum
  scan, defined recursively and characterised by its contract.
- `gradient.dfy` (module `HcrfGradient`):
  - the datatypes `Model`, `DataSequence`, `Contribution` and `Beliefs`;
  - the specification functions `Ratchet`, `WeightedGradientSum`,
    `ExpectedGradient` and `ExpectedLoss`;
  - class `Gradient`, whose methods are written imperatively over arrays
    the way the source is. Each method is proved against those functions.
    The class keeps a ghost history of thread requests, and its invariant
    `Valid()` says the budget is `Ratchet(1, requests)`;
  - class `DVector`, which stands for the output `dVector`.
- `gradient_properties.dfy` (module `GradientProperties`): lemmas about the
  specification functions, covering:
  - the budget as the maximum of all requests;
  - order independence of the aggregate, which is what makes the
    `schedule(dynamic)` parallel loop safe;
  - the exact regularisation and averaging terms;
  - the empty dataset;
  - the equivalence of a weight-2 sequence with two weight-1 copies.

The per-sequence primitive (`computeGradient(dVector&, Model*,
DataSequence*)`) is implemented by subclasses. Here it is a function
parameter `prim`: it returns the gradient it would add and the loss it
returns. The number of features, which the source gets from the feature
generator, is a parameter `nbFeatures`.

Where the behaviour described for this class and the code differ, the model
follows the code:

- **Empty dataset and max-margin.** An empty dataset gives only the
  regularisation term under maximum likelihood (`EmptyDataset`). Under
  max-margin the code computes `1/(double)0 * 0.0`, which is NaN, so the
  model requires a non-empty dataset there.
- **Weighted sequences and the loss.** A weight-2 sequence matches two
  weight-1 copies in the gradient always. In the loss it matches only under
  maximum likelihood, because max-margin divides by the number of sequences.
  `WeightedEquivalence` states both cases.
- **The decoder is not Viterbi.** It is named "Viterbi" but takes a
  pointwise argmax of each node's beliefs. It does no dynamic programming
  over transitions.

## Model

| member | source | states |
|---|---|---|
| HcrfGradient.RatchetStep | PROBABLISTIC_FAULT_DETECTOR/src/hcrf/gradient.cpp:49-55 | one request leaves the budget at least the old value and at least the request, equal to one of them, and unchanged when the request is not larger |
| HcrfGradient.Gradient.constructor | PROBABLISTIC_FAULT_DETECTOR/src/hcrf/gradient.cpp:24-28 | a new engine has budget 1 and no requests yet, so it satisfies the ratchet invariant |
| HcrfGradient.Gradient.Copy | PROBABLISTIC_FAULT_DETECTOR/src/hcrf/gradient.cpp:30-34 | the copy constructor takes over the other engine's budget and keeps the invariant |
| HcrfGradient.Gradient.Assign | PROBABLISTIC_FAULT_DETECTOR/src/hcrf/gradient.cpp:36-42 | assignment copies the other engine's budget and keeps the invariant |
| HcrfGradient.Gradient.SetMaxNumberThreads | PROBABLISTIC_FAULT_DETECTOR/src/hcrf/gradient.cpp:49-55 | the request is recorded and the invariant is kept. The new budget is at least the old one, and a request that is not larger changes nothing |
| GradientProperties.RatchetIsMaximum | PROBABLISTIC_FAULT_DETECTOR/src/hcrf/gradient.cpp:49-55 | after any series of requests the budget is at least the start value and each request, and equals one of them: it is their maximum |
| GradientProperties.RatchetNeverDecreases | PROBABLISTIC_FAULT_DETECTOR/src/hcrf/gradient.cpp:49-55 | the budget after a prefix of the requests is never above the budget after all of them |
| GradientProperties.BudgetIsMaximum | PROBABLISTIC_FAULT_DETECTOR/src/hcrf/gradient.cpp:24-55 | for a live engine the budget is at least 1 and at least every request received, and equals 1 or one of them |
| HcrfGradient.Gradient.ViterbiDecoding | PROBABLISTIC_FAULT_DETECTOR/src/hcrf/gradient.cpp:57-83 | `ystar` has one entry per node, and each entry is the first maximal label of that node's beliefs. `pystar` has nbStates rows and nbNodes columns, and `pystar[y, x]` is the belief of label y at node x. Both are empty when there are no nodes |
| HcrfGradient.Gradient.DecodeNode | PROBABLISTIC_FAULT_DETECTOR/src/hcrf/gradient.cpp:71-81 | one pass of the outer loop sets the node's label to the first maximum and its column of `pystar` to its beliefs, and leaves every other node's entries unchanged |
| Numerics.ArgMaxFirst | PROBABLISTIC_FAULT_DETECTOR/src/hcrf/gradient.cpp:72-80 | the scanned index is in range, no entry exceeds the one there, and every earlier entry is strictly smaller, so ties go to the lowest label |
| Numerics.ArgMaxFirstUnique | PROBABLISTIC_FAULT_DETECTOR/src/hcrf/gradient.cpp:72-80 | an index has the first-maximum property exactly when it is the scan's result |
| GradientProperties.DecodeExamples | PROBABLISTIC_FAULT_DETECTOR/src/hcrf/gradient.cpp:72-80 | equal beliefs pick label 0; a strictly larger later belief wins |
| HcrfGradient.EffectiveWeight | PROBABLISTIC_FAULT_DETECTOR/src/hcrf/gradient.cpp:128-136 | the factor applied to a sequence is its weight when weighting is on and 1 otherwise. The branch that skips multiplying for weight 1 therefore loses nothing |
| HcrfGradient.Gradient.ComputeGradient | PROBABLISTIC_FAULT_DETECTOR/src/hcrf/gradient.cpp:85-169 | the output has nbFeatures entries. It reuses its storage when already that long and otherwise gets a fresh array, which no caller can already hold. Its contents are the negated weighted gradient sum plus the L2 term. The return value is the (max-margin averaged) weighted loss plus the L2 term |
| HcrfGradient.PrepareOutput | PROBABLISTIC_FAULT_DETECTOR/src/hcrf/gradient.cpp:97-102 | the output vector is all zeros of length nbFeatures. It keeps its array when the length already matches and gets a fresh one otherwise |
| HcrfGradient.Gradient.AccumulateSequences | PROBABLISTIC_FAULT_DETECTOR/src/hcrf/gradient.cpp:119-145 | the worker's accumulator ends up as the weighted sum of the sequences' gradients, and `ans` as the weighted sum of their losses |
| HcrfGradient.Gradient.AccumulateSequence | PROBABLISTIC_FAULT_DETECTOR/src/hcrf/gradient.cpp:127-136 | one sequence adds its gradient times its effective weight to the accumulator, and its loss times that weight to the running loss. This holds on both branches |
| HcrfGradient.WeightedGradientSumStep | PROBABLISTIC_FAULT_DETECTOR/src/hcrf/gradient.cpp:126-136 | one more sequence adds its weighted gradient to the weighted sum of the prefix |
| HcrfGradient.AddInPlace | PROBABLISTIC_FAULT_DETECTOR/src/hcrf/gradient.cpp:143 | `dVector::add` adds the given vector to the array entry by entry. The same call adds a weighted sequence's temporary into the worker's accumulator on line 132 |
| HcrfGradient.ScaleInPlace | PROBABLISTIC_FAULT_DETECTOR/src/hcrf/gradient.cpp:131 | `dVector::multiply` multiplies every entry of the array by the scalar |
| HcrfGradient.NegateInPlace | PROBABLISTIC_FAULT_DETECTOR/src/hcrf/gradient.cpp:148 | `dVector::negate` replaces every entry of the array by its negation |
| HcrfGradient.AddScaledInPlace | PROBABLISTIC_FAULT_DETECTOR/src/hcrf/gradient.cpp:163-164 | the loop adds `scale * w[f]` to entry f of the vector for every feature |
| HcrfGradient.AssembledLoss | PROBABLISTIC_FAULT_DETECTOR/src/hcrf/gradient.cpp:154-166 | averaging and then adding `0.5 * scale * l2Norm` gives the specified loss |
| Numerics.AddThroughTemporary | PROBABLISTIC_FAULT_DETECTOR/src/hcrf/gradient.cpp:129-132 | filling a zeroed temporary, scaling it by k and adding it to the accumulator adds k times the gradient |
| Numerics.SumOverPermutation | PROBABLISTIC_FAULT_DETECTOR/src/hcrf/gradient.cpp:125-145 | a sum over the sequences depends only on their multiset and not on the order they are processed in |
| Numerics.SumOverAppend | PROBABLISTIC_FAULT_DETECTOR/src/hcrf/gradient.cpp:139-144 | summing the concatenation of two chunks gives the sum of their sums, as combining two workers' partial gradients does |
| Numerics.SumOverSplit | PROBABLISTIC_FAULT_DETECTOR/src/hcrf/gradient.cpp:119-145 | however the sequences are divided between two workers, contiguously or not, the total of their partial sums is the sum over the whole dataset |
| GradientProperties.OrderInvariance | PROBABLISTIC_FAULT_DETECTOR/src/hcrf/gradient.cpp:119-145 | any reordering of the dataset gives the same gradient and the same loss |
| GradientProperties.ExpectedGradientEntry | PROBABLISTIC_FAULT_DETECTOR/src/hcrf/gradient.cpp:148-164 | gradient entry f is minus the weighted sum of the sequences' entries f, plus `w[f] * scale` when sigma is not 0 |
| GradientProperties.UnregularizedWhenSigmaZero | PROBABLISTIC_FAULT_DETECTOR/src/hcrf/gradient.cpp:161-166 | with sigma 0 neither the gradient nor the loss gets a regularisation term |
| GradientProperties.LikelihoodRegularization | PROBABLISTIC_FAULT_DETECTOR/src/hcrf/gradient.cpp:151-166 | under maximum likelihood entry f grows by exactly `w[f] / sigma²` and the loss by `‖w‖² / (2 sigma²)` |
| GradientProperties.MarginRegularization | PROBABLISTIC_FAULT_DETECTOR/src/hcrf/gradient.cpp:150-166 | under max-margin entry f grows by exactly `sigma * w[f]` and the averaged loss by `sigma * ‖w‖² / 2` |
| GradientProperties.RegularizationNonNegative | PROBABLISTIC_FAULT_DETECTOR/src/hcrf/gradient.cpp:161-166 | the L2 term never lowers the loss (for max-margin when sigma is not negative) |
| Numerics.SqNormNonNegative | PROBABLISTIC_FAULT_DETECTOR/src/hcrf/gradient.cpp:165 | the squared norm of the weights is never negative |
| GradientProperties.LossAveraging | PROBABLISTIC_FAULT_DETECTOR/src/hcrf/gradient.cpp:158-159 | under max-margin the loss times the number of sequences is the weighted sum; under maximum likelihood the loss is not averaged |
| GradientProperties.EmptyDataset | PROBABLISTIC_FAULT_DETECTOR/src/hcrf/gradient.cpp:97-166 | under maximum likelihood an empty dataset gives `scale * w` (or zeros when sigma is 0) as gradient and `0.5 * scale * ‖w‖²` (or 0) as loss |
| GradientProperties.WeightedEquivalence | PROBABLISTIC_FAULT_DETECTOR/src/hcrf/gradient.cpp:128-136 | one sequence of weight 2 gives the same gradient as two copies of weight 1. It gives the same loss under maximum likelihood; under max-margin the losses differ only by the averaging over one extra sequence |

## Left out

- The OpenMP set-up on lines 89-95 is not modelled. That covers the fallback to `omp_get_max_threads()` for a non-positive budget, the self-call of `setMaxNumberThreads`, and passing the budget on to the inference engine and the feature generator.
- The parallel region is modelled as a single worker running a sequential loop. Thread creation, dynamic scheduling, the `critical` section and the `reduction(+:ans)` are not modelled. In exact arithmetic neither the order nor the division of work changes the result. `OrderInvariance` covers the processing order. `SumOverSplit` covers any division of the sequences between workers, including the non-contiguous subsets that dynamic scheduling hands out.
- Floating point is not modelled. Values are exact reals, so rounding and the order-dependence of double sums are not captured. The `!= 0.0f` comparison is modelled as a comparison with 0.
- The per-sequence `computeGradient` is abstract in this class and belongs to the subclasses. It is modelled as an arbitrary function that returns the vector it adds into its argument and the loss it returns.
- The `InferenceEngine` and `FeatureGenerator` pointers and `getNumberOfFeatures()` are not modelled; the feature count is passed in as `nbFeatures`.
- The storage of `dVector`, `iVector` and `dMatrix` is not modelled beyond plain arrays of reals or integers, and the row-vector orientation of `dVector` is not kept. The vector operations the engine calls (`add`, `multiply`, `negate`, `create`, `set`) are modelled by `AddInPlace`, `ScaleInPlace`, `NegateInPlace` and `PrepareOutput`.
- The destructor, which sets the budget to 0 on a dying object, is not modelled.
- `operator=` normally returns `*this`; `Assign` returns nothing.
- HcrfGradient.Gradient.ComputeGradient: requires a non-empty dataset under max-margin. There the source divides by a zero size and the loss is NaN.
- HcrfGradient.Gradient.ComputeGradient: requires the weight vector to cover the features only when sigma is not 0, because only then are the weights read. Under maximum likelihood with sigma 0, the `1/0` scale that the source computes and never uses is not modelled.
- HcrfGradient.Gradient.ViterbiDecoding: requires every node's belief vector to be non-empty and at least as long as the first one. Otherwise the source reads outside the vector.
- HcrfGradient.Gradient.ViterbiDecoding: returns freshly allocated arrays instead of resizing the caller's `ystar` and `pystar`, and does not state that they are fresh.
