/** Real-valued helpers the gradient engine and the decoder are specified with:
    a left-to-right sum over a sequence, the squared Euclidean norm, and the
    first index of a maximum. */
module Numerics {

  /** Sum of F over xs, accumulated left to right (the order a sequential loop
      over xs adds the terms in). */
  function SumOver<T>(xs: seq<T>, F: T -> real): real
    decreases |xs|
  {
    if |xs| == 0 then 0.0 else SumOver(xs[..|xs| - 1], F) + F(xs[|xs| - 1])
  }

  /** Summing a concatenation is summing each part. */
  lemma {:induction false} SumOverAppend<T>(xs: seq<T>, ys: seq<T>, F: T -> real)
    ensures SumOver(xs + ys, F) == SumOver(xs, F) + SumOver(ys, F)
    decreases |ys|
  {
    if |ys| == 0 {
      assert xs + ys == xs;
    } else {
      var n := |ys| - 1;
      assert (xs + ys)[..|xs + ys| - 1] == xs + ys[..n];
      SumOverAppend(xs, ys[..n], F);
    }
  }

  /** The sum depends only on the multiset of the terms, never on their order. */
  lemma {:induction false} SumOverPermutation<T>(xs: seq<T>, ys: seq<T>, F: T -> real)
    requires multiset(xs) == multiset(ys)
    ensures SumOver(xs, F) == SumOver(ys, F)
    decreases |xs|
  {
    if |xs| == 0 {
      assert |ys| == |multiset(ys)| == 0;
    } else {
      var n := |xs| - 1;
      var x := xs[n];
      assert xs == xs[..n] + [x];
      assert x in multiset(ys);
      var j :| 0 <= j < |ys| && ys[j] == x;
      var rest := ys[..j] + ys[j + 1..];
      assert ys == ys[..j] + [x] + ys[j + 1..];
      assert multiset(xs) == multiset(xs[..n]) + multiset{x};
      assert multiset(ys) == multiset(ys[..j]) + multiset{x} + multiset(ys[j + 1..]);
      assert multiset(rest) == multiset(ys[..j]) + multiset(ys[j + 1..]);
      assert multiset(xs[..n]) == multiset(xs) - multiset{x};
      assert multiset(rest) == multiset(ys) - multiset{x};
      SumOverPermutation(xs[..n], rest, F);
      SumOverAppend(ys[..j] + [x], ys[j + 1..], F);
      SumOverAppend(ys[..j], [x], F);
      SumOverAppend(ys[..j], ys[j + 1..], F);
      assert SumOver([x], F) == F(x) by {
        assert [x][..0] == [];
      }
    }
  }

  /** Splitting the terms between two parts in any way, contiguous or not,
      splits the sum: the sum is the sum of the two partial sums. */
  lemma SumOverSplit<T>(xs: seq<T>, ys: seq<T>, zs: seq<T>, F: T -> real)
    requires multiset(xs) == multiset(ys) + multiset(zs)
    ensures SumOver(xs, F) == SumOver(ys, F) + SumOver(zs, F)
  {
    assert multiset(ys + zs) == multiset(ys) + multiset(zs);
    SumOverPermutation(xs, ys + zs, F);
    SumOverAppend(ys, zs, F);
  }

  // Dense vectors as sequences of reals.

  function Zeros(n: nat): (z: seq<real>)
    ensures |z| == n && forall f :: 0 <= f < n ==> z[f] == 0.0
  {
    seq(n, _ => 0.0)
  }

  /** v plus scale times the first |v| entries of w. */
  function AddScaled(v: seq<real>, w: seq<real>, scale: real): seq<real>
    requires |v| <= |w|
  {
    seq(|v|, f requires 0 <= f < |v| => v[f] + w[f] * scale)
  }

  function Scaled(v: seq<real>, k: real): seq<real>
  {
    seq(|v|, f requires 0 <= f < |v| => v[f] * k)
  }

  function Negated(v: seq<real>): seq<real>
  {
    seq(|v|, f requires 0 <= f < |v| => -v[f])
  }

  /** Adding w scaled by k into a zeroed temporary, then adding that
      temporary to v, adds k times w to v. */
  lemma AddThroughTemporary(v: seq<real>, w: seq<real>, k: real)
    requires |v| == |w|
    ensures AddScaled(v, Scaled(AddScaled(Zeros(|w|), w, 1.0), k), 1.0) == AddScaled(v, w, k)
  {
    var t := Scaled(AddScaled(Zeros(|w|), w, 1.0), k);
    forall f | 0 <= f < |v|
      ensures AddScaled(v, t, 1.0)[f] == AddScaled(v, w, k)[f]
    {
      assert t[f] == (0.0 + w[f] * 1.0) * k;
    }
  }

  function Square(x: real): real { x * x }

  lemma SquarePositive(x: real)
    requires x != 0.0
    ensures x * x > 0.0
  {
    if x < 0.0 {
      assert x * x == (-x) * (-x);
    }
  }

  /** Squared Euclidean norm, the value of dVector::l2Norm(false). */
  function SqNorm(v: seq<real>): real
  {
    SumOver(v, Square)
  }

  /** A sum of non-negative terms is non-negative. */
  lemma {:induction false} SumOverNonNegative<T>(xs: seq<T>, F: T -> real)
    requires forall i :: 0 <= i < |xs| ==> F(xs[i]) >= 0.0
    ensures SumOver(xs, F) >= 0.0
    decreases |xs|
  {
    if |xs| > 0 {
      SumOverNonNegative(xs[..|xs| - 1], F);
    }
  }

  lemma SqNormNonNegative(v: seq<real>)
    ensures SqNorm(v) >= 0.0
  {
    forall i | 0 <= i < |v| ensures Square(v[i]) >= 0.0 {
      if v[i] < 0.0 {
        assert Square(v[i]) == (-v[i]) * (-v[i]);
      }
    }
    SumOverNonNegative(v, Square);
  }

  /** k is a valid index of s, no entry exceeds s[k], and every entry before
      k is strictly smaller. */
  predicate IsFirstMax(s: seq<real>, k: int)
  {
    0 <= k < |s| && (forall j :: 0 <= j < |s| ==> s[j] <= s[k]) && (forall j :: 0 <= j < k ==> s[j] < s[k])
  }

  /** Index of the first largest entry of s: a scan from the left that moves
      only on a strictly larger value, so equal maxima resolve to the lowest
      index. */
  function ArgMaxFirst(s: seq<real>): (k: nat)
    requires |s| > 0
    ensures IsFirstMax(s, k)
    decreases |s|
  {
    if |s| == 1 then 0
    else
      var k := ArgMaxFirst(s[..|s| - 1]);
      if s[k] < s[|s| - 1] then |s| - 1 else k
  }

  /** ArgMaxFirst is the one index with the first-maximum property. */
  lemma ArgMaxFirstUnique(s: seq<real>, k: int)
    requires |s| > 0
    ensures IsFirstMax(s, k) <==> k == ArgMaxFirst(s)
  {
  }

  /** Extending the scanned prefix by one entry moves the choice only to a
      strictly larger entry. */
  lemma ArgMaxFirstStep(s: seq<real>, i: nat)
    requires 0 < i < |s|
    ensures ArgMaxFirst(s[..i + 1]) ==
      (if s[ArgMaxFirst(s[..i])] < s[i] then i else ArgMaxFirst(s[..i]))
  {
    assert s[..i + 1][..i] == s[..i];
  }

  /** Adding one more term at the end. */
  lemma SumOverStep<T>(xs: seq<T>, i: nat, F: T -> real)
    requires i < |xs|
    ensures SumOver(xs[..i + 1], F) == SumOver(xs[..i], F) + F(xs[i])
  {
    assert xs[..i + 1][..i] == xs[..i];
  }
}
