/**
 * The cardinality reduction of the Prism adapter, as functions over an
 * abstract segment scorer and the caller's reduction function:
 * a candidate is broadcast against every reference of its item, scored
 * pair by pair, and the pair scores are collapsed with `reduceFn`; with
 * several candidates per item the candidate values are collapsed again
 * with the same `reduceFn`. Items are paired as Python's `zip` pairs them.
 */
module Reduction {

  /** Scores each (candidate, reference) pair of two lists of equal length. */
  type SegmentScorer = (seq<string>, seq<string>) -> seq<real>

  /** The caller's `reduce_fn`, e.g. max or mean over a list of scores. */
  type Reducer = seq<real> -> real

  function Min(a: nat, b: nat): nat {
    if a <= b then a else b
  }

  /** Python's `[c] * n`. */
  function Broadcast(c: string, n: nat): (r: seq<string>)
    ensures |r| == n
    ensures forall i :: 0 <= i < n ==> r[i] == c
  {
    seq(n, _ => c)
  }

  /** Python's `[f(x) for x in xs]`. */
  function MapReal<A>(f: A -> real, xs: seq<A>): (r: seq<real>)
    ensures |r| == |xs|
    ensures forall i :: 0 <= i < |xs| ==> r[i] == f(xs[i])
    decreases |xs|
  {
    if xs == [] then [] else [f(xs[0])] + MapReal(f, xs[1..])
  }

  /** Python's `[f(x, y) for x, y in zip(xs, ys)]`: pairs stop at the shorter list. */
  function ZipWith<A, B>(f: (A, B) -> real, xs: seq<A>, ys: seq<B>): (r: seq<real>)
    ensures |r| == Min(|xs|, |ys|)
    ensures forall i :: 0 <= i < |r| ==> r[i] == f(xs[i], ys[i])
    decreases |xs|
  {
    if xs == [] || ys == [] then [] else [f(xs[0], ys[0])] + ZipWith(f, xs[1..], ys[1..])
  }

  /** Python's `sum(xs)`, adding from the left. */
  function Sum(xs: seq<real>): real
    decreases |xs|
  {
    if xs == [] then 0.0 else Sum(xs[..|xs| - 1]) + xs[|xs| - 1]
  }

  /** Python's `sum(xs) / len(xs)`, defined when `xs` is not empty. */
  function Mean(xs: seq<real>): real
    requires |xs| > 0
  {
    Sum(xs) / (|xs| as real)
  }

  /** A sum of values within [lo, hi] lies within [|xs| * lo, |xs| * hi]. */
  lemma {:induction false} SumBounds(xs: seq<real>, lo: real, hi: real)
    requires forall i :: 0 <= i < |xs| ==> lo <= xs[i] <= hi
    ensures (|xs| as real) * lo <= Sum(xs) <= (|xs| as real) * hi
    decreases |xs|
  {
    if xs != [] {
      SumBounds(xs[..|xs| - 1], lo, hi);
    }
  }

  /** The corpus score lies between the least and the greatest item score. */
  lemma MeanBounds(xs: seq<real>, lo: real, hi: real)
    requires |xs| > 0
    requires forall i :: 0 <= i < |xs| ==> lo <= xs[i] <= hi
    ensures lo <= Mean(xs) <= hi
  {
    SumBounds(xs, lo, hi);
    var n := |xs| as real;
    assert Sum(xs) / n >= lo by {
      assert Sum(xs) >= n * lo;
    }
    assert Sum(xs) / n <= hi by {
      assert Sum(xs) <= n * hi;
    }
  }

  /**
   * The value of one candidate against its references: the candidate is
   * repeated once per reference, each pair is scored, and `reduceFn`
   * collapses the pair scores.
   */
  function ReferenceLevel(score: SegmentScorer, reduceFn: Reducer, cand: string, refs: seq<string>): real
  {
    var cands := Broadcast(cand, |refs|);
    reduceFn(score(cands, refs))
  }

  /** The reference-level values of several candidates of one item, in candidate order. */
  function CandidateScores(score: SegmentScorer, reduceFn: Reducer, cands: seq<string>, refs: seq<string>)
    : (cs: seq<real>)
    ensures |cs| == |cands|
    ensures forall j :: 0 <= j < |cands| ==>
      cs[j] == reduceFn(score(Broadcast(cands[j], |refs|), refs))
  {
    MapReal(c => ReferenceLevel(score, reduceFn, c, refs), cands)
  }

  /**
   * Single prediction, several references per item: one value per zipped
   * item, in item order, each the reduced scores of its broadcast pairs.
   */
  function SinglePredItems(score: SegmentScorer, reduceFn: Reducer, preds: seq<string>, refs: seq<seq<string>>)
    : (r: seq<real>)
    ensures |r| == Min(|preds|, |refs|)
    ensures forall i :: 0 <= i < |r| ==>
      r[i] == reduceFn(score(Broadcast(preds[i], |refs[i]|), refs[i]))
  {
    ZipWith((p, rs) => ReferenceLevel(score, reduceFn, p, rs), preds, refs)
  }

  /**
   * Several predictions and several references per item: one value per
   * zipped item, in item order; each is `reduceFn` over the candidates'
   * reference-level values, which use the same `reduceFn`.
   */
  function MultiPredItems(score: SegmentScorer, reduceFn: Reducer, preds: seq<seq<string>>, refs: seq<seq<string>>)
    : (r: seq<real>)
    ensures |r| == Min(|preds|, |refs|)
    ensures forall i :: 0 <= i < |r| ==>
      r[i] == reduceFn(CandidateScores(score, reduceFn, preds[i], refs[i]))
  {
    ZipWith((ps, rs) => reduceFn(CandidateScores(score, reduceFn, ps, rs)), preds, refs)
  }

  /** Each prediction as a one-candidate list. */
  function Singletons(preds: seq<string>): (r: seq<seq<string>>)
    ensures |r| == |preds|
    ensures forall i :: 0 <= i < |preds| ==> r[i] == [preds[i]]
  {
    seq(|preds|, i requires 0 <= i < |preds| => [preds[i]])
  }

  /**
   * With a reduction that leaves a single score as it is (max, min, mean),
   * the multi-prediction mode on one-candidate lists agrees item by item
   * with the single-prediction mode.
   */
  lemma MultiPredGeneralisesSinglePred(score: SegmentScorer, reduceFn: Reducer, preds: seq<string>, refs: seq<seq<string>>)
    requires forall x: real :: reduceFn([x]) == x
    ensures MultiPredItems(score, reduceFn, Singletons(preds), refs) == SinglePredItems(score, reduceFn, preds, refs)
  {
    var multi := MultiPredItems(score, reduceFn, Singletons(preds), refs);
    var single := SinglePredItems(score, reduceFn, preds, refs);
    forall i | 0 <= i < |single| ensures multi[i] == single[i] {
      var cs := CandidateScores(score, reduceFn, [preds[i]], refs[i]);
      assert cs == [cs[0]];
    }
  }
}
