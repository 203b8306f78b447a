/**
 * Score values, normalisation, aggregation and the result record of the
 * Prism adapter, for each of its three input shapes. The external scorer
 * is a value of `Scorer`; exponentiation is the parameter `pow`.
 */
module PrismScore {
  import opened Wrappers
  import opened Reduction

  /** A corpus-level score (Python float) or per-item scores (Python list). */
  datatype ScoreValue = Scalar(x: real) | Segments(xs: seq<real>)

  /**
   * The scorer's `identifier()` record. Only its log base is read here;
   * its other entries (version, model name, reduction methods,
   * temperature) are carried along unread.
   */
  datatype Identifier = Identifier(logBase: real, details: map<string, string>)

  /**
   * A constructed Prism scorer: per-pair scores (`segment_scores=True`),
   * its own corpus score (`segment_scores=False`) and its identifier.
   */
  datatype Scorer = Scorer(
    segment: SegmentScorer,
    corpus: (seq<string>, seq<string>) -> real,
    identifier: Identifier)

  /** A scorer that returns one score per (candidate, reference) pair. */
  ghost predicate OneScorePerPair(s: Scorer) {
    forall cands: seq<string>, refs: seq<string> ::
      |cands| == |refs| ==> |s.segment(cands, refs)| == |cands|
  }

  /** Python's `base ** x`. */
  type Power = (real, real) -> real

  /** The exception the source can raise itself: averaging no items. */
  datatype ComputeError = ZeroDivision

  /** The dictionary every compute mode returns. */
  datatype Record = Record(
    score: ScoreValue,
    identifier: Identifier,
    modelPathOrUrl: Option<string>,
    lang: string,
    segmentScores: bool,
    normalized: bool)

  /**
   * `base ** score` for a scalar; element by element for a list, keeping
   * its length and order.
   */
  function Normalize(score: ScoreValue, base: real, pow: Power): (r: ScoreValue)
    ensures r.Scalar? <==> score.Scalar?
    ensures score.Scalar? ==> r.x == pow(base, score.x)
    ensures score.Segments? ==> (|r.xs| == |score.xs| &&
      forall i :: 0 <= i < |score.xs| ==> r.xs[i] == pow(base, score.xs[i]))
  {
    match score
    case Scalar(x) => Scalar(pow(base, x))
    case Segments(xs) => Segments(MapReal(x => pow(base, x), xs))
  }

  /**
   * What the multi-reference modes do with their per-item values: keep
   * them or average them, then normalise if asked. Averaging no items is
   * the source's division by zero.
   */
  function Finish(items: seq<real>, segmentScores: bool, normalize: bool, base: real, pow: Power)
    : (r: Result<ScoreValue, ComputeError>)
    ensures r.Failure? <==> !segmentScores && items == []
    ensures r.Success? ==> (r.value.Segments? <==> segmentScores)
    ensures segmentScores ==> (|r.value.xs| == |items| &&
      forall i :: 0 <= i < |items| ==>
        r.value.xs[i] == if normalize then pow(base, items[i]) else items[i])
    ensures !segmentScores && items != [] ==>
      r.value.x == if normalize then pow(base, Mean(items)) else Mean(items)
  {
    if !segmentScores && |items| == 0 then
      Failure(ZeroDivision)
    else
      var aggregated := if segmentScores then Segments(items) else Scalar(Mean(items));
      Success(if normalize then Normalize(aggregated, base, pow) else aggregated)
  }

  /** The record around a computed score: everything else is echoed from the call and the configuration. */
  function Assemble(score: ScoreValue, s: Scorer, modelPathOrUrl: Option<string>, lang: string,
                    segmentScores: bool, normalize: bool): Record
  {
    Record(score, s.identifier, modelPathOrUrl, lang, segmentScores, normalize)
  }

  /**
   * Single prediction and single reference per item: one scorer call over
   * the whole batch; the scorer's own segment or corpus output, normalised
   * if asked. No reduction function is involved.
   */
  function SinglePredSingleRef(s: Scorer, preds: seq<string>, refs: seq<string>,
                               segmentScores: bool, normalize: bool, pow: Power,
                               modelPathOrUrl: Option<string>, lang: string): (r: Record)
    ensures r.segmentScores == segmentScores && r.normalized == normalize
    ensures r.lang == lang && r.modelPathOrUrl == modelPathOrUrl && r.identifier == s.identifier
    ensures r.score.Segments? <==> segmentScores
    ensures segmentScores ==> (|r.score.xs| == |s.segment(preds, refs)| &&
      forall i :: 0 <= i < |r.score.xs| ==>
        r.score.xs[i] == if normalize then pow(s.identifier.logBase, s.segment(preds, refs)[i])
                         else s.segment(preds, refs)[i])
    ensures !segmentScores ==>
      r.score.x == if normalize then pow(s.identifier.logBase, s.corpus(preds, refs)) else s.corpus(preds, refs)
  {
    var raw := if segmentScores then Segments(s.segment(preds, refs)) else Scalar(s.corpus(preds, refs));
    var score := if normalize then Normalize(raw, s.identifier.logBase, pow) else raw;
    Assemble(score, s, modelPathOrUrl, lang, segmentScores, normalize)
  }

  /** With a scorer that scores every pair, segment mode returns one score per input pair, in order. */
  lemma SinglePredSingleRefSegments(s: Scorer, preds: seq<string>, refs: seq<string>,
                                    normalize: bool, pow: Power,
                                    modelPathOrUrl: Option<string>, lang: string)
    requires OneScorePerPair(s)
    requires |preds| == |refs|
    ensures var r := SinglePredSingleRef(s, preds, refs, true, normalize, pow, modelPathOrUrl, lang);
      |r.score.xs| == |preds| &&
      forall i :: 0 <= i < |preds| ==>
        r.score.xs[i] == if normalize then pow(s.identifier.logBase, s.segment(preds, refs)[i])
                         else s.segment(preds, refs)[i]
  {
  }

  /**
   * Single prediction, several references per item: the per-item values
   * of `SinglePredItems`, then `Finish`, wrapped in the record.
   */
  function SinglePredMultiRef(s: Scorer, reduceFn: Reducer, preds: seq<string>, refs: seq<seq<string>>,
                              segmentScores: bool, normalize: bool, pow: Power,
                              modelPathOrUrl: Option<string>, lang: string)
    : (r: Result<Record, ComputeError>)
    ensures r.Failure? <==> !segmentScores && Min(|preds|, |refs|) == 0
    ensures r.Success? ==>
      r.value.segmentScores == segmentScores && r.value.normalized == normalize &&
      r.value.lang == lang && r.value.modelPathOrUrl == modelPathOrUrl &&
      r.value.identifier == s.identifier
  {
    var items := SinglePredItems(s.segment, reduceFn, preds, refs);
    match Finish(items, segmentScores, normalize, s.identifier.logBase, pow)
    case Failure(e) => Failure(e)
    case Success(score) => Success(Assemble(score, s, modelPathOrUrl, lang, segmentScores, normalize))
  }

  /**
   * Several predictions and references per item: the per-item values of
   * `MultiPredItems`, then `Finish`, wrapped in the record.
   */
  function MultiPredMultiRef(s: Scorer, reduceFn: Reducer, preds: seq<seq<string>>, refs: seq<seq<string>>,
                             segmentScores: bool, normalize: bool, pow: Power,
                             modelPathOrUrl: Option<string>, lang: string)
    : (r: Result<Record, ComputeError>)
    ensures r.Failure? <==> !segmentScores && Min(|preds|, |refs|) == 0
    ensures r.Success? ==>
      r.value.segmentScores == segmentScores && r.value.normalized == normalize &&
      r.value.lang == lang && r.value.modelPathOrUrl == modelPathOrUrl &&
      r.value.identifier == s.identifier
  {
    var items := MultiPredItems(s.segment, reduceFn, preds, refs);
    match Finish(items, segmentScores, normalize, s.identifier.logBase, pow)
    case Failure(e) => Failure(e)
    case Success(score) => Success(Assemble(score, s, modelPathOrUrl, lang, segmentScores, normalize))
  }

  /**
   * Segment mode of the single-prediction, multi-reference shape: one
   * value per zipped item, in order, each `reduceFn` of the item's
   * broadcast pair scores (normalised element by element if asked).
   */
  lemma SinglePredMultiRefSegments(s: Scorer, reduceFn: Reducer, preds: seq<string>, refs: seq<seq<string>>,
                                   normalize: bool, pow: Power, modelPathOrUrl: Option<string>, lang: string)
    ensures var r := SinglePredMultiRef(s, reduceFn, preds, refs, true, normalize, pow, modelPathOrUrl, lang);
      r.Success? && |r.value.score.xs| == Min(|preds|, |refs|) &&
      forall i :: 0 <= i < Min(|preds|, |refs|) ==>
        var v := reduceFn(s.segment(Broadcast(preds[i], |refs[i]|), refs[i]));
        r.value.score.xs[i] == if normalize then pow(s.identifier.logBase, v) else v
  {
  }

  /**
   * Segment mode of the multi-prediction shape: one value per zipped
   * item, in order; each reduces, in candidate order, the reduced pair
   * scores of every candidate, with the same `reduceFn` at both levels
   * (normalised element by element if asked).
   */
  lemma MultiPredMultiRefSegments(s: Scorer, reduceFn: Reducer, preds: seq<seq<string>>, refs: seq<seq<string>>,
                                  normalize: bool, pow: Power, modelPathOrUrl: Option<string>, lang: string)
    ensures var r := MultiPredMultiRef(s, reduceFn, preds, refs, true, normalize, pow, modelPathOrUrl, lang);
      r.Success? && |r.value.score.xs| == Min(|preds|, |refs|) &&
      forall i :: 0 <= i < Min(|preds|, |refs|) ==>
        var v := reduceFn(CandidateScores(s.segment, reduceFn, preds[i], refs[i]));
        r.value.score.xs[i] == if normalize then pow(s.identifier.logBase, v) else v
  {
  }

  /**
   * Corpus mode is the mean of exactly the list segment mode returns;
   * with normalisation, `base ** mean` (normalising after averaging).
   */
  lemma SinglePredMultiRefCorpusIsMean(s: Scorer, reduceFn: Reducer, preds: seq<string>, refs: seq<seq<string>>,
                                       normalize: bool, pow: Power, modelPathOrUrl: Option<string>, lang: string)
    requires Min(|preds|, |refs|) > 0
    ensures var segs := SinglePredMultiRef(s, reduceFn, preds, refs, true, false, pow, modelPathOrUrl, lang);
      var corpus := SinglePredMultiRef(s, reduceFn, preds, refs, false, normalize, pow, modelPathOrUrl, lang);
      segs.Success? && corpus.Success? && |segs.value.score.xs| > 0 &&
      corpus.value.score == Scalar(if normalize then pow(s.identifier.logBase, Mean(segs.value.score.xs))
                                   else Mean(segs.value.score.xs))
  {
  }

  /** The same as `SinglePredMultiRefCorpusIsMean`, for several predictions per item. */
  lemma MultiPredMultiRefCorpusIsMean(s: Scorer, reduceFn: Reducer, preds: seq<seq<string>>, refs: seq<seq<string>>,
                                      normalize: bool, pow: Power, modelPathOrUrl: Option<string>, lang: string)
    requires Min(|preds|, |refs|) > 0
    ensures var segs := MultiPredMultiRef(s, reduceFn, preds, refs, true, false, pow, modelPathOrUrl, lang);
      var corpus := MultiPredMultiRef(s, reduceFn, preds, refs, false, normalize, pow, modelPathOrUrl, lang);
      segs.Success? && corpus.Success? && |segs.value.score.xs| > 0 &&
      corpus.value.score == Scalar(if normalize then pow(s.identifier.logBase, Mean(segs.value.score.xs))
                                   else Mean(segs.value.score.xs))
  {
  }
}
