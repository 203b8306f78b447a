/**
 * The Prism metric object: its configuration, the model directory it
 * resolves, the scorer it constructs once, and the three compute methods
 * that drive the scorer for each input shape.
 */
module PrismMetric {
  import opened Wrappers
  import opened PathText
  import opened ModelSource
  import opened Reduction
  import opened PrismScore

  /** The external `Prism(model_dir=..., lang=..., temperature=...)` constructor. */
  type ScorerFactory = (Option<string>, string, real) -> Scorer

  class PrismForLanguageGeneration {
    var modelPathOrUrl: Option<string>
    var lang: string
    var temperature: real
    var modelDir: Option<string>
    var scorer: Option<Scorer>

    /**
     * A metric with its configuration and neither a model directory nor a
     * scorer yet. By default no model source is given (the download step
     * fills in the default URL), the language is English and the
     * temperature 1.0.
     */
    constructor (modelPathOrUrl: Option<string> := None, lang: string := "en", temperature: real := 1.0)
      ensures this.modelPathOrUrl == modelPathOrUrl && this.lang == lang && this.temperature == temperature
      ensures modelDir == None && scorer == None
    {
      this.modelPathOrUrl := modelPathOrUrl;
      this.lang := lang;
      this.temperature := temperature;
      modelDir := None;
      scorer := None;
    }

    /** The `model_identifier` property: the scorer's identifier once there is a scorer. */
    function ModelIdentifier(): (r: Option<Identifier>)
      reads this
      ensures r.Some? <==> scorer.Some?
      ensures r.Some? ==> r.value == scorer.value.identifier
    {
      match scorer
      case Some(s) => Some(s.identifier)
      case None => None
    }

    /**
     * The scorer after a load that found `before`: kept when there was
     * one, otherwise built from the current configuration.
     */
    ghost predicate LoadedFrom(before: Option<Scorer>, build: ScorerFactory)
      reads this
    {
      scorer == if before.Some? then before else Some(build(modelDir, lang, temperature))
    }

    /**
     * Fills in the default source, then resolves it: a directory becomes
     * the model directory; a ".tar" URL is downloaded and extracted and
     * its folder inside the extraction directory becomes the model
     * directory; anything else is an error that leaves the model
     * directory as it was (the default source stays filled in).
     */
    method DownloadModel(isDir: string -> bool, isUrl: string -> bool, downloadAndExtract: string -> string)
      returns (outcome: Outcome<ModelSourceError>)
      modifies this`modelPathOrUrl, this`modelDir
      ensures modelPathOrUrl == Some(old(modelPathOrUrl).GetOr(DefaultModelUrl))
      ensures Resolve(modelPathOrUrl.value, isDir, isUrl).Failure? ==>
        outcome == Fail(Resolve(modelPathOrUrl.value, isDir, isUrl).error) && modelDir == old(modelDir)
      ensures Resolve(modelPathOrUrl.value, isDir, isUrl).Success? ==>
        outcome == Pass &&
        modelDir == Some(ModelDir(Resolve(modelPathOrUrl.value, isDir, isUrl).value, downloadAndExtract))
    {
      if modelPathOrUrl.None? {
        modelPathOrUrl := Some(DefaultModelUrl);
      }
      var source := modelPathOrUrl.value;
      if !isDir(source) && !isUrl(source) {
        return Fail(NeitherDirectoryNorUrl);
      } else if isDir(source) {
        modelDir := Some(source);
      } else {
        if !EndsWith(source, TarSuffix) {
          return Fail(NotTarArchive);
        }
        var folderName := FolderName(source);
        var extractionDir := downloadAndExtract(source);
        modelDir := Some(Join(extractionDir, folderName));
      }
      outcome := Pass;
    }

    /** Constructs the scorer only when there is none; an existing one is kept. */
    method LoadScorer(build: ScorerFactory)
      modifies this`scorer
      ensures LoadedFrom(old(scorer), build)
      ensures scorer.Some?
    {
      if scorer.None? {
        scorer := Some(build(modelDir, lang, temperature));
      }
    }

    /** Loads the scorer and asks it for per-pair scores or its corpus score. */
    method ComputePrismScore(cands: seq<string>, refs: seq<string>, segmentScores: bool, build: ScorerFactory)
      returns (score: ScoreValue)
      modifies this`scorer
      ensures LoadedFrom(old(scorer), build) && scorer.Some?
      ensures score == if segmentScores then Segments(scorer.value.segment(cands, refs))
                       else Scalar(scorer.value.corpus(cands, refs))
    {
      LoadScorer(build);
      var s := scorer.value;
      if segmentScores {
        score := Segments(s.segment(cands, refs));
      } else {
        score := Scalar(s.corpus(cands, refs));
      }
    }

    /**
     * One prediction and one reference per item. `reduceFn` is accepted
     * and never used: the result does not depend on it.
     */
    method ComputeSinglePredSingleRef(preds: seq<string>, refs: seq<string>, reduceFn: Reducer,
                                      segmentScores: bool, normalize: bool, pow: Power, build: ScorerFactory)
      returns (r: Record)
      modifies this`scorer
      ensures LoadedFrom(old(scorer), build) && scorer.Some?
      ensures r == SinglePredSingleRef(scorer.value, preds, refs, segmentScores, normalize, pow, modelPathOrUrl, lang)
    {
      var score := ComputePrismScore(preds, refs, segmentScores, build);
      if normalize {
        score := Normalize(score, ModelIdentifier().value.logBase, pow);
      }
      r := Record(score, ModelIdentifier().value, modelPathOrUrl, lang, segmentScores, normalize);
    }

    /**
     * One prediction and several references per item: each prediction is
     * broadcast against its references, scored per pair, and reduced;
     * the values are collected in item order, then averaged and
     * normalised as asked.
     */
    method ComputeSinglePredMultiRef(preds: seq<string>, refs: seq<seq<string>>, reduceFn: Reducer,
                                     segmentScores: bool, normalize: bool, pow: Power, build: ScorerFactory)
      returns (r: Result<Record, ComputeError>)
      modifies this`scorer
      ensures LoadedFrom(old(scorer), build) && scorer.Some?
      ensures r == SinglePredMultiRef(scorer.value, reduceFn, preds, refs, segmentScores, normalize, pow,
                                      modelPathOrUrl, lang)
    {
      LoadScorer(build);
      ghost var s := scorer.value;
      var scores: seq<real> := [];
      var n := Min(|preds|, |refs|);
      var i := 0;
      while i < n
        invariant 0 <= i <= n
        invariant scorer == Some(s)
        invariant |scores| == i
        invariant forall j :: 0 <= j < i ==>
          scores[j] == reduceFn(s.segment(Broadcast(preds[j], |refs[j]|), refs[j]))
      {
        var pred := Broadcast(preds[i], |refs[i]|);
        var prismScore := ComputePrismScore(pred, refs[i], true, build);
        var reducedScore := reduceFn(prismScore.xs);
        scores := scores + [reducedScore];
        i := i + 1;
      }
      assert scores == SinglePredItems(s.segment, reduceFn, preds, refs);
      r := FinishRecord(scores, segmentScores, normalize, pow);
    }

    /**
     * Several predictions and several references per item: every
     * candidate is broadcast against the item's references, scored and
     * reduced; the candidate values are reduced again with the same
     * function; the item values are collected in order, then averaged and
     * normalised as asked.
     */
    method ComputeMultiPredMultiRef(preds: seq<seq<string>>, refs: seq<seq<string>>, reduceFn: Reducer,
                                    segmentScores: bool, normalize: bool, pow: Power, build: ScorerFactory)
      returns (r: Result<Record, ComputeError>)
      modifies this`scorer
      ensures LoadedFrom(old(scorer), build) && scorer.Some?
      ensures r == MultiPredMultiRef(scorer.value, reduceFn, preds, refs, segmentScores, normalize, pow,
                                     modelPathOrUrl, lang)
    {
      LoadScorer(build);
      ghost var s := scorer.value;
      var scores: seq<real> := [];
      var n := Min(|preds|, |refs|);
      var i := 0;
      while i < n
        invariant 0 <= i <= n
        invariant scorer == Some(s)
        invariant |scores| == i
        invariant forall j :: 0 <= j < i ==>
          scores[j] == reduceFn(CandidateScores(s.segment, reduceFn, preds[j], refs[j]))
      {
        var cands := preds[i];
        var predScores: seq<real> := [];
        var k := 0;
        while k < |cands|
          invariant 0 <= k <= |cands|
          invariant scorer == Some(s)
          invariant |predScores| == k
          invariant forall j :: 0 <= j < k ==>
            predScores[j] == reduceFn(s.segment(Broadcast(cands[j], |refs[i]|), refs[i]))
        {
          var pred := Broadcast(cands[k], |refs[i]|);
          var prismScore := ComputePrismScore(pred, refs[i], true, build);
          var reducedPredScore := reduceFn(prismScore.xs);
          predScores := predScores + [reducedPredScore];
          k := k + 1;
        }
        assert predScores == CandidateScores(s.segment, reduceFn, cands, refs[i]);
        var reducedScore := reduceFn(predScores);
        scores := scores + [reducedScore];
        i := i + 1;
      }
      assert scores == MultiPredItems(s.segment, reduceFn, preds, refs);
      r := FinishRecord(scores, segmentScores, normalize, pow);
    }

    /**
     * The common tail of the multi-reference modes: average unless
     * segment scores are asked for (no items: division by zero),
     * normalise with the scorer's log base if asked, build the record.
     */
    method FinishRecord(scores: seq<real>, segmentScores: bool, normalize: bool, pow: Power)
      returns (r: Result<Record, ComputeError>)
      requires scorer.Some?
      ensures r == match Finish(scores, segmentScores, normalize, scorer.value.identifier.logBase, pow)
        case Failure(e) => Failure(e)
        case Success(score) => Success(Assemble(score, scorer.value, modelPathOrUrl, lang, segmentScores, normalize))
    {
      var score := Segments(scores);
      if !segmentScores {
        if |scores| == 0 {
          return Failure(ZeroDivision);
        }
        score := Scalar(Sum(scores) / (|scores| as real));
      }
      if normalize {
        score := Normalize(score, ModelIdentifier().value.logBase, pow);
      }
      r := Success(Record(score, ModelIdentifier().value, modelPathOrUrl, lang, segmentScores, normalize));
    }
  }
}
