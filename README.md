# Prism metric adapter — a Dafny model

This project models the adapter that exposes the Prism machine-translation
metric (a multilingual NMT model used as a zero-shot paraphraser) through
jury's language-generation metric interface:
`jury/metrics/prism/prism_for_language_generation.py`.

The neural scorer itself is external. Here it is a value of the datatype
`PrismScore.Scorer`, which holds three things:

- `segment`: one score per (candidate, reference) pair;
- `corpus`: the scorer's own corpus score;
- `identifier`: its identifier record.

The adapter's own logic is modelled in full:

- **Model-source resolution** (`ModelSource`, `PrismMetric.DownloadModel`).
  - A missing source defaults to `http://data.statmt.org/prism/m39v1.tar`.
  - A local directory is used as it is.
  - A URL must end in `.tar`. Its model folder is the URL's basename with
    every `.tar` removed, joined to the extraction directory.
  - Anything else is one of two `ValueError`s.
  - `PathText` holds the `str.endswith`, `str.replace(pat, "")`,
    `os.path.basename` and `os.path.join` behaviour this relies on.
- **Once-only scorer construction** (`PrismMetric.LoadScorer`).
- **Cardinality reduction** (`Reduction`, the three compute methods).
  - Each prediction is broadcast to the length of its item's reference
    list, scored per pair, and reduced with the caller's `reduce_fn`.
  - With several predictions per item, the candidate values are reduced
    again with the same function.
  - Items are paired as Python's `zip` pairs them.
- **Aggregation, normalisation and the result record** (`PrismScore`).
  - Per-item values are averaged unless segment scores are asked for.
  - When asked, values are normalised afterwards as `log_base ** score`.
  - The record echoes `segment_scores`, `normalized`, `lang` and
    `model_path_or_url`.

External calls enter as function parameters:

- `os.path.isdir` and `validators.url` are `isDir` and `isUrl`.
- `dl_manager.download_and_extract` is `downloadAndExtract`.
- The `Prism(...)` constructor is `build`.
- `reduce_fn` is `reduceFn`.
- Python's `**` is `pow`.

Scores are `real`. Python's `float(...)` and `.tolist()` conversions are
identities on them.

Three behaviours of the code are kept as written:

- `reduce_fn` is accepted and never used in the single-prediction,
  single-reference mode. `ComputeSinglePredSingleRef` takes it, and its
  result does not depend on it.
- Items are paired with `zip`, which stops at the shorter list. The
  multi-reference modes therefore return
  `min(len(predictions), len(references))` values.
- Averaging no items raises `ZeroDivisionError`. The model returns
  `Failure(ZeroDivision)` for it; no precondition excludes empty input.

## Model

| member | source | states |
|---|---|---|
| PathText.EndsWithAppend | jury/metrics/prism/prism_for_language_generation.py:131 | any string with ".tar" appended passes the `.tar` suffix check |
| PathText.RemoveAll | jury/metrics/prism/prism_for_language_generation.py:134 | `replace(pat, "")` never lengthens a string; it leaves a string without `pat` unchanged, and a string holding `pat` loses at least `len(pat)` characters |
| PathText.RemoveAllAcrossTar | jury/metrics/prism/prism_for_language_generation.py:134 | removing every ".tar" from `a + ".tar" + b` removes that occurrence and treats `a` and `b` independently |
| PathText.RemoveAllTarSuffix | jury/metrics/prism/prism_for_language_generation.py:134 | removing every ".tar" from `p + ".tar"` gives the same as removing it from `p` |
| PathText.Basename | jury/metrics/prism/prism_for_language_generation.py:134 | the basename is the longest trailing part without '/': no '/' in it, and a '/' just before it unless it is the whole path |
| PathText.BasenameAfterSeparator | jury/metrics/prism/prism_for_language_generation.py:134 | a slash-free tail after a '/' (or at the start) is exactly the basename |
| PathText.Join | jury/metrics/prism/prism_for_language_generation.py:136 | `os.path.join` ends with its second part; an absolute second part replaces the first; otherwise the parts are concatenated when the first is empty or ends in '/', and joined by one '/' when it does not |
| PathText.BasenameOfJoin | jury/metrics/prism/prism_for_language_generation.py:134-136 | the basename of `join(a, b)` is `b` when `b` has no '/' |
| ModelSource.FolderName | jury/metrics/prism/prism_for_language_generation.py:134 | the model folder name has no '/' and is no longer than the URL's basename |
| ModelSource.RemoveAllPreservesAbsence | jury/metrics/prism/prism_for_language_generation.py:134 | removing ".tar" never introduces a '/' |
| ModelSource.Resolve | jury/metrics/prism/prism_for_language_generation.py:126-134 | error "neither directory nor URL" exactly when both tests fail; error "must be a tar file" exactly for a non-directory URL without the `.tar` suffix; a directory always wins and is used as it is; a download is only of the source itself, ends in ".tar", and has a slash-free folder |
| ModelSource.ArchiveModelDir | jury/metrics/prism/prism_for_language_generation.py:133-136 | a downloaded model's directory has the archive's folder name as its last component, wherever it was extracted |
| ModelSource.ArchiveFolder | jury/metrics/prism/prism_for_language_generation.py:134 | the archive `<prefix>/<name>.tar` has the folder `name` with any inner ".tar" removed |
| ModelSource.FolderNameDropsEveryTar | jury/metrics/prism/prism_for_language_generation.py:134 | every ".tar" of the basename is removed, not only the suffix: `<prefix>/<a>.tar<b>.tar` extracts to the folder `a` + `b`, each with its own ".tar"s removed |
| ModelSource.DefaultFolderName | jury/metrics/prism/prism_for_language_generation.py:124 | the default URL passes the `.tar` check and extracts to the folder `m39v1` |
| ModelSource.DefaultSourceResolves | jury/metrics/prism/prism_for_language_generation.py:123-136 | the default source, when it is a URL and not a directory, resolves to a download into folder `m39v1` |
| Reduction.Broadcast | jury/metrics/prism/prism_for_language_generation.py:225 | `[pred] * n` has length `n` and every entry is `pred` |
| Reduction.MapReal | jury/metrics/prism/prism_for_language_generation.py:189 | a list comprehension keeps the length and maps each element in place |
| Reduction.ZipWith | jury/metrics/prism/prism_for_language_generation.py:224 | iterating over `zip` yields `min` of the two lengths, entry `i` from the `i`-th pair |
| Reduction.SumBounds | jury/metrics/prism/prism_for_language_generation.py:231 | a sum of `n` values in `[lo, hi]` lies in `[n*lo, n*hi]` |
| Reduction.MeanBounds | jury/metrics/prism/prism_for_language_generation.py:231 | the corpus mean lies between the smallest and the largest item value |
| Reduction.CandidateScores | jury/metrics/prism/prism_for_language_generation.py:257-264 | one value per candidate, in candidate order, each `reduce_fn` of the scores of that candidate broadcast against the item's references |
| Reduction.SinglePredItems | jury/metrics/prism/prism_for_language_generation.py:223-228 | one value per zipped item, in order, each `reduce_fn` of the scores of the prediction repeated `len(refs)` times against `refs` |
| Reduction.MultiPredItems | jury/metrics/prism/prism_for_language_generation.py:255-266 | one value per zipped item, in order, each `reduce_fn` over the candidates' reduced scores: the same function at both levels |
| Reduction.MultiPredGeneralisesSinglePred | jury/metrics/prism/prism_for_language_generation.py:224-266 | for a `reduce_fn` that keeps a single score, one-candidate lists in multi-prediction mode give the single-prediction values |
| PrismScore.Normalize | jury/metrics/prism/prism_for_language_generation.py:185-189 | a scalar becomes `base ** score`; a list is mapped element by element, keeping length and order |
| PrismScore.Finish | jury/metrics/prism/prism_for_language_generation.py:230-234 | division by zero exactly in corpus mode with no items; segment mode keeps every item (normalised pointwise if asked); corpus mode is the mean, normalised after averaging |
| PrismScore.SinglePredSingleRef | jury/metrics/prism/prism_for_language_generation.py:191-211 | one scorer call over the batch: the scorer's own segment scores or corpus score, normalised with its log base if asked (element by element for the segment list); flags, language, source and identifier echoed |
| PrismScore.SinglePredSingleRefSegments | jury/metrics/prism/prism_for_language_generation.py:180-182 | with a scorer that scores every pair, segment mode returns one score per input pair, in order |
| PrismScore.SinglePredMultiRef | jury/metrics/prism/prism_for_language_generation.py:213-243 | fails exactly in corpus mode with no zipped items; otherwise flags, language, source and identifier are echoed |
| PrismScore.MultiPredMultiRef | jury/metrics/prism/prism_for_language_generation.py:245-281 | fails exactly in corpus mode with no zipped items; otherwise flags, language, source and identifier are echoed |
| PrismScore.SinglePredMultiRefSegments | jury/metrics/prism/prism_for_language_generation.py:223-234 | segment mode gives `min(len(preds), len(refs))` values in item order, each the reduced broadcast scores, normalised if asked |
| PrismScore.MultiPredMultiRefSegments | jury/metrics/prism/prism_for_language_generation.py:255-272 | segment mode gives one value per zipped item, each the two-level reduction over the item's candidates in order, normalised element by element if asked |
| PrismScore.SinglePredMultiRefCorpusIsMean | jury/metrics/prism/prism_for_language_generation.py:230-234 | corpus mode equals the mean of the list segment mode returns, and with normalisation `base ** mean` |
| PrismScore.MultiPredMultiRefCorpusIsMean | jury/metrics/prism/prism_for_language_generation.py:268-272 | the same for several predictions per item |
| PrismMetric.PrismForLanguageGeneration.constructor | jury/metrics/prism/prism_for_language_generation.py:101-115 | stores the configuration, defaulting to no model source, language "en" and temperature 1.0; no model directory and no scorer yet |
| PrismMetric.PrismForLanguageGeneration.ModelIdentifier | jury/metrics/prism/prism_for_language_generation.py:117-120 | the scorer's identifier once a scorer exists, otherwise none |
| PrismMetric.PrismForLanguageGeneration.DownloadModel | jury/metrics/prism/prism_for_language_generation.py:122-136 | fills in the default source (kept even when an error follows); on error leaves the model directory alone; otherwise the model directory is the resolved one |
| PrismMetric.PrismForLanguageGeneration.LoadScorer | jury/metrics/prism/prism_for_language_generation.py:167-170 | an existing scorer is kept; only a missing one is built from model directory, language and temperature |
| PrismMetric.PrismForLanguageGeneration.ComputePrismScore | jury/metrics/prism/prism_for_language_generation.py:172-183 | loads the scorer once, then returns its per-pair list or its corpus float |
| PrismMetric.PrismForLanguageGeneration.ComputeSinglePredSingleRef | jury/metrics/prism/prism_for_language_generation.py:191-211 | the record equals `SinglePredSingleRef` for the loaded scorer and does not depend on `reduce_fn` |
| PrismMetric.PrismForLanguageGeneration.ComputeSinglePredMultiRef | jury/metrics/prism/prism_for_language_generation.py:213-243 | the loop's result equals `SinglePredMultiRef` for the loaded scorer |
| PrismMetric.PrismForLanguageGeneration.ComputeMultiPredMultiRef | jury/metrics/prism/prism_for_language_generation.py:245-281 | the nested loops' result equals `MultiPredMultiRef` for the loaded scorer |
| PrismMetric.PrismForLanguageGeneration.FinishRecord | jury/metrics/prism/prism_for_language_generation.py:230-243 | averaging, division by zero, normalisation and record assembly agree with `Finish` and the echoed fields |

## Left out

- The Prism neural scorer (`scorer.score`, `identifier()`): external code fetched at run time. It is the abstract `Scorer` value and the `build` factory; the model does not say what scores it gives.
- `_download_and_prepare` and `_get_external_resource`: network and file-system I/O (downloading the model and the scorer's source). Only the decision logic of `_download_model` is modelled, and the extraction step is the parameter `downloadAndExtract`.
- `os.path.isdir` and `validators.url`: file-system and library checks, modelled as the predicates `isDir` and `isUrl`.
- `_info`, the docstrings and the `datasets` registration: framework metadata.
- Floating point: scores are exact reals, `**` is the uninterpreted `pow`, and the mean is exact. Python's rounding is not modelled.
- `**kwargs` passed through to the scorer, and the superclass dispatch that picks one of the three compute modes (not part of this model). The compute methods' own defaults `segment_scores=False` and `normalize=False` are not modelled: the methods here take both explicitly.
- constructor: `resulting_name`, `compute_kwargs` and the extra `**kwargs` go to the superclass, which is not part of this model.
- `PathText` models POSIX `os.path` only (separator '/'). On Windows, `ntpath.basename` also splits at a backslash and `ntpath.join` inserts a backslash.
- A `reduce_fn` of `None` in the multi-reference modes (Python raises `TypeError` when calling it): `reduceFn` is always a total function here. Likewise an empty reference or candidate list gives whatever `reduceFn` returns on an empty list; a `reduce_fn` such as `max` that raises there is not modelled.
- The identifier's entries other than `log_base` are carried along unread as a map.
- Concurrent first use of the scorer: the model is single-threaded.
