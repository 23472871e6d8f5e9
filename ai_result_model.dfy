/** The AI result record and its ranked predictions
    (app/app/models/ai_result.py). Confidences are integers in basis points. */
module AiResultModel {
  import opened Common
  import opened Sorting

  /** One `(category, confidence)` item of the `confidence_scores` dict, in
      insertion order. */
  datatype Score = Score(category: string, confidence: int)

  function Confidence(s: Score): int {
    s.confidence
  }

  /** The `diagnosis` JSON column: `{"primary": ..., "raw_predictions": {...}}`. */
  datatype AiDiagnosis = AiDiagnosis(primary: string, rawPredictions: seq<Score>)

  datatype AIResult = AIResult(
    id: Id,
    sampleId: Id,
    diagnosis: AiDiagnosis,
    confidenceScores: seq<Score>,
    primaryPrediction: Option<string>,
    primaryConfidence: Option<int>,
    heatmapPath: Option<string>,
    modelVersion: Option<string>,
    modelName: Option<string>,
    aiNotes: Option<string>,
    processedAt: int,
    createdAt: int)

  /** `get_top_predictions(n)`: the scores sorted by confidence, highest first
      and stably, cut with Python's `[:n]`. */
  function GetTopPredictions(r: AIResult, n: int): (top: seq<Score>)
    ensures r.confidenceScores == [] ==> top == []
    ensures n >= 0 ==> |top| == Min(n, |r.confidenceScores|)
    ensures n < 0 ==> |top| == Max(0, |r.confidenceScores| + n)
    ensures top <= SortDesc(r.confidenceScores, Confidence)
    ensures SortedDesc(top, Confidence)
    ensures multiset(top) <= multiset(r.confidenceScores)
    ensures top != [] ==> forall s :: s in r.confidenceScores ==> s.confidence <= top[0].confidence
  {
    if r.confidenceScores == [] then []
    else
      var sorted := SortDesc(r.confidenceScores, Confidence);
      SortDescCorrect(r.confidenceScores, Confidence);
      SortDescHeadIsMax(r.confidenceScores, Confidence);
      var top := TakePython(sorted, n);
      SortedPrefix(top, sorted, Confidence);
      top
  }

  lemma {:induction false} WithKeyOfPrefix<T>(a: seq<T>, b: seq<T>, key: T -> int, k: int)
    requires a <= b
    ensures WithKey(a, key, k) <= WithKey(b, key, k)
  {
    if a != [] {
      assert a[1..] <= b[1..];
      WithKeyOfPrefix(a[1..], b[1..], key, k);
    }
  }

  /** Predictions with equal confidence keep their insertion order: those of
      confidence `c` in the output are the first ones of confidence `c` in
      `confidence_scores`. */
  lemma TopPredictionsStable(r: AIResult, n: int, c: int)
    ensures WithKey(GetTopPredictions(r, n), Confidence, c) <= WithKey(r.confidenceScores, Confidence, c)
  {
    var top := GetTopPredictions(r, n);
    WithKeyOfPrefix(top, SortDesc(r.confidenceScores, Confidence), Confidence, c);
    SortDescStable(r.confidenceScores, Confidence, c);
  }
}
