/** `AIResultService` (app/app/services/ai_result_service.py): the simulated
    inference and the analysis of a screening or a sample. Scores are in
    basis points, so `1.0` is `Scale`. The `random.uniform(0, remaining * 0.8)`
    draws are the `draws` parameter, each the drawn fraction of what remains,
    in basis points. The current user of the service is `user`. */
module AiResultService {
  import opened Common
  import opened Users
  import opened Records
  import opened AiResultModel
  import opened AuditModel
  import opened Store

  const Scale: int := 10000
  /** `random.uniform(0, remaining * 0.8)` draws at most 0.8 of what remains. */
  const MaxDraw: int := 8000
  /** `primary_confidence < 0.7`. */
  const LowConfidenceThreshold: int := 7000

  /** `DIAGNOSIS_CATEGORIES`, in their order. */
  const Categories: seq<string> :=
    ["nilm", "asc_us", "asc_h", "lsil", "hsil", "scc", "agc", "adenocarcinoma", "unsatisfactory"]

  /** The service's category list is the `DiagnosisCategory` enum, in order. */
  lemma CategoriesAreTheEnum()
    ensures Categories == [Nilm.Value(), AscUs.Value(), AscH.Value(), Lsil.Value(), Hsil.Value(),
                           Scc.Value(), Agc.Value(), Adenocarcinoma.Value(), Unsatisfactory.Value()]
  {
  }

  predicate ValidDraws(draws: seq<int>) {
    forall i :: 0 <= i < |draws| ==> 0 <= draws[i] <= MaxDraw
  }

  function Sum(xs: seq<int>): int {
    if xs == [] then 0 else xs[0] + Sum(xs[1..])
  }

  /** The scores the loop hands out from `remaining`: each draw takes its
      fraction of what is left, and the last category takes the rest. */
  function Shares(remaining: int, draws: seq<int>): (r: seq<int>)
    ensures |r| == |draws| + 1
    decreases |draws|
  {
    if draws == [] then [remaining]
    else
      var score := remaining * draws[0] / Scale;
      [score] + Shares(remaining - score, draws[1..])
  }

  /** The shares split `remaining` exactly, none of them negative. */
  lemma {:induction false} SharesSplit(remaining: int, draws: seq<int>)
    requires remaining >= 0 && ValidDraws(draws)
    decreases |draws|
    ensures Sum(Shares(remaining, draws)) == remaining
    ensures forall k :: 0 <= k < |Shares(remaining, draws)| ==> 0 <= Shares(remaining, draws)[k] <= remaining
  {
    if draws != [] {
      var score := remaining * draws[0] / Scale;
      assert 0 <= remaining * draws[0] <= remaining * Scale;
      assert 0 <= score <= remaining;
      assert ValidDraws(draws[1..]) by {
        forall i | 0 <= i < |draws[1..]| ensures 0 <= draws[1..][i] <= MaxDraw {
          assert draws[1..][i] == draws[i + 1];
        }
      }
      SharesSplit(remaining - score, draws[1..]);
      var r := Shares(remaining, draws);
      assert r[1..] == Shares(remaining - score, draws[1..]);
    }
  }

  /** The score sheet of `_simulate_ai_inference`: the categories in order
      with the shares of the whole, and `unsatisfactory` at 0. */
  function ScoreSheet(draws: seq<int>): (sheet: seq<Score>)
    requires |draws| == |Categories| - 2
    ensures |sheet| == |Categories|
    ensures forall k :: 0 <= k < |sheet| ==> sheet[k].category == Categories[k]
  {
    var values := Shares(Scale, draws) + [0];
    seq(|Categories|, k requires 0 <= k < |Categories| => Score(Categories[k], values[k]))
  }

  function Confidences(scores: seq<Score>): (r: seq<int>)
    ensures |r| == |scores|
    ensures forall k :: 0 <= k < |r| ==> r[k] == scores[k].confidence
  {
    seq(|scores|, k requires 0 <= k < |scores| => scores[k].confidence)
  }

  /** The score sheet has a score for all nine categories, `unsatisfactory`
      at 0, every score between 0 and 1, and they add up to exactly 1. */
  lemma ScoreSheetIsDistribution(draws: seq<int>)
    requires |draws| == |Categories| - 2 && ValidDraws(draws)
    ensures ScoreSheet(draws)[|Categories| - 1] == Score("unsatisfactory", 0)
    ensures forall k :: 0 <= k < |Categories| ==> 0 <= ScoreSheet(draws)[k].confidence <= Scale
    ensures Sum(Confidences(ScoreSheet(draws))) == Scale
  {
    SharesSplit(Scale, draws);
    var c := Confidences(ScoreSheet(draws));
    assert c == Shares(Scale, draws) + [0];
    SumSnoc(Shares(Scale, draws), 0);
  }

  lemma {:induction false} SumSnoc(xs: seq<int>, x: int)
    ensures Sum(xs + [x]) == Sum(xs) + x
    decreases |xs|
  {
    if xs != [] {
      assert (xs + [x])[1..] == xs[1..] + [x];
      SumSnoc(xs[1..], x);
    }
  }

  /** The loop of `_simulate_ai_inference` over all categories but the last:
      a draw's share for each, what remains for `adenocarcinoma`, then
      `unsatisfactory` at 0. */
  method SimulateScores(draws: seq<int>) returns (scores: seq<Score>)
    requires |draws| == |Categories| - 2
    ensures scores == ScoreSheet(draws)
  {
    var shares := Shares(Scale, draws);
    scores := [];
    var remaining := Scale;
    var i := 0;
    while i < |Categories| - 1
      invariant 0 <= i <= |Categories| - 1
      invariant |scores| == i
      invariant forall k :: 0 <= k < i ==> scores[k] == Score(Categories[k], shares[k])
      invariant i <= |draws| ==> Shares(remaining, draws[i..]) == shares[i..]
    {
      if i == |Categories| - 2 {
        assert draws[i..] == [];
        scores := scores + [Score(Categories[i], remaining)];
      } else {
        var score := remaining * draws[i] / Scale;
        assert draws[i..][1..] == draws[i + 1..];
        scores := scores + [Score(Categories[i], score)];
        remaining := remaining - score;
      }
      i := i + 1;
    }
    scores := scores + [Score(Categories[|Categories| - 1], 0)];
  }

  /** `max(scores, key=scores.get)`: the position of the first maximum, which
      is what `max` keeps when it only replaces on a strictly larger score. */
  function ArgMaxFirst(scores: seq<Score>): (i: nat)
    requires scores != []
    ensures i < |scores|
    ensures forall k :: 0 <= k < |scores| ==> scores[k].confidence <= scores[i].confidence
    ensures forall k :: 0 <= k < i ==> scores[k].confidence < scores[i].confidence
  {
    if |scores| == 1 then 0
    else
      var j := ArgMaxFirst(scores[..|scores| - 1]);
      if scores[|scores| - 1].confidence > scores[j].confidence then |scores| - 1 else j
  }

  /** A count of tenths of a percent as `f"{x:.1%}"` writes it, after `sign`. */
  function PercentText(sign: string, tenths: nat): string {
    sign + NatToString(tenths / 10) + "." + [DigitChar(tenths % 10)] + "%"
  }

  /** The text reads back as the count it was written from. */
  lemma PercentTextReads(sign: string, tenths: nat)
    requires sign == "" || sign == "-"
    ensures |PercentText(sign, tenths)| >= |sign| + 4
    ensures PercentText(sign, tenths)[|PercentText(sign, tenths)| - 1] == '%'
    ensures PercentText(sign, tenths)[|PercentText(sign, tenths)| - 3] == '.'
    ensures PercentText(sign, tenths)[0] == '-' <==> sign == "-"
    ensures var whole := PercentText(sign, tenths)[|sign|..|PercentText(sign, tenths)| - 3];
            |whole| >= 1 && (|whole| == 1 || whole[0] != '0')
    ensures IsDigits(PercentText(sign, tenths)[|sign|..|PercentText(sign, tenths)| - 3])
    ensures IsDigits(PercentText(sign, tenths)[|PercentText(sign, tenths)| - 2..|PercentText(sign, tenths)| - 1])
    ensures DigitsValue(PercentText(sign, tenths)[|sign|..|PercentText(sign, tenths)| - 3]) * 10
            + DigitsValue(PercentText(sign, tenths)[|PercentText(sign, tenths)| - 2..|PercentText(sign, tenths)| - 1]) == tenths
  {
    var whole := NatToString(tenths / 10);
    var last := NatToString(tenths % 10);
    assert last == [DigitChar(tenths % 10)];
    PercentShape(sign, whole, DigitChar(tenths % 10));
    var text := PercentText(sign, tenths);
    assert text[|sign|..|text| - 3] == whole && text[|text| - 2..|text| - 1] == last;
    NatToStringRoundTrip(tenths / 10);
    NatToStringRoundTrip(tenths % 10);
    assert DigitsValue(whole) * 10 + DigitsValue(last) == (tenths / 10) * 10 + tenths % 10 == tenths;
  }

  /** Where the parts of a percent text sit. */
  lemma PercentShape(sign: string, whole: string, d: char)
    ensures var t := sign + whole + "." + [d] + "%";
            && |t| == |sign| + |whole| + 3
            && t[|sign|..|t| - 3] == whole
            && t[|t| - 2..|t| - 1] == [d]
            && t[|t| - 1] == '%' && t[|t| - 3] == '.'
            && (sign != "" ==> t[0] == sign[0])
            && (sign == "" && whole != "" ==> t[0] == whole[0])
  {
    var t := sign + whole + "." + [d] + "%";
    assert t[|sign|..|t| - 3] == whole;
  }

  /** `f"{c:.1%}"` of a score in basis points: the tenth of a percent nearest
      to it, an exact half rounded away from zero. */
  function FormatPercent(c: int): (text: string)
    ensures |text| >= 4 && text[|text| - 1] == '%' && text[|text| - 3] == '.'
    ensures text[0] == '-' <==> c < 0
    ensures var digits := if c < 0 then text[1..|text| - 3] else text[..|text| - 3];
            && IsDigits(digits) && IsDigits(text[|text| - 2..|text| - 1])
            && |digits| >= 1 && (|digits| == 1 || digits[0] != '0')
            && var tenths := DigitsValue(digits) * 10 + DigitsValue(text[|text| - 2..|text| - 1]);
               10 * tenths - 5 <= (if c < 0 then -c else c) < 10 * tenths + 5
  {
    var magnitude: nat := if c < 0 then -c else c;
    var sign := if c < 0 then "-" else "";
    PercentTextReads(sign, (magnitude + 5) / 10);
    PercentText(sign, (magnitude + 5) / 10)
  }

  const NotesLead: string := "AI analysis complete. Primary finding: "
  const LowConfidenceText: string := " Low confidence - recommend manual review."

  /** The notes of an inference: the primary finding in upper case, and the
      manual-review warning exactly when the confidence is below 0.7. */
  function InferenceNotes(primary: string, confidence: int): (notes: string)
    ensures |NotesLead| <= |notes| && notes[..|NotesLead|] == NotesLead
    ensures var finding := NotesLead + Upper(primary) + " with " + FormatPercent(confidence) + " confidence.";
            && |finding| <= |notes| && notes[..|finding|] == finding
            && notes[|finding|..] == if confidence < LowConfidenceThreshold then LowConfidenceText else ""
    ensures EndsWith(notes, LowConfidenceText) <==> confidence < LowConfidenceThreshold
  {
    var finding := NotesLead + Upper(primary) + " with " + FormatPercent(confidence) + " confidence.";
    var notes := if confidence < LowConfidenceThreshold then finding + LowConfidenceText else finding;
    assert notes[..|NotesLead|] == NotesLead;
    // " confidence." and the warning differ in their next-to-last character.
    EndsWithChar(notes, LowConfidenceText, 2);
    notes
  }

  /** The dictionary `_simulate_ai_inference` returns. */
  datatype Inference = Inference(scores: seq<Score>, primary: string, primaryConfidence: int, notes: string)

  /** The primary prediction and the notes of a score sheet: a category of
      maximal score, the earliest one on a tie, and its score. */
  function Summarise(scores: seq<Score>): (r: Inference)
    requires scores != []
    ensures r.scores == scores
    ensures exists i :: 0 <= i < |scores| && scores[i] == Score(r.primary, r.primaryConfidence)
                        && forall k :: 0 <= k < i ==> scores[k].confidence < r.primaryConfidence
    ensures forall k :: 0 <= k < |scores| ==> scores[k].confidence <= r.primaryConfidence
    ensures EndsWith(r.notes, LowConfidenceText) <==> r.primaryConfidence < LowConfidenceThreshold
  {
    var i := ArgMaxFirst(scores);
    Inference(scores, scores[i].category, scores[i].confidence, InferenceNotes(scores[i].category, scores[i].confidence))
  }

  /** `_simulate_ai_inference`: the score sheet of the draws, summarised. */
  method SimulateAiInference(draws: seq<int>) returns (inf: Inference)
    requires |draws| == |Categories| - 2 && ValidDraws(draws)
    ensures forall k :: 0 <= k < |Categories| ==> 0 <= ScoreSheet(draws)[k].confidence <= Scale
    ensures inf == Inferred(draws)
  {
    var scores := SimulateScores(draws);
    ScoreSheetIsDistribution(draws);
    inf := Summarise(scores);
  }

  /** The inference made from one set of draws. */
  function Inferred(draws: seq<int>): Inference
    requires |draws| == |Categories| - 2
  {
    Summarise(ScoreSheet(draws))
  }

  // ---------------------------------------------------------------------------
  // run_analysis

  /** What `run_analysis` made: a diagnosis for a screening, or an AI result
      for a sample. */
  datatype Analysis = DiagnosisMade(diagnosis: Diagnosis) | ResultMade(result: AIResult)

  /** The `details` of the audit entry: the prediction and its confidence. */
  function InferenceDetails(inf: Inference): JsonObject {
    map["prediction" := JStr(inf.primary), "confidence" := JInt(inf.primaryConfidence)]
  }

  /** The diagnosis the screening branch adds: the AI fields of the inference
      and the column defaults, `ai_analysis_date` left unset. */
  function InferredDiagnosis(id: Id, screeningId: Id, inf: Inference, now: int): (d: Diagnosis)
    ensures d.id == id && d.screeningId == screeningId && d.createdAt == now
    ensures d.aiPrediction == Some(inf.primary) && d.aiConfidence == Some(inf.primaryConfidence)
    ensures d.aiNotes == Some(inf.notes) && d.aiAnalysisDate == None
    ensures d.reviewerId == None && d.reviewDate == None && d.finalDiagnosis == None && d.finalizedAt == None
  {
    NewDiagnosis(id, screeningId, now).(aiPrediction := Some(inf.primary), aiConfidence := Some(inf.primaryConfidence),
                                        aiNotes := Some(inf.notes))
  }

  const ModelName: string := "CervixAI-ResNet50"
  const ModelVersion: string := "1.0.0"

  /** The AI result the sample branch adds. */
  function InferredResult(id: Id, sampleId: Id, inf: Inference, now: int): (r: AIResult)
    ensures r.id == id && r.sampleId == sampleId
    ensures r.diagnosis == AiDiagnosis(inf.primary, inf.scores) && r.confidenceScores == inf.scores
    ensures r.primaryPrediction == Some(inf.primary) && r.primaryConfidence == Some(inf.primaryConfidence)
    ensures r.modelName == Some(ModelName) && r.modelVersion == Some(ModelVersion)
    ensures r.aiNotes == Some(inf.notes) && r.heatmapPath == None
    ensures r.processedAt == now && r.createdAt == now
  {
    AIResult(id, sampleId, AiDiagnosis(inf.primary, inf.scores), inf.scores, Some(inf.primary),
             Some(inf.primaryConfidence), None, Some(ModelVersion), Some(ModelName), Some(inf.notes), now, now)
  }

  /** The state after the screening branch commits: the inferred diagnosis
      under the next id, the screening `ai_analyzed`, and the entry logged
      when there is a user. */
  function ScreeningAnalysed(s: DbState, user: Option<User>, screeningId: Id, inf: Inference, now: int): DbState
    requires screeningId in s.screenings
  {
    var d := InferredDiagnosis(s.nextId, screeningId, inf, now);
    var es := ServiceEntries(user, s.nextId + 1, now, "diagnosis.ai_analyze", "ai_result", d.id,
                             Some(InferenceDetails(inf)), Info);
    s.(diagnoses := s.diagnoses[d.id := d],
       screenings := s.screenings[screeningId := s.screenings[screeningId].(status := Some(AiAnalyzed.Value()))],
       log := s.log + es,
       nextId := s.nextId + 1 + |es|)
  }

  lemma ScreeningAnalysedFields(s: DbState, user: Option<User>, screeningId: Id, inf: Inference, now: int, id: Id,
                                d: Diagnosis, row: Screening, es: seq<AuditEntry>)
    requires screeningId in s.screenings && id == s.nextId
    requires d == InferredDiagnosis(id, screeningId, inf, now)
    requires row == s.screenings[screeningId].(status := Some(AiAnalyzed.Value()))
    requires es == ServiceEntries(user, id + 1, now, "diagnosis.ai_analyze", "ai_result", id, Some(InferenceDetails(inf)), Info)
    ensures ScreeningAnalysed(s, user, screeningId, inf, now)
         == s.(diagnoses := s.diagnoses[id := d], screenings := s.screenings[screeningId := row],
               log := s.log + es, nextId := id + 1 + |es|)
  {
  }

  /** The state after the sample branch: the inferred result under the next
      id, the sample `analyzed`, and the entry logged when there is a user. */
  function SampleAnalysed(s: DbState, user: Option<User>, sampleId: Id, inf: Inference, now: int): DbState
    requires sampleId in s.samples
  {
    var a := InferredResult(s.nextId, sampleId, inf, now);
    var es := ServiceEntries(user, s.nextId + 1, now, "ai_result.create", "ai_result", a.id,
                             Some(InferenceDetails(inf)), Info);
    s.(aiResults := s.aiResults[a.id := a],
       samples := s.samples[sampleId := s.samples[sampleId].(status := Some(SampleAnalyzed))],
       log := s.log + es,
       nextId := s.nextId + 1 + |es|)
  }

  /** The writes of the screening branch once the unique check has passed. */
  method CommitScreeningAnalysis(db: Db, user: Option<User>, screeningId: Id, inf: Inference, now: int) returns (d: Diagnosis)
    requires db.Valid() && screeningId in db.screenings && !HasDiagnosis(db.diagnoses, screeningId)
    modifies db
    ensures db.Valid()
    ensures d == InferredDiagnosis(old(db.nextId), screeningId, inf, now)
    ensures db.State() == ScreeningAnalysed(old(db.State()), user, screeningId, inf, now)
  {
    ghost var s0 := db.State();
    var analysed := db.screenings[screeningId].(status := Some(AiAnalyzed.Value()));
    var id := db.FreshId();
    d := InferredDiagnosis(id, screeningId, inf, now);
    db.PutDiagnosis(d);
    db.PutScreening(analysed);
    ghost var s1 := db.State();
    assert s1 == s0.(diagnoses := s0.diagnoses[id := d], screenings := s0.screenings[screeningId := analysed],
                     nextId := s0.nextId + 1);
    ghost var es := ServiceEntries(user, id + 1, now, "diagnosis.ai_analyze", "ai_result", id,
                                   Some(InferenceDetails(inf)), Info);
    assert s1.nextId == id + 1 && d.id == id;
    assert es == ServiceEntries(user, s1.nextId, now, "diagnosis.ai_analyze", "ai_result", d.id, Some(InferenceDetails(inf)), Info);
    LogIfUser(db, user, "diagnosis.ai_analyze", "ai_result", d.id, Some(InferenceDetails(inf)), Info, now);
    assert db.State() == s1.(log := s1.log + es, nextId := s1.nextId + |es|);
    ghost var s2 := s0.(diagnoses := s0.diagnoses[id := d], screenings := s0.screenings[screeningId := analysed],
                        log := s0.log + es, nextId := id + 1 + |es|);
    assert db.State() == s2;
    ScreeningAnalysedFields(s0, user, screeningId, inf, now, id, d, analysed, es);
  }

  lemma SampleAnalysedFields(s: DbState, user: Option<User>, sampleId: Id, inf: Inference, now: int, id: Id,
                             a: AIResult, row: Sample, es: seq<AuditEntry>)
    requires sampleId in s.samples && id == s.nextId
    requires a == InferredResult(id, sampleId, inf, now)
    requires row == s.samples[sampleId].(status := Some(SampleAnalyzed))
    requires es == ServiceEntries(user, id + 1, now, "ai_result.create", "ai_result", id, Some(InferenceDetails(inf)), Info)
    ensures SampleAnalysed(s, user, sampleId, inf, now)
         == s.(aiResults := s.aiResults[id := a], samples := s.samples[sampleId := row],
               log := s.log + es, nextId := id + 1 + |es|)
  {
  }

  /** The screening branch: one new diagnosis, the screening `ai_analyzed`,
      then `diagnosis.ai_analyze` logged when there is a user. The unique
      `screening_id` makes the commit fail when the screening already has a
      diagnosis, and then nothing changes. */
  method AnalyseScreening(db: Db, user: Option<User>, screeningId: Id, inf: Inference, now: int)
    returns (r: Response<Option<Analysis>>)
    requires db.Valid() && screeningId in db.screenings
    modifies db
    ensures db.Valid()
    ensures r.IntegrityError? <==> HasDiagnosis(old(db.diagnoses), screeningId)
    ensures r.IntegrityError? ==> db.State() == old(db.State())
    ensures !r.IntegrityError? ==> r == Ok(Some(DiagnosisMade(InferredDiagnosis(old(db.nextId), screeningId, inf, now))))
    ensures !r.IntegrityError? ==> screeningId in db.screenings && db.screenings[screeningId].status == Some(AiAnalyzed.Value())
    ensures !r.IntegrityError? ==> db.State() == ScreeningAnalysed(old(db.State()), user, screeningId, inf, now)
  {
    if HasDiagnosis(db.diagnoses, screeningId) {
      return IntegrityError("UNIQUE constraint failed: diagnoses.screening_id");
    }
    var d := CommitScreeningAnalysis(db, user, screeningId, inf, now);
    return Ok(Some(DiagnosisMade(d)));
  }

  /** The sample branch: one new AI result, the sample `analyzed`, then
      `ai_result.create` logged when there is a user. */
  method AnalyseSample(db: Db, user: Option<User>, sampleId: Id, inf: Inference, now: int) returns (a: AIResult)
    requires db.Valid() && sampleId in db.samples
    modifies db
    ensures db.Valid()
    ensures a == InferredResult(old(db.nextId), sampleId, inf, now)
    ensures sampleId in db.samples && db.samples[sampleId].status == Some(SampleAnalyzed)
    ensures db.State() == SampleAnalysed(old(db.State()), user, sampleId, inf, now)
  {
    ghost var s0 := db.State();
    var analysed := db.samples[sampleId].(status := Some(SampleAnalyzed));
    var id := db.FreshId();
    a := InferredResult(id, sampleId, inf, now);
    db.PutAiResult(a);
    db.PutSample(analysed);
    ghost var s1 := db.State();
    assert s1 == s0.(aiResults := s0.aiResults[id := a], samples := s0.samples[sampleId := analysed],
                     nextId := s0.nextId + 1);
    ghost var es := ServiceEntries(user, id + 1, now, "ai_result.create", "ai_result", id,
                                   Some(InferenceDetails(inf)), Info);
    assert s1.nextId == id + 1 && a.id == id;
    assert es == ServiceEntries(user, s1.nextId, now, "ai_result.create", "ai_result", a.id, Some(InferenceDetails(inf)), Info);
    LogIfUser(db, user, "ai_result.create", "ai_result", a.id, Some(InferenceDetails(inf)), Info, now);
    assert db.State() == s1.(log := s1.log + es, nextId := s1.nextId + |es|);
    ghost var s2 := s0.(aiResults := s0.aiResults[id := a], samples := s0.samples[sampleId := analysed],
                        log := s0.log + es, nextId := id + 1 + |es|);
    assert db.State() == s2;
    SampleAnalysedFields(s0, user, sampleId, inf, now, id, a, analysed, es);
  }

  /** `run_analysis`: a screening id takes precedence over a sample id; with
      neither, or with an unknown one, the answer is None and nothing changes.
      Both branches run the same inference and audit under resource type
      `ai_result`. */
  method RunAnalysis(db: Db, user: Option<User>, screeningId: Option<Id>, sampleId: Option<Id>, draws: seq<int>, now: int)
    returns (r: Response<Option<Analysis>>)
    requires db.Valid()
    requires |draws| == |Categories| - 2 && ValidDraws(draws)
    modifies db
    ensures db.Valid()
    ensures r.Ok? || r.IntegrityError?
    ensures !(r.Ok? && r.value.Some?) ==> db.State() == old(db.State())
    ensures screeningId.None? && sampleId.None? ==> r == Ok(None)
    ensures screeningId.Some? && screeningId.value !in old(db.screenings) ==> r == Ok(None)
    ensures screeningId.None? && sampleId.Some? && sampleId.value !in old(db.samples) ==> r == Ok(None)
    ensures r.IntegrityError? <==>
              screeningId.Some? && screeningId.value in old(db.screenings) && HasDiagnosis(old(db.diagnoses), screeningId.value)
    ensures screeningId.Some? && screeningId.value in old(db.screenings) && !HasDiagnosis(old(db.diagnoses), screeningId.value) ==>
              && r == Ok(Some(DiagnosisMade(InferredDiagnosis(old(db.nextId), screeningId.value, Inferred(draws), now))))
              && db.State() == ScreeningAnalysed(old(db.State()), user, screeningId.value, Inferred(draws), now)
    ensures screeningId.None? && sampleId.Some? && sampleId.value in old(db.samples) ==>
              && r == Ok(Some(ResultMade(InferredResult(old(db.nextId), sampleId.value, Inferred(draws), now))))
              && db.State() == SampleAnalysed(old(db.State()), user, sampleId.value, Inferred(draws), now)
  {
    if screeningId.Some? {
      if screeningId.value !in db.screenings {
        return Ok(None);
      }
      var inf := SimulateAiInference(draws);
      r := AnalyseScreening(db, user, screeningId.value, inf, now);
    } else if sampleId.Some? {
      if sampleId.value !in db.samples {
        return Ok(None);
      }
      var inf := SimulateAiInference(draws);
      var a := AnalyseSample(db, user, sampleId.value, inf, now);
      r := Ok(Some(ResultMade(a)));
    } else {
      r := Ok(None);
    }
  }

  /** `get_result_by_id`. */
  function GetResultById(s: DbState, id: Id): (r: Option<AIResult>)
    ensures r.Some? <==> id in s.aiResults
    ensures r.Some? ==> r.value == s.aiResults[id]
  {
    if id in s.aiResults then Some(s.aiResults[id]) else None
  }

  /** `get_results_by_sample`: every result of the sample, in key order. */
  function GetResultsBySample(s: DbState, sampleId: Id): (r: seq<AIResult>)
    requires ValidState(s)
    ensures forall x :: x in r <==> x.id in s.aiResults && s.aiResults[x.id] == x && x.sampleId == sampleId
    ensures Increasing(r, AiResultKey)
  {
    var p := (a: AIResult) => a.sampleId == sampleId;
    FilterMembers(AiResultRows(s), p);
    AiResultRowsMatching(s, p);
    Filter(AiResultRows(s), p)
  }
}
