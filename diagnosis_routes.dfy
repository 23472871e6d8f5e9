/** The diagnosis endpoints (app/app/api/routes/diagnoses.py): the AI analysis
    of a screening and the clinician's review. The caller is the user the
    `require_clinician` or `require_pathologist` dependency admitted. The
    random draw of `mock_ai_analysis` is the `prediction` and `confidence`
    parameters, and `os.path.exists` of the primary image is `imageOnDisk`. */
module DiagnosisRoutes {
  import opened Common
  import opened Config
  import opened Users
  import opened Records
  import opened AuditModel
  import opened Schemas
  import opened Store

  const NotePrefix: string := "AI analysis completed. "
  const NoFindingText: string := "No significant abnormalities detected."
  const HighGradeText: string := "High-grade abnormality detected. Urgent review recommended."
  const AbnormalText: string := "Abnormality detected. Clinical review required."

  /** The notes of `mock_ai_analysis`: they depend on the category only, and
      exactly HSIL and SCC ask for urgent review. */
  function MockAnalysisNote(c: DiagnosisCategory): (note: string)
    ensures |NotePrefix| <= |note| && note[..|NotePrefix|] == NotePrefix
    ensures EndsWith(note, NoFindingText) <==> c == Nilm
    ensures EndsWith(note, HighGradeText) <==> c == Hsil || c == Scc
    ensures EndsWith(note, AbnormalText) <==> c != Nilm && c != Hsil && c != Scc
  {
    var note := if c == Nilm then NotePrefix + NoFindingText
                else if c == Hsil || c == Scc then NotePrefix + HighGradeText
                else NotePrefix + AbnormalText;
    // The three texts differ in their fourth character from the end.
    EndsWithChar(note, NoFindingText, 4);
    EndsWithChar(note, HighGradeText, 4);
    EndsWithChar(note, AbnormalText, 4);
    note
  }

  /** The images of a screening in upload order; `images[0]` is the primary one. */
  function ImagesOf(s: DbState, screening: Id): (r: seq<ScreeningImage>)
    requires ValidState(s)
    ensures forall x :: x in r <==> x.id in s.images && s.images[x.id] == x && x.screeningId == screening
    ensures Increasing(r, ImageKey)
    ensures r == [] <==> forall k :: k in s.images ==> s.images[k].screeningId != screening
  {
    var p := (i: ScreeningImage) => i.screeningId == screening;
    FilterMembers(ImageRows(s), p);
    ImageRowsMatching(s, p);
    assert forall k :: k in s.images ==> s.images[k] in ImageRows(s);
    Filter(ImageRows(s), p)
  }

  /** Where the heatmap of an image is written. */
  function HeatmapPath(image: ScreeningImage): string {
    UploadPath("heatmap_" + image.filename)
  }

  /** The image table after the heatmap step: the primary image gets its
      heatmap path only when its file is on disk. */
  function WithHeatmap(images: map<Id, ScreeningImage>, primary: ScreeningImage, onDisk: bool): map<Id, ScreeningImage> {
    if onDisk then images[primary.id := primary.(heatmapPath := Some(HeatmapPath(primary)))] else images
  }

  /** A diagnosis with the AI fields of one analysis and nothing else changed. */
  function WithAnalysis(d: Diagnosis, prediction: DiagnosisCategory, confidence: int, now: int): (e: Diagnosis)
    ensures e.aiPrediction == Some(prediction.Value()) && e.aiConfidence == Some(confidence)
    ensures e.aiNotes == Some(MockAnalysisNote(prediction)) && e.aiAnalysisDate == Some(now)
    ensures e.(aiPrediction := d.aiPrediction, aiConfidence := d.aiConfidence,
               aiNotes := d.aiNotes, aiAnalysisDate := d.aiAnalysisDate) == d
    ensures HasAiPrediction(e)
  {
    d.(aiPrediction := Some(prediction.Value()), aiConfidence := Some(confidence),
       aiNotes := Some(MockAnalysisNote(prediction)), aiAnalysisDate := Some(now))
  }

  /** The diagnosis part of `run_ai_analysis`: the screening's diagnosis, or a
      new one, with the AI fields of this analysis, added or written back. */
  method StoreAnalysis(db: Db, screeningId: Id, prediction: DiagnosisCategory, confidence: int, now: int)
    returns (d: Diagnosis)
    requires db.Valid()
    modifies db
    ensures db.Valid()
    ensures var existing := DiagnosisOf(old(db.State()), screeningId);
            && d == WithAnalysis(if existing.Some? then existing.value else NewDiagnosis(old(db.nextId), screeningId, now),
                                 prediction, confidence, now)
            && db.State() == old(db.State()).(diagnoses := old(db.diagnoses)[d.id := d],
                                                nextId := if existing.Some? then old(db.nextId) else old(db.nextId) + 1)
  {
    var existing := DiagnosisOf(db.State(), screeningId);
    if existing.Some? {
      d := existing.value;
    } else {
      var id := db.FreshId();
      d := NewDiagnosis(id, screeningId, now);
    }
    d := WithAnalysis(d, prediction, confidence, now);
    db.PutDiagnosis(d);
  }

  /** The rest of `run_ai_analysis` after the diagnosis: the heatmap path,
      the screening status, and the audit entry of the second commit. */
  method MarkAnalysed(db: Db, user: User, screeningId: Id, primary: ScreeningImage, imageOnDisk: bool,
                      diagnosisId: Id, now: int)
    requires db.Valid()
    requires screeningId in db.screenings && primary.id in db.images
    modifies db
    ensures db.Valid()
    ensures db.State() == old(db.State()).(
              images := WithHeatmap(old(db.images), primary, imageOnDisk),
              screenings := old(db.screenings)[screeningId := old(db.screenings)[screeningId].(status := Some(AiAnalyzed.Value()))],
              log := old(db.log) + [RouteEntry(old(db.nextId), now, user, "diagnosis.ai_analysis", "diagnosis", diagnosisId)],
              nextId := old(db.nextId) + 1)
  {
    if imageOnDisk {
      db.PutImage(primary.(heatmapPath := Some(HeatmapPath(primary))));
    }
    db.PutScreening(db.screenings[screeningId].(status := Some(AiAnalyzed.Value())));
    db.Log(RouteEntry(db.nextId, now, user, "diagnosis.ai_analysis", "diagnosis", diagnosisId));
  }

  /** The state after a successful `run_ai_analysis` that stored `d`: the
      heatmap path, `d`, the screening `ai_analyzed`, and one entry. The entry
      takes the next fresh key: after the diagnosis's when a new diagnosis was
      created. */
  function AnalysisRecorded(s: DbState, user: User, screeningId: Id, primary: ScreeningImage, d: Diagnosis,
                            imageOnDisk: bool, now: int): DbState
    requires ValidState(s) && screeningId in s.screenings
  {
    var n := if DiagnosisOf(s, screeningId).Some? then s.nextId else s.nextId + 1;
    s.(images := WithHeatmap(s.images, primary, imageOnDisk),
       diagnoses := s.diagnoses[d.id := d],
       screenings := s.screenings[screeningId := s.screenings[screeningId].(status := Some(AiAnalyzed.Value()))],
       log := s.log + [RouteEntry(n, now, user, "diagnosis.ai_analysis", "diagnosis", d.id)],
       nextId := n + 1)
  }

  lemma AnalysisRecordedFields(s: DbState, user: User, screeningId: Id, primary: ScreeningImage, d: Diagnosis,
                               imageOnDisk: bool, now: int, n: Id)
    requires ValidState(s) && screeningId in s.screenings
    requires n == if DiagnosisOf(s, screeningId).Some? then s.nextId else s.nextId + 1
    ensures AnalysisRecorded(s, user, screeningId, primary, d, imageOnDisk, now)
         == s.(images := WithHeatmap(s.images, primary, imageOnDisk),
               diagnoses := s.diagnoses[d.id := d],
               screenings := s.screenings[screeningId := s.screenings[screeningId].(status := Some(AiAnalyzed.Value()))],
               log := s.log + [RouteEntry(n, now, user, "diagnosis.ai_analysis", "diagnosis", d.id)],
               nextId := n + 1)
  {
  }

  /** The success path of `run_ai_analysis`, once the guards have passed. */
  method RecordAnalysis(db: Db, user: User, screeningId: Id, primary: ScreeningImage, prediction: DiagnosisCategory,
                        confidence: int, imageOnDisk: bool, now: int) returns (d: Diagnosis)
    requires db.Valid()
    requires screeningId in db.screenings && primary.id in db.images
    modifies db
    ensures db.Valid()
    ensures var existing := DiagnosisOf(old(db.State()), screeningId);
            d == WithAnalysis(if existing.Some? then existing.value else NewDiagnosis(old(db.nextId), screeningId, now),
                              prediction, confidence, now)
    ensures db.State() == AnalysisRecorded(old(db.State()), user, screeningId, primary, d, imageOnDisk, now)
  {
    ghost var s0 := db.State();
    ghost var n := if DiagnosisOf(s0, screeningId).Some? then s0.nextId else s0.nextId + 1;
    d := StoreAnalysis(db, screeningId, prediction, confidence, now);
    ghost var s1 := db.State();
    assert s1 == s0.(diagnoses := s0.diagnoses[d.id := d], nextId := n);
    MarkAnalysed(db, user, screeningId, primary, imageOnDisk, d.id, now);
    assert db.State() == s0.(
             images := WithHeatmap(s0.images, primary, imageOnDisk),
             diagnoses := s0.diagnoses[d.id := d],
             screenings := s0.screenings[screeningId := s0.screenings[screeningId].(status := Some(AiAnalyzed.Value()))],
             log := s0.log + [RouteEntry(n, now, user, "diagnosis.ai_analysis", "diagnosis", d.id)],
             nextId := n + 1);
    AnalysisRecordedFields(s0, user, screeningId, primary, d, imageOnDisk, now, n);
  }

  /** The guards of `run_ai_analysis`, in their order: the error it answers
      with, if any. */
  function AnalysisRefusal(s: DbState, screeningId: Id): (r: Option<Response<Diagnosis>>)
    requires ValidState(s)
    ensures r.None? <==>
              && screeningId in s.screenings && ImagesOf(s, screeningId) != []
              && !(DiagnosisOf(s, screeningId).Some? && HasAiPrediction(DiagnosisOf(s, screeningId).value))
    ensures screeningId !in s.screenings ==> r == Some(NotFound("Screening not found"))
    ensures screeningId in s.screenings && ImagesOf(s, screeningId) == [] ==>
              r == Some(BadRequest("No images uploaded for this screening"))
    ensures screeningId in s.screenings && ImagesOf(s, screeningId) != [] &&
            DiagnosisOf(s, screeningId).Some? && HasAiPrediction(DiagnosisOf(s, screeningId).value) ==>
              r == Some(BadRequest("AI analysis already completed for this screening"))
  {
    if screeningId !in s.screenings then Some(NotFound("Screening not found"))
    else if ImagesOf(s, screeningId) == [] then Some(BadRequest("No images uploaded for this screening"))
    else
      var existing := DiagnosisOf(s, screeningId);
      if existing.Some? && HasAiPrediction(existing.value) then
        Some(BadRequest("AI analysis already completed for this screening"))
      else None
  }

  /** `run_ai_analysis`: 404 for an unknown screening, 400 without images or
      when its diagnosis already has an AI prediction; otherwise the one
      diagnosis of the screening (reused, or created) gets the AI fields, the
      primary image its heatmap path when its file is on disk, the screening
      the status `ai_analyzed` whatever it was, and after that commit one
      `diagnosis.ai_analysis` entry is logged. Afterwards the screening's
      diagnosis has an AI prediction, so a second analysis is refused
      (`AnalysedScreeningIsRefused`). */
  method RunAiAnalysis(db: Db, user: User, screeningId: Id, prediction: DiagnosisCategory, confidence: int,
                       imageOnDisk: bool, now: int) returns (r: Response<Diagnosis>)
    requires db.Valid()
    modifies db
    ensures db.Valid()
    ensures AnalysisRefusal(old(db.State()), screeningId).Some? ==>
              r == AnalysisRefusal(old(db.State()), screeningId).value && db.State() == old(db.State())
    ensures AnalysisRefusal(old(db.State()), screeningId).None? ==>
              var existing := DiagnosisOf(old(db.State()), screeningId);
              && r.Ok?
              && r.value == WithAnalysis(if existing.Some? then existing.value else NewDiagnosis(old(db.nextId), screeningId, now),
                                         prediction, confidence, now)
    // The existing diagnosis is reused: one fresh key, for the audit entry.
    ensures r.Ok? && DiagnosisOf(old(db.State()), screeningId).Some? ==>
              var s0 := old(db.State());
              db.State() == s0.(
                images := WithHeatmap(s0.images, ImagesOf(s0, screeningId)[0], imageOnDisk),
                diagnoses := s0.diagnoses[r.value.id := r.value],
                screenings := s0.screenings[screeningId := s0.screenings[screeningId].(status := Some(AiAnalyzed.Value()))],
                log := s0.log + [RouteEntry(s0.nextId, now, user, "diagnosis.ai_analysis", "diagnosis", r.value.id)],
                nextId := s0.nextId + 1)
    // A new diagnosis is created: two fresh keys, the diagnosis's and the entry's.
    ensures r.Ok? && DiagnosisOf(old(db.State()), screeningId).None? ==>
              var s0 := old(db.State());
              db.State() == s0.(
                images := WithHeatmap(s0.images, ImagesOf(s0, screeningId)[0], imageOnDisk),
                diagnoses := s0.diagnoses[r.value.id := r.value],
                screenings := s0.screenings[screeningId := s0.screenings[screeningId].(status := Some(AiAnalyzed.Value()))],
                log := s0.log + [RouteEntry(s0.nextId + 1, now, user, "diagnosis.ai_analysis", "diagnosis", r.value.id)],
                nextId := s0.nextId + 2)
  {
    var refusal := AnalysisRefusal(db.State(), screeningId);
    if refusal.Some? {
      return refusal.value;
    }
    var images := ImagesOf(db.State(), screeningId);
    assert images[0] in images;
    var diagnosis := RecordAnalysis(db, user, screeningId, images[0], prediction, confidence, imageOnDisk, now);
    return Ok(diagnosis);
  }

  /** A screening is AI-analysed at most once: as soon as its diagnosis has an
      AI prediction, every further analysis of it is refused. */
  lemma AnalysedScreeningIsRefused(s: DbState, d: Diagnosis)
    requires ValidState(s)
    requires d.id in s.diagnoses && s.diagnoses[d.id] == d && HasAiPrediction(d)
    ensures AnalysisRefusal(s, d.screeningId).Some?
    ensures d.screeningId in s.screenings && ImagesOf(s, d.screeningId) != [] ==>
              AnalysisRefusal(s, d.screeningId) == Some(BadRequest("AI analysis already completed for this screening"))
  {
    assert DiagnosisOf(s, d.screeningId) == Some(d);
  }

  /** A diagnosis after one clinician review: the reviewer and the review
      recorded, the clinician's diagnosis made final, nothing else changed. */
  function WithReview(d: Diagnosis, reviewer: Id, req: ClinicianReviewRequest, now: int): (e: Diagnosis)
    ensures e.reviewerId == Some(reviewer) && e.reviewDate == Some(now) && e.finalizedAt == Some(now)
    ensures e.clinicianDiagnosis == Some(req.clinicianDiagnosis) && e.finalDiagnosis == e.clinicianDiagnosis
    ensures e.clinicianAgreesWithAi == Some(req.agreesWithAi) && e.clinicianNotes == req.clinicianNotes
    ensures e.followUpRecommended == req.followUpRecommended && e.followUpNotes == req.followUpNotes
    ensures e.(reviewerId := d.reviewerId, reviewDate := d.reviewDate, finalizedAt := d.finalizedAt,
               clinicianDiagnosis := d.clinicianDiagnosis, finalDiagnosis := d.finalDiagnosis,
               clinicianAgreesWithAi := d.clinicianAgreesWithAi, clinicianNotes := d.clinicianNotes,
               followUpRecommended := d.followUpRecommended, followUpNotes := d.followUpNotes) == d
  {
    d.(reviewerId := Some(reviewer),
       clinicianAgreesWithAi := Some(req.agreesWithAi),
       clinicianDiagnosis := Some(req.clinicianDiagnosis),
       clinicianNotes := req.clinicianNotes,
       reviewDate := Some(now),
       followUpRecommended := req.followUpRecommended,
       followUpNotes := req.followUpNotes,
       finalDiagnosis := Some(req.clinicianDiagnosis),
       finalizedAt := Some(now))
  }

  /** `submit_clinician_review`: 404 for an unknown diagnosis, 400 once it has
      a review date, so a diagnosis is reviewed at most once; otherwise the
      review is recorded and made final, the screening (when it exists) is
      `completed`, and after that commit one `diagnosis.clinician_review`
      entry is logged. */
  method SubmitClinicianReview(db: Db, user: User, req: ClinicianReviewRequest, now: int) returns (r: Response<Diagnosis>)
    requires db.Valid()
    modifies db
    ensures db.Valid()
    ensures r.Ok? || r.NotFound? || r.BadRequest?
    ensures r.NotFound? <==> req.diagnosisId !in old(db.diagnoses)
    ensures r.NotFound? ==> r.detail == "Diagnosis not found"
    ensures r.BadRequest? <==> req.diagnosisId in old(db.diagnoses) && old(db.diagnoses)[req.diagnosisId].reviewDate.Some?
    ensures r.BadRequest? ==> r.detail == "Review already submitted for this diagnosis"
    ensures !r.Ok? ==> db.State() == old(db.State())
    ensures r.Ok? ==>
              var d := old(db.diagnoses)[req.diagnosisId];
              var screenings := old(db.screenings);
              && r.value == WithReview(d, user.id, req, now)
              && db.State() == old(db.State()).(
                   diagnoses := old(db.diagnoses)[req.diagnosisId := r.value],
                   screenings := if d.screeningId in screenings
                                 then screenings[d.screeningId := screenings[d.screeningId].(status := Some(Completed.Value()))]
                                 else screenings,
                   log := old(db.log) + [RouteEntry(old(db.nextId), now, user, "diagnosis.clinician_review", "diagnosis", d.id)],
                   nextId := old(db.nextId) + 1)
  {
    if req.diagnosisId !in db.diagnoses {
      return NotFound("Diagnosis not found");
    }
    var diagnosis := db.diagnoses[req.diagnosisId];
    if diagnosis.reviewDate.Some? {
      return BadRequest("Review already submitted for this diagnosis");
    }
    diagnosis := WithReview(diagnosis, user.id, req, now);
    db.PutDiagnosis(diagnosis);
    if diagnosis.screeningId in db.screenings {
      db.PutScreening(db.screenings[diagnosis.screeningId].(status := Some(Completed.Value())));
    }
    db.Log(RouteEntry(db.nextId, now, user, "diagnosis.clinician_review", "diagnosis", diagnosis.id));
    return Ok(diagnosis);
  }

  /** `get_diagnosis`. */
  function GetDiagnosis(s: DbState, id: Id): (r: Response<Diagnosis>)
    ensures r.Ok? <==> id in s.diagnoses
    ensures r.Ok? ==> r.value == s.diagnoses[id]
    ensures !r.Ok? ==> r == NotFound("Diagnosis not found")
  {
    if id in s.diagnoses then Ok(s.diagnoses[id]) else NotFound("Diagnosis not found")
  }

  /** `get_diagnosis_by_screening`. */
  function GetDiagnosisByScreening(s: DbState, screening: Id): (r: Response<Diagnosis>)
    requires ValidState(s)
    ensures r.Ok? <==> HasDiagnosis(s.diagnoses, screening)
    ensures r.Ok? ==> r.value.id in s.diagnoses && s.diagnoses[r.value.id] == r.value && r.value.screeningId == screening
    ensures !r.Ok? ==> r == NotFound("No diagnosis found for this screening")
  {
    var d := DiagnosisOf(s, screening);
    if d.Some? then Ok(d.value) else NotFound("No diagnosis found for this screening")
  }
}
