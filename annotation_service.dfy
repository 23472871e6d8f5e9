/** The clinician annotation and review service
    (app/app/services/annotation_service.py). `user` is the optional
    `current_user` the service is built with; its audit entries carry the
    resource type `annotation` and are written only when there is a user. */
module AnnotationService {
  import opened Common
  import opened Users
  import opened Records
  import opened AnnotationModel
  import opened AuditModel
  import opened Schemas
  import opened Store

  const ResourceType: string := "annotation"

  /** Who an annotation is attributed to: the service's user, if any. */
  function ClinicianOf(user: Option<User>): (c: Option<Id>)
    ensures c.Some? <==> user.Some?
    ensures user.Some? ==> c == Some(user.value.id)
  {
    if user.Some? then Some(user.value.id) else None
  }

  /** The annotation `create_annotation` inserts, `override_flags` defaulting
      to the empty object when sent as null. */
  function AnnotationOf(id: Id, clinician: Id, data: AnnotationCreate, now: int): (a: Annotation)
    ensures a == NewAnnotation(id, data.resultId, clinician, data.agreesWithAi, data.clinicianDiagnosis, data.notes,
                               data.overrideFlags.GetOr(map[]), data.followUpRecommended, data.followUpNotes,
                               data.followUpDate, now)
    ensures !a.signedOff && a.overrideFlags.Some?
  {
    NewAnnotation(id, data.resultId, clinician, data.agreesWithAi, data.clinicianDiagnosis, data.notes,
                  data.overrideFlags.GetOr(map[]), data.followUpRecommended, data.followUpNotes,
                  data.followUpDate, now)
  }

  function CreateDetails(a: Annotation): JsonObject {
    map["agrees_with_ai" := JOptBool(a.agreesWithAi), "clinician_diagnosis" := JOpt(a.clinicianDiagnosis)]
  }

  /** `create_annotation`: without a user the `clinician_id` is null, the
      NOT NULL column makes the commit fail and nothing changes; otherwise one
      new, unsigned annotation and one `annotation.create` entry. */
  method CreateAnnotation(db: Db, user: Option<User>, data: AnnotationCreate, now: int) returns (r: Response<Annotation>)
    requires db.Valid()
    modifies db
    ensures db.Valid()
    ensures r.Ok? || r.IntegrityError?
    ensures r.IntegrityError? <==> user.None?
    ensures r.IntegrityError? ==> db.State() == old(db.State())
    ensures r.Ok? ==>
              && r.value == AnnotationOf(old(db.nextId), user.value.id, data, now)
              && db.State() == old(db.State()).(
                   annotations := old(db.annotations)[r.value.id := r.value],
                   log := old(db.log) + [LogEntry(old(db.nextId) + 1, now, "annotation.create", user, Some(ResourceType),
                                                  Some(r.value.id), Some(CreateDetails(r.value)), None, Info)],
                   nextId := old(db.nextId) + 2)
  {
    var clinician := ClinicianOf(user);
    if clinician.None? {
      return IntegrityError("NOT NULL constraint failed: annotations.clinician_id");
    }
    var id := db.FreshId();
    var a := AnnotationOf(id, clinician.value, data, now);
    db.PutAnnotation(a);
    LogIfUser(db, user, "annotation.create", ResourceType, a.id, Some(CreateDetails(a)), Info, now);
    return Ok(a);
  }

  /** The legacy review: the clinician's verdict, notes and follow-up, the
      reviewer and the review time; the AI fields and the final diagnosis are
      left as they were. */
  function ServiceReview(d: Diagnosis, reviewer: Option<Id>, agreesWithAi: bool, clinicianDiagnosis: string,
                         clinicianNotes: Option<string>, followUpRecommended: bool, followUpNotes: Option<string>,
                         now: int): (e: Diagnosis)
    ensures e.reviewerId == reviewer && e.reviewDate == Some(now)
    ensures e.clinicianDiagnosis == Some(clinicianDiagnosis) && e.clinicianAgreesWithAi == Some(agreesWithAi)
    ensures e.clinicianNotes == clinicianNotes
    ensures e.followUpRecommended == followUpRecommended && e.followUpNotes == followUpNotes
    ensures e.(reviewerId := d.reviewerId, reviewDate := d.reviewDate, clinicianDiagnosis := d.clinicianDiagnosis,
               clinicianAgreesWithAi := d.clinicianAgreesWithAi, clinicianNotes := d.clinicianNotes,
               followUpRecommended := d.followUpRecommended, followUpNotes := d.followUpNotes) == d
  {
    d.(clinicianDiagnosis := Some(clinicianDiagnosis), clinicianNotes := clinicianNotes,
       clinicianAgreesWithAi := Some(agreesWithAi), reviewerId := reviewer, reviewDate := Some(now),
       followUpRecommended := followUpRecommended, followUpNotes := followUpNotes)
  }

  /** The legacy review as the code writes it: only the clinician's verdict,
      notes and follow-up reach mapped columns; the assignments to
      `agrees_with_ai`, `reviewed_by_id`, `reviewed_at` and `status` name no
      column of the diagnosis and are not stored. */
  function AsWrittenReview(d: Diagnosis, clinicianDiagnosis: string, clinicianNotes: Option<string>,
                           followUpRecommended: bool, followUpNotes: Option<string>): (e: Diagnosis)
    ensures e.clinicianDiagnosis == Some(clinicianDiagnosis) && e.clinicianNotes == clinicianNotes
    ensures e.followUpRecommended == followUpRecommended && e.followUpNotes == followUpNotes
    ensures e.(clinicianDiagnosis := d.clinicianDiagnosis, clinicianNotes := d.clinicianNotes,
               followUpRecommended := d.followUpRecommended, followUpNotes := d.followUpNotes) == d
  {
    d.(clinicianDiagnosis := Some(clinicianDiagnosis), clinicianNotes := clinicianNotes,
       followUpRecommended := followUpRecommended, followUpNotes := followUpNotes)
  }

  /** As written, a legacy review leaves the reviewer, the review time and the
      agreement flag as they were, so an unreviewed diagnosis stays open to the
      clinician review route; the intended review closes it. */
  lemma AsWrittenReviewLeavesReviewOpen(d: Diagnosis, reviewer: Option<Id>, agreesWithAi: bool,
                                        clinicianDiagnosis: string, clinicianNotes: Option<string>,
                                        followUpRecommended: bool, followUpNotes: Option<string>, now: int)
    ensures var e := AsWrittenReview(d, clinicianDiagnosis, clinicianNotes, followUpRecommended, followUpNotes);
            && e.reviewDate == d.reviewDate && e.reviewerId == d.reviewerId
            && e.clinicianAgreesWithAi == d.clinicianAgreesWithAi
            && (d.reviewDate.None? ==> e.reviewDate.None?)
    ensures ServiceReview(d, reviewer, agreesWithAi, clinicianDiagnosis, clinicianNotes, followUpRecommended,
                          followUpNotes, now).reviewDate.Some?
  {
  }

  function ReviewDetails(agreesWithAi: bool, clinicianDiagnosis: string, followUpRecommended: bool): JsonObject {
    map["agrees_with_ai" := JBool(agreesWithAi), "clinician_diagnosis" := JStr(clinicianDiagnosis),
        "follow_up" := JBool(followUpRecommended)]
  }

  /** The screenings after a review: the reviewed diagnosis's screening, when
      it exists, is `completed`. */
  function CompleteScreening(screenings: map<Id, Screening>, id: Id): (t: map<Id, Screening>)
    ensures t.Keys == screenings.Keys
    ensures id in screenings ==> t[id] == screenings[id].(status := Some(Completed.Value()))
    ensures forall k :: k in screenings && k != id ==> t[k] == screenings[k]
  {
    if id in screenings then screenings[id := screenings[id].(status := Some(Completed.Value()))] else screenings
  }

  /** `review_diagnosis`: None for an unknown diagnosis; otherwise the review
      is written over any earlier one (there is no guard here), the screening
      is completed and a critical `diagnosis.review` entry follows. */
  method ReviewDiagnosis(db: Db, user: Option<User>, diagnosisId: Id, agreesWithAi: bool, clinicianDiagnosis: string,
                         clinicianNotes: Option<string>, followUpRecommended: bool, followUpNotes: Option<string>,
                         now: int) returns (r: Option<Diagnosis>)
    requires db.Valid()
    modifies db
    ensures db.Valid()
    ensures r.Some? <==> diagnosisId in old(db.diagnoses)
    ensures r.None? ==> db.State() == old(db.State())
    ensures r.Some? ==>
              var d := old(db.diagnoses)[diagnosisId];
              var es := ServiceEntries(user, old(db.nextId), now, "diagnosis.review", ResourceType, diagnosisId,
                                       Some(ReviewDetails(agreesWithAi, clinicianDiagnosis, followUpRecommended)), Critical);
              && r.value == ServiceReview(d, ClinicianOf(user), agreesWithAi, clinicianDiagnosis, clinicianNotes,
                                          followUpRecommended, followUpNotes, now)
              && db.State() == old(db.State()).(
                   diagnoses := old(db.diagnoses)[diagnosisId := r.value],
                   screenings := CompleteScreening(old(db.screenings), d.screeningId),
                   log := old(db.log) + es,
                   nextId := old(db.nextId) + |es|)
  {
    if diagnosisId !in db.diagnoses {
      return None;
    }
    var d := ServiceReview(db.diagnoses[diagnosisId], ClinicianOf(user), agreesWithAi, clinicianDiagnosis,
                           clinicianNotes, followUpRecommended, followUpNotes, now);
    db.PutDiagnosis(d);
    if d.screeningId in db.screenings {
      db.PutScreening(db.screenings[d.screeningId].(status := Some(Completed.Value())));
    }
    LogIfUser(db, user, "diagnosis.review", ResourceType, d.id,
              Some(ReviewDetails(agreesWithAi, clinicianDiagnosis, followUpRecommended)), Critical, now);
    return Some(d);
  }

  /** A second review overwrites the first completely: reviewing twice is
      reviewing once with the later answers. */
  lemma ReviewOverwrites(d: Diagnosis, reviewer1: Option<Id>, agrees1: bool, diagnosis1: string, notes1: Option<string>,
                         followUp1: bool, followUpNotes1: Option<string>, t1: int,
                         reviewer2: Option<Id>, agrees2: bool, diagnosis2: string, notes2: Option<string>,
                         followUp2: bool, followUpNotes2: Option<string>, t2: int)
    ensures ServiceReview(ServiceReview(d, reviewer1, agrees1, diagnosis1, notes1, followUp1, followUpNotes1, t1),
                          reviewer2, agrees2, diagnosis2, notes2, followUp2, followUpNotes2, t2)
         == ServiceReview(d, reviewer2, agrees2, diagnosis2, notes2, followUp2, followUpNotes2, t2)
  {
  }

  /** `sign_off_annotation`: None for an unknown annotation; an annotation
      already signed off comes back as it is, with nothing changed and nothing
      logged; otherwise it is signed off now and a critical
      `annotation.sign_off` entry follows. */
  method SignOffAnnotation(db: Db, user: Option<User>, annotationId: Id, now: int) returns (r: Option<Annotation>)
    requires db.Valid()
    modifies db
    ensures db.Valid()
    ensures r.Some? <==> annotationId in old(db.annotations)
    ensures r.Some? ==> r.value.signedOff && r.value.signedOffAt.Some?
    ensures r.Some? && old(db.annotations)[annotationId].signedOff ==>
              r.value == old(db.annotations)[annotationId] && db.State() == old(db.State())
    ensures r.None? ==> db.State() == old(db.State())
    ensures r.Some? && !old(db.annotations)[annotationId].signedOff ==>
              var es := ServiceEntries(user, old(db.nextId), now, "annotation.sign_off", ResourceType, annotationId,
                                       None, Critical);
              && r.value == SignOff(old(db.annotations)[annotationId], now)
              && db.State() == old(db.State()).(
                   annotations := old(db.annotations)[annotationId := r.value],
                   log := old(db.log) + es,
                   nextId := old(db.nextId) + |es|)
  {
    if annotationId !in db.annotations {
      return None;
    }
    var a := db.annotations[annotationId];
    if a.signedOff {
      return Some(a);
    }
    a := SignOff(a, now);
    db.PutAnnotation(a);
    LogIfUser(db, user, "annotation.sign_off", ResourceType, a.id, None, Critical, now);
    return Some(a);
  }

  /** `get_annotation_by_id`. */
  function GetAnnotationById(s: DbState, id: Id): (r: Option<Annotation>)
    ensures r.Some? <==> id in s.annotations
    ensures r.Some? ==> r.value == s.annotations[id]
  {
    if id in s.annotations then Some(s.annotations[id]) else None
  }

  /** `get_annotations_by_result`: every annotation of the AI result. */
  function GetAnnotationsByResult(s: DbState, resultId: Id): (r: seq<Annotation>)
    requires ValidState(s)
    ensures forall x :: x in r <==> x.id in s.annotations && s.annotations[x.id] == x && x.resultId == resultId
    ensures Increasing(r, AnnotationKey)
  {
    var p := (a: Annotation) => a.resultId == resultId;
    FilterMembers(AnnotationRows(s), p);
    AnnotationRowsMatching(s, p);
    Filter(AnnotationRows(s), p)
  }

  /** `get_pending_annotations`: the annotations not yet signed off, of one
      clinician when one is named. */
  function GetPendingAnnotations(s: DbState, clinicianId: Option<Id>): (r: seq<Annotation>)
    requires ValidState(s)
    ensures forall x :: x in r <==>
              && x.id in s.annotations && s.annotations[x.id] == x && !x.signedOff
              && (clinicianId.Some? ==> x.clinicianId == clinicianId.value)
    ensures Increasing(r, AnnotationKey)
  {
    var p := (a: Annotation) => !a.signedOff && (clinicianId.Some? ==> a.clinicianId == clinicianId.value);
    FilterMembers(AnnotationRows(s), p);
    AnnotationRowsMatching(s, p);
    Filter(AnnotationRows(s), p)
  }

  /** Signing off takes an annotation out of the pending list and changes no
      other annotation's place in it. */
  lemma SignedOffIsNotPending(s: DbState, id: Id, now: int, clinicianId: Option<Id>)
    requires ValidState(s) && id in s.annotations
    ensures var t := s.(annotations := s.annotations[id := SignOff(s.annotations[id], now)]);
            && ValidState(t)
            && (forall x :: x in GetPendingAnnotations(t, clinicianId) ==> x.id != id)
            && (forall x :: x in GetPendingAnnotations(t, clinicianId) <==> x in GetPendingAnnotations(s, clinicianId) && x.id != id)
            && GetPendingAnnotations(t, clinicianId) == Filter(GetPendingAnnotations(s, clinicianId), Except(id))
  {
    var t := s.(annotations := s.annotations[id := SignOff(s.annotations[id], now)]);
    PendingAfterSignOff(s, id, now, clinicianId);
    var before := GetPendingAnnotations(s, clinicianId);
    var after := GetPendingAnnotations(t, clinicianId);
    FilterMembers(before, Except(id));
    FilterIncreasing(before, Except(id), AnnotationKey);
    assert forall x :: x in after <==> x in Filter(before, Except(id));
    IncreasingUnique(after, Filter(before, Except(id)), AnnotationKey);
  }

  /** After the sign-off the state is still valid, and the pending
      annotations are the earlier ones other than the signed one. */
  lemma PendingAfterSignOff(s: DbState, id: Id, now: int, clinicianId: Option<Id>)
    requires ValidState(s) && id in s.annotations
    ensures var t := s.(annotations := s.annotations[id := SignOff(s.annotations[id], now)]);
            && ValidState(t)
            && (forall x :: x in GetPendingAnnotations(t, clinicianId) <==> x in GetPendingAnnotations(s, clinicianId) && x.id != id)
  {
    SignOffStaysValid(s, id, now);
  }

  /** Signing an annotation off keeps the store's invariant. */
  lemma SignOffStaysValid(s: DbState, id: Id, now: int)
    requires ValidState(s) && id in s.annotations
    ensures ValidState(s.(annotations := s.annotations[id := SignOff(s.annotations[id], now)]))
  {
  }

  /** Every annotation but the one under `id`. */
  function Except(id: Id): Annotation -> bool {
    (x: Annotation) => x.id != id
  }
}
