/** The clinician annotation and its sign-off (app/app/models/annotation.py). */
module AnnotationModel {
  import opened Common

  datatype Annotation = Annotation(
    id: Id,
    resultId: Id,
    clinicianId: Id,                  // NOT NULL
    agreesWithAi: Option<bool>,
    clinicianDiagnosis: Option<string>,
    notes: Option<string>,
    overrideFlags: Option<JsonObject>,
    followUpRecommended: Option<bool>,
    followUpNotes: Option<string>,
    followUpDate: Option<int>,
    signedOff: bool,
    signedOffAt: Option<int>,
    createdAt: int)

  /** An annotation as inserted: the given clinical fields and the column
      defaults, so not signed off and without a sign-off time. */
  function NewAnnotation(id: Id, resultId: Id, clinicianId: Id, agreesWithAi: Option<bool>,
                         clinicianDiagnosis: Option<string>, notes: Option<string>,
                         overrideFlags: JsonObject, followUpRecommended: bool,
                         followUpNotes: Option<string>, followUpDate: Option<int>, now: int): (a: Annotation)
    ensures !a.signedOff && a.signedOffAt == None
    ensures a.overrideFlags == Some(overrideFlags)
    ensures a.followUpRecommended == Some(followUpRecommended)
    ensures a.id == id && a.resultId == resultId && a.clinicianId == clinicianId && a.createdAt == now
    ensures a.agreesWithAi == agreesWithAi && a.clinicianDiagnosis == clinicianDiagnosis && a.notes == notes
    ensures a.followUpNotes == followUpNotes && a.followUpDate == followUpDate
  {
    Annotation(id, resultId, clinicianId, agreesWithAi, clinicianDiagnosis, notes, Some(overrideFlags),
               Some(followUpRecommended), followUpNotes, followUpDate, false, None, now)
  }

  /** `sign_off`: signed, stamped with the current time, nothing else touched.
      It has no guard of its own, so signing again restamps the time. */
  function SignOff(a: Annotation, now: int): (b: Annotation)
    ensures b.signedOff && b.signedOffAt == Some(now)
    ensures b.(signedOff := a.signedOff, signedOffAt := a.signedOffAt) == a
  {
    a.(signedOff := true, signedOffAt := Some(now))
  }

  /** Signing an already signed annotation again changes only the time stamp,
      and a later call wins. */
  lemma SignOffTwice(a: Annotation, t1: int, t2: int)
    ensures SignOff(SignOff(a, t1), t2) == SignOff(a, t2)
    ensures t1 != t2 ==> SignOff(SignOff(a, t1), t2) != SignOff(a, t1)
  {
  }
}
