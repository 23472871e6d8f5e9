/** Request bodies (the files under app/app/schemas/) and what the update handlers do
    with them. An update body becomes, through `model_dump(exclude_unset=True)`,
    the list of sent fields in declaration order; the handlers assign them one
    by one (`Set*Field`, iterated with `Common.Fold`), and the `Merge*`
    functions give the field-wise meaning of that loop. */
module Schemas {
  import opened Common
  import opened PatientModel
  import opened Records
  import opened AnnotationModel

  // ---------------------------------------------------------------------------
  // Patients (app/app/schemas/patient.py)

  datatype PatientCreate = PatientCreate(
    firstName: string,
    lastName: string,
    dateOfBirth: Date,
    email: Option<string>,
    phone: Option<string>,
    medicalRecordNumber: Option<string>,
    notes: Option<string>,
    consentGiven: bool)

  /** `PatientUpdate`: every field optional, each either left out or sent
      (possibly as null). */
  datatype PatientUpdate = PatientUpdate(
    firstName: Patch<Option<string>>,
    lastName: Patch<Option<string>>,
    email: Patch<Option<string>>,
    phone: Patch<Option<string>>,
    notes: Patch<Option<string>>,
    consentGiven: Patch<Option<bool>>)

  datatype PatientField =
    | FirstName(name: Option<string>)
    | LastName(name: Option<string>)
    | Email(text: Option<string>)
    | Phone(text: Option<string>)
    | Notes(text: Option<string>)
    | ConsentGiven(flag: Option<bool>)
  {
    function Key(): string {
      match this
      case FirstName(_) => "first_name"
      case LastName(_) => "last_name"
      case Email(_) => "email"
      case Phone(_) => "phone"
      case Notes(_) => "notes"
      case ConsentGiven(_) => "consent_given"
    }

    /** The field's place in the declaration order. */
    function Rank(): nat {
      match this
      case FirstName(_) => 0
      case LastName(_) => 1
      case Email(_) => 2
      case Phone(_) => 3
      case Notes(_) => 4
      case ConsentGiven(_) => 5
    }
  }

  /** Each key names one field. */
  lemma KeyNamesField(f: PatientField, g: PatientField)
    ensures f.Key() == g.Key() ==> f.Rank() == g.Rank()
  {
    if f.Rank() != g.Rank() {
      assert f.Key()[0] != g.Key()[0];
    }
  }

  function PatchItem<T, F>(p: Patch<T>, f: T -> F): seq<F> {
    if p.Put? then [f(p.value)] else []
  }

  /** The sent fields before `consent_given`, in declaration order. */
  function PatientItemsBeforeConsent(u: PatientUpdate): seq<PatientField> {
    PatchItem(u.firstName, x => FirstName(x)) + PatchItem(u.lastName, x => LastName(x))
    + PatchItem(u.email, x => Email(x)) + PatchItem(u.phone, x => Phone(x))
    + PatchItem(u.notes, x => Notes(x))
  }

  /** `model_dump(exclude_unset=True)` of a patient update. */
  function DumpPatientUpdate(u: PatientUpdate): seq<PatientField> {
    PatientItemsBeforeConsent(u) + PatchItem(u.consentGiven, x => ConsentGiven(x))
  }

  function KeysOf(items: seq<PatientField>): set<string> {
    set f | f in items :: f.Key()
  }

  /** The fields of `items` come in declaration order, all before `rank`. */
  ghost predicate RanksBelow(items: seq<PatientField>, rank: nat) {
    && (forall i, j :: 0 <= i < j < |items| ==> items[i].Rank() < items[j].Rank())
    && (forall i :: 0 <= i < |items| ==> items[i].Rank() < rank)
  }

  /** Appending a possibly sent field of the next rank keeps the ranks in
      order. */
  lemma AppendPatchRank<T>(prefix: seq<PatientField>, p: Patch<T>, field: T -> PatientField, rank: nat)
    requires RanksBelow(prefix, rank) && |prefix| <= rank
    requires forall x :: field(x).Rank() == rank
    ensures RanksBelow(prefix + PatchItem(p, field), rank + 1) && |prefix + PatchItem(p, field)| <= rank + 1
  {
    var items := prefix + PatchItem(p, field);
    if p.Put? {
      assert items == prefix + [field(p.value)];
    } else {
      assert items == prefix;
    }
  }

  /** Appending a possibly sent field adds its key to the keys. */
  lemma AppendPatchKey<T>(prefix: seq<PatientField>, p: Patch<T>, field: T -> PatientField, key: string)
    requires forall x :: field(x).Key() == key
    ensures KeysOf(prefix + PatchItem(p, field)) == KeysOf(prefix) + (if p.Put? then {key} else {})
  {
    var items := prefix + PatchItem(p, field);
    if p.Put? {
      assert items == prefix + [field(p.value)];
      assert field(p.value) in items;
    } else {
      assert items == prefix;
    }
  }

  /** The dump lists the sent fields in declaration order. */
  lemma DumpPatientUpdateRanks(u: PatientUpdate)
    ensures RanksBelow(DumpPatientUpdate(u), 6) && |DumpPatientUpdate(u)| <= 6
  {
    var d1 := PatchItem(u.firstName, x => FirstName(x));
    var d2 := d1 + PatchItem(u.lastName, x => LastName(x));
    var d3 := d2 + PatchItem(u.email, x => Email(x));
    var d4 := d3 + PatchItem(u.phone, x => Phone(x));
    var d5 := d4 + PatchItem(u.notes, x => Notes(x));
    assert RanksBelow(d1, 1) && |d1| <= 1 by {
      assert [] + d1 == d1;
      AppendPatchRank([], u.firstName, x => FirstName(x), 0);
    }
    assert RanksBelow(d2, 2) && |d2| <= 2 by {
      AppendPatchRank(d1, u.lastName, x => LastName(x), 1);
    }
    assert RanksBelow(d3, 3) && |d3| <= 3 by {
      AppendPatchRank(d2, u.email, x => Email(x), 2);
    }
    assert RanksBelow(d4, 4) && |d4| <= 4 by {
      AppendPatchRank(d3, u.phone, x => Phone(x), 3);
    }
    assert RanksBelow(d5, 5) && |d5| <= 5 by {
      AppendPatchRank(d4, u.notes, x => Notes(x), 4);
    }
    AppendPatchRank(d5, u.consentGiven, x => ConsentGiven(x), 5);
  }

  /** The dump names exactly the sent fields. */
  lemma DumpPatientUpdateNames(u: PatientUpdate)
    ensures KeysOf(DumpPatientUpdate(u)) == PatientUpdateKeys(u)
  {
    var d1 := PatchItem(u.firstName, x => FirstName(x));
    var d2 := d1 + PatchItem(u.lastName, x => LastName(x));
    var d3 := d2 + PatchItem(u.email, x => Email(x));
    var d4 := d3 + PatchItem(u.phone, x => Phone(x));
    var d5 := d4 + PatchItem(u.notes, x => Notes(x));
    assert [] + d1 == d1;
    assert KeysOf([]) == {};
    AppendPatchKey([], u.firstName, x => FirstName(x), "first_name");
    assert KeysOf(d1) == if u.firstName.Put? then {"first_name"} else {};
    AppendPatchKey(d1, u.lastName, x => LastName(x), "last_name");
    AppendPatchKey(d2, u.email, x => Email(x), "email");
    AppendPatchKey(d3, u.phone, x => Phone(x), "phone");
    AppendPatchKey(d4, u.notes, x => Notes(x), "notes");
    AppendPatchKey(d5, u.consentGiven, x => ConsentGiven(x), "consent_given");
  }

  /** The dump holds one item per sent field, each under its own key, and no
      key twice. */
  lemma DumpPatientUpdateKeys(u: PatientUpdate)
    ensures |DumpPatientUpdate(u)| <= 6
    ensures forall i, j :: 0 <= i < j < |DumpPatientUpdate(u)| ==> DumpPatientUpdate(u)[i].Key() != DumpPatientUpdate(u)[j].Key()
    ensures (set f | f in DumpPatientUpdate(u) :: f.Key()) == PatientUpdateKeys(u)
  {
    var d := DumpPatientUpdate(u);
    DumpPatientUpdateRanks(u);
    DumpPatientUpdateNames(u);
    forall i, j | 0 <= i < j < |d| ensures d[i].Key() != d[j].Key() {
      KeyNamesField(d[i], d[j]);
    }
    assert KeysOf(d) == PatientUpdateKeys(u);
  }

  /** The names of the sent fields. */
  function PatientUpdateKeys(u: PatientUpdate): set<string> {
    (if u.firstName.Put? then {"first_name"} else {})
    + (if u.lastName.Put? then {"last_name"} else {})
    + (if u.email.Put? then {"email"} else {})
    + (if u.phone.Put? then {"phone"} else {})
    + (if u.notes.Put? then {"notes"} else {})
    + (if u.consentGiven.Put? then {"consent_given"} else {})
  }

  /** `first_name` and `last_name` are NOT NULL: sending either as null makes
      the commit fail. */
  predicate NullsNotNullColumn(u: PatientUpdate) {
    u.firstName == Put(None) || u.lastName == Put(None)
  }

  /** A patient row being edited together with the handler's clock: `Some(now)`
      in the route, which stamps `consent_date` when consent goes from not
      given to given, and `None` in the service, which does not. */
  datatype PatientEdit = PatientEdit(row: Patient, stamp: Option<int>)

  /** `setattr(patient, field, value)`. A null name never gets here (see
      `NullsNotNullColumn`) and leaves the row as it is. */
  function SetPatientField(e: PatientEdit, f: PatientField): PatientEdit {
    var p := e.row;
    match f
    case FirstName(v) => if v.Some? then e.(row := p.(firstName := v.value)) else e
    case LastName(v) => if v.Some? then e.(row := p.(lastName := v.value)) else e
    case Email(v) => e.(row := p.(email := v))
    case Phone(v) => e.(row := p.(phone := v))
    case Notes(v) => e.(row := p.(notes := v))
    case ConsentGiven(v) =>
      var dated := if e.stamp.Some? && IsTrue(v) && !IsTrue(p.consentGiven) then p.(consentDate := e.stamp) else p;
      e.(row := dated.(consentGiven := v))
  }

  /** The field-wise meaning of a patient update: sent fields take the sent
      value, the others keep theirs; `consent_date` moves to the stamp only on
      a change from not given to given. */
  function MergePatient(p: Patient, u: PatientUpdate, stamp: Option<int>): (q: Patient)
    requires !NullsNotNullColumn(u)
    // no column outside the update body, other than `consent_date`, changes
    ensures q == p.(firstName := q.firstName, lastName := q.lastName, email := q.email, phone := q.phone,
                    notes := q.notes, consentGiven := q.consentGiven, consentDate := q.consentDate)
    ensures u.firstName.Put? ==> Some(q.firstName) == u.firstName.value
    ensures u.firstName.Keep? ==> q.firstName == p.firstName
    ensures u.lastName.Put? ==> Some(q.lastName) == u.lastName.value
    ensures u.lastName.Keep? ==> q.lastName == p.lastName
    ensures u.email.Put? ==> q.email == u.email.value
    ensures u.email.Keep? ==> q.email == p.email
    ensures u.phone.Put? ==> q.phone == u.phone.value
    ensures u.phone.Keep? ==> q.phone == p.phone
    ensures u.notes.Put? ==> q.notes == u.notes.value
    ensures u.notes.Keep? ==> q.notes == p.notes
    ensures u.consentGiven.Put? ==> q.consentGiven == u.consentGiven.value
    ensures u.consentGiven.Keep? ==> q.consentGiven == p.consentGiven && q.consentDate == p.consentDate
    ensures stamp.Some? && u.consentGiven == Put(Some(true)) && !IsTrue(p.consentGiven) ==> q.consentDate == stamp
    ensures q.consentDate != p.consentDate ==>
              stamp.Some? && q.consentDate == stamp && IsTrue(q.consentGiven) && !IsTrue(p.consentGiven)
  {
    p.(firstName := if u.firstName.Put? then u.firstName.value.value else p.firstName,
       lastName := if u.lastName.Put? then u.lastName.value.value else p.lastName,
       email := u.email.Or(p.email),
       phone := u.phone.Or(p.phone),
       notes := u.notes.Or(p.notes),
       consentGiven := u.consentGiven.Or(p.consentGiven),
       consentDate := if stamp.Some? && u.consentGiven.Put? && IsTrue(u.consentGiven.value) && !IsTrue(p.consentGiven)
                      then stamp else p.consentDate)
  }

  lemma PatchItemFold<S, T, F>(s: S, prefix: seq<F>, p: Patch<T>, f: T -> F, step: (S, F) -> S)
    ensures Fold(s, prefix + PatchItem(p, f), step)
         == if p.Put? then step(Fold(s, prefix, step), f(p.value)) else Fold(s, prefix, step)
  {
    if p.Put? {
      FoldSnoc(s, prefix, f(p.value), step);
    } else {
      assert prefix + PatchItem(p, f) == prefix;
    }
  }

  lemma ItemsBeforeConsentFold(p: Patient, u: PatientUpdate, stamp: Option<int>)
    requires !NullsNotNullColumn(u)
    ensures Fold(PatientEdit(p, stamp), PatientItemsBeforeConsent(u), SetPatientField)
         == PatientEdit(MergePatient(p, u.(consentGiven := Keep), stamp), stamp)
  {
    var e := PatientEdit(p, stamp);
    var d1 := PatchItem(u.firstName, x => FirstName(x));
    var d2 := d1 + PatchItem(u.lastName, x => LastName(x));
    var d3 := d2 + PatchItem(u.email, x => Email(x));
    var d4 := d3 + PatchItem(u.phone, x => Phone(x));
    var d5 := d4 + PatchItem(u.notes, x => Notes(x));
    assert PatientItemsBeforeConsent(u) == d5;
    var q1 := p.(firstName := if u.firstName.Put? then u.firstName.value.value else p.firstName);
    var q2 := q1.(lastName := if u.lastName.Put? then u.lastName.value.value else p.lastName);
    var q3 := q2.(email := u.email.Or(p.email));
    var q4 := q3.(phone := u.phone.Or(p.phone));
    assert Fold(e, d1, SetPatientField) == PatientEdit(q1, stamp) by {
      PatchItemFold(e, [], u.firstName, x => FirstName(x), SetPatientField);
      assert [] + d1 == d1;
    }
    assert Fold(e, d2, SetPatientField) == PatientEdit(q2, stamp) by {
      PatchItemFold(e, d1, u.lastName, x => LastName(x), SetPatientField);
    }
    assert Fold(e, d3, SetPatientField) == PatientEdit(q3, stamp) by {
      PatchItemFold(e, d2, u.email, x => Email(x), SetPatientField);
    }
    assert Fold(e, d4, SetPatientField) == PatientEdit(q4, stamp) by {
      PatchItemFold(e, d3, u.phone, x => Phone(x), SetPatientField);
    }
    PatchItemFold(e, d4, u.notes, x => Notes(x), SetPatientField);
  }

  /** The setattr loop over the dumped update is the field-wise merge. */
  lemma PatientUpdateLoopIsMerge(p: Patient, u: PatientUpdate, stamp: Option<int>)
    requires !NullsNotNullColumn(u)
    ensures Fold(PatientEdit(p, stamp), DumpPatientUpdate(u), SetPatientField) == PatientEdit(MergePatient(p, u, stamp), stamp)
  {
    ItemsBeforeConsentFold(p, u, stamp);
    PatchItemFold(PatientEdit(p, stamp), PatientItemsBeforeConsent(u), u.consentGiven, x => ConsentGiven(x), SetPatientField);
  }

  /** The handlers' loop over the dumped fields, `setattr` by `setattr`; the
      route passes its clock (`Some(now)`), the service does not (`None`). */
  method ApplyPatientUpdate(original: Patient, u: PatientUpdate, stamp: Option<int>) returns (p: Patient)
    requires !NullsNotNullColumn(u)
    ensures p == MergePatient(original, u, stamp)
  {
    var items := DumpPatientUpdate(u);
    var current := PatientEdit(original, stamp);
    var i := 0;
    while i < |items|
      invariant 0 <= i <= |items|
      invariant current == Fold(PatientEdit(original, stamp), items[..i], SetPatientField)
    {
      FoldSnoc(PatientEdit(original, stamp), items[..i], items[i], SetPatientField);
      assert items[..i + 1] == items[..i] + [items[i]];
      current := SetPatientField(current, items[i]);
      i := i + 1;
    }
    assert items[..|items|] == items;
    PatientUpdateLoopIsMerge(original, u, stamp);
    p := current.row;
  }

  // ---------------------------------------------------------------------------
  // Screenings (app/app/schemas/screening.py)

  datatype ScreeningCreate = ScreeningCreate(
    patientId: Id,
    reasonForScreening: Option<string>,
    clinicalNotes: Option<string>)

  datatype ScreeningUpdate = ScreeningUpdate(
    status: Patch<Option<string>>,
    clinicalNotes: Patch<Option<string>>)

  datatype ScreeningField =
    | Status(status: Option<string>)
    | ClinicalNotes(text: Option<string>)

  function DumpScreeningUpdate(u: ScreeningUpdate): seq<ScreeningField> {
    PatchItem(u.status, x => Status(x)) + PatchItem(u.clinicalNotes, x => ClinicalNotes(x))
  }

  function SetScreeningField(s: Screening, f: ScreeningField): Screening {
    match f
    case Status(v) => s.(status := v)
    case ClinicalNotes(v) => s.(clinicalNotes := v)
  }

  /** A screening update: the sent fields, whatever `status` string is sent,
      and nothing else. */
  function MergeScreening(s: Screening, u: ScreeningUpdate): (t: Screening)
    ensures t == s.(status := t.status, clinicalNotes := t.clinicalNotes)
    ensures u.status.Put? ==> t.status == u.status.value
    ensures u.status.Keep? ==> t.status == s.status
    ensures u.clinicalNotes.Put? ==> t.clinicalNotes == u.clinicalNotes.value
    ensures u.clinicalNotes.Keep? ==> t.clinicalNotes == s.clinicalNotes
  {
    s.(status := u.status.Or(s.status), clinicalNotes := u.clinicalNotes.Or(s.clinicalNotes))
  }

  lemma ScreeningUpdateLoopIsMerge(s: Screening, u: ScreeningUpdate)
    ensures Fold(s, DumpScreeningUpdate(u), SetScreeningField) == MergeScreening(s, u)
  {
    var d1 := PatchItem(u.status, x => Status(x));
    PatchItemFold(s, [], u.status, x => Status(x), SetScreeningField);
    assert [] + d1 == d1;
    PatchItemFold(s, d1, u.clinicalNotes, x => ClinicalNotes(x), SetScreeningField);
  }

  // ---------------------------------------------------------------------------
  // Annotations (app/app/schemas/annotation.py)

  datatype AnnotationCreate = AnnotationCreate(
    resultId: Id,
    agreesWithAi: Option<bool>,
    clinicianDiagnosis: Option<string>,
    notes: Option<string>,
    overrideFlags: Option<JsonObject>,   // defaults to {}, may be sent as null
    followUpRecommended: bool,
    followUpNotes: Option<string>,
    followUpDate: Option<int>)

  /** No `signed_off` or `signed_off_at` field: a patch cannot undo a sign-off. */
  datatype AnnotationUpdate = AnnotationUpdate(
    agreesWithAi: Patch<Option<bool>>,
    clinicianDiagnosis: Patch<Option<string>>,
    notes: Patch<Option<string>>,
    overrideFlags: Patch<Option<JsonObject>>,
    followUpRecommended: Patch<Option<bool>>,
    followUpNotes: Patch<Option<string>>,
    followUpDate: Patch<Option<int>>)

  datatype AnnotationField =
    | AgreesWithAi(flag: Option<bool>)
    | ClinicianDiagnosis(text: Option<string>)
    | AnnotationNotes(text: Option<string>)
    | OverrideFlags(flags: Option<JsonObject>)
    | FollowUpRecommended(flag: Option<bool>)
    | FollowUpNotes(text: Option<string>)
    | FollowUpDate(date: Option<int>)

  function DumpAnnotationUpdate(u: AnnotationUpdate): seq<AnnotationField> {
    PatchItem(u.agreesWithAi, x => AgreesWithAi(x)) + PatchItem(u.clinicianDiagnosis, x => ClinicianDiagnosis(x))
    + PatchItem(u.notes, x => AnnotationNotes(x)) + PatchItem(u.overrideFlags, x => OverrideFlags(x))
    + PatchItem(u.followUpRecommended, x => FollowUpRecommended(x))
    + PatchItem(u.followUpNotes, x => FollowUpNotes(x)) + PatchItem(u.followUpDate, x => FollowUpDate(x))
  }

  function SetAnnotationField(a: Annotation, f: AnnotationField): Annotation {
    match f
    case AgreesWithAi(v) => a.(agreesWithAi := v)
    case ClinicianDiagnosis(v) => a.(clinicianDiagnosis := v)
    case AnnotationNotes(v) => a.(notes := v)
    case OverrideFlags(v) => a.(overrideFlags := v)
    case FollowUpRecommended(v) => a.(followUpRecommended := v)
    case FollowUpNotes(v) => a.(followUpNotes := v)
    case FollowUpDate(v) => a.(followUpDate := v)
  }

  /** An annotation update: the sent clinical fields; identity, clinician,
      result and the sign-off state never change. */
  function MergeAnnotation(a: Annotation, u: AnnotationUpdate): (b: Annotation)
    ensures b == a.(agreesWithAi := b.agreesWithAi, clinicianDiagnosis := b.clinicianDiagnosis, notes := b.notes,
                    overrideFlags := b.overrideFlags, followUpRecommended := b.followUpRecommended,
                    followUpNotes := b.followUpNotes, followUpDate := b.followUpDate)
    ensures b.id == a.id && b.resultId == a.resultId && b.clinicianId == a.clinicianId
    ensures b.signedOff == a.signedOff && b.signedOffAt == a.signedOffAt && b.createdAt == a.createdAt
    ensures u.agreesWithAi.Put? ==> b.agreesWithAi == u.agreesWithAi.value
    ensures u.agreesWithAi.Keep? ==> b.agreesWithAi == a.agreesWithAi
    ensures u.clinicianDiagnosis.Put? ==> b.clinicianDiagnosis == u.clinicianDiagnosis.value
    ensures u.clinicianDiagnosis.Keep? ==> b.clinicianDiagnosis == a.clinicianDiagnosis
    ensures u.notes.Put? ==> b.notes == u.notes.value
    ensures u.notes.Keep? ==> b.notes == a.notes
    ensures u.overrideFlags.Put? ==> b.overrideFlags == u.overrideFlags.value
    ensures u.overrideFlags.Keep? ==> b.overrideFlags == a.overrideFlags
    ensures u.followUpRecommended.Put? ==> b.followUpRecommended == u.followUpRecommended.value
    ensures u.followUpRecommended.Keep? ==> b.followUpRecommended == a.followUpRecommended
    ensures u.followUpNotes.Put? ==> b.followUpNotes == u.followUpNotes.value
    ensures u.followUpNotes.Keep? ==> b.followUpNotes == a.followUpNotes
    ensures u.followUpDate.Put? ==> b.followUpDate == u.followUpDate.value
    ensures u.followUpDate.Keep? ==> b.followUpDate == a.followUpDate
  {
    a.(agreesWithAi := u.agreesWithAi.Or(a.agreesWithAi),
       clinicianDiagnosis := u.clinicianDiagnosis.Or(a.clinicianDiagnosis),
       notes := u.notes.Or(a.notes),
       overrideFlags := u.overrideFlags.Or(a.overrideFlags),
       followUpRecommended := u.followUpRecommended.Or(a.followUpRecommended),
       followUpNotes := u.followUpNotes.Or(a.followUpNotes),
       followUpDate := u.followUpDate.Or(a.followUpDate))
  }

  lemma AnnotationUpdateLoopIsMerge(a: Annotation, u: AnnotationUpdate)
    ensures Fold(a, DumpAnnotationUpdate(u), SetAnnotationField) == MergeAnnotation(a, u)
  {
    var step := SetAnnotationField;
    var d1 := PatchItem(u.agreesWithAi, x => AgreesWithAi(x));
    var d2 := d1 + PatchItem(u.clinicianDiagnosis, x => ClinicianDiagnosis(x));
    var d3 := d2 + PatchItem(u.notes, x => AnnotationNotes(x));
    var d4 := d3 + PatchItem(u.overrideFlags, x => OverrideFlags(x));
    var d5 := d4 + PatchItem(u.followUpRecommended, x => FollowUpRecommended(x));
    var d6 := d5 + PatchItem(u.followUpNotes, x => FollowUpNotes(x));
    var d7 := d6 + PatchItem(u.followUpDate, x => FollowUpDate(x));
    assert DumpAnnotationUpdate(u) == d7;
    var b1 := a.(agreesWithAi := u.agreesWithAi.Or(a.agreesWithAi));
    var b2 := b1.(clinicianDiagnosis := u.clinicianDiagnosis.Or(a.clinicianDiagnosis));
    var b3 := b2.(notes := u.notes.Or(a.notes));
    var b4 := b3.(overrideFlags := u.overrideFlags.Or(a.overrideFlags));
    var b5 := b4.(followUpRecommended := u.followUpRecommended.Or(a.followUpRecommended));
    var b6 := b5.(followUpNotes := u.followUpNotes.Or(a.followUpNotes));
    assert Fold(a, d1, step) == b1 by {
      PatchItemFold(a, [], u.agreesWithAi, x => AgreesWithAi(x), step);
      assert [] + d1 == d1;
    }
    assert Fold(a, d2, step) == b2 by {
      PatchItemFold(a, d1, u.clinicianDiagnosis, x => ClinicianDiagnosis(x), step);
    }
    assert Fold(a, d3, step) == b3 by {
      PatchItemFold(a, d2, u.notes, x => AnnotationNotes(x), step);
    }
    assert Fold(a, d4, step) == b4 by {
      PatchItemFold(a, d3, u.overrideFlags, x => OverrideFlags(x), step);
    }
    assert Fold(a, d5, step) == b5 by {
      PatchItemFold(a, d4, u.followUpRecommended, x => FollowUpRecommended(x), step);
    }
    assert Fold(a, d6, step) == b6 by {
      PatchItemFold(a, d5, u.followUpNotes, x => FollowUpNotes(x), step);
    }
    PatchItemFold(a, d6, u.followUpDate, x => FollowUpDate(x), step);
  }

  /** `ClinicianReviewRequest` (app/app/schemas/diagnosis.py; the class of the
      same name in app/app/schemas/annotation.py has the same fields). */
  datatype ClinicianReviewRequest = ClinicianReviewRequest(
    diagnosisId: Id,
    agreesWithAi: bool,
    clinicianDiagnosis: string,
    clinicianNotes: Option<string>,
    followUpRecommended: bool,
    followUpNotes: Option<string>)

  // ---------------------------------------------------------------------------
  // Samples (app/app/schemas/sample.py)

  datatype SampleCreate = SampleCreate(
    patientId: Id,
    collectionDate: int,
    sampleType: Option<string>,
    batchId: Option<string>,
    metadata: Option<JsonObject>)   // defaults to {}, may be sent as null

  datatype SampleUpdate = SampleUpdate(
    sampleType: Patch<Option<string>>,
    metadata: Patch<Option<JsonObject>>,
    status: Patch<Option<string>>,
    imagePath: Patch<Option<string>>)

  datatype SampleField =
    | SampleType(text: Option<string>)
    | Metadata(data: Option<JsonObject>)
    | SampleStatus(status: Option<string>)
    | ImagePath(path: Option<string>)

  function DumpSampleUpdate(u: SampleUpdate): seq<SampleField> {
    PatchItem(u.sampleType, x => SampleType(x)) + PatchItem(u.metadata, x => Metadata(x))
    + PatchItem(u.status, x => SampleStatus(x)) + PatchItem(u.imagePath, x => ImagePath(x))
  }

  function SetSampleField(s: Sample, f: SampleField): Sample {
    match f
    case SampleType(v) => s.(sampleType := v)
    case Metadata(v) => s.(metadata := v)
    case SampleStatus(v) => s.(status := v)
    case ImagePath(v) => s.(imagePath := v)
  }

  /** A sample update: the sent fields, a free-form `status` included;
      patient, batch and collection date never change. */
  function MergeSample(s: Sample, u: SampleUpdate): (t: Sample)
    ensures t == s.(sampleType := t.sampleType, metadata := t.metadata, status := t.status, imagePath := t.imagePath)
    ensures t.id == s.id && t.patientId == s.patientId && t.batchId == s.batchId
    ensures t.collectionDate == s.collectionDate && t.createdAt == s.createdAt
    ensures u.sampleType.Put? ==> t.sampleType == u.sampleType.value
    ensures u.sampleType.Keep? ==> t.sampleType == s.sampleType
    ensures u.metadata.Put? ==> t.metadata == u.metadata.value
    ensures u.metadata.Keep? ==> t.metadata == s.metadata
    ensures u.status.Put? ==> t.status == u.status.value
    ensures u.status.Keep? ==> t.status == s.status
    ensures u.imagePath.Put? ==> t.imagePath == u.imagePath.value
    ensures u.imagePath.Keep? ==> t.imagePath == s.imagePath
  {
    s.(sampleType := u.sampleType.Or(s.sampleType),
       metadata := u.metadata.Or(s.metadata),
       status := u.status.Or(s.status),
       imagePath := u.imagePath.Or(s.imagePath))
  }

  lemma SampleUpdateLoopIsMerge(s: Sample, u: SampleUpdate)
    ensures Fold(s, DumpSampleUpdate(u), SetSampleField) == MergeSample(s, u)
  {
    var step := SetSampleField;
    var d1 := PatchItem(u.sampleType, x => SampleType(x));
    var d2 := d1 + PatchItem(u.metadata, x => Metadata(x));
    var d3 := d2 + PatchItem(u.status, x => SampleStatus(x));
    var d4 := d3 + PatchItem(u.imagePath, x => ImagePath(x));
    assert DumpSampleUpdate(u) == d4;
    PatchItemFold(s, [], u.sampleType, x => SampleType(x), step);
    assert [] + d1 == d1;
    PatchItemFold(s, d1, u.metadata, x => Metadata(x), step);
    PatchItemFold(s, d2, u.status, x => SampleStatus(x), step);
    PatchItemFold(s, d3, u.imagePath, x => ImagePath(x), step);
  }
}
