/** The patient service (app/app/services/patient_service.py). `user` is the
    optional `current_user` the service is built with; its audit entries
    carry the resource type `patient` and are written, each with its own
    commit, only when there is a user. */
module PatientService {
  import opened Common
  import opened Users
  import opened PatientModel
  import opened Records
  import opened AuditModel
  import opened Schemas
  import opened Store

  const ResourceType: string := "patient"

  /** The row `create_patient` inserts: the names, birth date, contact fields,
      record number and consent flag of the request. The notes and the consent
      date are not copied. */
  function ServicePatient(id: Id, data: PatientCreate, now: int): (p: Patient)
    ensures p.id == id && p.createdAt == now && p.isActive
    ensures p.firstName == data.firstName && p.lastName == data.lastName && p.dateOfBirth == data.dateOfBirth
    ensures p.email == data.email && p.phone == data.phone && p.medicalRecordNumber == data.medicalRecordNumber
    ensures p.consentGiven == Some(data.consentGiven) && p.consentDate == None && p.notes == None
  {
    NewPatient(id, data.firstName, data.lastName, data.dateOfBirth, now).(
      email := data.email, phone := data.phone, medicalRecordNumber := data.medicalRecordNumber,
      consentGiven := Some(data.consentGiven))
  }

  /** `create_patient`: no duplicate check of its own, so a record number on
      file makes the commit fail; otherwise one new patient and, with a user,
      one `patient.create` entry. */
  method CreatePatient(db: Db, user: Option<User>, data: PatientCreate, now: int) returns (r: Response<Patient>)
    requires db.Valid()
    modifies db
    ensures db.Valid()
    ensures r.Ok? || r.IntegrityError?
    ensures r.IntegrityError? <==> data.medicalRecordNumber.Some? && MrnTaken(old(db.patients), data.medicalRecordNumber.value)
    ensures r.IntegrityError? ==> db.State() == old(db.State())
    ensures r.Ok? ==>
              var es := ServiceEntries(user, old(db.nextId) + 1, now, "patient.create", ResourceType, r.value.id, None, Info);
              && r.value == ServicePatient(old(db.nextId), data, now)
              && db.State() == old(db.State()).(
                   patients := old(db.patients)[r.value.id := r.value],
                   log := old(db.log) + es,
                   nextId := old(db.nextId) + 1 + |es|)
  {
    var mrn := data.medicalRecordNumber;
    if mrn.Some? && MrnTaken(db.patients, mrn.value) {
      return IntegrityError("UNIQUE constraint failed: patients.medical_record_number");
    }
    var id := db.FreshId();
    var p := ServicePatient(id, data, now);
    db.PutPatient(p);
    LogIfUser(db, user, "patient.create", ResourceType, id, None, Info, now);
    return Ok(p);
  }

  /** `get_patient_by_id`: the patient, if any; finding one is audited as
      `patient.view` when there is a user. */
  method GetPatientById(db: Db, user: Option<User>, id: Id, now: int) returns (r: Option<Patient>)
    requires db.Valid()
    modifies db
    ensures db.Valid()
    ensures r.Some? <==> id in old(db.patients)
    ensures r.None? ==> db.State() == old(db.State())
    ensures r.Some? ==>
              var es := ServiceEntries(user, old(db.nextId), now, "patient.view", ResourceType, id, None, Info);
              && r.value == old(db.patients)[id]
              && db.State() == old(db.State()).(log := old(db.log) + es, nextId := old(db.nextId) + |es|)
  {
    if id !in db.patients {
      return None;
    }
    r := Some(db.patients[id]);
    LogIfUser(db, user, "patient.view", ResourceType, id, None, Info, now);
  }

  /** The filters of `get_patients`: active, and matching the search on the
      first name, the last name or the record number, ignoring case. */
  predicate ActiveMatch(p: Patient, search: Option<string>) {
    && p.isActive
    && (Given(search) ==>
          || ILikeContains(p.firstName, search.value)
          || ILikeContains(p.lastName, search.value)
          || (p.medicalRecordNumber.Some? && ILikeContains(p.medicalRecordNumber.value, search.value)))
  }

  datatype PatientPage = PatientPage(items: seq<Patient>, total: nat)

  function ActiveFilter(search: Option<string>): Patient -> bool {
    x => ActiveMatch(x, search)
  }

  /** `get_patients`: the matching active patients in table order, cut by
      `skip` and `limit` (SQLite's reading of negative values), and how many
      match in all. */
  function GetPatients(s: DbState, search: Option<string>, skip: int, limit: int): (r: PatientPage)
    requires ValidState(s)
    ensures r.total == |set k | k in s.patients && ActiveMatch(s.patients[k], search)|
    ensures |r.items| == Min(SqlLimit(limit, r.total), Max(0, r.total - SqlOffset(skip)))
    ensures forall x :: x in r.items ==> x.id in s.patients && s.patients[x.id] == x && x.isActive
    ensures forall x :: x in r.items ==> ActiveMatch(x, search)
    ensures WindowOf(r.items, Filter(PatientRows(s), ActiveFilter(search)), SqlOffset(skip))
    ensures Increasing(r.items, PatientKey)
  {
    var p := ActiveFilter(search);
    var matching := Filter(PatientRows(s), p);
    PatientRowsMatching(s, p);
    assert KeysBelow(s.patients, s.nextId, p) == set k | k in s.patients && ActiveMatch(s.patients[k], search);
    PageMembers(matching, SqlOffset(skip), SqlLimit(limit, |matching|));
    PageIncreasing(matching, SqlOffset(skip), SqlLimit(limit, |matching|), PatientKey);
    PatientPage(Page(matching, SqlOffset(skip), SqlLimit(limit, |matching|)), |matching|)
  }

  /** The `updated_fields` of the audit entry: the sent field names, in the
      fields' declaration order. */
  function UpdatedFields(items: seq<PatientField>): (r: seq<Json>)
    ensures |r| == |items|
    ensures forall k :: 0 <= k < |items| ==> r[k] == JStr(items[k].Key())
  {
    if items == [] then [] else [JStr(items[0].Key())] + UpdatedFields(items[1..])
  }

  function UpdateDetails(u: PatientUpdate): JsonObject {
    map["updated_fields" := JList(UpdatedFields(DumpPatientUpdate(u)))]
  }

  /** `update_patient`: the lookup (and its `patient.view` entry) first; None
      for an unknown id. A null name then makes the update's commit fail,
      after the view entry was committed. Otherwise the sent fields are set,
      the consent date left alone, and `patient.update` lists the sent
      fields. */
  method UpdatePatient(db: Db, user: Option<User>, id: Id, u: PatientUpdate, now: int) returns (r: Response<Option<Patient>>)
    requires db.Valid()
    modifies db
    ensures db.Valid()
    ensures r.Ok? || r.IntegrityError?
    ensures r == Ok(None) <==> id !in old(db.patients)
    ensures r == Ok(None) ==> db.State() == old(db.State())
    ensures r.IntegrityError? <==> id in old(db.patients) && NullsNotNullColumn(u)
    ensures id in old(db.patients) && NullsNotNullColumn(u) ==>
              var view := ServiceEntries(user, old(db.nextId), now, "patient.view", ResourceType, id, None, Info);
              db.State() == old(db.State()).(log := old(db.log) + view, nextId := old(db.nextId) + |view|)
    ensures r.Ok? && r.value.Some? ==>
              var view := ServiceEntries(user, old(db.nextId), now, "patient.view", ResourceType, id, None, Info);
              var update := ServiceEntries(user, old(db.nextId) + |view|, now, "patient.update", ResourceType, id,
                                           Some(UpdateDetails(u)), Info);
              && !NullsNotNullColumn(u)
              && r.value.value == MergePatient(old(db.patients)[id], u, None)
              && db.State() == old(db.State()).(
                   patients := old(db.patients)[id := r.value.value],
                   log := (old(db.log) + view) + update,
                   nextId := old(db.nextId) + |view| + |update|)
  {
    var found := GetPatientById(db, user, id, now);
    if found.None? {
      return Ok(None);
    }
    if NullsNotNullColumn(u) {
      return IntegrityError("NOT NULL constraint failed: patients.first_name or patients.last_name");
    }
    var p := StoreUpdate(db, user, id, u, now);
    return Ok(Some(p));
  }

  /** The update proper, after the lookup: the merged row stored and the
      `patient.update` entry. */
  method StoreUpdate(db: Db, user: Option<User>, id: Id, u: PatientUpdate, now: int) returns (p: Patient)
    requires db.Valid() && id in db.patients && !NullsNotNullColumn(u)
    modifies db
    ensures db.Valid()
    ensures var update := ServiceEntries(user, old(db.nextId), now, "patient.update", ResourceType, id,
                                         Some(UpdateDetails(u)), Info);
            && p == MergePatient(old(db.patients)[id], u, None)
            && db.State() == old(db.State()).(
                 patients := old(db.patients)[id := p],
                 log := old(db.log) + update,
                 nextId := old(db.nextId) + |update|)
  {
    p := ApplyPatientUpdate(db.patients[id], u, None);
    db.PutPatient(p);
    LogIfUser(db, user, "patient.update", ResourceType, id, Some(UpdateDetails(u)), Info, now);
  }

  /** `delete_patient`: a soft delete. The lookup (and its view entry)
      first; false for an unknown id; otherwise the patient is marked
      inactive, nothing else of the row changes, and `patient.delete`
      follows. */
  method DeletePatient(db: Db, user: Option<User>, id: Id, now: int) returns (deleted: bool)
    requires db.Valid()
    modifies db
    ensures db.Valid()
    ensures deleted <==> id in old(db.patients)
    ensures !deleted ==> db.State() == old(db.State())
    ensures deleted ==>
              var view := ServiceEntries(user, old(db.nextId), now, "patient.view", ResourceType, id, None, Info);
              var gone := ServiceEntries(user, old(db.nextId) + |view|, now, "patient.delete", ResourceType, id, None, Info);
              db.State() == old(db.State()).(
                patients := old(db.patients)[id := old(db.patients)[id].(isActive := false)],
                log := old(db.log) + view + gone,
                nextId := old(db.nextId) + |view| + |gone|)
  {
    var found := GetPatientById(db, user, id, now);
    if found.None? {
      return false;
    }
    db.PutPatient(found.value.(isActive := false));
    LogIfUser(db, user, "patient.delete", ResourceType, id, None, Info, now);
    return true;
  }

  /** A soft-deleted patient drops out of `get_patients` but stays on file. */
  lemma SoftDeletedIsNotListed(s: DbState, id: Id, search: Option<string>, skip: int, limit: int)
    requires ValidState(s) && id in s.patients
    ensures var t := s.(patients := s.patients[id := s.patients[id].(isActive := false)]);
            && id in t.patients
            && forall x :: x in GetPatients(t, search, skip, limit).items ==> x.id != id
  {
  }

  datatype PatientHistory = PatientHistory(patient: Patient, screenings: seq<Screening>, samples: seq<Sample>, age: int)

  /** `get_patient_history`: the lookup (and its view entry); nothing for an
      unknown id; otherwise the patient, their screenings and samples, and
      their age on `today`. */
  method GetPatientHistory(db: Db, user: Option<User>, id: Id, today: Date, now: int) returns (r: Option<PatientHistory>)
    requires db.Valid()
    modifies db
    ensures db.Valid()
    ensures r.Some? <==> id in old(db.patients)
    ensures r.None? ==> db.State() == old(db.State())
    ensures r.Some? ==>
              var view := ServiceEntries(user, old(db.nextId), now, "patient.view", ResourceType, id, None, Info);
              && r.value.patient == old(db.patients)[id]
              && r.value.age == GetAge(r.value.patient.dateOfBirth, today)
              && (forall x :: x in r.value.screenings <==>
                    x.id in old(db.screenings) && old(db.screenings)[x.id] == x && x.patientId == id)
              && (forall x :: x in r.value.samples <==>
                    x.id in old(db.samples) && old(db.samples)[x.id] == x && x.patientId == id)
              && Increasing(r.value.screenings, ScreeningKey)
              && Increasing(r.value.samples, SampleKey)
              && db.State() == old(db.State()).(log := old(db.log) + view, nextId := old(db.nextId) + |view|)
  {
    var found := GetPatientById(db, user, id, now);
    if found.None? {
      return None;
    }
    var s := db.State();
    var ofScreening := (x: Screening) => x.patientId == id;
    var ofSample := (x: Sample) => x.patientId == id;
    var screenings := Filter(ScreeningRows(s), ofScreening);
    var samples := Filter(SampleRows(s), ofSample);
    FilterMembers(ScreeningRows(s), ofScreening);
    FilterMembers(SampleRows(s), ofSample);
    ScreeningRowsMatching(s, ofScreening);
    SampleRowsMatching(s, ofSample);
    return Some(PatientHistory(found.value, screenings, samples, GetAge(found.value.dateOfBirth, today)));
  }
}
