/** The patient endpoints (app/app/api/routes/patients.py). The caller is the
    clinician that the `require_clinician` dependency admitted. */
module PatientRoutes {
  import opened Common
  import opened Users
  import opened PatientModel
  import opened AuditModel
  import opened Schemas
  import opened Store

  const ResourceType: string := "patient"

  datatype PatientList = PatientList(total: nat, items: seq<Patient>)

  /** The search of `GET /patients`: the text occurs, ignoring case, in the
      first name, the last name or the medical record number (a null number
      matches nothing). */
  predicate PatientSearchMatches(p: Patient, search: Option<string>) {
    Given(search) ==>
      || ILikeContains(p.firstName, search.value)
      || ILikeContains(p.lastName, search.value)
      || (p.medicalRecordNumber.Some? && ILikeContains(p.medicalRecordNumber.value, search.value))
  }

  function PatientSearchFilter(search: Option<string>): Patient -> bool {
    x => PatientSearchMatches(x, search)
  }

  /** `list_patients`: every patient that matches the search, inactive ones
      included, in table order; `total` counts them all and the page keeps at
      most `limit` of them after the first `offset`. `limit` outside 1..100 or
      a negative `offset` is a 422. */
  function ListPatients(s: DbState, search: Option<string>, limit: int, offset: int): (r: Response<PatientList>)
    requires ValidState(s)
    ensures r.Ok? || r.Unprocessable?
    ensures r.Unprocessable? <==> !(1 <= limit <= 100 && 0 <= offset)
    ensures r.Ok? ==> r.value.total == |set k | k in s.patients && PatientSearchMatches(s.patients[k], search)|
    ensures r.Ok? ==> |r.value.items| == Min(limit, Max(0, r.value.total - offset))
    ensures r.Ok? ==> forall x :: x in r.value.items ==>
              x.id in s.patients && s.patients[x.id] == x && PatientSearchMatches(x, search)
    ensures r.Ok? ==> WindowOf(r.value.items, Filter(PatientRows(s), PatientSearchFilter(search)), offset)
    ensures r.Ok? ==> Increasing(r.value.items, PatientKey)
  {
    if !(1 <= limit <= 100 && 0 <= offset) then Unprocessable("limit must be in 1..100 and offset at least 0")
    else Ok(PatientPage(s, search, limit, offset))
  }

  /** The body of a successful `list_patients`. */
  function PatientPage(s: DbState, search: Option<string>, limit: nat, offset: nat): (l: PatientList)
    requires ValidState(s)
    ensures l.total == |set k | k in s.patients && PatientSearchMatches(s.patients[k], search)|
    ensures |l.items| == Min(limit, Max(0, l.total - offset))
    ensures forall x :: x in l.items ==> x.id in s.patients && s.patients[x.id] == x && PatientSearchMatches(x, search)
    ensures WindowOf(l.items, Filter(PatientRows(s), PatientSearchFilter(search)), offset)
    ensures Increasing(l.items, PatientKey)
  {
    var p := PatientSearchFilter(search);
    var matching := Filter(PatientRows(s), p);
    PatientRowsMatching(s, p);
    assert KeysBelow(s.patients, s.nextId, p)
        == set k | k in s.patients && PatientSearchMatches(s.patients[k], search);
    PageMembers(matching, offset, limit);
    PageIncreasing(matching, offset, limit, PatientKey);
    PatientList(|matching|, Page(matching, offset, limit))
  }

  /** The row `create_patient` inserts: the request's fields, and a consent
      date of now exactly when consent is given. */
  function CreatedPatient(id: Id, data: PatientCreate, now: int): (p: Patient)
    ensures p.id == id && p.createdAt == now && p.isActive
    ensures p.firstName == data.firstName && p.lastName == data.lastName && p.dateOfBirth == data.dateOfBirth
    ensures p.email == data.email && p.phone == data.phone && p.notes == data.notes
    ensures p.medicalRecordNumber == data.medicalRecordNumber
    ensures p.consentGiven == Some(data.consentGiven)
    ensures p.consentDate.Some? <==> data.consentGiven
    ensures p.consentDate.Some? ==> p.consentDate.value == now
  {
    NewPatient(id, data.firstName, data.lastName, data.dateOfBirth, now).(
      email := data.email, phone := data.phone, medicalRecordNumber := data.medicalRecordNumber, notes := data.notes,
      consentGiven := Some(data.consentGiven), consentDate := if data.consentGiven then Some(now) else None)
  }

  /** `create_patient`: a non-empty medical record number already on file is
      a 400; an empty one is not checked, and if another patient holds it the
      unique column makes the commit fail. Otherwise one new patient and one
      `patient.create` entry. */
  method CreatePatient(db: Db, user: User, data: PatientCreate, now: int) returns (r: Response<Patient>)
    requires db.Valid()
    modifies db
    ensures db.Valid()
    ensures r.Ok? || r.BadRequest? || r.IntegrityError?
    ensures r.BadRequest? <==> Given(data.medicalRecordNumber) && MrnTaken(old(db.patients), data.medicalRecordNumber.value)
    ensures r.BadRequest? ==> r.detail == "Medical record number already exists"
    ensures r.IntegrityError? <==> data.medicalRecordNumber == Some("") && MrnTaken(old(db.patients), "")
    ensures !r.Ok? ==> db.State() == old(db.State())
    ensures r.Ok? ==>
              && r.value == CreatedPatient(old(db.nextId), data, now)
              && db.State() == old(db.State()).(
                   patients := old(db.patients)[r.value.id := r.value],
                   log := old(db.log) + [RouteEntry(old(db.nextId) + 1, now, user, "patient.create", ResourceType, r.value.id)],
                   nextId := old(db.nextId) + 2)
  {
    var mrn := data.medicalRecordNumber;
    if Given(mrn) && MrnTaken(db.patients, mrn.value) {
      return BadRequest("Medical record number already exists");
    }
    if mrn.Some? && MrnTaken(db.patients, mrn.value) {
      return IntegrityError("UNIQUE constraint failed: patients.medical_record_number");
    }
    var id := db.FreshId();
    var p := CreatedPatient(id, data, now);
    db.PutPatient(p);
    db.Log(RouteEntry(db.nextId, now, user, "patient.create", ResourceType, id));
    return Ok(p);
  }

  /** `get_patient`: 404 for an unknown id; otherwise the patient, and the
      read itself is audited as `patient.view`. */
  method GetPatient(db: Db, user: User, id: Id, now: int) returns (r: Response<Patient>)
    requires db.Valid()
    modifies db
    ensures db.Valid()
    ensures r.Ok? <==> id in old(db.patients)
    ensures !r.Ok? ==> r == NotFound("Patient not found") && db.State() == old(db.State())
    ensures r.Ok? ==>
              && r.value == old(db.patients)[id]
              && db.State() == old(db.State()).(
                   log := old(db.log) + [RouteEntry(old(db.nextId), now, user, "patient.view", ResourceType, id)],
                   nextId := old(db.nextId) + 1)
  {
    if id !in db.patients {
      return NotFound("Patient not found");
    }
    var p := db.patients[id];
    db.Log(RouteEntry(db.nextId, now, user, "patient.view", ResourceType, id));
    return Ok(p);
  }

  /** `update_patient`: 404 for an unknown id; a null first or last name
      makes the commit fail; otherwise the sent fields are set one by one,
      consent given for the first time stamping the consent date, and one
      `patient.update` entry follows. */
  method UpdatePatient(db: Db, user: User, id: Id, u: PatientUpdate, now: int) returns (r: Response<Patient>)
    requires db.Valid()
    modifies db
    ensures db.Valid()
    ensures r.Ok? || r.NotFound? || r.IntegrityError?
    ensures r.NotFound? <==> id !in old(db.patients)
    ensures r.NotFound? ==> r.detail == "Patient not found"
    ensures r.IntegrityError? <==> id in old(db.patients) && NullsNotNullColumn(u)
    ensures !r.Ok? ==> db.State() == old(db.State())
    ensures r.Ok? ==>
              && !NullsNotNullColumn(u)
              && r.value == MergePatient(old(db.patients)[id], u, Some(now))
              && db.State() == old(db.State()).(
                   patients := old(db.patients)[id := r.value],
                   log := old(db.log) + [RouteEntry(old(db.nextId), now, user, "patient.update", ResourceType, id)],
                   nextId := old(db.nextId) + 1)
  {
    if id !in db.patients {
      return NotFound("Patient not found");
    }
    if NullsNotNullColumn(u) {
      return IntegrityError("NOT NULL constraint failed: patients.first_name or patients.last_name");
    }
    var p := ApplyPatientUpdate(db.patients[id], u, Some(now));
    db.PutPatient(p);
    db.Log(RouteEntry(db.nextId, now, user, "patient.update", ResourceType, id));
    return Ok(p);
  }

  /** `delete_patient`: 404 for an unknown id; a hard delete that takes the
      patient's screenings and samples with it, and fails, with nothing
      written, when one of those screenings has images or a diagnosis. The
      `patient.delete` entry is committed together with the delete. */
  method DeletePatient(db: Db, user: User, id: Id, now: int) returns (r: Response<()>)
    requires db.Valid()
    modifies db
    ensures db.Valid()
    ensures r.Ok? || r.NotFound? || r.IntegrityError?
    ensures r.NotFound? <==> id !in old(db.patients)
    ensures r.NotFound? ==> r.detail == "Patient not found"
    ensures r.IntegrityError? <==> id in old(db.patients) && PatientDeleteBlocked(old(db.State()), id)
    ensures !r.Ok? ==> db.State() == old(db.State())
    ensures r.Ok? ==>
              db.State() == PatientTreeRemoved(old(db.State()), id).(
                log := old(db.log) + [RouteEntry(old(db.nextId), now, user, "patient.delete", ResourceType, id)],
                nextId := old(db.nextId) + 1)
  {
    if id !in db.patients {
      return NotFound("Patient not found");
    }
    if PatientDeleteBlocked(db.State(), id) {
      return IntegrityError("NOT NULL constraint failed: screening_id");
    }
    db.RemovePatientTree(id);
    db.Log(RouteEntry(db.nextId, now, user, "patient.delete", ResourceType, id));
    return Ok(());
  }
}
