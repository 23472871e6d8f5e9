/** The screening endpoints (app/app/api/routes/screenings.py). The caller is
    the clinician that the `require_clinician` dependency admitted. */
module ScreeningRoutes {
  import opened Common
  import opened Users
  import opened Records
  import opened AuditModel
  import opened Schemas
  import opened Sorting
  import opened Store

  datatype ScreeningList = ScreeningList(total: nat, items: seq<Screening>)

  function CreatedAt(s: Screening): int {
    s.createdAt
  }

  /** The optional filters of `GET /screenings`; an empty `status` string is
      no filter. */
  predicate ScreeningMatches(s: Screening, patientId: Option<Id>, status: Option<string>) {
    && (patientId.Some? ==> s.patientId == patientId.value)
    && (Given(status) ==> s.status == status)
  }

  function ScreeningFilter(patientId: Option<Id>, status: Option<string>): Screening -> bool {
    x => ScreeningMatches(x, patientId, status)
  }

  /** `list_screenings`: the matching screenings, newest first, `total`
      counted before the window is cut; `limit` outside 1..100 or a negative
      `offset` is a 422. */
  function ListScreenings(s: DbState, patientId: Option<Id>, status: Option<string>, limit: int, offset: int): (r: Response<ScreeningList>)
    requires ValidState(s)
    ensures r.Ok? || r.Unprocessable?
    ensures r.Unprocessable? <==> !(1 <= limit <= 100 && 0 <= offset)
    ensures r.Ok? ==> r.value.total == |set k | k in s.screenings && ScreeningMatches(s.screenings[k], patientId, status)|
    ensures r.Ok? ==> |r.value.items| == Min(limit, Max(0, r.value.total - offset))
    ensures r.Ok? ==> SortedDesc(r.value.items, CreatedAt)
    ensures r.Ok? ==> forall x :: x in r.value.items ==>
              x.id in s.screenings && s.screenings[x.id] == x && ScreeningMatches(x, patientId, status)
    ensures r.Ok? ==> WindowOf(r.value.items, Ordered(ScreeningRows(s), ScreeningFilter(patientId, status), CreatedAt), offset)
  {
    if !(1 <= limit <= 100 && 0 <= offset) then Unprocessable("limit must be in 1..100 and offset at least 0")
    else
      var p := ScreeningFilter(patientId, status);
      var rows := ScreeningRows(s);
      FilterScanCount(s.screenings, s.nextId, p);
      assert KeysBelow(s.screenings, s.nextId, p)
          == set k | k in s.screenings && ScreeningMatches(s.screenings[k], patientId, status);
      Ok(ScreeningList(|Filter(rows, p)|, OrderedPage(rows, p, CreatedAt, offset, limit)))
  }

  /** `get_screening`. */
  function GetScreening(s: DbState, id: Id): (r: Response<Screening>)
    ensures r.Ok? || r.NotFound?
    ensures r.Ok? <==> id in s.screenings
    ensures r.Ok? ==> r.value == s.screenings[id]
  {
    if id in s.screenings then Ok(s.screenings[id]) else NotFound("Screening not found")
  }

  /** `create_screening`: 404 for an unknown patient, 400 unless the patient
      has given consent; otherwise one `pending` screening and, after its
      commit, one `screening.create` audit entry. */
  method CreateScreening(db: Db, user: User, data: ScreeningCreate, now: int) returns (r: Response<Screening>)
    requires db.Valid()
    modifies db
    ensures db.Valid()
    ensures data.patientId !in old(db.patients) ==> r == NotFound("Patient not found")
    ensures data.patientId in old(db.patients) && !IsTrue(old(db.patients)[data.patientId].consentGiven) ==>
              r == BadRequest("Patient consent is required before screening")
    ensures !r.Ok? ==> db.State() == old(db.State())
    ensures r.Ok? <==> data.patientId in old(db.patients) && IsTrue(old(db.patients)[data.patientId].consentGiven)
    ensures r.Ok? ==>
              && r.value == Screening(old(db.nextId), data.patientId, Some(Pending.Value()), data.clinicalNotes,
                                      data.reasonForScreening, now, now)
              && db.State() == old(db.State()).(
                   screenings := old(db.screenings)[r.value.id := r.value],
                   log := old(db.log) + [RouteEntry(old(db.nextId) + 1, now, user, "screening.create", "screening", r.value.id)],
                   nextId := old(db.nextId) + 2)
  {
    if data.patientId !in db.patients {
      return NotFound("Patient not found");
    }
    if !IsTrue(db.patients[data.patientId].consentGiven) {
      return BadRequest("Patient consent is required before screening");
    }
    var id := db.FreshId();
    var screening := Screening(id, data.patientId, Some(Pending.Value()), data.clinicalNotes,
                               data.reasonForScreening, now, now);
    db.PutScreening(screening);
    db.Log(RouteEntry(db.nextId, now, user, "screening.create", "screening", id));
    return Ok(screening);
  }

  /** `update_screening`: 404 for an unknown id; otherwise the sent fields are
      assigned one by one, any `status` string included and with no check of
      the transition, and one `screening.update` entry follows. */
  method UpdateScreening(db: Db, user: User, id: Id, u: ScreeningUpdate, now: int) returns (r: Response<Screening>)
    requires db.Valid()
    modifies db
    ensures db.Valid()
    ensures r.Ok? <==> id in old(db.screenings)
    ensures !r.Ok? ==> r == NotFound("Screening not found") && db.State() == old(db.State())
    ensures r.Ok? ==>
              && r.value == MergeScreening(old(db.screenings)[id], u)
              && db.State() == old(db.State()).(
                   screenings := old(db.screenings)[id := r.value],
                   log := old(db.log) + [RouteEntry(old(db.nextId), now, user, "screening.update", "screening", id)],
                   nextId := old(db.nextId) + 1)
  {
    if id !in db.screenings {
      return NotFound("Screening not found");
    }
    var original := db.screenings[id];
    var items := DumpScreeningUpdate(u);
    var current := original;
    var i := 0;
    while i < |items|
      invariant 0 <= i <= |items|
      invariant current == Fold(original, items[..i], SetScreeningField)
      invariant unchanged(db)
    {
      FoldSnoc(original, items[..i], items[i], SetScreeningField);
      assert items[..i + 1] == items[..i] + [items[i]];
      current := SetScreeningField(current, items[i]);
      i := i + 1;
    }
    assert items[..|items|] == items;
    ScreeningUpdateLoopIsMerge(original, u);
    db.PutScreening(current);
    db.Log(RouteEntry(db.nextId, now, user, "screening.update", "screening", id));
    return Ok(current);
  }
}
