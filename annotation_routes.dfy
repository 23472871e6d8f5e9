/** The annotation endpoints (app/app/api/routes/annotations.py). The caller
    is the authenticated user of the `get_current_user` dependency. */
module AnnotationRoutes {
  import opened Common
  import opened Users
  import opened AnnotationModel
  import opened Schemas
  import opened Sorting
  import opened Store
  import AnnotationService

  /** `create_annotation`: the service's create, with the caller as the
      service's user, so the NOT NULL failure cannot happen here. */
  method CreateAnnotation(db: Db, user: User, data: AnnotationCreate, now: int) returns (r: Response<Annotation>)
    requires db.Valid()
    modifies db
    ensures db.Valid()
    ensures r.Ok?
    ensures r.value == AnnotationService.AnnotationOf(old(db.nextId), user.id, data, now)
    ensures db.State() == old(db.State()).(
              annotations := old(db.annotations)[r.value.id := r.value],
              log := old(db.log) + [AuditModel.LogEntry(old(db.nextId) + 1, now, "annotation.create", Some(user),
                                                        Some(AnnotationService.ResourceType), Some(r.value.id),
                                                        Some(AnnotationService.CreateDetails(r.value)), None,
                                                        AuditModel.Info)],
              nextId := old(db.nextId) + 2)
  {
    r := AnnotationService.CreateAnnotation(db, Some(user), data, now);
  }

  function AnnotationCreatedAt(a: Annotation): int {
    a.createdAt
  }

  /** The optional filters of `GET /annotations`. */
  predicate AnnotationMatches(a: Annotation, resultId: Option<Id>, signedOff: Option<bool>, clinicianId: Option<Id>) {
    && (resultId.Some? ==> a.resultId == resultId.value)
    && (signedOff.Some? ==> a.signedOff == signedOff.value)
    && (clinicianId.Some? ==> a.clinicianId == clinicianId.value)
  }

  function AnnotationFilter(resultId: Option<Id>, signedOff: Option<bool>, clinicianId: Option<Id>): Annotation -> bool {
    a => AnnotationMatches(a, resultId, signedOff, clinicianId)
  }

  /** `list_annotations`: the matching annotations, newest first, after
      skipping `skip` and keeping at most `limit`, with SQLite's reading of
      a negative offset or limit. */
  function ListAnnotations(s: DbState, resultId: Option<Id>, signedOff: Option<bool>, clinicianId: Option<Id>,
                           skip: int, limit: int): (r: seq<Annotation>)
    requires ValidState(s)
    ensures forall x :: x in r ==>
              x.id in s.annotations && s.annotations[x.id] == x && AnnotationMatches(x, resultId, signedOff, clinicianId)
    ensures SortedDesc(r, AnnotationCreatedAt)
    ensures var total := |set k | k in s.annotations && AnnotationMatches(s.annotations[k], resultId, signedOff, clinicianId)|;
            |r| == Min(SqlLimit(limit, total), Max(0, total - SqlOffset(skip)))
    ensures WindowOf(r, Ordered(AnnotationRows(s), AnnotationFilter(resultId, signedOff, clinicianId), AnnotationCreatedAt),
                     SqlOffset(skip))
  {
    var p := AnnotationFilter(resultId, signedOff, clinicianId);
    var rows := AnnotationRows(s);
    FilterScanCount(s.annotations, s.nextId, p);
    assert KeysBelow(s.annotations, s.nextId, p)
        == set k | k in s.annotations && AnnotationMatches(s.annotations[k], resultId, signedOff, clinicianId);
    OrderedPage(rows, p, AnnotationCreatedAt, SqlOffset(skip), SqlLimit(limit, |Filter(rows, p)|))
  }

  /** `get_pending_annotations`: the caller's own annotations not yet signed
      off. */
  function GetPendingAnnotations(s: DbState, user: User): (r: seq<Annotation>)
    requires ValidState(s)
    ensures forall x :: x in r <==>
              x.id in s.annotations && s.annotations[x.id] == x && !x.signedOff && x.clinicianId == user.id
    ensures Increasing(r, AnnotationKey)
  {
    AnnotationService.GetPendingAnnotations(s, Some(user.id))
  }

  /** `get_annotation`. */
  function GetAnnotation(s: DbState, id: Id): (r: Response<Annotation>)
    ensures r.Ok? <==> id in s.annotations
    ensures r.Ok? ==> r.value == s.annotations[id]
    ensures !r.Ok? ==> r == NotFound("Annotation not found")
  {
    if id in s.annotations then Ok(s.annotations[id]) else NotFound("Annotation not found")
  }

  /** `update_annotation`: 404 for an unknown id, 400 once signed off, so a
      signed-off annotation never changes; otherwise the sent fields are set
      one by one. Nothing is audited. */
  method UpdateAnnotation(db: Db, id: Id, u: AnnotationUpdate) returns (r: Response<Annotation>)
    requires db.Valid()
    modifies db
    ensures db.Valid()
    ensures r.Ok? || r.NotFound? || r.BadRequest?
    ensures r.NotFound? <==> id !in old(db.annotations)
    ensures r.NotFound? ==> r.detail == "Annotation not found"
    ensures r.BadRequest? <==> id in old(db.annotations) && old(db.annotations)[id].signedOff
    ensures r.BadRequest? ==> r.detail == "Cannot update signed-off annotation"
    ensures !r.Ok? ==> db.State() == old(db.State())
    ensures r.Ok? ==>
              && r.value == MergeAnnotation(old(db.annotations)[id], u)
              && db.State() == old(db.State()).(annotations := old(db.annotations)[id := r.value])
  {
    if id !in db.annotations {
      return NotFound("Annotation not found");
    }
    var original := db.annotations[id];
    if original.signedOff {
      return BadRequest("Cannot update signed-off annotation");
    }
    var items := DumpAnnotationUpdate(u);
    var current := original;
    var i := 0;
    while i < |items|
      invariant 0 <= i <= |items|
      invariant current == Fold(original, items[..i], SetAnnotationField)
      invariant unchanged(db)
    {
      FoldSnoc(original, items[..i], items[i], SetAnnotationField);
      assert items[..i + 1] == items[..i] + [items[i]];
      current := SetAnnotationField(current, items[i]);
      i := i + 1;
    }
    assert items[..|items|] == items;
    AnnotationUpdateLoopIsMerge(original, u);
    db.PutAnnotation(current);
    return Ok(current);
  }

  /** `sign_off_annotation`: the service's sign-off with the caller as its
      user; an unknown id is a 404. */
  method SignOffAnnotation(db: Db, user: User, id: Id, now: int) returns (r: Response<Annotation>)
    requires db.Valid()
    modifies db
    ensures db.Valid()
    ensures r.Ok? || r.NotFound?
    ensures r.NotFound? <==> id !in old(db.annotations)
    ensures r.NotFound? ==> r.detail == "Annotation not found" && db.State() == old(db.State())
    ensures r.Ok? ==> r.value.signedOff && r.value.signedOffAt.Some?
    ensures r.Ok? && old(db.annotations)[id].signedOff ==>
              r.value == old(db.annotations)[id] && db.State() == old(db.State())
    ensures r.Ok? && !old(db.annotations)[id].signedOff ==>
              && r.value == SignOff(old(db.annotations)[id], now)
              && db.State() == old(db.State()).(
                   annotations := old(db.annotations)[id := r.value],
                   log := old(db.log) + [AuditModel.LogEntry(old(db.nextId), now, "annotation.sign_off", Some(user),
                                                             Some(AnnotationService.ResourceType), Some(id), None,
                                                             None, AuditModel.Critical)],
                   nextId := old(db.nextId) + 1)
  {
    var a := AnnotationService.SignOffAnnotation(db, Some(user), id, now);
    if a.None? {
      return NotFound("Annotation not found");
    }
    return Ok(a.value);
  }
}
