/** The sample endpoints (app/app/api/routes/samples.py). The caller is the
    authenticated user of the `get_current_user` dependency; every change is
    committed first and then audited, with its own commit, under the resource
    type `sample`. */
module SampleRoutes {
  import opened Common
  import opened Config
  import opened Users
  import opened Records
  import opened AuditModel
  import opened Schemas
  import opened Store

  const ResourceType: string := "sample"

  /** The row `create_sample` inserts: `pending`, no image yet, `metadata`
      defaulting to the empty object. */
  function CreatedSample(id: Id, data: SampleCreate, now: int): (s: Sample)
    ensures s.id == id && s.patientId == data.patientId && s.createdAt == now
    ensures s.collectionDate == data.collectionDate && s.sampleType == data.sampleType && s.batchId == data.batchId
    ensures s.metadata == Some(data.metadata.GetOr(map[]))
    ensures s.status == Some(SamplePending) && s.imagePath == None
  {
    Sample(id, data.patientId, data.collectionDate, data.batchId, data.sampleType, Some(data.metadata.GetOr(map[])),
           Some(SamplePending), None, now)
  }

  /** `create_sample`: 404 for an unknown patient; otherwise one pending
      sample and one `sample.create` entry. */
  method CreateSample(db: Db, user: User, data: SampleCreate, now: int) returns (r: Response<Sample>)
    requires db.Valid()
    modifies db
    ensures db.Valid()
    ensures r.Ok? || r.NotFound?
    ensures r.NotFound? <==> data.patientId !in old(db.patients)
    ensures r.NotFound? ==> r.detail == "Patient not found" && db.State() == old(db.State())
    ensures r.Ok? ==>
              && r.value == CreatedSample(old(db.nextId), data, now)
              && db.State() == old(db.State()).(
                   samples := old(db.samples)[r.value.id := r.value],
                   log := old(db.log) + [RouteEntry(old(db.nextId) + 1, now, user, "sample.create", ResourceType, r.value.id)],
                   nextId := old(db.nextId) + 2)
  {
    if data.patientId !in db.patients {
      return NotFound("Patient not found");
    }
    var id := db.FreshId();
    var sample := CreatedSample(id, data, now);
    db.PutSample(sample);
    db.Log(RouteEntry(db.nextId, now, user, "sample.create", ResourceType, id));
    return Ok(sample);
  }

  /** The optional filters of `GET /samples`; empty strings are no filter. */
  predicate SampleMatches(s: Sample, patientId: Option<Id>, batchId: Option<string>, status: Option<string>) {
    && (patientId.Some? ==> s.patientId == patientId.value)
    && (Given(batchId) ==> s.batchId == batchId)
    && (Given(status) ==> s.status == status)
  }

  function SampleFilter(patientId: Option<Id>, batchId: Option<string>, status: Option<string>): Sample -> bool {
    x => SampleMatches(x, patientId, batchId, status)
  }

  /** `list_samples`: the matching samples in table order, cut by `skip` and
      `limit` with SQLite's reading of negative values. */
  function ListSamples(s: DbState, patientId: Option<Id>, batchId: Option<string>, status: Option<string>,
                       skip: int, limit: int): (r: seq<Sample>)
    requires ValidState(s)
    ensures forall x :: x in r ==> x.id in s.samples && s.samples[x.id] == x && SampleMatches(x, patientId, batchId, status)
    ensures var total := |set k | k in s.samples && SampleMatches(s.samples[k], patientId, batchId, status)|;
            |r| == Min(SqlLimit(limit, total), Max(0, total - SqlOffset(skip)))
    ensures WindowOf(r, Filter(SampleRows(s), SampleFilter(patientId, batchId, status)), SqlOffset(skip))
    ensures Increasing(r, SampleKey)
  {
    var p := SampleFilter(patientId, batchId, status);
    var matching := Filter(SampleRows(s), p);
    SampleRowsMatching(s, p);
    assert KeysBelow(s.samples, s.nextId, p)
        == set k | k in s.samples && SampleMatches(s.samples[k], patientId, batchId, status);
    PageMembers(matching, SqlOffset(skip), SqlLimit(limit, |matching|));
    PageIncreasing(matching, SqlOffset(skip), SqlLimit(limit, |matching|), SampleKey);
    Page(matching, SqlOffset(skip), SqlLimit(limit, |matching|))
  }

  /** `get_sample`. */
  function GetSample(s: DbState, id: Id): (r: Response<Sample>)
    ensures r.Ok? <==> id in s.samples
    ensures r.Ok? ==> r.value == s.samples[id]
    ensures !r.Ok? ==> r == NotFound("Sample not found")
  {
    if id in s.samples then Ok(s.samples[id]) else NotFound("Sample not found")
  }

  /** `update_sample`: 404 for an unknown id; otherwise the sent fields are
      set one by one and `sample.update` follows. */
  method UpdateSample(db: Db, user: User, id: Id, u: SampleUpdate, now: int) returns (r: Response<Sample>)
    requires db.Valid()
    modifies db
    ensures db.Valid()
    ensures r.Ok? <==> id in old(db.samples)
    ensures !r.Ok? ==> r == NotFound("Sample not found") && db.State() == old(db.State())
    ensures r.Ok? ==>
              && r.value == MergeSample(old(db.samples)[id], u)
              && db.State() == old(db.State()).(
                   samples := old(db.samples)[id := r.value],
                   log := old(db.log) + [RouteEntry(old(db.nextId), now, user, "sample.update", ResourceType, id)],
                   nextId := old(db.nextId) + 1)
  {
    if id !in db.samples {
      return NotFound("Sample not found");
    }
    var original := db.samples[id];
    var items := DumpSampleUpdate(u);
    var current := original;
    var i := 0;
    while i < |items|
      invariant 0 <= i <= |items|
      invariant current == Fold(original, items[..i], SetSampleField)
      invariant unchanged(db)
    {
      FoldSnoc(original, items[..i], items[i], SetSampleField);
      assert items[..i + 1] == items[..i] + [items[i]];
      current := SetSampleField(current, items[i]);
      i := i + 1;
    }
    assert items[..|items|] == items;
    SampleUpdateLoopIsMerge(original, u);
    db.PutSample(current);
    db.Log(RouteEntry(db.nextId, now, user, "sample.update", ResourceType, id));
    return Ok(current);
  }

  /** Where `upload_sample_image` writes the file: the sample id, an
      underscore and the name as sent, under the upload directory. */
  function SampleImagePath(sampleId: Id, filename: string): (path: string)
    ensures path == UploadPath(NatToString(sampleId) + "_" + filename)
    ensures EndsWith(path, filename)
  {
    var name := NatToString(sampleId) + "_" + filename;
    var path := UploadPath(name);
    assert path[|path| - |filename|..] == filename by {
      assert path[|UploadDir| + 1..] == name;
      assert name[|name| - |filename|..] == filename;
    }
    path
  }

  /** `upload_sample_image`: 404 for an unknown id; otherwise the sample
      records the path of its image and becomes `uploaded`, and
      `sample.upload_image` follows. */
  method UploadSampleImage(db: Db, user: User, id: Id, filename: string, now: int) returns (r: Response<Sample>)
    requires db.Valid()
    modifies db
    ensures db.Valid()
    ensures r.Ok? <==> id in old(db.samples)
    ensures !r.Ok? ==> r == NotFound("Sample not found") && db.State() == old(db.State())
    ensures r.Ok? ==>
              && r.value == old(db.samples)[id].(imagePath := Some(SampleImagePath(id, filename)), status := Some(SampleUploaded))
              && db.State() == old(db.State()).(
                   samples := old(db.samples)[id := r.value],
                   log := old(db.log) + [RouteEntry(old(db.nextId), now, user, "sample.upload_image", ResourceType, id)],
                   nextId := old(db.nextId) + 1)
  {
    if id !in db.samples {
      return NotFound("Sample not found");
    }
    var sample := db.samples[id].(imagePath := Some(SampleImagePath(id, filename)), status := Some(SampleUploaded));
    db.PutSample(sample);
    db.Log(RouteEntry(db.nextId, now, user, "sample.upload_image", ResourceType, id));
    return Ok(sample);
  }

  /** `delete_sample`: 404 for an unknown id; otherwise a hard delete that
      takes the sample's AI results and their annotations with it, and then
      the `sample.delete` entry. */
  method DeleteSample(db: Db, user: User, id: Id, now: int) returns (r: Response<string>)
    requires db.Valid()
    modifies db
    ensures db.Valid()
    ensures r.Ok? <==> id in old(db.samples)
    ensures !r.Ok? ==> r == NotFound("Sample not found") && db.State() == old(db.State())
    ensures r.Ok? ==>
              && r.value == "Sample deleted successfully"
              && db.State() == SamplesRemoved(old(db.State()), {id}).(
                   log := old(db.log) + [RouteEntry(old(db.nextId), now, user, "sample.delete", ResourceType, id)],
                   nextId := old(db.nextId) + 1)
  {
    if id !in db.samples {
      return NotFound("Sample not found");
    }
    db.RemoveSampleTree(id);
    db.Log(RouteEntry(db.nextId, now, user, "sample.delete", ResourceType, id));
    return Ok("Sample deleted successfully");
  }

  /** After `delete_sample` the sample is gone for every later request: it
      is a 404 and is in no listing, whatever the filters. */
  lemma DeletedSampleIsGone(s: DbState, id: Id, patientId: Option<Id>, batchId: Option<string>, status: Option<string>,
                            skip: int, limit: int)
    requires ValidState(s) && id in s.samples
    ensures var t := SamplesRemoved(s, {id});
            && ValidState(t)
            && GetSample(t, id) == NotFound("Sample not found")
            && (forall x :: x in ListSamples(t, patientId, batchId, status, skip, limit) ==> x.id != id)
  {
    SamplesRemovedValid(s, {id});
  }
}
