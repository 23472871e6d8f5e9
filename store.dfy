/** The database behind the SQLAlchemy session: one table per model and the
    append-only audit ledger. Rows are values; changing an attribute of a
    loaded ORM object and committing is replacing the row under its key. Every
    key, audit entries' included, is drawn from one counter, so a table scan in
    key order is a scan in insertion order. */
module Store {
  import opened Common
  import opened PatientModel
  import opened Records
  import opened AiResultModel
  import opened AnnotationModel
  import opened AuditModel
  import opened Users
  import opened Sorting

  /** A snapshot of every table, to state a handler's whole effect. */
  datatype DbState = DbState(
    patients: map<Id, Patient>,
    screenings: map<Id, Screening>,
    diagnoses: map<Id, Diagnosis>,
    images: map<Id, ScreeningImage>,
    samples: map<Id, Sample>,
    aiResults: map<Id, AIResult>,
    annotations: map<Id, Annotation>,
    log: seq<AuditEntry>,
    nextId: nat)

  /** No two patients share a (non-null) medical record number: the column is
      `unique=True`. */
  predicate MrnUnique(patients: map<Id, Patient>) {
    forall a, b ::
      (a in patients && b in patients && patients[a].medicalRecordNumber.Some?
       && patients[a].medicalRecordNumber == patients[b].medicalRecordNumber) ==> a == b
  }

  /** The medical record number `mrn` is held by some patient. */
  predicate MrnTaken(patients: map<Id, Patient>, mrn: string) {
    exists k :: k in patients && patients[k].medicalRecordNumber == Some(mrn)
  }

  /** At most one diagnosis per screening: `screening_id` is `unique=True`. */
  predicate OneDiagnosisPerScreening(diagnoses: map<Id, Diagnosis>) {
    forall a, b :: a in diagnoses && b in diagnoses && diagnoses[a].screeningId == diagnoses[b].screeningId ==> a == b
  }

  /** Some diagnosis belongs to `screening`. */
  predicate HasDiagnosis(diagnoses: map<Id, Diagnosis>, screening: Id) {
    exists k :: k in diagnoses && diagnoses[k].screeningId == screening
  }

  /** The invariant every handler keeps. */
  predicate ValidState(s: DbState) {
    && (forall k :: k in s.patients ==> k < s.nextId && s.patients[k].id == k)
    && (forall k :: k in s.screenings ==> k < s.nextId && s.screenings[k].id == k)
    && (forall k :: k in s.diagnoses ==> k < s.nextId && s.diagnoses[k].id == k)
    && (forall k :: k in s.images ==> k < s.nextId && s.images[k].id == k)
    && (forall k :: k in s.samples ==> k < s.nextId && s.samples[k].id == k)
    && (forall k :: k in s.aiResults ==> k < s.nextId && s.aiResults[k].id == k)
    && (forall k :: k in s.annotations ==> k < s.nextId && s.annotations[k].id == k)
    && (forall i :: 0 <= i < |s.log| ==> s.log[i].id < s.nextId)
    && (forall i, j :: 0 <= i < j < |s.log| ==> s.log[i].id < s.log[j].id)
    && MrnUnique(s.patients)
    && OneDiagnosisPerScreening(s.diagnoses)
    && (forall k :: k in s.annotations && s.annotations[k].signedOff ==> s.annotations[k].signedOffAt.Some?)
  }

  /** The session's tables. */
  class Db {
    var patients: map<Id, Patient>
    var screenings: map<Id, Screening>
    var diagnoses: map<Id, Diagnosis>
    var images: map<Id, ScreeningImage>
    var samples: map<Id, Sample>
    var aiResults: map<Id, AIResult>
    var annotations: map<Id, Annotation>
    var log: seq<AuditEntry>
    var nextId: nat

    function State(): (s: DbState)
      reads this
      ensures s.log == log && s.nextId == nextId
    {
      DbState(patients, screenings, diagnoses, images, samples, aiResults, annotations, log, nextId)
    }

    predicate Valid()
      reads this
    {
      ValidState(State())
    }

    /** An empty database. */
    constructor ()
      ensures Valid()
      ensures State() == DbState(map[], map[], map[], map[], map[], map[], map[], [], 0)
    {
      patients, screenings, diagnoses, images := map[], map[], map[], map[];
      samples, aiResults, annotations := map[], map[], map[];
      log, nextId := [], 0;
    }

    /** A key no row and no audit entry has ever had. */
    method FreshId() returns (id: Id)
      requires Valid()
      modifies this
      ensures Valid()
      ensures id == old(nextId)
      ensures State() == old(State()).(nextId := old(nextId) + 1)
    {
      id := nextId;
      nextId := nextId + 1;
    }

    /** `db.add(audit)` and its commit: the entry, keyed by a fresh id, goes
        at the end of the ledger; nothing already there changes. */
    method Log(e: AuditEntry)
      requires Valid()
      requires e.id == nextId
      modifies this
      ensures Valid()
      ensures State() == old(State()).(log := old(log) + [e], nextId := old(nextId) + 1)
    {
      log := log + [e];
      nextId := nextId + 1;
    }

    method PutPatient(p: Patient)
      requires Valid()
      requires p.id < nextId
      requires p.medicalRecordNumber.Some? ==>
                 forall k :: k in patients && k != p.id ==> patients[k].medicalRecordNumber != p.medicalRecordNumber
      modifies this
      ensures Valid()
      ensures State() == old(State()).(patients := old(patients)[p.id := p])
    {
      patients := patients[p.id := p];
    }

    /** `db.delete(patient)` and its commit, cascading as the relationships
        say. */
    method RemovePatientTree(id: Id)
      requires Valid()
      modifies this
      ensures Valid()
      ensures State() == PatientTreeRemoved(old(State()), id)
    {
      var t := PatientTreeRemoved(State(), id);
      PatientTreeRemovedValid(State(), id);
      patients, screenings, samples, aiResults, annotations := t.patients, t.screenings, t.samples, t.aiResults, t.annotations;
    }

    method PutScreening(s: Screening)
      requires Valid()
      requires s.id < nextId
      modifies this
      ensures Valid()
      ensures State() == old(State()).(screenings := old(screenings)[s.id := s])
    {
      screenings := screenings[s.id := s];
    }

    method PutDiagnosis(d: Diagnosis)
      requires Valid()
      requires d.id < nextId
      requires forall k :: k in diagnoses && k != d.id ==> diagnoses[k].screeningId != d.screeningId
      modifies this
      ensures Valid()
      ensures State() == old(State()).(diagnoses := old(diagnoses)[d.id := d])
    {
      diagnoses := diagnoses[d.id := d];
    }

    method PutImage(i: ScreeningImage)
      requires Valid()
      requires i.id < nextId
      modifies this
      ensures Valid()
      ensures State() == old(State()).(images := old(images)[i.id := i])
    {
      images := images[i.id := i];
    }

    method PutSample(s: Sample)
      requires Valid()
      requires s.id < nextId
      modifies this
      ensures Valid()
      ensures State() == old(State()).(samples := old(samples)[s.id := s])
    {
      samples := samples[s.id := s];
    }

    /** `db.delete(sample)` and its commit, cascading to its AI results and
        their annotations. */
    method RemoveSampleTree(id: Id)
      requires Valid()
      modifies this
      ensures Valid()
      ensures State() == SamplesRemoved(old(State()), {id})
    {
      var t := SamplesRemoved(State(), {id});
      SamplesRemovedValid(State(), {id});
      samples, aiResults, annotations := t.samples, t.aiResults, t.annotations;
    }

    method PutAiResult(r: AIResult)
      requires Valid()
      requires r.id < nextId
      modifies this
      ensures Valid()
      ensures State() == old(State()).(aiResults := old(aiResults)[r.id := r])
    {
      aiResults := aiResults[r.id := r];
    }

    method PutAnnotation(a: Annotation)
      requires Valid()
      requires a.id < nextId
      requires a.signedOff ==> a.signedOffAt.Some?
      modifies this
      ensures Valid()
      ensures State() == old(State()).(annotations := old(annotations)[a.id := a])
    {
      annotations := annotations[a.id := a];
    }
  }

  /** A service's `_log_action` and its commit: an entry only when there is a
      current user. */
  method LogIfUser(db: Db, user: Option<User>, action: string, resourceType: string, resourceId: Id,
                   details: Option<JsonObject>, severity: string, now: int)
    requires db.Valid()
    modifies db
    ensures db.Valid()
    ensures var es := ServiceEntries(user, old(db.nextId), now, action, resourceType, resourceId, details, severity);
            db.State() == old(db.State()).(log := old(db.log) + es, nextId := old(db.nextId) + |es|)
  {
    if user.Some? {
      db.Log(LogEntry(db.nextId, now, action, user, Some(resourceType), Some(resourceId), details, None, severity));
    }
  }

  // ---------------------------------------------------------------------------
  // Table scans in key order

  function PatientRows(s: DbState): seq<Patient> {
    Scan(s.patients, s.nextId)
  }

  function ScreeningRows(s: DbState): seq<Screening> {
    Scan(s.screenings, s.nextId)
  }

  function DiagnosisRows(s: DbState): seq<Diagnosis> {
    Scan(s.diagnoses, s.nextId)
  }

  function ImageRows(s: DbState): seq<ScreeningImage> {
    Scan(s.images, s.nextId)
  }

  function SampleRows(s: DbState): seq<Sample> {
    Scan(s.samples, s.nextId)
  }

  function AiResultRows(s: DbState): seq<AIResult> {
    Scan(s.aiResults, s.nextId)
  }

  function AnnotationRows(s: DbState): seq<Annotation> {
    Scan(s.annotations, s.nextId)
  }

  function PatientKey(p: Patient): Id {
    p.id
  }

  function SampleKey(s: Sample): Id {
    s.id
  }

  function ScreeningKey(s: Screening): Id {
    s.id
  }

  function ImageKey(i: ScreeningImage): Id {
    i.id
  }

  function AiResultKey(a: AIResult): Id {
    a.id
  }

  function AnnotationKey(a: Annotation): Id {
    a.id
  }

  lemma {:induction false} FilterSnoc<T(!new)>(a: seq<T>, x: T, p: T -> bool)
    ensures Filter(a + [x], p) == Filter(a, p) + (if p(x) then [x] else [])
    decreases |a|
  {
    if a == [] {
      assert [] + [x] == [x];
      assert [x][1..] == [];
    } else {
      assert (a + [x])[1..] == a[1..] + [x];
      FilterSnoc(a[1..], x, p);
    }
  }

  /** The keys below `n` whose row passes `p`. */
  function KeysBelow<T>(m: map<Id, T>, n: nat, p: T -> bool): set<Id> {
    set k | k in m && k < n && p(m[k])
  }

  lemma KeysBelowStep<T>(m: map<Id, T>, n: nat, p: T -> bool)
    requires n > 0
    ensures |KeysBelow(m, n, p)| == |KeysBelow(m, n - 1, p)| + (if n - 1 in m && p(m[n - 1]) then 1 else 0)
  {
    var before := KeysBelow(m, n - 1, p);
    if n - 1 in m && p(m[n - 1]) {
      assert KeysBelow(m, n, p) == before + {n - 1};
      assert n - 1 !in before;
    } else {
      assert KeysBelow(m, n, p) == before;
    }
  }

  lemma ScanFilterStep<T(!new)>(m: map<Id, T>, n: nat, p: T -> bool)
    requires n > 0
    ensures |Filter(Scan(m, n), p)| == |Filter(Scan(m, n - 1), p)| + (if n - 1 in m && p(m[n - 1]) then 1 else 0)
  {
    if n - 1 in m {
      assert Scan(m, n) == Scan(m, n - 1) + [m[n - 1]];
      FilterSnoc(Scan(m, n - 1), m[n - 1], p);
    } else {
      assert Scan(m, n) == Scan(m, n - 1);
    }
  }

  lemma CountStep<T(!new)>(m: map<Id, T>, n: nat, p: T -> bool)
    requires n > 0
    requires |Filter(Scan(m, n - 1), p)| == |KeysBelow(m, n - 1, p)|
    ensures |Filter(Scan(m, n), p)| == |KeysBelow(m, n, p)|
  {
    KeysBelowStep(m, n, p);
    ScanFilterStep(m, n, p);
  }

  /** How many rows of a scan pass a filter: the number of keys below `n`
      whose row passes it. */
  lemma {:induction false} FilterScanCount<T(!new)>(m: map<Id, T>, n: nat, p: T -> bool)
    ensures |Filter(Scan(m, n), p)| == |KeysBelow(m, n, p)|
  {
    if n > 0 {
      FilterScanCount(m, n - 1, p);
      CountStep(m, n, p);
    }
  }
  /** The rows of a table that pass `p`, in table order: one per matching
      key, each the row stored under its own key, keys increasing. */
  lemma ScanMatches<T(!new)>(m: map<Id, T>, n: nat, p: T -> bool, key: T -> Id)
    requires forall k :: k in m ==> k < n && key(m[k]) == k
    ensures |Filter(Scan(m, n), p)| == |KeysBelow(m, n, p)|
    ensures forall x :: x in Filter(Scan(m, n), p) ==> key(x) in m && m[key(x)] == x && p(x)
    ensures Increasing(Filter(Scan(m, n), p), key)
  {
    FilterScanCount(m, n, p);
    FilterMembers(Scan(m, n), p);
    ScanIncreasing(m, n, key);
    FilterIncreasing(Scan(m, n), p, key);
  }


  /** The patients that pass `p`, in table order. */
  lemma PatientRowsMatching(s: DbState, p: Patient -> bool)
    requires ValidState(s)
    ensures |Filter(PatientRows(s), p)| == |KeysBelow(s.patients, s.nextId, p)|
    ensures forall x :: x in Filter(PatientRows(s), p) ==> x.id in s.patients && s.patients[x.id] == x && p(x)
    ensures Increasing(Filter(PatientRows(s), p), PatientKey)
  {
    var m := s.patients;
    assert forall k :: k in m ==> k < s.nextId && PatientKey(m[k]) == k;
    ScanMatches(m, s.nextId, p, PatientKey);
    forall x | x in Filter(PatientRows(s), p) ensures x.id in m && m[x.id] == x && p(x) {
      assert PatientKey(x) == x.id;
    }
  }

  /** The samples that pass `p`, in table order. */
  lemma SampleRowsMatching(s: DbState, p: Sample -> bool)
    requires ValidState(s)
    ensures |Filter(SampleRows(s), p)| == |KeysBelow(s.samples, s.nextId, p)|
    ensures forall x :: x in Filter(SampleRows(s), p) ==> x.id in s.samples && s.samples[x.id] == x && p(x)
    ensures Increasing(Filter(SampleRows(s), p), SampleKey)
  {
    var m := s.samples;
    assert forall k :: k in m ==> k < s.nextId && SampleKey(m[k]) == k;
    ScanMatches(m, s.nextId, p, SampleKey);
    forall x | x in Filter(SampleRows(s), p) ensures x.id in m && m[x.id] == x && p(x) {
      assert SampleKey(x) == x.id;
    }
  }

  /** The screenings that pass `p`, in table order. */
  lemma ScreeningRowsMatching(s: DbState, p: Screening -> bool)
    requires ValidState(s)
    ensures |Filter(ScreeningRows(s), p)| == |KeysBelow(s.screenings, s.nextId, p)|
    ensures forall x :: x in Filter(ScreeningRows(s), p) ==> x.id in s.screenings && s.screenings[x.id] == x && p(x)
    ensures Increasing(Filter(ScreeningRows(s), p), ScreeningKey)
  {
    var m := s.screenings;
    assert forall k :: k in m ==> k < s.nextId && ScreeningKey(m[k]) == k;
    ScanMatches(m, s.nextId, p, ScreeningKey);
    forall x | x in Filter(ScreeningRows(s), p) ensures x.id in m && m[x.id] == x && p(x) {
      assert ScreeningKey(x) == x.id;
    }
  }

  /** The images that pass `p`, in table order. */
  lemma ImageRowsMatching(s: DbState, p: ScreeningImage -> bool)
    requires ValidState(s)
    ensures |Filter(ImageRows(s), p)| == |KeysBelow(s.images, s.nextId, p)|
    ensures forall x :: x in Filter(ImageRows(s), p) ==> x.id in s.images && s.images[x.id] == x && p(x)
    ensures Increasing(Filter(ImageRows(s), p), ImageKey)
  {
    var m := s.images;
    assert forall k :: k in m ==> k < s.nextId && ImageKey(m[k]) == k;
    ScanMatches(m, s.nextId, p, ImageKey);
    forall x | x in Filter(ImageRows(s), p) ensures x.id in m && m[x.id] == x && p(x) {
      assert ImageKey(x) == x.id;
    }
  }

  /** The AI results that pass `p`, in table order. */
  lemma AiResultRowsMatching(s: DbState, p: AIResult -> bool)
    requires ValidState(s)
    ensures |Filter(AiResultRows(s), p)| == |KeysBelow(s.aiResults, s.nextId, p)|
    ensures forall x :: x in Filter(AiResultRows(s), p) ==> x.id in s.aiResults && s.aiResults[x.id] == x && p(x)
    ensures Increasing(Filter(AiResultRows(s), p), AiResultKey)
  {
    var m := s.aiResults;
    assert forall k :: k in m ==> k < s.nextId && AiResultKey(m[k]) == k;
    ScanMatches(m, s.nextId, p, AiResultKey);
    forall x | x in Filter(AiResultRows(s), p) ensures x.id in m && m[x.id] == x && p(x) {
      assert AiResultKey(x) == x.id;
    }
  }

  /** The annotations that pass `p`, in table order. */
  lemma AnnotationRowsMatching(s: DbState, p: Annotation -> bool)
    requires ValidState(s)
    ensures |Filter(AnnotationRows(s), p)| == |KeysBelow(s.annotations, s.nextId, p)|
    ensures forall x :: x in Filter(AnnotationRows(s), p) ==> x.id in s.annotations && s.annotations[x.id] == x && p(x)
    ensures Increasing(Filter(AnnotationRows(s), p), AnnotationKey)
  {
    var m := s.annotations;
    assert forall k :: k in m ==> k < s.nextId && AnnotationKey(m[k]) == k;
    ScanMatches(m, s.nextId, p, AnnotationKey);
    forall x | x in Filter(AnnotationRows(s), p) ensures x.id in m && m[x.id] == x && p(x) {
      assert AnnotationKey(x) == x.id;
    }
  }

  lemma PageSorted<T>(s: seq<T>, key: T -> int, offset: nat, limit: nat)
    requires SortedDesc(s, key)
    ensures SortedDesc(Page(s, offset, limit), key)
  {
    var r := Page(s, offset, limit);
    forall i, j | 0 <= i < j < |r| ensures key(r[i]) >= key(r[j]) {
      assert r[i] == s[offset + i] && r[j] == s[offset + j];
    }
  }

  lemma PageMembers<T>(s: seq<T>, offset: nat, limit: nat)
    ensures forall x :: x in Page(s, offset, limit) ==> x in s
  {
    var r := Page(s, offset, limit);
    forall x | x in r ensures x in s {
      var k :| 0 <= k < |r| && r[k] == x;
      assert s[offset + k] == x;
    }
  }

  lemma PageWhole<T>(s: seq<T>, limit: nat)
    requires limit >= |s|
    ensures Page(s, 0, limit) == s
  {
    var r := Page(s, 0, limit);
    assert |r| == |s|;
    forall k | 0 <= k < |r| ensures r[k] == s[k] { }
  }

  /** A page of a sorted rearrangement of `t`: sorted, as long as the window
      of `t` would be, made of elements of `t`, and all of `t` when it starts
      at the top and is long enough. */
  lemma SortedPage<T>(s: seq<T>, t: seq<T>, key: T -> int, offset: nat, limit: nat)
    requires SortedDesc(s, key) && multiset(s) == multiset(t)
    ensures SortedDesc(Page(s, offset, limit), key)
    ensures |Page(s, offset, limit)| == Min(limit, Max(0, |t| - offset))
    ensures forall x :: x in Page(s, offset, limit) ==> x in t
    ensures offset == 0 && limit >= |t| ==> multiset(Page(s, offset, limit)) == multiset(t)
  {
    assert |s| == |t| by {
      assert |multiset(s)| == |multiset(t)|;
    }
    PageSorted(s, key, offset, limit);
    PageMembers(s, offset, limit);
    forall x | x in s ensures x in t {
      assert x in multiset(s);
    }
    if offset == 0 && limit >= |t| {
      PageWhole(s, limit);
    }
  }

  /** The facts about a page of the ordered matches, one lemma each so that
      each proof sees only what it needs. */
  lemma OrderedMembers<T(!new)>(rows: seq<T>, p: T -> bool, key: T -> int, offset: nat, limit: nat)
    ensures forall x :: x in Page(SortDesc(Filter(rows, p), key), offset, limit) ==> x in rows && p(x)
  {
    var matches := Filter(rows, p);
    SortDescCorrect(matches, key);
    SortedPage(SortDesc(matches, key), matches, key, offset, limit);
    FilterMembers(rows, p);
  }

  lemma OrderedWhole<T(!new)>(rows: seq<T>, p: T -> bool, key: T -> int, offset: nat, limit: nat)
    ensures offset == 0 && limit >= |Filter(rows, p)| ==>
              multiset(Page(SortDesc(Filter(rows, p), key), offset, limit)) == multiset(Filter(rows, p))
  {
    var matches := Filter(rows, p);
    SortDescCorrect(matches, key);
    SortedPage(SortDesc(matches, key), matches, key, offset, limit);
  }

  lemma OrderedSorted<T(!new)>(rows: seq<T>, p: T -> bool, key: T -> int, offset: nat, limit: nat)
    ensures SortedDesc(Page(SortDesc(Filter(rows, p), key), offset, limit), key)
  {
    var matches := Filter(rows, p);
    SortDescCorrect(matches, key);
    SortedPage(SortDesc(matches, key), matches, key, offset, limit);
  }

  lemma {:induction false} OrderedLength<T(!new)>(rows: seq<T>, p: T -> bool, key: T -> int, offset: nat, limit: nat)
    ensures |Page(SortDesc(Filter(rows, p), key), offset, limit)| == Min(limit, Max(0, |Filter(rows, p)| - offset))
  {
    var matches := Filter(rows, p);
    SortDescCorrect(matches, key);
    SortedPage(SortDesc(matches, key), matches, key, offset, limit);
  }

  /** `query.filter(p).order_by(key.desc())`: the rows that pass, largest
      key first, rows with equal keys in their scan order. */
  function Ordered<T(!new)>(rows: seq<T>, p: T -> bool, key: T -> int): seq<T> {
    SortDesc(Filter(rows, p), key)
  }

  /** `query.filter(p).order_by(key.desc()).offset(offset).limit(limit)`:
      matching rows only, largest key first, the window after `offset`
      rows of the ordered matches. */
  function OrderedPage<T(!new)>(rows: seq<T>, p: T -> bool, key: T -> int, offset: nat, limit: nat): (r: seq<T>)
    ensures forall x :: x in r ==> x in rows && p(x)
    ensures SortedDesc(r, key)
    ensures |r| == Min(limit, Max(0, |Filter(rows, p)| - offset))
    ensures offset == 0 && limit >= |Filter(rows, p)| ==> multiset(r) == multiset(Filter(rows, p))
    ensures WindowOf(r, Ordered(rows, p, key), offset)
  {
    OrderedSorted(rows, p, key, offset, limit);
    OrderedLength(rows, p, key, offset, limit);
    OrderedMembers(rows, p, key, offset, limit);
    OrderedWhole(rows, p, key, offset, limit);
    Page(SortDesc(Filter(rows, p), key), offset, limit)
  }

  /** A page that starts at the top and is as long as the filter holds every
      row that passes. */
  lemma OrderedPageWhole<T(!new)>(rows: seq<T>, p: T -> bool, key: T -> int, offset: nat, limit: nat)
    ensures offset == 0 && limit >= |Filter(rows, p)| ==>
              forall x :: x in rows && p(x) ==> x in OrderedPage(rows, p, key, offset, limit)
  {
    if offset == 0 && limit >= |Filter(rows, p)| {
      FilterMembers(rows, p);
      forall x | x in rows && p(x) ensures x in OrderedPage(rows, p, key, offset, limit) {
        assert x in multiset(Filter(rows, p));
      }
    }
  }


  /** A page that starts at the top holds the rows with the largest keys: a
      matching row is left off only when the page is full, and then no row on
      the page has a smaller key than it. */
  lemma OrderedPageTop<T(!new)>(rows: seq<T>, p: T -> bool, key: T -> int, limit: nat)
    ensures var r := OrderedPage(rows, p, key, 0, limit);
            forall x :: x in rows && p(x) && x !in r ==> |r| == limit && forall y :: y in r ==> key(y) >= key(x)
  {
    var matches := Filter(rows, p);
    var sorted := SortDesc(matches, key);
    SortDescCorrect(matches, key);
    FilterMembers(rows, p);
    var r := OrderedPage(rows, p, key, 0, limit);
    forall x | x in rows && p(x) && x !in r
      ensures |r| == limit && forall y :: y in r ==> key(y) >= key(x)
    {
      assert x in multiset(sorted);
      var j :| 0 <= j < |sorted| && sorted[j] == x;
      assert j >= |r|;
      forall y | y in r ensures key(y) >= key(x) {
        var i :| 0 <= i < |r| && r[i] == y;
        assert r[i] == sorted[i];
      }
    }
  }

  // ---------------------------------------------------------------------------
  // The diagnosis of a screening

  /** `query(Diagnosis).filter(Diagnosis.screening_id == screening).first()`:
      thanks to the unique column, the one diagnosis of that screening. */
  function DiagnosisOf(s: DbState, screening: Id): (r: Option<Diagnosis>)
    requires ValidState(s)
    ensures r.Some? <==> HasDiagnosis(s.diagnoses, screening)
    ensures r.Some? ==> r.value.id in s.diagnoses && s.diagnoses[r.value.id] == r.value && r.value.screeningId == screening
    ensures forall k :: k in s.diagnoses && s.diagnoses[k].screeningId == screening ==> r == Some(s.diagnoses[k])
  {
    var p := (d: Diagnosis) => d.screeningId == screening;
    var found := Filter(DiagnosisRows(s), p);
    FilterMembers(DiagnosisRows(s), p);
    if found == [] then
      assert forall k :: k in s.diagnoses ==> s.diagnoses[k] in DiagnosisRows(s);
      None
    else
      assert found[0] in found;
      Some(found[0])
  }

  // ---------------------------------------------------------------------------
  // Deletes and the `cascade="all, delete-orphan"` relationships
  // (patient -> screenings and samples, sample -> AI results,
  // AI result -> annotations)

  /** The AI result `k` belongs to one of the samples `gone`. */
  predicate ResultOfSamples(s: DbState, k: Id, gone: set<Id>) {
    k in s.aiResults && s.aiResults[k].sampleId in gone
  }

  /** The samples `gone` deleted with their AI results and those results'
      annotations; everything else stays as it was. */
  function SamplesRemoved(s: DbState, gone: set<Id>): (t: DbState)
    ensures t.samples.Keys == s.samples.Keys - gone
    ensures forall k :: k in t.aiResults <==> k in s.aiResults && s.aiResults[k].sampleId !in gone
    ensures forall k :: k in t.annotations <==> k in s.annotations && !ResultOfSamples(s, s.annotations[k].resultId, gone)
    ensures forall k :: k in t.samples ==> t.samples[k] == s.samples[k]
    ensures forall k :: k in t.aiResults ==> t.aiResults[k] == s.aiResults[k]
    ensures forall k :: k in t.annotations ==> t.annotations[k] == s.annotations[k]
    ensures t == s.(samples := t.samples, aiResults := t.aiResults, annotations := t.annotations)
  {
    s.(samples := s.samples - gone,
       aiResults := map k | k in s.aiResults && s.aiResults[k].sampleId !in gone :: s.aiResults[k],
       annotations := map k | k in s.annotations && !ResultOfSamples(s, s.annotations[k].resultId, gone) :: s.annotations[k])
  }

  /** After the delete no AI result is left under a deleted sample and no
      annotation under a deleted AI result. */
  lemma SamplesRemovedValid(s: DbState, gone: set<Id>)
    requires ValidState(s)
    ensures ValidState(SamplesRemoved(s, gone))
    ensures var t := SamplesRemoved(s, gone);
            && (forall k :: k in t.aiResults ==> t.aiResults[k].sampleId !in gone)
            && (forall k :: k in t.annotations ==> !ResultOfSamples(s, t.annotations[k].resultId, gone))
  {
  }

  /** The samples of a patient. */
  function SamplesOf(s: DbState, patient: Id): (r: set<Id>)
    ensures r <= s.samples.Keys
  {
    set k | k in s.samples && s.samples[k].patientId == patient
  }

  /** The screening `k` belongs to the patient. */
  predicate ScreeningOfPatient(s: DbState, k: Id, patient: Id) {
    k in s.screenings && s.screenings[k].patientId == patient
  }

  /** Deleting the patient's screenings would set the `screening_id` of their
      images or of their diagnosis to null (those relationships do not
      cascade), and the column is NOT NULL. */
  predicate PatientDeleteBlocked(s: DbState, patient: Id) {
    || (exists k :: k in s.images && ScreeningOfPatient(s, s.images[k].screeningId, patient))
    || (exists k :: k in s.diagnoses && ScreeningOfPatient(s, s.diagnoses[k].screeningId, patient))
  }

  /** The patient deleted with their screenings, their samples and what hangs
      off those samples. */
  function PatientTreeRemoved(s: DbState, patient: Id): (t: DbState)
    ensures t.patients == s.patients - {patient}
    ensures forall k :: k in t.screenings <==> k in s.screenings && s.screenings[k].patientId != patient
    ensures forall k :: k in t.screenings ==> t.screenings[k] == s.screenings[k]
    ensures forall k :: k in t.samples <==> k in s.samples && s.samples[k].patientId != patient
    ensures t == SamplesRemoved(s, SamplesOf(s, patient)).(patients := t.patients, screenings := t.screenings)
  {
    SamplesRemoved(s, SamplesOf(s, patient)).(
      patients := s.patients - {patient},
      screenings := map k | k in s.screenings && s.screenings[k].patientId != patient :: s.screenings[k])
  }

  /** Nothing of the patient is left behind: no screening and no sample of
      theirs, and the other tables keep their invariants. */
  lemma PatientTreeRemovedValid(s: DbState, patient: Id)
    requires ValidState(s)
    ensures ValidState(PatientTreeRemoved(s, patient))
    ensures var t := PatientTreeRemoved(s, patient);
            && patient !in t.patients
            && (forall k :: k in t.screenings ==> t.screenings[k].patientId != patient)
            && (forall k :: k in t.samples ==> t.samples[k].patientId != patient)
  {
    SamplesRemovedValid(s, SamplesOf(s, patient));
  }
}
