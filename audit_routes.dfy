/** The administrators' view of the audit ledger (app/app/api/routes/audit.py).
    The route filters on `entity_type` and returns `entity_id`; the entry
    records a resource type and id under those names, so the model reads them
    as the resource fields. */
module AuditRoutes {
  import opened Common
  import opened AuditModel
  import opened Sorting
  import opened Store
  import AuditService

  /** One item of the response: the entry without its details, severity or
      request context. */
  datatype AuditItem = AuditItem(
    id: Id,
    userId: Option<Id>,
    userEmail: Option<string>,
    action: string,
    entityType: Option<string>,
    entityId: Option<Id>,
    timestamp: int,
    ipAddress: Option<string>)

  function ItemOf(e: AuditEntry): (x: AuditItem)
    ensures x.id == e.id && x.userId == e.userId && x.userEmail == e.userEmail && x.action == e.action
    ensures x.entityType == e.resourceType && x.entityId == e.resourceId
    ensures x.timestamp == e.timestamp && x.ipAddress == e.ipAddress
  {
    AuditItem(e.id, e.userId, e.userEmail, e.action, e.resourceType, e.resourceId, e.timestamp, e.ipAddress)
  }

  datatype AuditList = AuditList(total: nat, items: seq<AuditItem>)

  /** The response comprehension `[AuditLogResponse(...) for log in logs]`. */
  function ItemsOf(w: seq<AuditEntry>): (xs: seq<AuditItem>)
    ensures |xs| == |w|
    ensures forall j :: 0 <= j < |w| ==> xs[j] == ItemOf(w[j])
  {
    if w == [] then [] else [ItemOf(w[0])] + ItemsOf(w[1..])
  }

  /** The filters of `GET /audit`: the last `days` days, the exact user, the
      action containing `action` ignoring case, the exact resource type. */
  predicate AuditMatches(e: AuditEntry, userId: Option<Id>, action: Option<string>, entityType: Option<string>,
                         days: int, now: int) {
    && e.timestamp >= now - days * AuditService.SecondsPerDay
    && (userId.Some? ==> e.userId == userId)
    && (Given(action) ==> ILikeContains(e.action, action.value))
    && (Given(entityType) ==> e.resourceType == entityType)
  }

  /** The entries on the requested page: the matching entries newest first,
      from position `offset` on. */
  function AuditWindow(s: DbState, userId: Option<Id>, action: Option<string>, entityType: Option<string>,
                       days: int, limit: nat, offset: nat, now: int): (w: seq<AuditEntry>)
    requires ValidState(s)
    ensures forall e :: e in w ==> e in s.log && AuditMatches(e, userId, action, entityType, days, now)
    ensures SortedDesc(w, Timestamp)
    ensures |w| == Min(limit, Max(0, |AuditMatching(s, userId, action, entityType, days, now)| - offset))
    ensures WindowOf(w, Ordered(s.log, AuditFilter(userId, action, entityType, days, now), Timestamp), offset)
  {
    var p := AuditFilter(userId, action, entityType, days, now);
    AuditMatchCount(s, userId, action, entityType, days, now);
    OrderedPage(s.log, p, Timestamp, offset, limit)
  }

  function AuditFilter(userId: Option<Id>, action: Option<string>, entityType: Option<string>, days: int, now: int)
    : AuditEntry -> bool
  {
    e => AuditMatches(e, userId, action, entityType, days, now)
  }

  /** The entries of the ledger that pass the filters. */
  function AuditMatching(s: DbState, userId: Option<Id>, action: Option<string>, entityType: Option<string>,
                         days: int, now: int): (m: set<AuditEntry>)
    ensures forall e :: e in m <==> e in s.log && AuditMatches(e, userId, action, entityType, days, now)
  {
    Satisfying(s.log, AuditFilter(userId, action, entityType, days, now))
  }

  lemma AuditMatchCount(s: DbState, userId: Option<Id>, action: Option<string>, entityType: Option<string>,
                        days: int, now: int)
    requires ValidState(s)
    ensures |Filter(s.log, AuditFilter(userId, action, entityType, days, now))|
         == |AuditMatching(s, userId, action, entityType, days, now)|
  {
    AuditService.LogDistinct(s);
    DistinctFilterCount(s.log, AuditFilter(userId, action, entityType, days, now));
  }

  /** `list_audit_logs`: `days` outside 1..90, `limit` outside 1..500 or a
      negative `offset` is a 422; otherwise the total of all matching entries
      and the projected items of the requested page. */
  function ListAuditLogs(s: DbState, userId: Option<Id>, action: Option<string>, entityType: Option<string>,
                         days: int, limit: int, offset: int, now: int): (r: Response<AuditList>)
    requires ValidState(s)
    ensures r.Ok? || r.Unprocessable?
    ensures r.Unprocessable? <==> !(1 <= days <= 90 && 1 <= limit <= 500 && 0 <= offset)
    ensures r.Ok? ==> r.value.total == |AuditMatching(s, userId, action, entityType, days, now)|
    ensures r.Ok? ==>
              var w := AuditWindow(s, userId, action, entityType, days, limit, offset, now);
              |r.value.items| == |w| && forall j :: 0 <= j < |w| ==> r.value.items[j] == ItemOf(w[j])
    ensures r.Ok? ==> |r.value.items| <= limit
  {
    if !(1 <= days <= 90 && 1 <= limit <= 500 && 0 <= offset) then
      Unprocessable("days must be in 1..90, limit in 1..500 and offset at least 0")
    else
      var w := AuditWindow(s, userId, action, entityType, days, limit, offset, now);
      Ok(AuditList(|AuditMatching(s, userId, action, entityType, days, now)|, ItemsOf(w)))
  }

  /** Every listed entry lies inside the requested window of days. */
  lemma ListedEntriesAreRecent(s: DbState, userId: Option<Id>, action: Option<string>, entityType: Option<string>,
                               days: int, limit: int, offset: int, now: int)
    requires ValidState(s)
    requires ListAuditLogs(s, userId, action, entityType, days, limit, offset, now).Ok?
    ensures forall x :: x in ListAuditLogs(s, userId, action, entityType, days, limit, offset, now).value.items ==>
              x.timestamp >= now - days * AuditService.SecondsPerDay && (userId.Some? ==> x.userId == userId)
  {
    var w := AuditWindow(s, userId, action, entityType, days, limit, offset, now);
    var items := ListAuditLogs(s, userId, action, entityType, days, limit, offset, now).value.items;
    forall x | x in items ensures x.timestamp >= now - days * AuditService.SecondsPerDay && (userId.Some? ==> x.userId == userId) {
      var j :| 0 <= j < |items| && items[j] == x;
      assert w[j] in w;
    }
  }
}
