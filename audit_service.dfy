/** The compliance queries over the audit ledger
    (app/app/services/audit_service.py). */
module AuditService {
  import opened Common
  import opened Users
  import opened AuditModel
  import opened Sorting
  import opened Store

  const SecondsPerDay: int := 86400

  /** `log_action` of the service, with its commit: one entry for the
      service's user, or for nobody. */
  method LogAction(db: Db, user: Option<User>, action: string, resourceType: Option<string>, resourceId: Option<Id>,
                   details: Option<JsonObject>, ipAddress: Option<string>, severity: string, now: int)
    returns (e: AuditEntry)
    requires db.Valid()
    modifies db
    ensures db.Valid()
    ensures e == LogEntry(old(db.nextId), now, action, user, resourceType, resourceId, details, ipAddress, severity)
    ensures db.State() == old(db.State()).(log := old(db.log) + [e], nextId := old(db.nextId) + 1)
  {
    e := LogEntry(db.nextId, now, action, user, resourceType, resourceId, details, ipAddress, severity);
    db.Log(e);
  }

  /** The filters of `get_logs`; an empty string is no filter. */
  datatype LogQuery = LogQuery(
    action: Option<string>,
    resourceType: Option<string>,
    resourceId: Option<Id>,
    userId: Option<Id>,
    startDate: Option<int>,
    endDate: Option<int>,
    severity: Option<string>)

  /** Every filter is exact, and the date bounds are inclusive. */
  predicate LogMatches(e: AuditEntry, q: LogQuery) {
    && (Given(q.action) ==> e.action == q.action.value)
    && (Given(q.resourceType) ==> e.resourceType == q.resourceType)
    && (q.resourceId.Some? ==> e.resourceId == q.resourceId)
    && (q.userId.Some? ==> e.userId == q.userId)
    && (Given(q.severity) ==> e.severity == q.severity.value)
    && (q.startDate.Some? ==> e.timestamp >= q.startDate.value)
    && (q.endDate.Some? ==> e.timestamp <= q.endDate.value)
  }

  datatype LogPage = LogPage(items: seq<AuditEntry>, total: nat)

  /** `get_logs`: the matching entries, newest first, cut by `skip` and
      `limit`, and the number of all matching entries. */
  function GetLogs(s: DbState, q: LogQuery, skip: int, limit: int): (r: LogPage)
    requires ValidState(s)
    ensures r.total == |Matching(s, q)|
    ensures forall e :: e in r.items ==> e in s.log && LogMatches(e, q)
    ensures SortedDesc(r.items, Timestamp)
    ensures |r.items| == Min(SqlLimit(limit, r.total), Max(0, r.total - SqlOffset(skip)))
    ensures skip <= 0 && (limit < 0 || limit >= r.total) ==>
              forall e :: e in s.log && LogMatches(e, q) ==> e in r.items
    ensures WindowOf(r.items, Ordered(s.log, QueryFilter(q), Timestamp), SqlOffset(skip))
    ensures skip <= 0 && limit >= 0 ==> forall e :: e in s.log && LogMatches(e, q) && e !in r.items ==>
              |r.items| == limit && forall x :: x in r.items ==> x.timestamp >= e.timestamp
  {
    var p := QueryFilter(q);
    var total := |Filter(s.log, p)|;
    MatchCount(s, q);
    FilterMembers(s.log, p);
    OrderedPageWhole(s.log, p, Timestamp, SqlOffset(skip), SqlLimit(limit, total));
    OrderedPageTop(s.log, p, Timestamp, SqlLimit(limit, total));
    LogPage(OrderedPage(s.log, p, Timestamp, SqlOffset(skip), SqlLimit(limit, total)), total)
  }

  /** The entries of the ledger that match the query. */
  function Matching(s: DbState, q: LogQuery): (m: set<AuditEntry>)
    ensures forall e :: e in m <==> e in s.log && LogMatches(e, q)
  {
    Satisfying(s.log, QueryFilter(q))
  }

  function QueryFilter(q: LogQuery): AuditEntry -> bool {
    e => LogMatches(e, q)
  }

  /** The filter's length is the number of matching entries. */
  lemma MatchCount(s: DbState, q: LogQuery)
    requires ValidState(s)
    ensures |Filter(s.log, QueryFilter(q))| == |Matching(s, q)|
  {
    var p := QueryFilter(q);
    LogDistinct(s);
    DistinctFilterCount(s.log, p);
  }

  /** The ledger never holds the same entry twice: entry ids increase. */
  lemma LogDistinct(s: DbState)
    requires ValidState(s)
    ensures forall i, j :: 0 <= i < j < |s.log| ==> s.log[i] != s.log[j]
  {
  }

  /** The query of `get_user_activity`: the user's entries since `days`
      days ago. */
  function UserActivityQuery(userId: Id, days: int, now: int): LogQuery {
    LogQuery(None, None, None, Some(userId), Some(now - days * SecondsPerDay), None, None)
  }

  /** `get_user_activity`: the user's newest 100 entries of the last `days`
      days, newest first. */
  function GetUserActivity(s: DbState, userId: Id, days: int, now: int): (r: seq<AuditEntry>)
    requires ValidState(s)
    ensures |r| == Min(100, |Matching(s, UserActivityQuery(userId, days, now))|)
    ensures forall e :: e in r ==> e in s.log && e.userId == Some(userId) && e.timestamp >= now - days * SecondsPerDay
    ensures SortedDesc(r, Timestamp)
    ensures WindowOf(r, Ordered(s.log, QueryFilter(UserActivityQuery(userId, days, now)), Timestamp), 0)
    ensures forall e :: e in s.log && e.userId == Some(userId) && e.timestamp >= now - days * SecondsPerDay && e !in r ==>
              |r| == 100 && forall x :: x in r ==> x.timestamp >= e.timestamp
  {
    GetLogs(s, UserActivityQuery(userId, days, now), 0, 100).items
  }

  /** The query of `get_resource_history`. */
  function ResourceQuery(resourceType: string, resourceId: Id): LogQuery {
    LogQuery(None, Some(resourceType), Some(resourceId), None, None, None, None)
  }

  /** `get_resource_history`: the newest 100 entries about one resource,
      newest first. */
  function GetResourceHistory(s: DbState, resourceType: string, resourceId: Id): (r: seq<AuditEntry>)
    requires ValidState(s)
    ensures |r| == Min(100, |Matching(s, ResourceQuery(resourceType, resourceId))|)
    ensures forall e :: e in r ==> e in s.log && e.resourceId == Some(resourceId)
    ensures resourceType != "" ==> forall e :: e in r ==> e.resourceType == Some(resourceType)
    ensures SortedDesc(r, Timestamp)
    ensures WindowOf(r, Ordered(s.log, QueryFilter(ResourceQuery(resourceType, resourceId)), Timestamp), 0)
    ensures forall e :: e in s.log && LogMatches(e, ResourceQuery(resourceType, resourceId)) && e !in r ==>
              |r| == 100 && forall x :: x in r ==> x.timestamp >= e.timestamp
  {
    GetLogs(s, ResourceQuery(resourceType, resourceId), 0, 100).items
  }

  /** The query of `get_critical_actions`. */
  function CriticalQuery(days: int, now: int): LogQuery {
    LogQuery(None, None, None, None, Some(now - days * SecondsPerDay), None, Some(Critical))
  }

  /** `get_critical_actions`: the newest 200 critical entries of the last
      `days` days, newest first. */
  function GetCriticalActions(s: DbState, days: int, now: int): (r: seq<AuditEntry>)
    requires ValidState(s)
    ensures |r| == Min(200, |Matching(s, CriticalQuery(days, now))|)
    ensures forall e :: e in r ==> e in s.log && e.severity == Critical && e.timestamp >= now - days * SecondsPerDay
    ensures SortedDesc(r, Timestamp)
    ensures WindowOf(r, Ordered(s.log, QueryFilter(CriticalQuery(days, now)), Timestamp), 0)
    ensures forall e :: e in s.log && LogMatches(e, CriticalQuery(days, now)) && e !in r ==>
              |r| == 200 && forall x :: x in r ==> x.timestamp >= e.timestamp
  {
    GetLogs(s, CriticalQuery(days, now), 0, 200).items
  }
}
