/** The audit entry and the ways the code builds one (app/app/models/audit.py).
    Appending an entry to the ledger is `Store.Db.Log`. */
module AuditModel {
  import opened Common
  import opened Users

  const Info: string := "info"
  const Warning: string := "warning"
  const Critical: string := "critical"

  datatype AuditEntry = AuditEntry(
    id: Id,
    userId: Option<Id>,
    userEmail: Option<string>,   // denormalised for the historical record
    action: string,              // dot-namespaced, e.g. "annotation.sign_off"
    resourceType: Option<string>,
    resourceId: Option<Id>,
    details: JsonObject,
    ipAddress: Option<string>,
    userAgent: Option<string>,
    requestId: Option<string>,
    severity: string,
    timestamp: int)

  /** The sort key of `ORDER BY timestamp`. */
  function Timestamp(e: AuditEntry): int {
    e.timestamp
  }

  /** The entry `AuditLog.log_action` builds: the user's id and e-mail or
      nulls, `details` defaulting to `{}`, severity as given ("info" by the
      function's default), stamped with the insert time. */
  function LogEntry(id: Id, now: int, action: string, user: Option<User>, resourceType: Option<string>,
                    resourceId: Option<Id>, details: Option<JsonObject>, ipAddress: Option<string>,
                    severity: string): (e: AuditEntry)
    ensures user.None? ==> e.userId == None && e.userEmail == None
    ensures user.Some? ==> e.userId == Some(user.value.id) && e.userEmail == Some(user.value.email)
    ensures details.None? ==> e.details == map[]
    ensures details.Some? ==> e.details == details.value
    ensures e.action == action && e.resourceType == resourceType && e.resourceId == resourceId
    ensures e.ipAddress == ipAddress && e.severity == severity
    ensures e.userAgent == None && e.requestId == None
    ensures e.id == id && e.timestamp == now
  {
    AuditEntry(
      id,
      if user.Some? then Some(user.value.id) else None,
      if user.Some? then Some(user.value.email) else None,
      action, resourceType, resourceId,
      details.GetOr(map[]),
      ipAddress, None, None, severity, now)
  }

  /** The entry the route handlers build directly, `AuditLog(user_id=...,
      user_email=..., action=..., <resource type>=..., <resource id>=...)`, with
      the column defaults for the rest. */
  function RouteEntry(id: Id, now: int, user: User, action: string, resourceType: string, resourceId: Id): (e: AuditEntry)
    ensures e.userId == Some(user.id) && e.userEmail == Some(user.email)
    ensures e.action == action && e.resourceType == Some(resourceType) && e.resourceId == Some(resourceId)
    ensures e.details == map[] && e.severity == Info && e.ipAddress == None
    ensures e.id == id && e.timestamp == now
  {
    AuditEntry(id, Some(user.id), Some(user.email), action, Some(resourceType), Some(resourceId),
               map[], None, None, None, Info, now)
  }

  /** A route-built entry is the entry `log_action` builds for the same user,
      action and resource with every other argument at its default. */
  lemma RouteEntryIsLogEntry(id: Id, now: int, user: User, action: string, resourceType: string, resourceId: Id)
    ensures RouteEntry(id, now, user, action, resourceType, resourceId)
         == LogEntry(id, now, action, Some(user), Some(resourceType), Some(resourceId), None, None, Info)
  {
  }

  /** What a service's `_log_action` appends: with a current user, the one
      entry `log_action` builds; without one, nothing. */
  function ServiceEntries(user: Option<User>, id: Id, now: int, action: string, resourceType: string,
                          resourceId: Id, details: Option<JsonObject>, severity: string): (es: seq<AuditEntry>)
    ensures user.None? ==> es == []
    ensures user.Some? ==> es == [LogEntry(id, now, action, user, Some(resourceType), Some(resourceId), details, None, severity)]
  {
    if user.Some? then [LogEntry(id, now, action, user, Some(resourceType), Some(resourceId), details, None, severity)]
    else []
  }
}
