/** The admin shell's audit emitter, `logAuditEvent`: every panel hands it an
    action and optional table, record and before/after payloads; it builds one
    `audit_logs` row and inserts it, best effort. */
module Audit {
  import opened Common

  /** The arguments of one `logAuditEvent(action, tableName?, recordId?, oldData?, newData?)`
      call; an argument left out is `Undefined`. */
  datatype AuditRequest = AuditRequest(
    action: string,
    tableName: Value,
    recordId: Value,
    oldData: Value,
    newData: Value)

  /** `logAuditEvent(action)`. */
  function Event(action: string): (r: AuditRequest)
    ensures r.action == action
    ensures !Truthy(r.tableName) && !Truthy(r.recordId) && !Truthy(r.oldData) && !Truthy(r.newData)
  {
    AuditRequest(action, Undefined, Undefined, Undefined, Undefined)
  }

  /** `logAuditEvent(action, tableName, recordId?)`. */
  function EventOn(action: string, table: string, recordId: Option<string>): (r: AuditRequest)
    ensures r.action == action && r.tableName == Str(table)
    ensures recordId.Some? ==> r.recordId == Str(recordId.value)
    ensures recordId.None? ==> r.recordId == Undefined
    ensures !Truthy(r.oldData) && !Truthy(r.newData)
  {
    AuditRequest(action, Str(table),
      match recordId case Some(id) => Str(id) case None => Undefined,
      Undefined, Undefined)
  }

  /** One row of `audit_logs` as the emitter builds it. */
  datatype AuditRecord = AuditRecord(
    userId: string,
    action: string,
    tableName: Value,
    recordId: Value,
    oldData: Value,
    newData: Value,
    ipAddress: string,
    userAgent: string,
    createdAt: string)

  const TempUserId: string := "admin-user-temp-id"
  const UserAgentLimit: nat := 100

  /** `v || null`. */
  function OrNull(v: Value): Value {
    if Truthy(v) then v else Null
  }

  /** `userAgent.substring(0, 100)` when a navigator exists, `'Admin Browser'` otherwise. */
  function UserAgentOf(navigator: Option<string>): (ua: string)
    ensures |ua| <= UserAgentLimit
    ensures navigator.Some? ==> ua <= navigator.value
    ensures navigator.Some? && |navigator.value| <= UserAgentLimit ==> ua == navigator.value
    ensures navigator.Some? ==>
      |ua| == if |navigator.value| < UserAgentLimit then |navigator.value| else UserAgentLimit
    ensures navigator.None? ==> ua == "Admin Browser"
  {
    match navigator
    case Some(agent) => agent[..if |agent| < UserAgentLimit then |agent| else UserAgentLimit]
    case None => "Admin Browser"
  }

  /** The row `logAuditEvent` inserts; `navigator` is the browser's user agent (absent
      outside a browser) and `now` the ISO timestamp. */
  function BuildAuditRecord(req: AuditRequest, navigator: Option<string>, now: string): (r: AuditRecord)
    ensures r.userId == TempUserId && r.ipAddress == "localhost" && r.createdAt == now
    ensures r.action == req.action
    ensures Truthy(req.tableName) ==> r.tableName == req.tableName
    ensures !Truthy(req.tableName) ==> r.tableName == Null
    ensures Truthy(req.recordId) ==> r.recordId == req.recordId
    ensures !Truthy(req.recordId) ==> r.recordId == Null
    ensures Truthy(req.oldData) ==> r.oldData == req.oldData
    ensures !Truthy(req.oldData) ==> r.oldData == Null
    ensures Truthy(req.newData) ==> r.newData == req.newData
    ensures !Truthy(req.newData) ==> r.newData == Null
    ensures |r.userAgent| <= UserAgentLimit
    ensures navigator.Some? ==> r.userAgent <= navigator.value
    ensures r.userAgent == UserAgentOf(navigator)
    ensures navigator.None? ==> r.userAgent == "Admin Browser"
  {
    AuditRecord(
      TempUserId,
      req.action,
      OrNull(req.tableName),
      OrNull(req.recordId),
      OrNull(req.oldData),
      OrNull(req.newData),
      "localhost",
      UserAgentOf(navigator),
      now)
  }

  /** Where a failed insert is reported; nothing is ever raised to the caller. */
  datatype ConsoleNote = Quiet | Warned | ErrorLogged

  /** What one `logAuditEvent` call does: the row it tries to insert and what it
      prints. Its result has no failure case: an insert error only warns and a
      raised exception is caught. */
  datatype AuditEffect = AuditEffect(inserted: AuditRecord, note: ConsoleNote)

  function LogAuditEvent(req: AuditRequest, navigator: Option<string>, now: string, insert: Write): (e: AuditEffect)
    ensures e.inserted == BuildAuditRecord(req, navigator, now)
    ensures e.note == Quiet <==> insert == Written
    ensures e.note == Warned <==> insert == WriteFailed
  {
    AuditEffect(
      BuildAuditRecord(req, navigator, now),
      match insert
      case Written => Quiet
      case WriteFailed => Warned
      case WriteThrew => ErrorLogged)
  }
}
