/** The audit logger (backend/services/transactionLogger.js): each call tries to
    append one entry to the append-only audit log, and a failed write is
    reported to the process log and swallowed, never raised to the caller. */
module TransactionLogger {
  import opened Common
  import opened TransactionLog

  /** The arguments of one `log` call; `status` may be left out. */
  datatype LogRequest = LogRequest(
    paymentId: Option<string>,
    orderId: Option<string>,
    userId: Option<UserId>,
    event: LogEvent,
    status: Option<Severity>,
    message: string,
    metadata: Option<Metadata>,
    req: Option<RequestInfo>,
    duration: Option<int>)

  /** The document a call asks the store to create. */
  function EntryFor(r: LogRequest, now: int): (e: LogEntry)
    ensures e.paymentId == r.paymentId && e.orderId == r.orderId && e.userId == r.userId
    ensures e.event == r.event && e.message == r.message && e.metadata == r.metadata && e.duration == r.duration
    ensures e.status == (if r.status.Some? then r.status.value else Info)
    ensures r.req.None? ==> e.ipAddress.None? && e.userAgent.None?
    ensures r.req.Some? ==> e.ipAddress == r.req.value.ip && e.userAgent == r.req.value.userAgent
    ensures e.createdAt == now
  {
    LogEntry(
      paymentId := r.paymentId,
      orderId := r.orderId,
      userId := r.userId,
      event := r.event,
      status := if r.status.None? then Info else r.status.value,
      message := r.message,
      metadata := r.metadata,
      ipAddress := if r.req.None? then None else r.req.value.ip,
      userAgent := if r.req.None? then None else r.req.value.userAgent,
      duration := r.duration,
      createdAt := now)
  }

  /** The log after one call. `storeUp` says whether the store accepts writes; a
      document with an empty message is refused by the schema. */
  function Logged(entries: seq<LogEntry>, r: LogRequest, now: int, storeUp: bool): (result: seq<LogEntry>)
    ensures |result| == |entries| + (if storeUp && r.message != "" then 1 else 0)
    ensures result[..|entries|] == entries
    ensures |result| > |entries| ==> result[|entries|] == EntryFor(r, now)
  {
    var e := EntryFor(r, now);
    if storeUp && IsStorable(e) then entries + [e] else entries
  }

  /** A log call never removes or rewrites what is already there. */
  lemma LoggedIsAppendOnly(entries: seq<LogEntry>, r: LogRequest, now: int, storeUp: bool)
    ensures entries <= Logged(entries, r, now, storeUp)
    ensures Logged(entries, r, now, storeUp) == entries || Logged(entries, r, now, storeUp) == entries + [EntryFor(r, now)]
  {
  }

  class AuditLog {
    var entries: seq<LogEntry>

    constructor ()
      ensures entries == []
    {
      entries := [];
    }

    /** `log`: no result and no error; at most one entry more. */
    method Log(r: LogRequest, now: int, storeUp: bool)
      modifies this
      ensures entries == Logged(old(entries), r, now, storeUp)
    {
      var e := EntryFor(r, now);
      if storeUp && IsStorable(e) {
        entries := entries + [e];
      }
    }
  }
}
