/** The audit-log endpoints (backend/controllers/transactionController.js): the
    admin listing filtered by event, severity, user and payment, and a caller's
    own entries. */
module TransactionController {
  import opened Common
  import opened TransactionLog
  import opened Listing
  import opened Filtering

  /** Query parameters of the admin listing; the caller's listing reads only page and limit. */
  datatype LogQuery = LogQuery(
    page: Option<string>,
    limit: Option<string>,
    event: Option<string>,
    status: Option<string>,
    userId: Option<string>,
    paymentId: Option<string>)

  /** A reference condition: no condition, or the referenced id must be present and equal. */
  predicate RefMatches(cond: Option<string>, ref: Option<string>) {
    cond.None? || (ref.Some? && ref.value == cond.value)
  }

  /** The admin filter: `event`, `status`, `userId` and `paymentId`, each when supplied. */
  predicate EntryMatches(e: LogEntry, q: LogQuery) {
    && FieldMatches(Only(q.event), EventName(e.event))
    && FieldMatches(Only(q.status), SeverityName(e.status))
    && RefMatches(Only(q.userId), if e.userId.Some? then Some(NatToString(e.userId.value)) else None)
    && RefMatches(Only(q.paymentId), e.paymentId)
  }

  /** `TransactionLog.find(filter)` over the log in newest-first order. */
  function MatchingEntries(newestFirst: seq<LogEntry>, q: LogQuery): (r: seq<LogEntry>)
    ensures |r| <= |newestFirst|
    ensures forall e :: e in r <==> e in newestFirst && EntryMatches(e, q)
    ensures IsSubsequence(r, newestFirst)
    ensures forall e :: multiset(r)[e] == if EntryMatches(e, q) then multiset(newestFirst)[e] else 0
  {
    if newestFirst == [] then []
    else
      var rest := MatchingEntries(newestFirst[1..], q);
      FilterStep(newestFirst, rest, EntryMatches(newestFirst[0], q));
      (if EntryMatches(newestFirst[0], q) then [newestFirst[0]] else []) + rest
  }

  /** `TransactionLog.find({ userId })` */
  function EntriesOf(newestFirst: seq<LogEntry>, userId: UserId): (r: seq<LogEntry>)
    ensures |r| <= |newestFirst|
    ensures forall e :: e in r <==> e in newestFirst && e.userId == Some(userId)
    ensures IsSubsequence(r, newestFirst)
    ensures forall e :: multiset(r)[e] == if e.userId == Some(userId) then multiset(newestFirst)[e] else 0
  {
    if newestFirst == [] then []
    else
      var rest := EntriesOf(newestFirst[1..], userId);
      FilterStep(newestFirst, rest, newestFirst[0].userId == Some(userId));
      (if newestFirst[0].userId == Some(userId) then [newestFirst[0]] else []) + rest
  }

  /** `getLogs`: 20 per page by default, at most 100. */
  function GetLogs(newestFirst: seq<LogEntry>, q: LogQuery): Result<Listed<LogEntry>, AppError> {
    ListPage(MatchingEntries(newestFirst, q), q.page, q.limit, 20, 100)
  }

  /** `getMyLogs`: 10 per page by default, at most 50; the filter parameters are not read. */
  function GetMyLogs(newestFirst: seq<LogEntry>, userId: UserId, page: Option<string>, limit: Option<string>)
    : Result<Listed<LogEntry>, AppError>
  {
    ListPage(EntriesOf(newestFirst, userId), page, limit, 10, 50)
  }

  /** A caller sees only entries that name them, and the count is of exactly those. */
  lemma MyLogsAreOwn(newestFirst: seq<LogEntry>, userId: UserId, page: Option<string>, limit: Option<string>)
    ensures var r := GetMyLogs(newestFirst, userId, page, limit);
      r.Ok? ==>
        && r.value.pagination.total == |EntriesOf(newestFirst, userId)|
        && forall e :: e in r.value.items ==> e in newestFirst && e.userId == Some(userId)
  {
    var r := GetMyLogs(newestFirst, userId, page, limit);
    if r.Ok? {
      WindowOfMatches(EntriesOf(newestFirst, userId), Skip(r.value.pagination), Abs(r.value.pagination.limit));
    }
  }

  /** Every entry of a filtered admin listing has the event and severity asked
      for and names the user and payment asked for; entries without the
      reference are left out. */
  lemma AdminFilterHolds(newestFirst: seq<LogEntry>, q: LogQuery)
    ensures var r := GetLogs(newestFirst, q);
      r.Ok? ==> forall e :: e in r.value.items ==>
        && e in newestFirst
        && (Supplied(q.event) ==> EventName(e.event) == q.event.value)
        && (Supplied(q.status) ==> SeverityName(e.status) == q.status.value)
        && (Supplied(q.userId) ==> e.userId.Some? && NatToString(e.userId.value) == q.userId.value)
        && (Supplied(q.paymentId) ==> e.paymentId == q.paymentId)
  {
    var r := GetLogs(newestFirst, q);
    if r.Ok? {
      WindowOfMatches(MatchingEntries(newestFirst, q), Skip(r.value.pagination), Abs(r.value.pagination.limit));
    }
  }

  /** An event filter that names no event of the schema lists nothing. */
  lemma UnknownEventListsNothing(newestFirst: seq<LogEntry>, q: LogQuery)
    requires Supplied(q.event) && ParseEvent(q.event.value).None?
    ensures MatchingEntries(newestFirst, q) == []
  {
    forall e: LogEntry ensures !EntryMatches(e, q) {
      EventNamesClosed(e.event, q.event.value);
    }
  }
}
