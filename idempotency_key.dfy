/** The idempotency ledger's record (backend/models/IdempotencyKey.js): a
    client-chosen key, its owner, the fingerprint of the first request, the
    status of that request and, once it completed, the reply it produced.
    The reply body is a type parameter: the ledger stores whatever the
    handler sends. */
module IdempotencyKeyModel {
  import opened Common

  datatype KeyStatus = KeyProcessing | KeyCompleted

  function KeyStatusName(s: KeyStatus): string {
    match s
    case KeyProcessing => "processing"
    case KeyCompleted => "completed"
  }

  /** Records live for 24 hours; the store's TTL index removes them then. */
  const KEY_TTL_MS: int := 24 * 60 * 60 * 1000

  datatype IdempotencyRecord<B> = IdempotencyRecord(
    key: string,
    userId: UserId,
    requestHash: string,
    response: Option<B>,
    status: KeyStatus,
    expiresAt: int,
    createdAt: int)

  /** A required string path must not be empty; the error handler replies 500
      to a schema validation error, which carries no status of its own. */
  const RECORD_VALIDATION_FAILED: AppError :=
    AppError("IdempotencyKey validation failed: key and requestHash are required", UNHANDLED_STATUS)

  /** `IdempotencyKey.create`: the schema's required checks, then the defaults
      (`processing`, no response, 24 hours to live). */
  function NewRecord<B>(key: string, userId: UserId, requestHash: string, now: int): (r: Result<IdempotencyRecord<B>, AppError>)
    ensures r.Ok? <==> key != "" && requestHash != ""
    ensures r.Err? ==> r.error == RECORD_VALIDATION_FAILED
    ensures r.Ok? ==>
      && r.value.key == key && r.value.userId == userId && r.value.requestHash == requestHash
      && r.value.status == KeyProcessing && r.value.response.None?
      && r.value.createdAt == now && r.value.expiresAt == now + 24 * 60 * 60 * 1000
  {
    if key == "" || requestHash == "" then Err(RECORD_VALIDATION_FAILED)
    else Ok(IdempotencyRecord(
      key := key,
      userId := userId,
      requestHash := requestHash,
      response := None,
      status := KeyProcessing,
      expiresAt := now + KEY_TTL_MS,
      createdAt := now))
  }

  /** The unique index on `key`: the ledger is a map from key to its one
      record, whoever owns it. */
  predicate LedgerKeyed<B>(records: map<string, IdempotencyRecord<B>>) {
    forall k :: k in records ==> records[k].key == k
  }

  /** What the TTL monitor leaves at time `now`: every record whose expiry is still ahead. */
  function Reaped<B>(records: map<string, IdempotencyRecord<B>>, now: int): (r: map<string, IdempotencyRecord<B>>)
    ensures forall k :: k in r <==> k in records && records[k].expiresAt > now
    ensures forall k :: k in r ==> r[k] == records[k]
  {
    map k | k in records && records[k].expiresAt > now :: records[k]
  }
}
