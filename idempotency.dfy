/** The idempotency gate in front of the payment handlers
    (backend/middlewares/idempotency.js). A request without a usable key is
    refused; a key already seen for this user either conflicts (still in
    flight) or replays the stored reply; a new key gets a `processing` record
    and the handler runs. When the handler replies, a 2xx reply is stored with
    the record and any other reply deletes it. The request fingerprint is
    stored but never compared. */
module Idempotency {
  import opened Common
  import opened IdempotencyKeyModel

  const MIN_KEY_LENGTH: nat := 16
  const MAX_KEY_LENGTH: nat := 255

  const KEY_REQUIRED: AppError := AppError("Idempotency-Key header is required for payment operations.", 400)
  const KEY_LENGTH: AppError := AppError("Idempotency-Key must be between 16 and 255 characters.", 400)

  /** Inserting a key that another user already holds violates the unique index on `key`. */
  const DUPLICATE_KEY: AppError := AppError("E11000 duplicate key error: key", UNHANDLED_STATUS)

  const CONFLICT_MESSAGE: string := "A request with this idempotency key is currently being processed."
  const CONFLICT_CODE: string := "IDEMPOTENCY_CONFLICT"
  const CACHED_MESSAGE: string := "Duplicate request detected. Returning cached response."

  /** The four ways the gate can end: an error passed on to the error handler,
      a 409 conflict, a 200 replay of a stored reply, or the handler running
      under the admitted key. */
  datatype Admission<B> =
    | Rejected(error: AppError)
    | Conflict
    | CachedHit(data: Option<B>)
    | Proceed(key: string)

  datatype AdmitStep<B> = AdmitStep(outcome: Admission<B>, records: map<string, IdempotencyRecord<B>>)

  /** The header checks: present and non-empty, then 16 to 255 characters. */
  function CheckKey(header: Option<string>): (r: Result<string, AppError>)
    ensures r.Ok? <==> header.Some? && MIN_KEY_LENGTH <= |header.value| <= MAX_KEY_LENGTH
    ensures r.Ok? ==> r.value == header.value
    ensures r.Err? ==> r.error.statusCode == 400
    ensures r == Err(KEY_REQUIRED) <==> header.None? || header.value == ""
  {
    if header.None? || header.value == "" then Err(KEY_REQUIRED)
    else if |header.value| < MIN_KEY_LENGTH || |header.value| > MAX_KEY_LENGTH then Err(KEY_LENGTH)
    else Ok(header.value)
  }

  /** `IdempotencyKey.findOne({ key, userId })` */
  function FindRecord<B>(records: map<string, IdempotencyRecord<B>>, key: string, userId: UserId): (r: Option<IdempotencyRecord<B>>)
    ensures r.Some? <==> key in records && records[key].userId == userId
    ensures r.Some? ==> r.value == records[key]
  {
    if key in records && records[key].userId == userId then Some(records[key]) else None
  }

  /** The specification of `idempotencyCheck` up to `next()`. */
  function Admit<B>(records: map<string, IdempotencyRecord<B>>, header: Option<string>, userId: UserId,
                    requestHash: string, now: int): (s: AdmitStep<B>)
    ensures CheckKey(header).Err? ==> s == AdmitStep(Rejected(CheckKey(header).error), records)
    ensures !s.outcome.Proceed? ==> s.records == records
    ensures s.outcome.Conflict? <==>
      CheckKey(header).Ok? && FindRecord(records, header.value, userId).Some?
      && records[header.value].status == KeyProcessing
    ensures s.outcome.CachedHit? <==>
      CheckKey(header).Ok? && FindRecord(records, header.value, userId).Some?
      && records[header.value].status == KeyCompleted
    ensures s.outcome.CachedHit? ==> s.outcome.data == records[header.value].response
    ensures s.outcome == Rejected(DUPLICATE_KEY) <==>
      CheckKey(header).Ok? && header.value in records && records[header.value].userId != userId
    ensures s.outcome.Proceed? <==> CheckKey(header).Ok? && header.value !in records && requestHash != ""
    ensures s.outcome.Proceed? ==>
      && s.outcome.key == header.value
      && s.records == records[header.value := NewRecord(header.value, userId, requestHash, now).value]
  {
    match CheckKey(header)
    case Err(e) => AdmitStep(Rejected(e), records)
    case Ok(key) =>
      match FindRecord(records, key, userId)
      case Some(existing) =>
        if existing.status == KeyProcessing then AdmitStep(Conflict, records)
        else
          assert existing.status == KeyCompleted;
          AdmitStep(CachedHit(existing.response), records)
      case None =>
        if key in records then AdmitStep(Rejected(DUPLICATE_KEY), records)
        else
          match NewRecord(key, userId, requestHash, now)
          case Err(e) => AdmitStep(Rejected(e), records)
          case Ok(record) => AdmitStep(Proceed(key), records[key := record])
  }

  /** A reply status the wrapped `res.json` treats as success. */
  predicate IsSuccessStatus(statusCode: int) {
    200 <= statusCode < 300
  }

  /** The specification of the wrapped `res.json`: complete the record with the
      body on a 2xx reply, delete it otherwise. */
  function Finish<B>(records: map<string, IdempotencyRecord<B>>, key: string, statusCode: int, body: B)
    : (r: map<string, IdempotencyRecord<B>>)
    ensures r.Keys == if IsSuccessStatus(statusCode) then records.Keys else records.Keys - {key}
    ensures forall k :: k in r && k != key ==> r[k] == records[k]
    ensures key in r ==> r[key] == records[key].(response := Some(body), status := KeyCompleted)
  {
    if IsSuccessStatus(statusCode) then
      if key in records then records[key := records[key].(response := Some(body), status := KeyCompleted)] else records
    else records - {key}
  }

  /** The ledger as the middleware sees it: one collection of records. */
  class Ledger<B> {
    var records: map<string, IdempotencyRecord<B>>

    constructor ()
      ensures records == map[]
    {
      records := map[];
    }

    ghost predicate Valid()
      reads this
    {
      LedgerKeyed(records)
    }

    /** `idempotencyCheck`: validate the header, look the key up for this
        user, and either answer from the record or insert a new one. */
    method Check(header: Option<string>, userId: UserId, requestHash: string, now: int) returns (a: Admission<B>)
      requires Valid()
      modifies this
      ensures Valid()
      ensures AdmitStep(a, records) == Admit(old(records), header, userId, requestHash, now)
    {
      if header.None? || header.value == "" {
        return Rejected(KEY_REQUIRED);
      }
      var key := header.value;
      if |key| < MIN_KEY_LENGTH || |key| > MAX_KEY_LENGTH {
        return Rejected(KEY_LENGTH);
      }
      var existing := FindRecord(records, key, userId);
      if existing.Some? {
        if existing.value.status == KeyProcessing {
          return Conflict;
        }
        return CachedHit(existing.value.response);
      }
      if key in records {
        return Rejected(DUPLICATE_KEY);
      }
      var created := NewRecord(key, userId, requestHash, now);
      if created.Err? {
        return Rejected(created.error);
      }
      records := records[key := created.value];
      a := Proceed(key);
    }

    /** The wrapped `res.json` installed for an admitted key. */
    method Respond(key: string, statusCode: int, body: B)
      requires Valid()
      modifies this
      ensures Valid()
      ensures records == Finish(old(records), key, statusCode, body)
    {
      if 200 <= statusCode < 300 {
        if key in records {
          records := records[key := records[key].(response := Some(body), status := KeyCompleted)];
        }
      } else {
        records := records - {key};
      }
    }
  }
}
