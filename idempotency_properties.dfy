/** Properties of the idempotency gate (backend/middlewares/idempotency.js),
    stated about `Admit` and `Finish`, which `Ledger.Check` and
    `Ledger.Respond` are proved to implement. */
module IdempotencyProperties {
  import opened Common
  import opened IdempotencyKeyModel
  import opened Idempotency

  /** The gate and the completion step keep one record per key. */
  lemma LedgerStaysKeyed<B>(records: map<string, IdempotencyRecord<B>>, header: Option<string>, userId: UserId,
                            requestHash: string, now: int, statusCode: int, body: B)
    requires LedgerKeyed(records)
    ensures LedgerKeyed(Admit(records, header, userId, requestHash, now).records)
    ensures forall key :: LedgerKeyed(Finish(records, key, statusCode, body))
  {
    forall key ensures LedgerKeyed(Finish(records, key, statusCode, body)) {
      var r := Finish(records, key, statusCode, body);
      forall k | k in r ensures r[k].key == k {
        if k == key {
          assert r[key] == records[key].(response := Some(body), status := KeyCompleted);
        }
      }
    }
  }

  /** An admitted request, once answered, leaves the ledger as it was except
      for its own record, which is kept, completed with the body and still
      the user's, exactly when the reply is 2xx. */
  lemma AnsweredRequestSettles<B>(records: map<string, IdempotencyRecord<B>>, header: Option<string>, userId: UserId,
                                  requestHash: string, now: int, statusCode: int, body: B)
    requires Admit(records, header, userId, requestHash, now).outcome.Proceed?
    ensures var k := header.value;
      var done := Finish(Admit(records, header, userId, requestHash, now).records, k, statusCode, body);
      && done - {k} == records
      && (k in done <==> IsSuccessStatus(statusCode))
      && (k in done ==> done[k].status == KeyCompleted && done[k].response == Some(body) && done[k].userId == userId)
  {
    var k := header.value;
    var admitted := Admit(records, header, userId, requestHash, now).records;
    assert admitted - {k} == records;
  }

  /** The next request under a key settled by an answer: a completed record
      of the same user is replayed, and a deleted one is admitted afresh. */
  lemma NextRequestAfterSettling<B>(records: map<string, IdempotencyRecord<B>>, done: map<string, IdempotencyRecord<B>>,
                                    k: string, userId: UserId, requestHash: string, now: int)
    requires CheckKey(Some(k)).Ok? && k !in records && done - {k} == records
    ensures k in done && done[k].userId == userId && done[k].status == KeyCompleted ==>
      Admit(done, Some(k), userId, requestHash, now) == AdmitStep(CachedHit(done[k].response), done)
    ensures k !in done ==> done == records
    ensures k !in done && requestHash != "" ==> Admit(done, Some(k), userId, requestHash, now).outcome == Proceed(k)
  {
    if k !in done {
      assert done == records;
    }
  }

  /** A key admitted, answered with a 2xx body, and presented again by the same
      user is answered from the ledger with exactly that body, whatever the new
      request contains; the ledger does not change. */
  lemma ReplayAfterSuccess<B>(records: map<string, IdempotencyRecord<B>>, header: Option<string>, userId: UserId,
                              hash1: string, hash2: string, now1: int, now2: int, statusCode: int, body: B)
    requires Admit(records, header, userId, hash1, now1).outcome.Proceed?
    requires IsSuccessStatus(statusCode)
    ensures var done := Finish(Admit(records, header, userId, hash1, now1).records, header.value, statusCode, body);
      Admit(done, header, userId, hash2, now2) == AdmitStep(CachedHit(Some(body)), done)
  {
    var key := header.value;
    var admitted := Admit(records, header, userId, hash1, now1).records;
    var done := Finish(admitted, key, statusCode, body);
    assert key in admitted && admitted[key].userId == userId;
    assert done[key] == admitted[key].(response := Some(body), status := KeyCompleted);
  }

  /** A non-2xx reply removes the record the gate created: the ledger is as it
      was, and the same key is admitted afresh by the next request. */
  lemma FailedReplyFreesKey<B>(records: map<string, IdempotencyRecord<B>>, header: Option<string>, userId: UserId,
                               hash1: string, hash2: string, now1: int, now2: int, statusCode: int, body: B)
    requires Admit(records, header, userId, hash1, now1).outcome.Proceed?
    requires !IsSuccessStatus(statusCode) && hash2 != ""
    ensures Finish(Admit(records, header, userId, hash1, now1).records, header.value, statusCode, body) == records
    ensures Admit(Finish(Admit(records, header, userId, hash1, now1).records, header.value, statusCode, body),
                  header, userId, hash2, now2).outcome == Proceed(header.value)
  {
    var key := header.value;
    var admitted := Admit(records, header, userId, hash1, now1).records;
    assert admitted == records[key := admitted[key]];
    assert admitted - {key} == records;
  }

  /** While the first request with a key is in flight, a duplicate gets the
      409 conflict and the handler does not run for it. */
  lemma InFlightDuplicateConflicts<B>(records: map<string, IdempotencyRecord<B>>, header: Option<string>, userId: UserId,
                                      hash1: string, hash2: string, now1: int, now2: int)
    requires Admit(records, header, userId, hash1, now1).outcome.Proceed?
    ensures var admitted := Admit(records, header, userId, hash1, now1).records;
      Admit(admitted, header, userId, hash2, now2) == AdmitStep(Conflict, admitted)
  {
    var admitted := Admit(records, header, userId, hash1, now1).records;
    assert admitted[header.value].userId == userId && admitted[header.value].status == KeyProcessing;
  }

  /** The fingerprint only ever reaches a new record: for a key the ledger
      already holds, the answer is the same whatever the request's fingerprint. */
  lemma FingerprintNeverCompared<B>(records: map<string, IdempotencyRecord<B>>, header: Option<string>, userId: UserId,
                                    hash1: string, hash2: string, now1: int, now2: int)
    requires header.Some? && header.value in records
    ensures Admit(records, header, userId, hash1, now1) == Admit(records, header, userId, hash2, now2)
  {
  }

  /** Keys are unique across users: a key held by one user is neither replayed
      nor admitted for another, whose request fails with the index violation. */
  lemma KeyIsGlobal<B>(records: map<string, IdempotencyRecord<B>>, key: string, owner: UserId, other: UserId,
                       requestHash: string, now: int)
    requires key in records && records[key].userId == owner && owner != other
    requires MIN_KEY_LENGTH <= |key| <= MAX_KEY_LENGTH
    ensures Admit(records, Some(key), other, requestHash, now) == AdmitStep(Rejected(DUPLICATE_KEY), records)
  {
  }

  /** The lookup does not look at `expiresAt`: a completed record past its
      expiry is still replayed until the TTL monitor removes it, and after
      that the key is admitted afresh. */
  lemma ExpiryActsThroughReaping<B>(records: map<string, IdempotencyRecord<B>>, key: string, userId: UserId,
                                    requestHash: string, now: int)
    requires key in records && records[key].userId == userId && records[key].status == KeyCompleted
    requires records[key].expiresAt <= now && MIN_KEY_LENGTH <= |key| <= MAX_KEY_LENGTH && requestHash != ""
    ensures Admit(records, Some(key), userId, requestHash, now).outcome == CachedHit(records[key].response)
    ensures Admit(Reaped(records, now), Some(key), userId, requestHash, now).outcome == Proceed(key)
  {
  }

  /** A new record expires 24 hours after it was made. */
  lemma NewRecordLivesOneDay<B>(key: string, userId: UserId, requestHash: string, now: int, later: int)
    requires key != "" && requestHash != ""
    ensures var rec: IdempotencyRecord<B> := NewRecord(key, userId, requestHash, now).value;
      key in Reaped(map[key := rec], later) <==> later < now + KEY_TTL_MS
  {
  }
}
