/**
 The three tables as mutable storage, with the repositories' row operations and
 the writers' units of work in the steps the services perform them.
 */
module LedgerStore {
  import opened Wrappers
  import opened Evidence
  import opened Sidecar
  import opened Ledger
  import opened DailyBarsAssets

  lemma Overwrite(m: map<LogicalKey, RequestRow>, key: LogicalKey, first: RequestRow, second: RequestRow)
    ensures m[key := first][key := second] == m[key := second]
  {
  }

  lemma FailedCase(t: Tables, f: Fetched<FetchedBar>, now: int, number: int)
    requires number == NextNumber(t, f.request, f.attempt.number) && f.attempt.status == Failed
    ensures
      var w, key, a, finished := WriteDaily(t, Fetches(f, now)), f.request, f.attempt, FinishTime(f.attempt, now);
      if finished < a.startedAt || NumberTaken(t, key, number) then w == Written(t, Raised(IntegrityError))
      else
        w == Written(Tables(t.requests[key := RequestRow(RequestFailed, Some(finished))],
                            t.attempts + [AttemptRow(key, number, a.startedAt, finished, Failed,
                                            Some(ErrorStage(a)), Some(ErrorCode(a)), None, None)],
                            t.batches),
                     Done(RawResult(key, |t.attempts|, None, RequestFailed, Failed, 0, Some(ErrorCode(a)))))
  {
  }

  lemma SucceededCase(t: Tables, f: Fetched<FetchedBar>, now: int, number: int)
    requires number == NextNumber(t, f.request, f.attempt.number) && f.attempt.status != Failed
    ensures
      var w, key, a, finished := WriteDaily(t, Fetches(f, now)), f.request, f.attempt, FinishTime(f.attempt, now);
      if finished < a.startedAt || NumberTaken(t, key, number) then w == Written(t, Raised(IntegrityError))
      else if f.batch.None? then
        w == Written(Tables(t.requests[key := RequestRow(RequestPartial, Some(finished))],
                            t.attempts + [AttemptRow(key, number, a.startedAt, finished, Succeeded,
                                            None, None, Some(NO_PAYLOAD_HASH), None)],
                            t.batches),
                     Done(RawResult(key, |t.attempts|, None, RequestPartial, Succeeded, 0, None)))
      else
        var b := f.batch.value;
        var entries := BuildEntries(b.records, key.providerKey, |t.batches|, ObservedAt(b.records, finished));
        if entries.None? then w == Written(t, Raised(UnresolvedSymbol))
        else
          w == Written(Tables(t.requests[key := RequestRow(RequestSucceeded, Some(finished))],
                              t.attempts + [AttemptRow(key, number, a.startedAt, finished, Succeeded,
                                              None, None, Some(b.payloadHash), entries)],
                              t.batches + [BatchRow(key, |t.attempts|, |b.records|, b.payloadHash, b.partial)]),
                       Done(RawResult(key, |t.attempts|, Some(|t.batches|), RequestSucceeded, Succeeded,
                                      |b.records|, None)))
  {
  }

  class Store {
    var requests: map<LogicalKey, RequestRow>
    var attempts: seq<AttemptRow>
    var batches: seq<BatchRow>

    constructor ()
      ensures State() == EMPTY_TABLES
    {
      requests, attempts, batches := map[], [], [];
    }

    function State(): Tables
      reads this
    {
      Tables(requests, attempts, batches)
    }

    // ---------- row operations ----------

    /** An existing request is returned untouched; otherwise a pending one is inserted. */
    method GetOrCreateRequest(key: LogicalKey)
      modifies this`requests
      ensures requests == if key in old(requests) then old(requests)
                          else old(requests)[key := RequestRow(Pending, None)]
    {
      if key !in requests {
        requests := requests[key := RequestRow(Pending, None)];
      }
    }

    /** Inserts an attempt row; None is the IntegrityError of a violated constraint. */
    method AddAttempt(row: AttemptRow) returns (id: Option<nat>)
      modifies this`attempts
      ensures id.None? <==> row.finishedAt < row.startedAt || NumberTaken(old(State()), row.request, row.attemptNo)
      ensures attempts == if id.None? then old(attempts) else old(attempts) + [row]
      ensures id.Some? ==> id.value == |old(attempts)|
    {
      if row.finishedAt < row.startedAt || NumberTaken(State(), row.request, row.attemptNo) {
        return None;
      }
      id := Some(|attempts|);
      attempts := attempts + [row];
    }

    method AddBatch(row: BatchRow) returns (id: nat)
      modifies this`batches
      ensures id == |old(batches)| && batches == old(batches) + [row]
    {
      id := |batches|;
      batches := batches + [row];
    }

    method MarkSucceeded(id: nat, finishedAt: int, payloadHash: string, sidecar: Option<seq<SidecarEntry>>)
      requires id < |attempts|
      modifies this`attempts
      ensures attempts == old(attempts)[id := old(attempts)[id].(status := Succeeded, finishedAt := finishedAt,
                                                payloadHash := Some(payloadHash), sidecar := sidecar)]
    {
      attempts := attempts[id := attempts[id].(status := Succeeded, finishedAt := finishedAt,
                           payloadHash := Some(payloadHash), sidecar := sidecar)];
    }

    method MarkStatus(key: LogicalKey, status: RequestStatus, completedAt: int)
      requires key in requests
      modifies this`requests
      ensures requests == old(requests)[key := RequestRow(status, Some(completedAt))]
    {
      requests := requests[key := RequestRow(status, Some(completedAt))];
    }

    // ---------- units of work ----------

    method Rollback(saved: Tables)
      modifies this
      ensures State() == saved
    {
      requests, attempts, batches := saved.requests, saved.attempts, saved.batches;
    }

    /** Resolves the logical request and numbers the next attempt. */
    method Open(key: LogicalKey, suggested: AttemptNumber) returns (number: int)
      modifies this`requests
      ensures number == NextNumber(old(State()), key, suggested)
      ensures key in requests
      ensures requests == if key in old(requests) then old(requests)
                          else old(requests)[key := RequestRow(Pending, None)]
    {
      GetOrCreateRequest(key);
      var existing := ListByRequest(State(), key, ATTEMPT_LIMIT);
      number := if existing != [] then MaxNumber(existing) + 1 else suggested;
    }

    /** The failure branch all three writers share: one failed attempt and the request. */
    method StoreFailure(key: LogicalKey, a: FetchedAttempt, number: int, finishedAt: int) returns (id: Option<nat>)
      requires key in requests
      modifies this
      ensures id.None? <==> finishedAt < a.startedAt || NumberTaken(old(State()), key, number)
      ensures id.Some? ==>
        && id.value == |old(attempts)|
        && attempts == old(attempts) + [AttemptRow(key, number, a.startedAt, finishedAt, Failed,
                                          Some(ErrorStage(a)), Some(ErrorCode(a)), None, None)]
        && requests == old(requests)[key := RequestRow(RequestFailed, Some(finishedAt))]
        && batches == old(batches)
    {
      id := AddAttempt(AttemptRow(key, number, a.startedAt, finishedAt, Failed,
                                  Some(ErrorStage(a)), Some(ErrorCode(a)), None, None));
      if id.Some? {
        MarkStatus(key, RequestFailed, finishedAt);
      }
    }

    /** The success branch of the daily-bars writer: the attempt is stored running, the batch
        is inserted and its sidecar built, and only then is the attempt marked succeeded. */
    method StoreRunningThenSucceeded(f: Fetched<FetchedBar>, number: int, finishedAt: int)
      returns (result: Result<RawResult, WriteError>)
      requires f.request in requests
      modifies this
      ensures
        var key, a, n, m := f.request, f.attempt, |old(attempts)|, |old(batches)|;
        if finishedAt < a.startedAt || NumberTaken(old(State()), key, number) then
          result == Raised(IntegrityError)
        else if f.batch.None? then
          && attempts == old(attempts) + [AttemptRow(key, number, a.startedAt, finishedAt, Succeeded,
                                            None, None, Some(NO_PAYLOAD_HASH), None)]
          && batches == old(batches)
          && requests == old(requests)[key := RequestRow(RequestPartial, Some(finishedAt))]
          && result == Done(RawResult(key, n, None, RequestPartial, Succeeded, 0, None))
        else
          var b := f.batch.value;
          var entries := BuildEntries(b.records, key.providerKey, m, ObservedAt(b.records, finishedAt));
          if entries.None? then result == Raised(UnresolvedSymbol)
          else
            && attempts == old(attempts) + [AttemptRow(key, number, a.startedAt, finishedAt, Succeeded,
                                              None, None, Some(b.payloadHash), entries)]
            && batches == old(batches) + [BatchRow(key, n, |b.records|, b.payloadHash, b.partial)]
            && requests == old(requests)[key := RequestRow(RequestSucceeded, Some(finishedAt))]
            && result == Done(RawResult(key, n, Some(m), RequestSucceeded, Succeeded, |b.records|, None))
    {
      var key, a := f.request, f.attempt;
      var id := AddAttempt(AttemptRow(key, number, a.startedAt, finishedAt, Running, None, None, None, None));
      if id.None? {
        return Raised(IntegrityError);
      }
      var status, count := RequestSucceeded, 0;
      var batchId: Option<nat> := None;
      var sidecar: Option<seq<SidecarEntry>> := None;
      var payloadHash := NO_PAYLOAD_HASH;
      if f.batch.Some? {
        var b := f.batch.value;
        var stored := AddBatch(BatchRow(key, id.value, |b.records|, b.payloadHash, b.partial));
        batchId, count, payloadHash := Some(stored), |b.records|, b.payloadHash;
        sidecar := BuildEntries(b.records, key.providerKey, stored, ObservedAt(b.records, finishedAt));
        if sidecar.None? {
          return Raised(UnresolvedSymbol);
        }
      } else {
        status := RequestPartial;
      }
      MarkSucceeded(id.value, finishedAt, payloadHash, sidecar);
      MarkStatus(key, status, finishedAt);
      result := Done(RawResult(key, id.value, batchId, status, Succeeded, count, None));
    }

    /** `write_etf_daily_bars_raw`. What it commits in two steps is the one-step commit of the
        specification, and a raised error leaves the tables as they were. */
    method WriteDailyBarsRaw(fetch: Fetch) returns (result: Result<RawResult, WriteError>)
      modifies this
      ensures Written(State(), result) == WriteDaily(old(State()), fetch)
    {
      if fetch.FetchRaises? {
        return Raised(FetchError);
      }
      var f := fetch.bars;
      var finished := FinishTime(f.attempt, fetch.now);
      var saved := State();
      var number := Open(f.request, f.attempt.number);
      ghost var created := requests;
      assert NumberTaken(State(), f.request, number) == NumberTaken(saved, f.request, number);
      if f.attempt.status == Failed {
        FailedCase(saved, f, fetch.now, number);
        var id := StoreFailure(f.request, f.attempt, number, finished);
        result := if id.None? then Raised(IntegrityError)
                  else Done(RawResult(f.request, id.value, None, RequestFailed, Failed, 0, Some(ErrorCode(f.attempt))));
      } else {
        SucceededCase(saved, f, fetch.now, number);
        result := StoreRunningThenSucceeded(f, number, finished);
      }
      if result.Raised? {
        Rollback(saved);
      } else {
        Overwrite(saved.requests, f.request, created[f.request], requests[f.request]);
      }
    }

    /** The success branch of the one-step writers. */
    method StoreSucceeded(f: Fetched<SidecarEntry>, number: int, finishedAt: int)
      returns (result: Result<RawResult, WriteError>)
      requires f.request in requests
      modifies this
      ensures
        var key, a, n, m := f.request, f.attempt, |old(attempts)|, |old(batches)|;
        if finishedAt < a.startedAt || NumberTaken(old(State()), key, number) then
          result == Raised(IntegrityError)
        else if f.batch.None? then
          && attempts == old(attempts) + [AttemptRow(key, number, a.startedAt, finishedAt, Succeeded,
                                            None, None, Some(NO_PAYLOAD_HASH), None)]
          && batches == old(batches)
          && requests == old(requests)[key := RequestRow(RequestPartial, Some(finishedAt))]
          && result == Done(RawResult(key, n, None, RequestPartial, Succeeded, 0, None))
        else
          var b := f.batch.value;
          && attempts == old(attempts) + [AttemptRow(key, number, a.startedAt, finishedAt, Succeeded,
                                            None, None, Some(b.payloadHash), Some(b.records))]
          && batches == old(batches) + [BatchRow(key, n, |b.records|, b.payloadHash, b.partial)]
          && requests == old(requests)[key := RequestRow(RequestSucceeded, Some(finishedAt))]
          && result == Done(RawResult(key, n, Some(m), RequestSucceeded, Succeeded, |b.records|, None))
    {
      var key, a := f.request, f.attempt;
      var sidecar := if f.batch.Some? then Some(f.batch.value.records) else None;
      var payloadHash: string := if f.batch.Some? then f.batch.value.payloadHash else NO_PAYLOAD_HASH;
      var id := AddAttempt(AttemptRow(key, number, a.startedAt, finishedAt, Succeeded, None, None,
                                      Some(payloadHash), sidecar));
      if id.None? {
        return Raised(IntegrityError);
      }
      var status, count := RequestSucceeded, 0;
      var batchId: Option<nat> := None;
      if f.batch.Some? {
        var b := f.batch.value;
        var stored := AddBatch(BatchRow(key, id.value, |b.records|, b.payloadHash, b.partial));
        batchId, count := Some(stored), |b.records|;
      } else {
        status := RequestPartial;
      }
      MarkStatus(key, status, finishedAt);
      result := Done(RawResult(key, id.value, batchId, status, Succeeded, count, None));
    }

    /** `write_etf_instruments_raw` and `write_etf_profiles_raw`. */
    method WriteRecordsRaw(f: Fetched<SidecarEntry>, now: int) returns (result: Result<RawResult, WriteError>)
      modifies this
      ensures var d := RecordsDraft(f, now);
              if Rejected(old(State()), d) then State() == old(State()) && result == Raised(IntegrityError)
              else State() == Commit(old(State()), d) && result == Done(CommitResult(old(State()), d, false))
    {
      var finished := FinishTime(f.attempt, now);
      var saved := State();
      var number := Open(f.request, f.attempt.number);
      ghost var created := requests;
      assert NumberTaken(State(), f.request, number) == NumberTaken(saved, f.request, number);
      if f.attempt.status == Failed {
        var id := StoreFailure(f.request, f.attempt, number, finished);
        result := if id.None? then Raised(IntegrityError)
                  else Done(RawResult(f.request, id.value, None, RequestFailed, Failed, 0, None));
      } else {
        result := StoreSucceeded(f, number, finished);
      }
      if result.Raised? {
        Rollback(saved);
      } else {
        Overwrite(saved.requests, f.request, created[f.request], requests[f.request]);
      }
    }

    /** The `etf_daily_bars_raw` asset with its transient fallback. */
    method RunRawAsset(provider: RuntimeProvider, baostockEnabled: bool, primary: Fetch, fallback: Fetch)
      returns (result: Result<RawResult, WriteError>)
      modifies this
      ensures Written(State(), result) == RawRun(old(State()), provider, baostockEnabled, primary, fallback)
    {
      result := WriteDailyBarsRaw(primary);
      if provider != AKSHARE || !baostockEnabled || result.Raised? {
        return;
      }
      var r := result.value;
      if r.requestStatus != RequestFailed || r.errorCode.None? || !Transient(r.errorCode.value) {
        return;
      }
      result := WriteDailyBarsRaw(fallback);
    }

    /** The `etf_daily_bars` asset: which stored attempt it reads, if any. */
    method SelectForUpsert(provider: RuntimeProvider, baostockEnabled: bool, requestKey: string)
      returns (reading: Reading)
      ensures reading == Consume(State(), provider, baostockEnabled, requestKey)
    {
      var key := DailyKey(provider, requestKey);
      var selected := key;
      var stored := key in requests;
      if provider == AKSHARE && baostockEnabled && stored && requests[key].status == RequestFailed {
        var latest := HighestNumbered(ListByRequest(State(), key, ATTEMPT_LIMIT));
        if && latest.Some?
           && latest.value.status == Failed
           && latest.value.errorCode.Some?
           && Transient(latest.value.errorCode.value)
        {
          var spare := DailyKey(BAOSTOCK, requestKey);
          if spare in requests && requests[spare].status == RequestSucceeded {
            selected := spare;
          }
        }
      }
      if (!stored || requests[key].status == RequestFailed) && selected == key {
        return Skipped;
      }
      reading := UpsertRead(State(), selected);
    }
  }

  /** The daily-bars writer, which stores a running attempt and completes it later, and a
      one-step writer given the same entries leave equal tables behind. When a symbol does
      not resolve there are no such entries, and the daily-bars writer leaves its tables alone. */
  method WriteBothWays(daily: Store, records: Store, f: Fetched<FetchedBar>, now: int)
    returns (dailyResult: Result<RawResult, WriteError>, recordsResult: Option<Result<RawResult, WriteError>>)
    requires daily != records && daily.State() == records.State()
    modifies daily, records
    ensures daily.State() == records.State()
    ensures recordsResult.None? <==> AsRecords(f, now, |old(daily.batches)|).None?
    ensures recordsResult.None? ==> dailyResult.Raised? && daily.State() == old(daily.State())
    ensures recordsResult.Some? ==>
      && (dailyResult.Raised? <==> recordsResult.value.Raised?)
      && (dailyResult.Done? ==> dailyResult.value.(errorCode := None) == recordsResult.value.value)
  {
    var entries := AsRecords(f, now, |daily.batches|);
    dailyResult := daily.WriteDailyBarsRaw(Fetches(f, now));
    recordsResult := None;
    if entries.Some? {
      var r := records.WriteRecordsRaw(entries.value, now);
      recordsResult := Some(r);
    }
  }
}
