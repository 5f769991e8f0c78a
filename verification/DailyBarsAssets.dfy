/**
 The raw asset and its consumer: `write_etf_daily_bars_raw` with its transient
 fallback, and the provider selection that `etf_daily_bars` later makes from the
 tables alone.
 */
module DailyBarsAssets {
  import opened Wrappers
  import opened Evidence
  import opened Sidecar
  import opened Ledger

  const AKSHARE := "akshare"
  const BAOSTOCK := "baostock"
  const DATASET := "etf_daily_bars"

  /** A primary provider's key: `build_provider` never returns the baostock adapter. */
  type RuntimeProvider = s: string | s != BAOSTOCK witness AKSHARE

  function DailyKey(provider: string, requestKey: string): LogicalKey {
    LogicalKey(provider, DATASET, requestKey)
  }

  predicate Transient(code: string) {
    code == "ProviderTimeoutError" || code == "ProviderUnavailableError"
  }

  // ---------- the writer ----------

  /** A call of `provider.fetch_daily_bars`, and the clock reading that follows it. */
  datatype Fetch = FetchRaises | Fetches(bars: Fetched<FetchedBar>, now: int)

  datatype Written = Written(tables: Tables, result: Result<RawResult, WriteError>)

  /** `write_etf_daily_bars_raw`, past its argument checks. */
  function WriteDaily(t: Tables, fetch: Fetch): Written {
    match fetch
    case FetchRaises => Written(t, Raised(FetchError))
    case Fetches(f, now) =>
      var a := f.attempt;
      if InsertFails(t, f.request, a.number, a.startedAt, FinishTime(a, now)) then
        Written(t, Raised(IntegrityError))
      else match DailyDraft(f, now, |t.batches|)
        case None => Written(t, Raised(UnresolvedSymbol))
        case Some(d) => Written(Commit(t, d), Done(CommitResult(t, d, true)))
  }

  /** `write_etf_daily_bars_raw_with_fallback`: the failed primary stays committed. */
  function WriteWithFallback(t: Tables, primary: Fetch, fallback: Option<Fetch>, enabled: bool): Written {
    var first := WriteDaily(t, primary);
    if || first.result.Raised?
       || !enabled
       || fallback.None?
       || first.result.value.requestStatus != RequestFailed
       || first.result.value.errorCode.None?
       || !Transient(first.result.value.errorCode.value)
    then first
    else WriteDaily(first.tables, fallback.value)
  }

  /** The `etf_daily_bars_raw` asset: only akshare has a baostock fallback. */
  function RawRun(t: Tables, provider: RuntimeProvider, baostockEnabled: bool, primary: Fetch, fallback: Fetch): Written {
    if provider == AKSHARE && baostockEnabled
    then WriteWithFallback(t, primary, Some(fallback), true)
    else WriteDaily(t, primary)
  }

  // ---------- the consumer ----------

  /** What `etf_daily_bars` ends up reading. */
  datatype Reading = Skipped | LookupFailed | Read(attempt: AttemptRow)

  predicate Fresher(a: AttemptRow, b: AttemptRow) {
    a.finishedAt > b.finishedAt || (a.finishedAt == b.finishedAt && a.attemptNo > b.attemptNo)
  }

  /** `max` over the succeeded attempts by (finished_at, attempt_no). */
  function LatestSucceeded(rows: seq<AttemptRow>): (r: Option<AttemptRow>)
    ensures r.Some? ==> r.value in rows && r.value.status == Succeeded
    ensures r.None? <==> forall a :: a in rows ==> a.status != Succeeded
    ensures r.Some? ==> forall a :: a in rows && a.status == Succeeded ==> !Fresher(a, r.value)
  {
    if rows == [] then None
    else
      var last := rows[|rows| - 1];
      var init := rows[..|rows| - 1];
      assert rows == init + [last];
      var best := LatestSucceeded(init);
      if last.status == Succeeded && (best.None? || Fresher(last, best.value)) then Some(last) else best
  }

  /** `max(..., key=attempt_no, default=None)`. */
  function HighestNumbered(rows: seq<AttemptRow>): (r: Option<AttemptRow>)
    ensures r.None? <==> rows == []
    ensures r.Some? ==> r.value in rows && forall a :: a in rows ==> a.attemptNo <= r.value.attemptNo
  {
    if rows == [] then None
    else
      var last := rows[|rows| - 1];
      var init := rows[..|rows| - 1];
      assert rows == init + [last];
      var best := HighestNumbered(init);
      if best.None? || last.attemptNo > best.value.attemptNo then Some(last) else best
  }

  function FreshestOf(rows: seq<AttemptRow>): Reading {
    match LatestSucceeded(rows)
    case None => LookupFailed
    case Some(a) => Read(a)
  }

  /** The attempt `upsert_etf_daily_bars` (and `upsert_etf_profiles`) reads for one request. */
  function UpsertRead(t: Tables, key: LogicalKey): Reading {
    if key !in t.requests then LookupFailed else FreshestOf(ListByRequest(t, key, ATTEMPT_LIMIT))
  }

  /** The latest visible primary attempt failed with a transient code. */
  predicate PrimaryFailedTransiently(t: Tables, key: LogicalKey) {
    var latest := HighestNumbered(ListByRequest(t, key, ATTEMPT_LIMIT));
    && latest.Some?
    && latest.value.status == Failed
    && latest.value.errorCode.Some?
    && Transient(latest.value.errorCode.value)
  }

  predicate HasStatus(t: Tables, key: LogicalKey, status: RequestStatus) {
    key in t.requests && t.requests[key].status == status
  }

  /** Provider selection and read of the `etf_daily_bars` asset. */
  function Consume(t: Tables, provider: RuntimeProvider, baostockEnabled: bool, requestKey: string): Reading {
    var key, spare := DailyKey(provider, requestKey), DailyKey(BAOSTOCK, requestKey);
    if key in t.requests && t.requests[key].status != RequestFailed then UpsertRead(t, key)
    else if && provider == AKSHARE && baostockEnabled
            && HasStatus(t, key, RequestFailed)
            && PrimaryFailedTransiently(t, key)
            && HasStatus(t, spare, RequestSucceeded)
    then UpsertRead(t, spare)
    else Skipped
  }

  // ---------- the last run is what the consumer reads ----------

  ghost predicate Visible(t: Tables, key: LogicalKey) {
    |RowsFor(t.attempts, key)| <= ATTEMPT_LIMIT
  }

  ghost predicate NoneLater(rows: seq<AttemptRow>, time: int) {
    forall b :: b in rows && b.status == Succeeded ==> b.finishedAt <= time
  }

  /** No succeeded attempt of `a`'s request finished after `a`. */
  ghost predicate NoneFinishedLater(t: Tables, a: AttemptRow) {
    NoneLater(RowsFor(t.attempts, a.request), a.finishedAt)
  }

  /** Among contiguous rows, the freshest success is the last one exactly when no other
      success finished later; `attempt_no` only breaks ties. */
  lemma FreshestIsLast(rows: seq<AttemptRow>)
    requires Contiguous(rows) && rows != [] && rows[|rows| - 1].status == Succeeded
    ensures LatestSucceeded(rows) == Some(rows[|rows| - 1]) <==> NoneLater(rows, rows[|rows| - 1].finishedAt)
  {
    var last := rows[|rows| - 1];
    assert last in rows;
    var best := LatestSucceeded(rows).value;
    if NoneLater(rows, last.finishedAt) {
      var i :| 0 <= i < |rows| && rows[i] == best;
      assert !Fresher(last, best);
      assert rows[i].attemptNo == rows[|rows| - 1].attemptNo;
    }
  }

  lemma BeyondTheCut(rows: seq<AttemptRow>, limit: nat)
    requires Contiguous(rows) && |rows| > limit
    ensures rows[|rows| - 1] !in rows[..limit]
  {
  }

  lemma UpsertFindsNone(rows: seq<AttemptRow>)
    requires rows != [] && rows[|rows| - 1].status == Succeeded
    ensures var seen := if |rows| <= ATTEMPT_LIMIT then rows else rows[..ATTEMPT_LIMIT];
            LatestSucceeded(seen).None? <==>
              |rows| > ATTEMPT_LIMIT && forall i :: 0 <= i < ATTEMPT_LIMIT ==> rows[i].status != Succeeded
  {
    if |rows| <= ATTEMPT_LIMIT {
      assert rows[|rows| - 1] in rows;
    } else {
      var seen := rows[..ATTEMPT_LIMIT];
      if LatestSucceeded(seen).None? {
        forall i | 0 <= i < ATTEMPT_LIMIT ensures rows[i].status != Succeeded {
          assert seen[i] in seen;
        }
      } else {
        var i :| 0 <= i < |seen| && seen[i] == LatestSucceeded(seen).value;
        assert rows[i].status == Succeeded;
      }
    }
  }

  /** How a read relates to the rows of a request whose last attempt succeeded. It finds
      nothing exactly when more than 1000 attempts are stored and the first 1000 did not
      succeed; with at most 1000 it reads some success, and exactly when no earlier one
      finished later it reads the last. */
  ghost predicate ReadsFrom(rows: seq<AttemptRow>, reading: Reading)
    requires rows != []
  {
    var last := rows[|rows| - 1];
    && !reading.Skipped?
    && (reading.LookupFailed? <==>
          |rows| > ATTEMPT_LIMIT && forall i :: 0 <= i < ATTEMPT_LIMIT ==> rows[i].status != Succeeded)
    && (reading.Read? ==> reading.attempt in rows && reading.attempt.status == Succeeded)
    && (reading == Read(last) <==> |rows| <= ATTEMPT_LIMIT && NoneLater(rows, last.finishedAt))
  }

  function ReadRows(rows: seq<AttemptRow>): Reading {
    FreshestOf(if |rows| <= ATTEMPT_LIMIT then rows else rows[..ATTEMPT_LIMIT])
  }

  lemma ReadRowsLast(rows: seq<AttemptRow>)
    requires Contiguous(rows) && rows != [] && rows[|rows| - 1].status == Succeeded
    ensures ReadRows(rows) == Read(rows[|rows| - 1])
            <==> |rows| <= ATTEMPT_LIMIT && NoneLater(rows, rows[|rows| - 1].finishedAt)
  {
    if |rows| <= ATTEMPT_LIMIT {
      FreshestIsLast(rows);
    } else {
      BeyondTheCut(rows, ATTEMPT_LIMIT);
    }
  }

  lemma ReadRowsReadsFrom(rows: seq<AttemptRow>)
    requires Contiguous(rows) && rows != [] && rows[|rows| - 1].status == Succeeded
    ensures ReadsFrom(rows, ReadRows(rows))
  {
    UpsertFindsNone(rows);
    ReadRowsLast(rows);
    assert |rows| > ATTEMPT_LIMIT ==> forall a :: a in rows[..ATTEMPT_LIMIT] ==> a in rows;
  }

  lemma RowsAreContiguous(t: Tables, key: LogicalKey)
    requires LedgerInv(t)
    ensures Contiguous(RowsFor(t.attempts, key))
  {
    assert NumbersContiguous(t);
  }

  lemma UpsertReadsRows(t: Tables, key: LogicalKey)
    requires LedgerInv(t) && key in t.requests
    ensures UpsertRead(t, key) == ReadRows(RowsFor(t.attempts, key))
  {
    RowsAreContiguous(t, key);
    ListContiguous(t, key, ATTEMPT_LIMIT);
  }

  lemma ReadRowsOfLedger(t: Tables, key: LogicalKey)
    requires LedgerInv(t)
    requires var rows := RowsFor(t.attempts, key); rows != [] && rows[|rows| - 1].status == Succeeded
    ensures var rows := RowsFor(t.attempts, key);
            && ReadsFrom(rows, ReadRows(rows))
            && rows[|rows| - 1].request == key
  {
    var rows := RowsFor(t.attempts, key);
    RowsAreContiguous(t, key);
    ReadRowsReadsFrom(rows);
    assert rows[|rows| - 1] in rows;
    RowsForMembers(t.attempts, key, rows[|rows| - 1]);
  }

  /** The upsert reads the highest-numbered attempt exactly when the 1000-row read can see
      it and no earlier success carries a later finish time. */
  lemma UpsertReadsLast(t: Tables, key: LogicalKey)
    requires LedgerInv(t) && key in t.requests
    requires var rows := RowsFor(t.attempts, key); rows[|rows| - 1].status == Succeeded
    ensures var rows := RowsFor(t.attempts, key);
            var last := rows[|rows| - 1];
            UpsertRead(t, key) == Read(last) <==> Visible(t, key) && NoneFinishedLater(t, last)
  {
    UpsertReadsRows(t, key);
    ReadRowsOfLedger(t, key);
  }

  lemma HighestOfContiguous(rows: seq<AttemptRow>)
    requires Contiguous(rows) && rows != []
    ensures HighestNumbered(rows) == Some(rows[|rows| - 1])
  {
    assert rows[|rows| - 1] in rows;
    var best := HighestNumbered(rows).value;
    var i :| 0 <= i < |rows| && rows[i] == best;
    assert rows[i].attemptNo == rows[|rows| - 1].attemptNo;
  }

  lemma HighestIsLast(t: Tables, key: LogicalKey)
    requires LedgerInv(t) && RowsFor(t.attempts, key) != [] && Visible(t, key)
    ensures var rows := RowsFor(t.attempts, key);
            HighestNumbered(ListByRequest(t, key, ATTEMPT_LIMIT)) == Some(rows[|rows| - 1])
  {
    assert Contiguous(RowsFor(t.attempts, key));
    ListContiguous(t, key, ATTEMPT_LIMIT);
    HighestOfContiguous(RowsFor(t.attempts, key));
  }

  predicate FetchesFor(fetch: Fetch, key: LogicalKey) {
    fetch.Fetches? ==> fetch.bars.request == key
  }

  /** A committed draft is the last attempt of its request and decides its status. */
  lemma CommitSettlesResult(t: Tables, d: Draft)
    ensures var t', r := Commit(t, d), CommitResult(t, d, true);
            r.request == d.request && r.attempt < |t'.attempts| && Settles(t', r)
  {
    CommitRows(t, d, d.request);
  }

  lemma CommitLeavesOthers(t: Tables, d: Draft, other: LogicalKey)
    requires other != d.request
    ensures Undisturbed(t, Commit(t, d), other)
  {
    CommitRows(t, d, other);
  }

  /** What a committed draft leaves behind for its own request, and for any other. */
  lemma CommitEffect(t: Tables, d: Draft, other: LogicalKey)
    requires LedgerInv(t) && !Rejected(t, d)
    ensures var t', r := Commit(t, d), CommitResult(t, d, true);
            && LedgerInv(t')
            && r.request == d.request
            && r.attempt < |t'.attempts|
            && Settles(t', r)
    ensures other != d.request ==> Undisturbed(t, Commit(t, d), other)
  {
    CommitKeepsInv(t, d);
    CommitSettlesResult(t, d);
    if other != d.request {
      CommitLeavesOthers(t, d, other);
    }
  }

  /** The result `r` describes the last attempt of its request and the request's status. */
  ghost predicate Settles(t: Tables, r: RawResult)
    requires r.attempt < |t.attempts|
  {
    var rows := RowsFor(t.attempts, r.request);
    && rows != []
    && rows[|rows| - 1] == t.attempts[r.attempt]
    && t.attempts[r.attempt].request == r.request
    && StatusAfter(t.attempts[r.attempt]) == r.requestStatus
    && HasStatus(t, r.request, r.requestStatus)
    && t.attempts[r.attempt].errorCode == r.errorCode
    && (r.requestStatus == RequestFailed ==> r.errorCode.Some?)
  }

  lemma DailyDraftFacts(f: Fetched<FetchedBar>, now: int, nextBatch: nat)
    ensures var d := DailyDraft(f, now, nextBatch);
            d.Some? ==>
              && d.value.request == f.request && d.value.number == f.attempt.number
              && d.value.startedAt == f.attempt.startedAt && d.value.finishedAt == FinishTime(f.attempt, now)
  {
  }

  /** A write that does not raise is the commit of its draft. */
  lemma WriteDailyCommits(t: Tables, fetch: Fetch)
    requires WriteDaily(t, fetch).result.Done?
    ensures fetch.Fetches?
    ensures var draft := DailyDraft(fetch.bars, fetch.now, |t.batches|);
            && draft.Some?
            && draft.value.request == fetch.bars.request
            && !Rejected(t, draft.value)
            && WriteDaily(t, fetch) == Written(Commit(t, draft.value), Done(CommitResult(t, draft.value, true)))
  {
    DailyDraftFacts(fetch.bars, fetch.now, |t.batches|);
  }

  lemma WriteDailySettles(t: Tables, fetch: Fetch)
    requires LedgerInv(t) && WriteDaily(t, fetch).result.Done?
    ensures var w := WriteDaily(t, fetch);
            && LedgerInv(w.tables)
            && w.result.value.request == fetch.bars.request
            && w.result.value.attempt < |w.tables.attempts|
            && Settles(w.tables, w.result.value)
  {
    WriteDailyCommits(t, fetch);
    CommitEffect(t, DailyDraft(fetch.bars, fetch.now, |t.batches|).value, fetch.bars.request);
  }

  lemma WriteDailyUndisturbed(t: Tables, fetch: Fetch, other: LogicalKey)
    requires LedgerInv(t) && WriteDaily(t, fetch).result.Done? && other != fetch.bars.request
    ensures Undisturbed(t, WriteDaily(t, fetch).tables, other)
  {
    WriteDailyCommits(t, fetch);
    CommitEffect(t, DailyDraft(fetch.bars, fetch.now, |t.batches|).value, other);
  }

  lemma WriteDailyEffect(t: Tables, fetch: Fetch, other: LogicalKey)
    requires LedgerInv(t) && WriteDaily(t, fetch).result.Done?
    ensures var w := WriteDaily(t, fetch);
            && LedgerInv(w.tables)
            && w.result.value.request == fetch.bars.request
            && w.result.value.attempt < |w.tables.attempts|
            && Settles(w.tables, w.result.value)
    ensures other != fetch.bars.request ==> Undisturbed(t, WriteDaily(t, fetch).tables, other)
  {
    WriteDailySettles(t, fetch);
    if other != fetch.bars.request {
      WriteDailyUndisturbed(t, fetch, other);
    }
  }

  /** Nothing the consumer can see of `key` differs between the two ledgers. */
  ghost predicate Undisturbed(t: Tables, t': Tables, key: LogicalKey) {
    && RowsFor(t'.attempts, key) == RowsFor(t.attempts, key)
    && (key in t'.requests <==> key in t.requests)
    && (key in t.requests ==> t'.requests[key] == t.requests[key])
  }

  /** What the consumer owes to the run that just completed. */
  function Expected(t: Tables, provider: RuntimeProvider, r: RawResult): Reading
    requires r.attempt < |t.attempts|
  {
    match r.requestStatus
    case RequestSucceeded => Read(t.attempts[r.attempt])
    case RequestPartial => if r.request.providerKey == provider then Read(t.attempts[r.attempt]) else Skipped
    case _ => Skipped
  }

  /** After any completed raw run the consumer reads exactly that run's attempt when it
      succeeded (by the primary or by the fallback), and nothing when it failed. */
  lemma ConsumerReadsLastRun(t: Tables, provider: RuntimeProvider, enabled: bool, requestKey: string,
                             primary: Fetch, fallback: Fetch)
    requires LedgerInv(t)
    requires FetchesFor(primary, DailyKey(provider, requestKey))
    requires FetchesFor(fallback, DailyKey(BAOSTOCK, requestKey))
    requires RawRun(t, provider, enabled, primary, fallback).result.Done?
    requires var w := RawRun(t, provider, enabled, primary, fallback);
             && Visible(w.tables, DailyKey(provider, requestKey))
             && Visible(w.tables, DailyKey(BAOSTOCK, requestKey))
             && (w.result.value.attempt < |w.tables.attempts| ==>
                   NoneFinishedLater(w.tables, w.tables.attempts[w.result.value.attempt]))
    ensures var w := RawRun(t, provider, enabled, primary, fallback);
            && w.result.value.attempt < |w.tables.attempts|
            && Consume(w.tables, provider, enabled, requestKey) == Expected(w.tables, provider, w.result.value)
  {
    var first := WriteDaily(t, primary);
    var w := RawRun(t, provider, enabled, primary, fallback);
    RunShape(t, provider, enabled, primary, fallback);
    WriteDailyEffect(t, primary, DailyKey(BAOSTOCK, requestKey));
    if EndsWithPrimary(first, provider, enabled) {
      PrimaryReading(w.tables, provider, enabled, requestKey, w.result.value);
    } else {
      FallbackRun(first.tables, first.result.value, requestKey, fallback);
    }
  }

  predicate EndsWithPrimary(first: Written, provider: RuntimeProvider, enabled: bool)
    requires first.result.Done?
  {
    var r := first.result.value;
    !(provider == AKSHARE && enabled && r.requestStatus == RequestFailed && r.errorCode.Some? && Transient(r.errorCode.value))
  }

  /** A run is its primary write, or its fallback write on top of a transient failure. */
  lemma RunShape(t: Tables, provider: RuntimeProvider, enabled: bool, primary: Fetch, fallback: Fetch)
    ensures var first := WriteDaily(t, primary);
            RawRun(t, provider, enabled, primary, fallback)
            == if first.result.Raised? || EndsWithPrimary(first, provider, enabled) then first
               else WriteDaily(first.tables, fallback)
  {
  }

  lemma SettledStatus(t: Tables, r: RawResult)
    requires AttemptsFinal(t) && r.attempt < |t.attempts| && Settles(t, r) && r.requestStatus != RequestFailed
    ensures t.attempts[r.attempt].status == Succeeded
  {
    assert FinalRow(t.attempts[r.attempt]);
  }

  /** The read finds the attempt the result `r` names. */
  lemma ReadsTheResult(t: Tables, r: RawResult)
    requires LedgerInv(t) && r.attempt < |t.attempts| && Settles(t, r)
    requires Visible(t, r.request) && NoneFinishedLater(t, t.attempts[r.attempt])
    requires r.requestStatus != RequestFailed
    ensures UpsertRead(t, r.request) == Read(t.attempts[r.attempt])
  {
    SettledStatus(t, r);
    assert Contiguous(RowsFor(t.attempts, r.request));
    UpsertReadsRows(t, r.request);
    FreshestIsLast(RowsFor(t.attempts, r.request));
  }

  /** A failed result is what the consumer sees as the latest primary attempt. */
  lemma FailureIsSeen(t: Tables, r: RawResult)
    requires LedgerInv(t) && r.attempt < |t.attempts| && Settles(t, r) && Visible(t, r.request)
    requires r.requestStatus == RequestFailed
    ensures PrimaryFailedTransiently(t, r.request) <==> Transient(r.errorCode.value)
  {
    HighestIsLast(t, r.request);
  }

  /** The run ended with the primary's own attempt. */
  lemma PrimaryReading(t: Tables, provider: RuntimeProvider, enabled: bool, requestKey: string, r: RawResult)
    requires LedgerInv(t) && Visible(t, DailyKey(provider, requestKey))
    requires r.request == DailyKey(provider, requestKey) && r.attempt < |t.attempts| && Settles(t, r)
    requires NoneFinishedLater(t, t.attempts[r.attempt])
    requires EndsWithPrimary(Written(t, Done(r)), provider, enabled)
    ensures Consume(t, provider, enabled, requestKey) == Expected(t, provider, r)
  {
    if r.requestStatus == RequestFailed {
      FailureIsSeen(t, r);
    } else {
      ReadsTheResult(t, r);
    }
  }

  /** The akshare primary failed transiently and the baostock fallback then completed. */
  lemma FallbackRun(t: Tables, first: RawResult, requestKey: string, fallback: Fetch)
    requires LedgerInv(t)
    requires first.request == DailyKey(AKSHARE, requestKey) && first.attempt < |t.attempts| && Settles(t, first)
    requires first.requestStatus == RequestFailed && Transient(first.errorCode.value)
    requires FetchesFor(fallback, DailyKey(BAOSTOCK, requestKey)) && WriteDaily(t, fallback).result.Done?
    requires var w := WriteDaily(t, fallback);
             && Visible(w.tables, first.request)
             && Visible(w.tables, DailyKey(BAOSTOCK, requestKey))
             && (w.result.value.attempt < |w.tables.attempts| ==>
                   NoneFinishedLater(w.tables, w.tables.attempts[w.result.value.attempt]))
    ensures var w := WriteDaily(t, fallback);
            && w.result.value.attempt < |w.tables.attempts|
            && Consume(w.tables, AKSHARE, true, requestKey) == Expected(w.tables, AKSHARE, w.result.value)
  {
    var w := WriteDaily(t, fallback);
    WriteDailyEffect(t, fallback, first.request);
    UndisturbedReads(t, w.tables, first.request);
    FailureIsSeen(t, first);
    FallbackReading(w.tables, requestKey, w.result.value);
  }

  lemma FallbackReading(t: Tables, requestKey: string, r: RawResult)
    requires LedgerInv(t) && HasStatus(t, DailyKey(AKSHARE, requestKey), RequestFailed)
    requires PrimaryFailedTransiently(t, DailyKey(AKSHARE, requestKey))
    requires r.request == DailyKey(BAOSTOCK, requestKey) && r.attempt < |t.attempts| && Settles(t, r)
    requires Visible(t, r.request) && NoneFinishedLater(t, t.attempts[r.attempt])
    ensures Consume(t, AKSHARE, true, requestKey) == Expected(t, AKSHARE, r)
  {
    assert HasStatus(t, DailyKey(BAOSTOCK, requestKey), r.requestStatus);
    if r.requestStatus == RequestSucceeded {
      ReadsTheResult(t, r);
    }
  }

  lemma UndisturbedReads(t: Tables, t': Tables, key: LogicalKey)
    requires Undisturbed(t, t', key)
    ensures ListByRequest(t', key, ATTEMPT_LIMIT) == ListByRequest(t, key, ATTEMPT_LIMIT)
    ensures UpsertRead(t', key) == UpsertRead(t, key)
    ensures PrimaryFailedTransiently(t', key) == PrimaryFailedTransiently(t, key)
  {
  }

  // ---------- the writer, the fallback and the selection, said of their inputs ----------

  ghost predicate SomeUnresolved(bars: seq<FetchedBar>) {
    exists i :: 0 <= i < |bars| && bars[i].symbol.None?
  }

  /** What a write answers: the error it raised, or what it stored. */
  ghost predicate Answered(result: Result<RawResult, WriteError>, t: Tables, f: Fetched<FetchedBar>, end: int) {
    var a := f.attempt;
    if Refuses(t, f.request, a.startedAt, end) then result == Raised(IntegrityError)
    else if a.status != Failed && f.batch.Some? && SomeUnresolved(f.batch.value.records) then
      result == Raised(UnresolvedSymbol)
    else
      && result.Done? && result.value.request == f.request && result.value.attempt == |t.attempts|
      && var r := result.value;
         if a.status == Failed then
           && r.requestStatus == RequestFailed && r.attemptStatus == Failed && r.batch.None? && r.recordCount == 0
           && r.errorCode == if a.errorCode.None? || a.errorCode.value == "" then Some("unknown_error") else a.errorCode
         else
           && r.attemptStatus == Succeeded && r.errorCode.None?
           && (f.batch.None? ==> r.requestStatus == RequestPartial && r.batch.None? && r.recordCount == 0)
           && (f.batch.Some? ==> && r.requestStatus == RequestSucceeded && r.batch == Some(|t.batches|)
                                 && r.recordCount == |f.batch.value.records|)
  }

  lemma WriteIsAnswered(t: Tables, fetch: Fetch)
    requires NumbersContiguous(t)
    ensures fetch.FetchRaises? ==> WriteDaily(t, fetch).result == Raised(FetchError)
    ensures fetch.Fetches? ==> Answered(WriteDaily(t, fetch).result, t, fetch.bars, EndTime(fetch.bars.attempt, fetch.now))
  {
    if fetch.Fetches? {
      var f, a := fetch.bars, fetch.bars.attempt;
      RefusedIsRejected(t, f.request, a.number, a.startedAt, FinishTime(a, fetch.now));
      DailyDraftFacts(f, fetch.now, |t.batches|);
    }
  }

  /** The fetch failed with one of the two codes a second provider may stand in for. */
  ghost predicate TimedOut(fetch: Fetch) {
    && fetch.Fetches? && fetch.bars.attempt.status == Failed && fetch.bars.attempt.errorCode.Some?
    && (fetch.bars.attempt.errorCode.value == "ProviderTimeoutError"
        || fetch.bars.attempt.errorCode.value == "ProviderUnavailableError")
  }

  /** The fallback runs on top of the committed primary exactly for akshare, with baostock
      enabled, after a stored failure with one of those codes. */
  lemma FallbackIsForTimeouts(t: Tables, provider: RuntimeProvider, enabled: bool, primary: Fetch, fallback: Fetch)
    requires NumbersContiguous(t)
    ensures var first := WriteDaily(t, primary);
            RawRun(t, provider, enabled, primary, fallback)
            == if provider == "akshare" && enabled && first.result.Done? && TimedOut(primary)
               then WriteDaily(first.tables, fallback) else first
  {
    WriteIsAnswered(t, primary);
    RunShape(t, provider, enabled, primary, fallback);
  }

  /** The last of the 1000 attempts that are read of a request failed with one of the two codes. */
  ghost predicate LastReadTimedOut(rows: seq<AttemptRow>) {
    && rows != []
    && var last := rows[if |rows| <= 1000 then |rows| - 1 else 999];
       && last.status == Failed && last.errorCode.Some?
       && (last.errorCode.value == "ProviderTimeoutError" || last.errorCode.value == "ProviderUnavailableError")
  }

  lemma HighestOfRead(rows: seq<AttemptRow>)
    requires Contiguous(rows) && rows != []
    ensures HighestNumbered(if |rows| <= 1000 then rows else rows[..1000])
            == Some(rows[if |rows| <= 1000 then |rows| - 1 else 999])
  {
    if |rows| <= 1000 {
      HighestOfContiguous(rows);
    } else {
      HighestOfContiguous(rows[..1000]);
    }
  }

  lemma ReadList(t: Tables, key: LogicalKey)
    requires LedgerInv(t)
    ensures var rows := RowsFor(t.attempts, key);
            Contiguous(rows) && ListByRequest(t, key, ATTEMPT_LIMIT) == if |rows| <= 1000 then rows else rows[..1000]
  {
    RowsAreContiguous(t, key);
    ListContiguous(t, key, ATTEMPT_LIMIT);
  }

  lemma LastReadOfRows(t: Tables, key: LogicalKey)
    requires LedgerInv(t)
    ensures PrimaryFailedTransiently(t, key) <==> LastReadTimedOut(RowsFor(t.attempts, key))
  {
    var rows := RowsFor(t.attempts, key);
    ReadList(t, key);
    if rows == [] {
      assert HighestNumbered([]).None?;
    } else {
      HighestOfRead(rows);
    }
  }

  /** What the consumer turns to: an absent request is skipped, one that did not fail is read,
      and for a failed one baostock's is read exactly when it may stand in and succeeded. */
  lemma ConsumerChooses(t: Tables, provider: RuntimeProvider, enabled: bool, requestKey: string)
    requires LedgerInv(t)
    ensures var key := LogicalKey(provider, "etf_daily_bars", requestKey);
            var spare := LogicalKey("baostock", "etf_daily_bars", requestKey);
            Consume(t, provider, enabled, requestKey)
            == if key !in t.requests then Skipped
               else if t.requests[key].status != RequestFailed then UpsertRead(t, key)
               else if && provider == "akshare" && enabled && LastReadTimedOut(RowsFor(t.attempts, key))
                       && spare in t.requests && t.requests[spare].status == RequestSucceeded
               then UpsertRead(t, spare)
               else Skipped
  {
    LastReadOfRows(t, DailyKey(provider, requestKey));
  }

  // ---------- over whole histories ----------

  /** More writes on top of a ledger. */
  function Extend(t: Tables, events: seq<Event>): Tables {
    if events == [] then t
    else Step(Extend(t, events[..|events| - 1]), events[|events| - 1])
  }

  lemma UnrelatedWriteDoesNotMatter(t: Tables, e: Event, key: LogicalKey)
    requires EventKey(e) != key
    ensures Undisturbed(t, Step(t, e), key)
  {
    StorableMeansDrafted(t, e);
    var draft := DraftOf(t, e);
    if draft.Some? {
      CommitRows(t, draft.value, key);
    }
  }

  lemma {:induction false} UnrelatedWritesDoNotMatter(t: Tables, more: seq<Event>, key: LogicalKey)
    requires forall e :: e in more ==> EventKey(e) != key
    ensures Undisturbed(t, Extend(t, more), key)
  {
    if more == [] {
    } else {
      var init, last := more[..|more| - 1], more[|more| - 1];
      UnrelatedWritesDoNotMatter(t, init, key);
      UnrelatedWriteDoesNotMatter(Extend(t, init), last, key);
    }
  }

  /** After any history of writes, a completed raw run, and any further writes for other
      requests, the consumer still reads exactly what the raw run committed. */
  lemma ConsumerAfterAnyHistory(history: seq<Event>, more: seq<Event>, provider: RuntimeProvider, enabled: bool,
                                requestKey: string, primary: Fetch, fallback: Fetch)
    requires FetchesFor(primary, DailyKey(provider, requestKey))
    requires FetchesFor(fallback, DailyKey(BAOSTOCK, requestKey))
    requires RawRun(Run(history), provider, enabled, primary, fallback).result.Done?
    requires var w := RawRun(Run(history), provider, enabled, primary, fallback);
             && Visible(w.tables, DailyKey(provider, requestKey))
             && Visible(w.tables, DailyKey(BAOSTOCK, requestKey))
             && (w.result.value.attempt < |w.tables.attempts| ==>
                   NoneFinishedLater(w.tables, w.tables.attempts[w.result.value.attempt]))
    requires forall e :: e in more ==>
      EventKey(e) != DailyKey(provider, requestKey) && EventKey(e) != DailyKey(BAOSTOCK, requestKey)
    ensures var w := RawRun(Run(history), provider, enabled, primary, fallback);
            && w.result.value.attempt < |w.tables.attempts|
            && Consume(Extend(w.tables, more), provider, enabled, requestKey)
               == Expected(w.tables, provider, w.result.value)
  {
    ReachableLedger(history);
    ConsumerReadsLastRun(Run(history), provider, enabled, requestKey, primary, fallback);
    var t := RawRun(Run(history), provider, enabled, primary, fallback).tables;
    UnrelatedWritesDoNotMatter(t, more, DailyKey(provider, requestKey));
    UnrelatedWritesDoNotMatter(t, more, DailyKey(BAOSTOCK, requestKey));
    SameReading(t, Extend(t, more), provider, enabled, requestKey);
  }

  lemma SameReading(t: Tables, t': Tables, provider: RuntimeProvider, enabled: bool, requestKey: string)
    requires Undisturbed(t, t', DailyKey(provider, requestKey))
    requires Undisturbed(t, t', DailyKey(BAOSTOCK, requestKey))
    ensures Consume(t', provider, enabled, requestKey) == Consume(t, provider, enabled, requestKey)
  {
    UndisturbedReads(t, t', DailyKey(provider, requestKey));
    UndisturbedReads(t, t', DailyKey(BAOSTOCK, requestKey));
  }

  /** A write of the asset is one ledger event, or nothing when the fetch itself raised. */
  lemma WriteDailyIsAStep(t: Tables, fetch: Fetch)
    ensures WriteDaily(t, fetch).tables
            == if fetch.FetchRaises? then t else Step(t, DailyWrite(fetch.bars, fetch.now))
  {
    if fetch.Fetches? {
      DailyDraftFacts(fetch.bars, fetch.now, |t.batches|);
    }
  }

  // ---------- where the tables mislead the consumer ----------

  /** What an upsert of a request marked succeeded reads. */
  lemma UpsertOfSucceeded(t: Tables, key: LogicalKey)
    requires LedgerInv(t) && HasStatus(t, key, RequestSucceeded)
    ensures RowsFor(t.attempts, key) != []
    ensures ReadsFrom(RowsFor(t.attempts, key), UpsertRead(t, key))
  {
    LastSucceeded(t, key);
    UpsertReadsRows(t, key);
    ReadRowsOfLedger(t, key);
  }

  /** A request marked succeeded was marked so by its last attempt. */
  lemma LastSucceeded(t: Tables, key: LogicalKey)
    requires LedgerInv(t) && HasStatus(t, key, RequestSucceeded)
    ensures var rows := RowsFor(t.attempts, key); rows != [] && rows[|rows| - 1].status == Succeeded
  {
    assert RequestSettled(t, key);
    var rows := RowsFor(t.attempts, key);
    var last := rows[|rows| - 1];
    assert last in rows;
    RowsForMembers(t.attempts, key, last);
    assert FinalRow(last);
  }

  /** When the fallback call itself raises, the run leaves only the failed primary attempt,
      and a later consumer turns to whatever an earlier run left for baostock: it skips
      exactly when that request is not marked succeeded, and otherwise does what an upsert of
      that older request does. */
  lemma AbortedFallback(t: Tables, requestKey: string, primary: Fetch, fallback: Fetch)
    requires LedgerInv(t) && FetchesFor(primary, DailyKey(AKSHARE, requestKey))
    requires var first := WriteDaily(t, primary);
             && first.result.Done? && !EndsWithPrimary(first, AKSHARE, true)
             && WriteDaily(first.tables, fallback).result.Raised?
             && Visible(first.tables, DailyKey(AKSHARE, requestKey))
    ensures var w := RawRun(t, AKSHARE, true, primary, fallback);
            var spare := DailyKey(BAOSTOCK, requestKey);
            && w.result.Raised?
            && Consume(w.tables, AKSHARE, true, requestKey)
               == if HasStatus(t, spare, RequestSucceeded) then UpsertRead(t, spare) else Skipped
  {
    var first := WriteDaily(t, primary);
    var spare := DailyKey(BAOSTOCK, requestKey);
    RunShape(t, AKSHARE, true, primary, fallback);
    RaisedLeavesTables(first.tables, fallback);
    WriteDailyEffect(t, primary, spare);
    FailureIsSeen(first.tables, first.result.value);
    UndisturbedReads(t, first.tables, spare);
  }

  lemma RaisedLeavesTables(t: Tables, fetch: Fetch)
    requires WriteDaily(t, fetch).result.Raised?
    ensures WriteDaily(t, fetch).tables == t
  {
  }

  /** After an aborted fallback the consumer skips exactly when the older baostock request is
      not marked succeeded, and otherwise reads from that request's attempts. */
  lemma AbortedFallbackReadsOlderRun(t: Tables, requestKey: string, primary: Fetch, fallback: Fetch)
    requires LedgerInv(t) && FetchesFor(primary, DailyKey(AKSHARE, requestKey))
    requires var first := WriteDaily(t, primary);
             && first.result.Done? && !EndsWithPrimary(first, AKSHARE, true)
             && WriteDaily(first.tables, fallback).result.Raised?
             && Visible(first.tables, DailyKey(AKSHARE, requestKey))
    ensures var rows := RowsFor(t.attempts, DailyKey(BAOSTOCK, requestKey));
            var reading := Consume(RawRun(t, AKSHARE, true, primary, fallback).tables, AKSHARE, true, requestKey);
            if HasStatus(t, DailyKey(BAOSTOCK, requestKey), RequestSucceeded)
            then rows != [] && ReadsFrom(rows, reading)
            else reading == Skipped
  {
    AbortedFallback(t, requestKey, primary, fallback);
    if HasStatus(t, DailyKey(BAOSTOCK, requestKey), RequestSucceeded) {
      UpsertOfSucceeded(t, DailyKey(BAOSTOCK, requestKey));
    }
  }

  // ---------- concrete runs ----------

  function SuccessDraft(key: LogicalKey, finishedAt: int): Draft {
    Draft(key, 1, 0, finishedAt, BatchBody("0", false, []))
  }

  function SuccessfulFetch<R>(key: LogicalKey, finishedAt: int): Fetched<R> {
    Fetched(key, FetchedAttempt(1, Succeeded, 0, Some(finishedAt), None, None), Some(FetchedBatch([], "0", false)))
  }

  function Success(key: LogicalKey, finishedAt: int): Event { DailyWrite(SuccessfulFetch(key, finishedAt), 0) }

  function InstrumentSuccess(key: LogicalKey, finishedAt: int): Event {
    InstrumentWrite(SuccessfulFetch(key, finishedAt), 0)
  }

  /** One more row of a request, as a successful write leaves it. */
  ghost predicate AddsSuccess(rows: seq<AttemptRow>, rows': seq<AttemptRow>, key: LogicalKey, finishedAt: int) {
    && |rows'| == |rows| + 1
    && rows'[..|rows|] == rows
    && rows'[|rows|].status == Succeeded
    && rows'[|rows|].finishedAt == finishedAt
    && rows'[|rows|].request == key
  }

  lemma SuccessStep(t: Tables, e: Event, key: LogicalKey, finishedAt: nat)
    requires LedgerInv(t) && Visible(t, key) && DraftOf(t, e) == Some(SuccessDraft(key, finishedAt))
    ensures AddsSuccess(RowsFor(t.attempts, key), RowsFor(Step(t, e).attempts, key), key, finishedAt)
    ensures HasStatus(Step(t, e), key, RequestSucceeded)
  {
    NextNumberFresh(t, key, 1);
    CommitRows(t, SuccessDraft(key, finishedAt), key);
  }

  /** The two rows that two successful writes of one request leave. */
  lemma TwoSuccesses(first: Event, second: Event, key: LogicalKey, time1: nat, time2: nat)
    requires forall t :: DraftOf(t, first) == Some(SuccessDraft(key, time1))
    requires forall t :: DraftOf(t, second) == Some(SuccessDraft(key, time2))
    ensures var t := Run([first, second]);
            var rows := RowsFor(t.attempts, key);
            && LedgerInv(t) && HasStatus(t, key, RequestSucceeded) && |rows| == 2
            && rows[0].status == Succeeded && rows[0].finishedAt == time1
            && rows[1].status == Succeeded && rows[1].finishedAt == time2 && rows[1].request == key
  {
    var one, two := Run([first]), Run([first, second]);
    OneSuccess(first, key, time1);
    RunOfTwo(first, second);
    ReachableLedger([first, second]);
    SuccessStep(one, second, key, time2);
    assert RowsFor(two.attempts, key)[0] == RowsFor(two.attempts, key)[..1][0] == RowsFor(one.attempts, key)[0];
  }

  lemma OneSuccess(e: Event, key: LogicalKey, time: nat)
    requires DraftOf(EMPTY_TABLES, e) == Some(SuccessDraft(key, time))
    ensures LedgerInv(Run([e]))
    ensures AddsSuccess([], RowsFor(Run([e]).attempts, key), key, time)
    ensures HasStatus(Run([e]), key, RequestSucceeded)
  {
    RunOfOne(e);
    ReachableLedger([e]);
    EmptyIsSound(key);
    SuccessStep(EMPTY_TABLES, e, key, time);
  }

  lemma EmptyIsSound(key: LogicalKey)
    ensures LedgerInv(EMPTY_TABLES) && RowsFor(EMPTY_TABLES.attempts, key) == []
  {
    ReachableLedger([]);
  }

  lemma RunOfOne(e: Event)
    ensures Run([e]) == Step(EMPTY_TABLES, e)
  {
    assert [e][..0] == [];
  }

  lemma RunOfTwo(first: Event, second: Event)
    ensures Run([first, second]) == Step(Run([first]), second)
  {
    assert [first, second][..1] == [first];
  }

  lemma SuccessDrafts(t: Tables, key: LogicalKey, finishedAt: int)
    ensures DraftOf(t, Success(key, finishedAt)) == Some(SuccessDraft(key, finishedAt))
    ensures DraftOf(t, InstrumentSuccess(key, finishedAt)) == Some(SuccessDraft(key, finishedAt))
  {
  }

  /** Two successful runs whose clocks went backwards: the newer attempt is not read,
      although it has the higher number. */
  lemma BackwardClockHidesNewerAttempt(key: LogicalKey)
    ensures var t := Run([Success(key, 20), Success(key, 10)]);
            var rows := RowsFor(t.attempts, key);
            |rows| == 2 && rows[1].status == Succeeded && UpsertRead(t, key) != Read(rows[1])
  {
    forall t, time ensures DraftOf(t, Success(key, time)) == Some(SuccessDraft(key, time)) {
      SuccessDrafts(t, key, time);
    }
    TwoSuccesses(Success(key, 20), Success(key, 10), key, 20, 10);
    var t := Run([Success(key, 20), Success(key, 10)]);
    assert RowsFor(t.attempts, key)[0] in RowsFor(t.attempts, key);
    UpsertReadsLast(t, key);
  }

  function Timeout(requestKey: string, finishedAt: int): Fetch {
    Fetches(Fetched(DailyKey(AKSHARE, requestKey),
                    FetchedAttempt(1, Failed, 0, Some(finishedAt), Some("network"), Some("ProviderTimeoutError")),
                    None), 0)
  }

  function TimeoutDraft(requestKey: string, finishedAt: int): Draft {
    Draft(DailyKey(AKSHARE, requestKey), 1, 0, finishedAt, FailedBody("network", "ProviderTimeoutError"))
  }

  lemma TimeoutIsCommitted(t: Tables, requestKey: string, finishedAt: nat)
    requires LedgerInv(t) && RowsFor(t.attempts, DailyKey(AKSHARE, requestKey)) == []
    ensures var d := TimeoutDraft(requestKey, finishedAt);
            WriteDaily(t, Timeout(requestKey, finishedAt)) == Written(Commit(t, d), Done(CommitResult(t, d, true)))
  {
    NextNumberFresh(t, DailyKey(AKSHARE, requestKey), 1);
  }

  lemma TimeoutIsTransient(t: Tables, requestKey: string, finishedAt: nat)
    requires LedgerInv(t) && RowsFor(t.attempts, DailyKey(AKSHARE, requestKey)) == []
    ensures var first := WriteDaily(t, Timeout(requestKey, finishedAt));
            && first.result.Done? && !EndsWithPrimary(first, AKSHARE, true)
            && Visible(first.tables, DailyKey(AKSHARE, requestKey))
  {
    TimeoutIsCommitted(t, requestKey, finishedAt);
    CommitRows(t, TimeoutDraft(requestKey, finishedAt), DailyKey(AKSHARE, requestKey));
  }

  /** One baostock success, then an akshare timeout whose fallback raises: the consumer of
      the second run reads the attempt of the first. */
  lemma OlderRunIsRead(requestKey: string)
    ensures var spare := DailyKey(BAOSTOCK, requestKey);
            var t := Run([Success(spare, 10)]);
            var w := RawRun(t, AKSHARE, true, Timeout(requestKey, 20), FetchRaises);
            && w.result.Raised?
            && |RowsFor(t.attempts, spare)| == 1
            && Consume(w.tables, AKSHARE, true, requestKey) == Read(RowsFor(t.attempts, spare)[0])
  {
    var spare, key := DailyKey(BAOSTOCK, requestKey), DailyKey(AKSHARE, requestKey);
    var e := Success(spare, 10);
    var t := Run([e]);
    RunOfOne(e);
    EmptyIsSound(key);
    SuccessDrafts(EMPTY_TABLES, spare, 10);
    OneSuccess(e, spare, 10);
    UnrelatedWriteDoesNotMatter(EMPTY_TABLES, e, key);
    TimeoutIsTransient(t, requestKey, 20);
    AbortedFallback(t, requestKey, Timeout(requestKey, 20), FetchRaises);
    OneSuccessIsRead(t, spare);
  }

  lemma OneSuccessIsRead(t: Tables, key: LogicalKey)
    requires LedgerInv(t) && HasStatus(t, key, RequestSucceeded) && |RowsFor(t.attempts, key)| == 1
    ensures UpsertRead(t, key) == Read(RowsFor(t.attempts, key)[0])
  {
    UpsertOfSucceeded(t, key);
  }

  // ---------- the instruments consumer ----------

  function FirstSucceeded(rows: seq<AttemptRow>): (r: Option<AttemptRow>)
    ensures r.None? <==> forall i :: 0 <= i < |rows| ==> rows[i].status != Succeeded
    ensures r.Some? ==> exists i :: && 0 <= i < |rows| && rows[i] == r.value && rows[i].status == Succeeded
                                    && forall j :: 0 <= j < i ==> rows[j].status != Succeeded
  {
    if rows == [] then None
    else if rows[0].status == Succeeded then Some(rows[0])
    else
      var r := FirstSucceeded(rows[1..]);
      assert forall i :: 0 < i < |rows| ==> rows[i] == rows[1..][i - 1];
      assert r.Some? ==> exists i :: && 0 <= i < |rows[1..]| && rows[1..][i] == r.value
                                     && forall j :: 0 <= j < i ==> rows[1..][j].status != Succeeded;
      r
  }

  const INSTRUMENT_LIMIT: nat := 10

  /** `upsert_etf_instruments`: the first succeeded attempt among the ten lowest-numbered. */
  function InstrumentRead(t: Tables, key: LogicalKey): Option<AttemptRow> {
    FirstSucceeded(ListByRequest(t, key, INSTRUMENT_LIMIT))
  }

  lemma {:induction false} FirstSucceededOfPrefix(rows: seq<AttemptRow>, n: nat)
    requires n <= |rows| && FirstSucceeded(rows[..n]).Some?
    ensures FirstSucceeded(rows) == FirstSucceeded(rows[..n])
  {
    if rows[0].status != Succeeded {
      assert rows[..n][1..] == rows[1..][..n - 1];
      FirstSucceededOfPrefix(rows[1..], n - 1);
    }
  }

  function Clip(rows: seq<AttemptRow>): seq<AttemptRow> {
    if |rows| <= INSTRUMENT_LIMIT then rows else rows[..INSTRUMENT_LIMIT]
  }

  lemma ClipNeverChanges(rows: seq<AttemptRow>, longer: seq<AttemptRow>)
    requires rows <= longer
    requires FirstSucceeded(Clip(rows)).Some? || |rows| >= INSTRUMENT_LIMIT
    ensures FirstSucceeded(Clip(longer)) == FirstSucceeded(Clip(rows))
  {
    assert Clip(longer)[..|Clip(rows)|] == Clip(rows);
    if |rows| >= INSTRUMENT_LIMIT {
      assert Clip(longer) == Clip(rows);
    } else {
      FirstSucceededOfPrefix(Clip(longer), |Clip(rows)|);
    }
  }

  lemma InstrumentReadOfRows(t: Tables, key: LogicalKey)
    requires Contiguous(RowsFor(t.attempts, key))
    ensures InstrumentRead(t, key) == FirstSucceeded(Clip(RowsFor(t.attempts, key)))
  {
    ListContiguous(t, key, INSTRUMENT_LIMIT);
  }

  /** The instruments upsert reads the first success among the ten lowest-numbered attempts,
      and nothing exactly when none of them succeeded. */
  lemma InstrumentReadsFirst(t: Tables, key: LogicalKey, i: nat)
    requires LedgerInv(t) && i < |RowsFor(t.attempts, key)|
    ensures var rows := RowsFor(t.attempts, key);
            InstrumentRead(t, key) == Some(rows[i])
            <==> i < 10 && rows[i].status == Succeeded && forall j :: 0 <= j < i ==> rows[j].status != Succeeded
    ensures var rows := RowsFor(t.attempts, key);
            InstrumentRead(t, key).None? <==> forall j :: 0 <= j < |rows| && j < 10 ==> rows[j].status != Succeeded
  {
    var rows := RowsFor(t.attempts, key);
    RowsAreContiguous(t, key);
    InstrumentReadOfRows(t, key);
    FirstOfClip(rows, i);
  }

  lemma FirstOfClip(rows: seq<AttemptRow>, i: nat)
    requires Contiguous(rows) && i < |rows|
    ensures FirstSucceeded(Clip(rows)) == Some(rows[i])
            <==> i < 10 && rows[i].status == Succeeded && forall j :: 0 <= j < i ==> rows[j].status != Succeeded
    ensures FirstSucceeded(Clip(rows)).None? <==> forall j :: 0 <= j < |rows| && j < 10 ==> rows[j].status != Succeeded
  {
    var clip := Clip(rows);
    assert forall j :: 0 <= j < |clip| ==> clip[j] == rows[j];
    if FirstSucceeded(clip).Some? {
      var k :| 0 <= k < |clip| && clip[k] == FirstSucceeded(clip).value && clip[k].status == Succeeded
               && forall j :: 0 <= j < k ==> clip[j].status != Succeeded;
      assert rows[k].attemptNo == rows[0].attemptNo + k && rows[i].attemptNo == rows[0].attemptNo + i;
      assert rows[k].status == Succeeded;
      assert forall j :: 0 <= j < k ==> rows[j].status != Succeeded;
    }
  }

  /** The last of at most ten attempts is the only success among them. */
  ghost predicate OnlyLastSucceeded(rows: seq<AttemptRow>) {
    && rows != [] && rows[|rows| - 1].status == Succeeded && |rows| <= 10
    && forall i :: 0 <= i < |rows| - 1 ==> rows[i].status != Succeeded
  }

  lemma FirstIsLast(rows: seq<AttemptRow>)
    requires Contiguous(rows) && rows != [] && rows[|rows| - 1].status == Succeeded
    ensures FirstSucceeded(Clip(rows)) == Some(rows[|rows| - 1]) <==> OnlyLastSucceeded(rows)
  {
    var first := FirstSucceeded(Clip(rows));
    if first.Some? {
      var i :| 0 <= i < |Clip(rows)| && Clip(rows)[i] == first.value && Clip(rows)[i].status == Succeeded
               && forall j :: 0 <= j < i ==> Clip(rows)[j].status != Succeeded;
      assert rows[i] == first.value;
      assert forall j :: 0 <= j < i ==> rows[j].status != Succeeded;
      assert rows[i].attemptNo == rows[0].attemptNo + i;
      assert first == Some(rows[|rows| - 1]) ==> i == |rows| - 1;
    }
  }

  /** The instruments upsert reads the latest success exactly when it is the only one and
      lies among the ten lowest-numbered attempts. */
  lemma InstrumentReadsLastIff(t: Tables, key: LogicalKey)
    requires LedgerInv(t)
    requires var rows := RowsFor(t.attempts, key); rows != [] && rows[|rows| - 1].status == Succeeded
    ensures var rows := RowsFor(t.attempts, key);
            InstrumentRead(t, key) == Some(rows[|rows| - 1]) <==> OnlyLastSucceeded(rows)
  {
    RowsAreContiguous(t, key);
    InstrumentReadsLastRow(t, key);
  }

  lemma InstrumentReadsLastRow(t: Tables, key: LogicalKey)
    requires Contiguous(RowsFor(t.attempts, key))
    requires var rows := RowsFor(t.attempts, key); rows != [] && rows[|rows| - 1].status == Succeeded
    ensures var rows := RowsFor(t.attempts, key);
            InstrumentRead(t, key) == Some(rows[|rows| - 1]) <==> OnlyLastSucceeded(rows)
  {
    InstrumentReadOfRows(t, key);
    FirstIsLast(RowsFor(t.attempts, key));
  }

  /** Two successful instrument writes, the second of them later: it is not the one read. */
  lemma InstrumentsReadOlderSuccess(key: LogicalKey)
    ensures var t := Run([InstrumentSuccess(key, 10), InstrumentSuccess(key, 20)]);
            var rows := RowsFor(t.attempts, key);
            && |rows| == 2 && rows[1].status == Succeeded && rows[1].finishedAt > rows[0].finishedAt
            && InstrumentRead(t, key) != Some(rows[1])
  {
    forall t, time ensures DraftOf(t, InstrumentSuccess(key, time)) == Some(SuccessDraft(key, time)) {
      SuccessDrafts(t, key, time);
    }
    TwoSuccesses(InstrumentSuccess(key, 10), InstrumentSuccess(key, 20), key, 10, 20);
    InstrumentReadsLastIff(Run([InstrumentSuccess(key, 10), InstrumentSuccess(key, 20)]), key);
  }

  lemma StepAppendsRows(t: Tables, e: Event, key: LogicalKey)
    ensures RowsFor(t.attempts, key) <= RowsFor(Step(t, e).attempts, key)
  {
    var draft := DraftOf(t, e);
    if draft.Some? {
      CommitRows(t, draft.value, key);
    }
  }

  lemma {:induction false} ExtendAppendsRows(t: Tables, more: seq<Event>, key: LogicalKey)
    requires LedgerInv(t)
    ensures LedgerInv(Extend(t, more))
    ensures RowsFor(t.attempts, key) <= RowsFor(Extend(t, more).attempts, key)
  {
    if more == [] {
    } else {
      var init, last := more[..|more| - 1], more[|more| - 1];
      ExtendAppendsRows(t, init, key);
      StepKeepsInv(Extend(t, init), last);
      StepAppendsRows(Extend(t, init), last, key);
    }
  }

  /** Once an attempt is read, or ten are stored, no later sequence of writes by any writer
      changes what the instruments consumer reads. */
  lemma InstrumentReadNeverChanges(t: Tables, more: seq<Event>, key: LogicalKey)
    requires LedgerInv(t)
    requires InstrumentRead(t, key).Some? || |RowsFor(t.attempts, key)| >= 10
    ensures InstrumentRead(Extend(t, more), key) == InstrumentRead(t, key)
  {
    ExtendAppendsRows(t, more, key);
    RowsAreContiguous(t, key);
    RowsAreContiguous(Extend(t, more), key);
    InstrumentReadOfRows(t, key);
    InstrumentReadOfRows(Extend(t, more), key);
    ClipNeverChanges(RowsFor(t.attempts, key), RowsFor(Extend(t, more).attempts, key));
  }
}
