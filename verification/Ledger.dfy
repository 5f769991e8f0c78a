/**
 The provider evidence ledger as values: one transaction of a raw writer, and
 what holds after any sequence of them.
 */
module Ledger {
  import opened Wrappers
  import opened Ordering
  import opened DecimalText
  import opened Evidence
  import opened Sidecar

  const ATTEMPT_LIMIT: nat := 1000

  // ---------- reads ----------

  predicate NumberLe(a: AttemptRow, b: AttemptRow) { a.attemptNo <= b.attemptNo }

  function RowsFor(attempts: seq<AttemptRow>, key: LogicalKey): seq<AttemptRow> {
    if attempts == [] then []
    else
      var last := attempts[|attempts| - 1];
      RowsFor(attempts[..|attempts| - 1], key) + (if last.request == key then [last] else [])
  }

  /** `list_by_request`: ORDER BY attempt_no ASC LIMIT limit. */
  function ListByRequest(t: Tables, key: LogicalKey, limit: nat): seq<AttemptRow> {
    var rows := SortBy(RowsFor(t.attempts, key), NumberLe);
    if |rows| <= limit then rows else rows[..limit]
  }

  function MaxNumber(rows: seq<AttemptRow>): (m: int)
    requires rows != []
    ensures forall i :: 0 <= i < |rows| ==> rows[i].attemptNo <= m
    ensures exists i :: 0 <= i < |rows| && rows[i].attemptNo == m
  {
    if |rows| == 1 then rows[0].attemptNo
    else
      var m := MaxNumber(rows[1..]);
      if rows[0].attemptNo > m then rows[0].attemptNo else m
  }

  /** `max(existing) + 1`, reading only the lowest 1000 attempts. */
  function NextNumber(t: Tables, key: LogicalKey, suggested: AttemptNumber): int {
    var existing := ListByRequest(t, key, ATTEMPT_LIMIT);
    if existing == [] then suggested else MaxNumber(existing) + 1
  }

  // ---------- one transaction ----------

  datatype Body =
    | FailedBody(stage: string, code: string)
    | BareBody
    | BatchBody(payloadHash: PayloadHash, partial: bool, sidecar: seq<SidecarEntry>)

  /** Everything a writer wants to commit for one fetch. */
  datatype Draft = Draft(request: LogicalKey, number: AttemptNumber, startedAt: int, finishedAt: int, body: Body)

  function FinalAttempt(d: Draft, number: int): AttemptRow {
    match d.body
    case FailedBody(stage, code) =>
      AttemptRow(d.request, number, d.startedAt, d.finishedAt, Failed, Some(stage), Some(code), None, None)
    case BareBody =>
      AttemptRow(d.request, number, d.startedAt, d.finishedAt, Succeeded, None, None, Some(NO_PAYLOAD_HASH), None)
    case BatchBody(hash, _, sidecar) =>
      AttemptRow(d.request, number, d.startedAt, d.finishedAt, Succeeded, None, None, Some(hash), Some(sidecar))
  }

  /** The request status an attempt leaves behind. */
  function StatusAfter(a: AttemptRow): RequestStatus {
    if a.status == Failed then RequestFailed
    else if a.sidecar.None? then RequestPartial
    else RequestSucceeded
  }

  /** `uq_provider_attempts_request_attempt_no`. */
  predicate NumberTaken(t: Tables, key: LogicalKey, number: int) {
    exists i :: 0 <= i < |t.attempts| && t.attempts[i].request == key && t.attempts[i].attemptNo == number
  }

  /** The insert of the attempt row violates a constraint. */
  predicate InsertFails(t: Tables, key: LogicalKey, suggested: AttemptNumber, startedAt: int, finishedAt: int) {
    || finishedAt < startedAt  // ck_provider_attempts_finished_after_started
    || NumberTaken(t, key, NextNumber(t, key, suggested))
  }

  predicate Rejected(t: Tables, d: Draft) {
    InsertFails(t, d.request, d.number, d.startedAt, d.finishedAt)
  }

  /** The committed tables: one attempt appended in its final state, its batch if any,
      and the request rewritten. */
  function Commit(t: Tables, d: Draft): Tables {
    var a := FinalAttempt(d, NextNumber(t, d.request, d.number));
    Tables(
      t.requests[d.request := RequestRow(StatusAfter(a), Some(d.finishedAt))],
      t.attempts + [a],
      if d.body.BatchBody?
      then t.batches + [BatchRow(d.request, |t.attempts|, |d.body.sidecar|, d.body.payloadHash, d.body.partial)]
      else t.batches)
  }

  function CommitResult(t: Tables, d: Draft, reportsCode: bool): RawResult {
    var a := FinalAttempt(d, NextNumber(t, d.request, d.number));
    RawResult(d.request, |t.attempts|,
              if d.body.BatchBody? then Some(|t.batches|) else None,
              StatusAfter(a), a.status,
              if d.body.BatchBody? then |d.body.sidecar| else 0,
              if reportsCode && d.body.FailedBody? then Some(d.body.code) else None)
  }

  // ---------- the three writers, as drafts ----------

  /** etf_daily_bars: None when a bar's symbol cannot be resolved. */
  function DailyDraft(f: Fetched<FetchedBar>, now: int, nextBatch: nat): Option<Draft> {
    var a := f.attempt;
    var finished := FinishTime(a, now);
    if a.status == Failed then
      Some(Draft(f.request, a.number, a.startedAt, finished, FailedBody(ErrorStage(a), ErrorCode(a))))
    else if f.batch.None? then
      Some(Draft(f.request, a.number, a.startedAt, finished, BareBody))
    else
      var b := f.batch.value;
      match BuildEntries(b.records, f.request.providerKey, nextBatch, ObservedAt(b.records, finished))
      case None => None
      case Some(entries) =>
        Some(Draft(f.request, a.number, a.startedAt, finished, BatchBody(b.payloadHash, b.partial, entries)))
  }

  /** etf_instruments and etf_profiles: the records serialise without failing. */
  function RecordsDraft(f: Fetched<SidecarEntry>, now: int): Draft {
    var a := f.attempt;
    Draft(f.request, a.number, a.startedAt, FinishTime(a, now),
          if a.status == Failed then FailedBody(ErrorStage(a), ErrorCode(a))
          else if f.batch.None? then BareBody
          else BatchBody(f.batch.value.payloadHash, f.batch.value.partial, f.batch.value.records))
  }

  function ProfileEntries(f: Fetched<ProfileRecord>): Fetched<SidecarEntry> {
    Fetched(f.request, f.attempt,
            if f.batch.None? then None
            else
              var b := f.batch.value;
              Some(FetchedBatch(seq(|b.records|, i requires 0 <= i < |b.records| => BuildProfileEntry(b.records[i])),
                                b.payloadHash, b.partial)))
  }

  // ---------- one shape for two kinds of writer ----------

  /** The fetch a one-step writer would have to be given to store what the daily-bars writer
      stores; None when a symbol cannot be resolved. */
  function AsRecords(f: Fetched<FetchedBar>, now: int, nextBatch: nat): Option<Fetched<SidecarEntry>> {
    if f.attempt.status == Failed || f.batch.None? then Some(Fetched(f.request, f.attempt, None))
    else
      var b := f.batch.value;
      match BuildEntries(b.records, f.request.providerKey, nextBatch,
                         ObservedAt(b.records, FinishTime(f.attempt, now)))
      case None => None
      case Some(entries) => Some(Fetched(f.request, f.attempt, Some(FetchedBatch(entries, b.payloadHash, b.partial))))
  }

  // ---------- runs ----------

  datatype Event =
    | DailyWrite(bars: Fetched<FetchedBar>, now: int)
    | InstrumentWrite(records: Fetched<SidecarEntry>, now: int)
    | ProfileWrite(profiles: Fetched<ProfileRecord>, now: int)

  function EventKey(e: Event): LogicalKey {
    match e
    case DailyWrite(f, _) => f.request
    case InstrumentWrite(f, _) => f.request
    case ProfileWrite(f, _) => f.request
  }

  /** What an event tries to commit to the tables `t`. */
  function DraftOf(t: Tables, e: Event): Option<Draft> {
    match e
    case DailyWrite(f, now) => DailyDraft(f, now, |t.batches|)
    case InstrumentWrite(f, now) => Some(RecordsDraft(f, now))
    case ProfileWrite(f, now) => Some(RecordsDraft(ProfileEntries(f), now))
  }

  /** One unit of work: committed whole, or rolled back. */
  function Step(t: Tables, e: Event): Tables {
    match DraftOf(t, e)
    case None => t
    case Some(d) => if Rejected(t, d) then t else Commit(t, d)
  }

  function Run(events: seq<Event>): Tables {
    if events == [] then EMPTY_TABLES
    else Step(Run(events[..|events| - 1]), events[|events| - 1])
  }

  /** The fetch itself is storable: its symbols resolve and it does not end before it starts. */
  predicate Storable(e: Event) {
    match e
    case DailyWrite(f, now) =>
      && FinishTime(f.attempt, now) >= f.attempt.startedAt
      && (f.attempt.status == Failed || f.batch.None? ||
          forall i :: 0 <= i < |f.batch.value.records| ==> f.batch.value.records[i].symbol.Some?)
    case InstrumentWrite(f, now) => FinishTime(f.attempt, now) >= f.attempt.startedAt
    case ProfileWrite(f, now) => FinishTime(f.attempt, now) >= f.attempt.startedAt
  }

  function CountStorable(events: seq<Event>, key: LogicalKey): nat {
    if events == [] then 0
    else
      var e := events[|events| - 1];
      CountStorable(events[..|events| - 1], key) + (if EventKey(e) == key && Storable(e) then 1 else 0)
  }

  // ---------- what every reachable ledger satisfies ----------

  ghost predicate Contiguous(rows: seq<AttemptRow>) {
    forall i :: 0 <= i < |rows| ==> rows[i].attemptNo == rows[0].attemptNo + i && rows[i].attemptNo >= 1
  }

  predicate FinalRow(a: AttemptRow) {
    match a.status
    case Running => false
    case Failed => a.errorStage.Some? && a.errorCode.Some? && a.sidecar.None?
    case Succeeded => a.payloadHash.Some?
  }

  /** A batch belongs to a succeeded attempt of its own request and counts its sidecar. */
  predicate BatchBacked(t: Tables, b: BatchRow) {
    && b.attempt < |t.attempts|
    && var a := t.attempts[b.attempt];
       && a.request == b.request
       && a.status == Succeeded
       && a.sidecar.Some?
       && b.recordCount == |a.sidecar.value|
       && a.payloadHash == Some(b.payloadHash)
  }

  ghost predicate AttemptsFinal(t: Tables) {
    forall i :: 0 <= i < |t.attempts| ==> FinalRow(t.attempts[i])
  }

  ghost predicate BatchesSound(t: Tables) {
    && (forall i :: 0 <= i < |t.batches| ==> BatchBacked(t, t.batches[i]))
    && (forall i, j :: 0 <= i < j < |t.batches| ==> t.batches[i].attempt < t.batches[j].attempt)
  }

  /** Every attempt that carries a sidecar has its batch. */
  ghost predicate SidecarsBatched(t: Tables) {
    forall i :: 0 <= i < |t.attempts| && t.attempts[i].sidecar.Some? ==>
      exists j :: 0 <= j < |t.batches| && t.batches[j].attempt == i
  }

  ghost predicate RequestSettled(t: Tables, key: LogicalKey)
    requires key in t.requests
  {
    var rows := RowsFor(t.attempts, key);
    && rows != []
    && t.requests[key] == RequestRow(StatusAfter(rows[|rows| - 1]), Some(rows[|rows| - 1].finishedAt))
  }

  ghost predicate RequestsSettled(t: Tables) {
    && (forall key :: key in t.requests ==> RequestSettled(t, key))
    && (forall i :: 0 <= i < |t.attempts| ==> t.attempts[i].request in t.requests)
  }

  ghost predicate NumbersContiguous(t: Tables) {
    forall key :: var rows := RowsFor(t.attempts, key); Contiguous(rows) && |rows| <= ATTEMPT_LIMIT + 1
  }

  ghost predicate LedgerInv(t: Tables) {
    && AttemptsFinal(t)
    && BatchesSound(t)
    && SidecarsBatched(t)
    && RequestsSettled(t)
    && NumbersContiguous(t)
  }

  // ---------- numbering ----------

  lemma RowsForAppend(attempts: seq<AttemptRow>, a: AttemptRow, key: LogicalKey)
    ensures RowsFor(attempts + [a], key) == RowsFor(attempts, key) + (if a.request == key then [a] else [])
  {
    assert (attempts + [a])[..|attempts|] == attempts;
  }

  lemma {:induction false} RowsForMembers(attempts: seq<AttemptRow>, key: LogicalKey, a: AttemptRow)
    ensures a in RowsFor(attempts, key) <==> a in attempts && a.request == key
  {
    if attempts == [] {
    } else {
      var init := attempts[..|attempts| - 1];
      RowsForMembers(init, key, a);
      assert attempts == init + [attempts[|attempts| - 1]];
    }
  }

  lemma ListContiguous(t: Tables, key: LogicalKey, limit: nat)
    requires Contiguous(RowsFor(t.attempts, key))
    ensures var rows := RowsFor(t.attempts, key);
            ListByRequest(t, key, limit) == if |rows| <= limit then rows else rows[..limit]
  {
    SortOfSorted(RowsFor(t.attempts, key), NumberLe);
  }

  /** The next number is fresh exactly while at most 1000 attempts are stored. */
  lemma NextNumberFresh(t: Tables, key: LogicalKey, suggested: AttemptNumber)
    requires NumbersContiguous(t)
    ensures var rows := RowsFor(t.attempts, key);
            && (NumberTaken(t, key, NextNumber(t, key, suggested)) <==> |rows| > ATTEMPT_LIMIT)
            && (rows == [] ==> NextNumber(t, key, suggested) == suggested)
            && (0 < |rows| <= ATTEMPT_LIMIT ==> NextNumber(t, key, suggested) == rows[0].attemptNo + |rows|)
  {
    var rows := RowsFor(t.attempts, key);
    var next := NextNumber(t, key, suggested);
    ListContiguous(t, key, ATTEMPT_LIMIT);
    var existing := ListByRequest(t, key, ATTEMPT_LIMIT);
    if rows != [] {
      assert existing[|existing| - 1].attemptNo == rows[0].attemptNo + |existing| - 1;
      assert next == rows[0].attemptNo + |existing|;
    }
    if |rows| > ATTEMPT_LIMIT {
      var a := rows[ATTEMPT_LIMIT];
      assert a in rows;
      RowsForMembers(t.attempts, key, a);
      assert a in t.attempts && a.attemptNo == next;
    } else if NumberTaken(t, key, next) {
      var i :| 0 <= i < |t.attempts| && t.attempts[i].request == key && t.attempts[i].attemptNo == next;
      RowsForMembers(t.attempts, key, t.attempts[i]);
    }
  }

  // ---------- preservation ----------

  /** The rows of one request after a commit: at most one more, at the end. */
  lemma CommitRows(t: Tables, d: Draft, key: LogicalKey)
    ensures var a := FinalAttempt(d, NextNumber(t, d.request, d.number));
            && a.request == d.request && a.attemptNo == NextNumber(t, d.request, d.number)
            && a.finishedAt == d.finishedAt
            && Commit(t, d).attempts == t.attempts + [a]
            && RowsFor(Commit(t, d).attempts, key) == RowsFor(t.attempts, key) + (if d.request == key then [a] else [])
  {
    RowsForAppend(t.attempts, FinalAttempt(d, NextNumber(t, d.request, d.number)), key);
  }

  lemma ContiguousAppend(rows: seq<AttemptRow>, a: AttemptRow)
    requires Contiguous(rows) && a.attemptNo >= 1
    requires rows != [] ==> a.attemptNo == rows[0].attemptNo + |rows|
    ensures Contiguous(rows + [a])
  {
  }

  lemma CommitKeepsNumbers(t: Tables, d: Draft)
    requires NumbersContiguous(t) && !Rejected(t, d)
    ensures NumbersContiguous(Commit(t, d))
  {
    var t' := Commit(t, d);
    var a := FinalAttempt(d, NextNumber(t, d.request, d.number));
    NextNumberFresh(t, d.request, d.number);
    forall key ensures var rows := RowsFor(t'.attempts, key); Contiguous(rows) && |rows| <= ATTEMPT_LIMIT + 1 {
      CommitRows(t, d, key);
      assert Contiguous(RowsFor(t.attempts, key));
      if key == d.request {
        ContiguousAppend(RowsFor(t.attempts, key), a);
      }
    }
  }

  lemma CommitKeepsRequests(t: Tables, d: Draft)
    requires RequestsSettled(t)
    ensures RequestsSettled(Commit(t, d))
  {
    var t' := Commit(t, d);
    var a := FinalAttempt(d, NextNumber(t, d.request, d.number));
    assert t'.attempts == t.attempts + [a] && a.request == d.request && a.finishedAt == d.finishedAt;
    forall key | key in t'.requests ensures RequestSettled(t', key) {
      CommitSettles(t, d, a, key);
    }
    forall i | 0 <= i < |t'.attempts| ensures t'.attempts[i].request in t'.requests {
      assert i < |t.attempts| ==> t'.attempts[i] == t.attempts[i];
    }
  }

  lemma CommitSettles(t: Tables, d: Draft, a: AttemptRow, key: LogicalKey)
    requires key == d.request || (key in t.requests && RequestSettled(t, key))
    requires a == FinalAttempt(d, NextNumber(t, d.request, d.number))
    ensures RequestSettled(Commit(t, d), key)
  {
    RowsForAppend(t.attempts, a, key);
    var rows := RowsFor(Commit(t, d).attempts, key);
    if key == d.request {
      assert rows[|rows| - 1] == a;
    } else {
      assert rows == RowsFor(t.attempts, key);
    }
  }

  lemma CommitKeepsFinal(t: Tables, d: Draft)
    requires AttemptsFinal(t)
    ensures AttemptsFinal(Commit(t, d))
  {
    assert FinalRow(FinalAttempt(d, NextNumber(t, d.request, d.number)));
  }

  lemma CommitKeepsBatches(t: Tables, d: Draft)
    requires BatchesSound(t)
    ensures BatchesSound(Commit(t, d))
  {
    var t' := Commit(t, d);
    forall i | 0 <= i < |t'.batches| ensures BatchBacked(t', t'.batches[i]) {
      if i < |t.batches| {
        assert BatchBacked(t, t.batches[i]);
      }
    }
    forall i, j | 0 <= i < j < |t'.batches| ensures t'.batches[i].attempt < t'.batches[j].attempt {
      assert BatchBacked(t, t.batches[i]);
    }
  }

  lemma CommitKeepsSidecars(t: Tables, d: Draft)
    requires SidecarsBatched(t)
    ensures SidecarsBatched(Commit(t, d))
  {
    var t' := Commit(t, d);
    forall i | 0 <= i < |t'.attempts| && t'.attempts[i].sidecar.Some?
      ensures exists j :: 0 <= j < |t'.batches| && t'.batches[j].attempt == i
    {
      if i < |t.attempts| {
        assert t'.attempts[i] == t.attempts[i];
        var j :| 0 <= j < |t.batches| && t.batches[j].attempt == i;
        assert t'.batches[j].attempt == i;
      } else {
        assert t'.batches[|t.batches|].attempt == i;
      }
    }
  }

  lemma CommitKeepsInv(t: Tables, d: Draft)
    requires LedgerInv(t) && !Rejected(t, d)
    ensures LedgerInv(Commit(t, d))
  {
    CommitKeepsNumbers(t, d);
    CommitKeepsRequests(t, d);
    CommitKeepsFinal(t, d);
    CommitKeepsBatches(t, d);
    CommitKeepsSidecars(t, d);
  }

  /** Every committed transaction keeps the ledger invariant. */
  lemma StepKeepsInv(t: Tables, e: Event)
    requires LedgerInv(t)
    ensures LedgerInv(Step(t, e))
  {
    var draft := DraftOf(t, e);
    if draft.Some? && !Rejected(t, draft.value) {
      CommitKeepsInv(t, draft.value);
    }
  }

  /** After any sequence of writes by the three writers: no running attempt, sound batches,
      request statuses decided by the last attempt, contiguous numbers, at most 1001 of them. */
  lemma {:induction false} ReachableLedger(events: seq<Event>)
    ensures LedgerInv(Run(events))
  {
    if events == [] {
    } else {
      ReachableLedger(events[..|events| - 1]);
      StepKeepsInv(Run(events[..|events| - 1]), events[|events| - 1]);
    }
  }

  /** Committed evidence is never altered: a later ledger only appends rows. */
  lemma {:induction false} EvidenceAppendOnly(events: seq<Event>, more: seq<Event>)
    ensures Run(events).attempts <= Run(events + more).attempts
    ensures Run(events).batches <= Run(events + more).batches
    ensures Run(events).requests.Keys <= Run(events + more).requests.Keys
  {
    if more == [] {
      assert events + more == events;
    } else {
      EvidenceAppendOnly(events, more[..|more| - 1]);
      assert (events + more)[..|events + more| - 1] == events + more[..|more| - 1];
    }
  }

  /** The daily-bars writer stores a running attempt first and completes it later; what it
      commits is what a one-step writer commits for the same entries, or nothing. */
  lemma TwoStepWriterCommitsOneStepShape(t: Tables, f: Fetched<FetchedBar>, now: int)
    ensures var records := AsRecords(f, now, |t.batches|);
            Step(t, DailyWrite(f, now))
            == if records.None? then t else Step(t, InstrumentWrite(records.value, now))
  {
  }

  // ---------- how many attempts a request can hold ----------

  lemma StorableMeansDrafted(t: Tables, e: Event)
    ensures Storable(e) <==> DraftOf(t, e).Some? && DraftOf(t, e).value.finishedAt >= DraftOf(t, e).value.startedAt
    ensures DraftOf(t, e).Some? ==> DraftOf(t, e).value.request == EventKey(e)
  {
  }

  lemma StepCount(t: Tables, e: Event, key: LogicalKey)
    requires LedgerInv(t)
    ensures var n := |RowsFor(t.attempts, key)|;
            |RowsFor(Step(t, e).attempts, key)|
            == if EventKey(e) == key && Storable(e) && n <= ATTEMPT_LIMIT then n + 1 else n
  {
    StorableMeansDrafted(t, e);
    var draft := DraftOf(t, e);
    if draft.Some? {
      CommitCount(t, draft.value, key);
    }
  }

  lemma CommitCount(t: Tables, d: Draft, key: LogicalKey)
    requires LedgerInv(t)
    ensures var n := |RowsFor(t.attempts, key)|;
            && (d.request == key ==> (Rejected(t, d) <==> d.finishedAt < d.startedAt || n > ATTEMPT_LIMIT))
            && |RowsFor(Commit(t, d).attempts, key)| == if d.request == key then n + 1 else n
  {
    NextNumberFresh(t, d.request, d.number);
    RowsForAppend(t.attempts, FinalAttempt(d, NextNumber(t, d.request, d.number)), key);
  }

  /** A request holds one attempt per storable fetch, up to 1001 and never more: the
      1001st is stored, and from then on every write of the request is rejected. */
  lemma {:induction false} AttemptCount(events: seq<Event>, key: LogicalKey)
    ensures var n := CountStorable(events, key);
            |RowsFor(Run(events).attempts, key)| == if n <= ATTEMPT_LIMIT + 1 then n else ATTEMPT_LIMIT + 1
  {
    if events == [] {
    } else {
      var init := events[..|events| - 1];
      AttemptCount(init, key);
      ReachableLedger(init);
      StepCount(Run(init), events[|events| - 1], key);
    }
  }

  /** The bound is reached: n copies of a storable write leave min(n, 1001) attempts. */
  lemma BoundIsReached(e: Event, n: nat)
    requires Storable(e)
    ensures var events := seq(n, _ => e);
            |RowsFor(Run(events).attempts, EventKey(e))| == if n <= 1001 then n else 1001
  {
    AttemptCount(seq(n, _ => e), EventKey(e));
    CountCopies(e, n);
  }

  lemma {:induction false} CountCopies(e: Event, n: nat)
    requires Storable(e)
    ensures CountStorable(seq(n, _ => e), EventKey(e)) == n
  {
    if n == 0 {
    } else {
      CountCopies(e, n - 1);
      assert seq(n, _ => e)[..n - 1] == seq(n - 1, _ => e);
    }
  }

  // ---------- what a write stores, field by field ----------

  /** The insert of one more attempt is refused: it ends before it starts, or the request
      already holds more than 1000. */
  ghost predicate Refuses(t: Tables, key: LogicalKey, startedAt: int, finishedAt: int) {
    finishedAt < startedAt || |RowsFor(t.attempts, key)| > 1000
  }

  /** One attempt more, numbered after the request's others or as suggested if it is the
      first, and the request row rewritten with the same finish time. */
  ghost predicate Appended(t: Tables, t': Tables, key: LogicalKey, suggested: AttemptNumber, startedAt: int,
                           finishedAt: int, status: RequestStatus) {
    && |t'.attempts| == |t.attempts| + 1 && t'.attempts[..|t.attempts|] == t.attempts
    && t'.requests == t.requests[key := RequestRow(status, Some(finishedAt))]
    && var row, rows := t'.attempts[|t.attempts|], RowsFor(t.attempts, key);
       && row.request == key && row.startedAt == startedAt && row.finishedAt == finishedAt
       && row.attemptNo == if rows == [] then suggested else rows[0].attemptNo + |rows|
  }

  ghost predicate StoresFailure(t: Tables, t': Tables, key: LogicalKey, a: FetchedAttempt, finishedAt: int) {
    && Appended(t, t', key, a.number, a.startedAt, finishedAt, RequestFailed)
    && t'.batches == t.batches
    && var row := t'.attempts[|t.attempts|];
       && row.status == Failed && row.payloadHash.None? && row.sidecar.None?
       && row.errorStage == (if a.errorStage.Some? then a.errorStage else Some("provider"))
       && row.errorCode == (if a.errorCode.None? || a.errorCode.value == "" then Some("unknown_error") else a.errorCode)
  }

  /** A response without a batch: the hash is 64 zeros, and the request only partial. */
  ghost predicate StoresNoBatch(t: Tables, t': Tables, key: LogicalKey, a: FetchedAttempt, finishedAt: int) {
    && Appended(t, t', key, a.number, a.startedAt, finishedAt, RequestPartial)
    && t'.batches == t.batches
    && var row := t'.attempts[|t.attempts|];
       && row.status == Succeeded && row.errorStage.None? && row.errorCode.None? && row.sidecar.None?
       && row.payloadHash == Some("0000000000000000000000000000000000000000000000000000000000000000")
  }

  ghost predicate StoresBatch(t: Tables, t': Tables, key: LogicalKey, a: FetchedAttempt, finishedAt: int,
                              payloadHash: string, partial: bool, sidecar: seq<SidecarEntry>) {
    && Appended(t, t', key, a.number, a.startedAt, finishedAt, RequestSucceeded)
    && t'.batches == t.batches + [BatchRow(key, |t.attempts|, |sidecar|, payloadHash, partial)]
    && var row := t'.attempts[|t.attempts|];
       && row.status == Succeeded && row.errorStage.None? && row.errorCode.None?
       && row.payloadHash == Some(payloadHash) && row.sidecar == Some(sidecar)
  }

  lemma RefusedIsRejected(t: Tables, key: LogicalKey, suggested: AttemptNumber, startedAt: int, finishedAt: int)
    requires NumbersContiguous(t)
    ensures InsertFails(t, key, suggested, startedAt, finishedAt) <==> Refuses(t, key, startedAt, finishedAt)
  {
    NextNumberFresh(t, key, suggested);
  }

  lemma CommitAppends(t: Tables, d: Draft)
    requires NumbersContiguous(t) && !Refuses(t, d.request, d.startedAt, d.finishedAt)
    ensures Appended(t, Commit(t, d), d.request, d.number, d.startedAt, d.finishedAt,
                     match d.body
                     case FailedBody(_, _) => RequestFailed
                     case BareBody => RequestPartial
                     case BatchBody(_, _, _) => RequestSucceeded)
  {
    NextNumberFresh(t, d.request, d.number);
  }

  /** `finished_at`, or the clock. */
  function EndTime(a: FetchedAttempt, now: int): (end: int)
    ensures a.finishedAt == Some(end) || (a.finishedAt.None? && end == now)
  {
    FinishTime(a, now)
  }

  lemma FailureCommits(t: Tables, key: LogicalKey, a: FetchedAttempt, end: int)
    requires NumbersContiguous(t) && !Refuses(t, key, a.startedAt, end)
    ensures var d := Draft(key, a.number, a.startedAt, end, FailedBody(ErrorStage(a), ErrorCode(a)));
            StoresFailure(t, Commit(t, d), key, a, end)
  {
    CommitAppends(t, Draft(key, a.number, a.startedAt, end, FailedBody(ErrorStage(a), ErrorCode(a))));
  }

  lemma NoBatchCommits(t: Tables, key: LogicalKey, a: FetchedAttempt, end: int)
    requires NumbersContiguous(t) && !Refuses(t, key, a.startedAt, end)
    ensures StoresNoBatch(t, Commit(t, Draft(key, a.number, a.startedAt, end, BareBody)), key, a, end)
  {
    CommitAppends(t, Draft(key, a.number, a.startedAt, end, BareBody));
  }

  lemma BatchCommits(t: Tables, key: LogicalKey, a: FetchedAttempt, end: int, hash: PayloadHash, partial: bool,
                     sidecar: seq<SidecarEntry>)
    requires NumbersContiguous(t) && !Refuses(t, key, a.startedAt, end)
    ensures var d := Draft(key, a.number, a.startedAt, end, BatchBody(hash, partial, sidecar));
            StoresBatch(t, Commit(t, d), key, a, end, hash, partial, sidecar)
  {
    CommitAppends(t, Draft(key, a.number, a.startedAt, end, BatchBody(hash, partial, sidecar)));
  }

  /** What the one-step writers store. */
  lemma RecordsAreStored(t: Tables, f: Fetched<SidecarEntry>, now: int)
    requires NumbersContiguous(t)
    ensures var t', end := Step(t, InstrumentWrite(f, now)), EndTime(f.attempt, now);
            if Refuses(t, f.request, f.attempt.startedAt, end) then t' == t
            else if f.attempt.status == Failed then StoresFailure(t, t', f.request, f.attempt, end)
            else if f.batch.None? then StoresNoBatch(t, t', f.request, f.attempt, end)
            else
              var b := f.batch.value;
              StoresBatch(t, t', f.request, f.attempt, end, b.payloadHash, b.partial, b.records)
  {
    var a, end := f.attempt, FinishTime(f.attempt, now);
    RefusedIsRejected(t, f.request, a.number, a.startedAt, end);
    if Refuses(t, f.request, a.startedAt, end) {
      assert Rejected(t, RecordsDraft(f, now));
    } else if a.status == Failed {
      FailureCommits(t, f.request, a, end);
    } else if f.batch.None? {
      NoBatchCommits(t, f.request, a, end);
    } else {
      BatchCommits(t, f.request, a, end, f.batch.value.payloadHash, f.batch.value.partial, f.batch.value.records);
    }
  }

  /** The profile writer's sidecar holds each record's fields under their own names. */
  ghost predicate ProfilesListed(sidecar: seq<SidecarEntry>, records: seq<ProfileRecord>) {
    && |sidecar| == |records|
    && forall i :: 0 <= i < |records| ==>
         var e, r := sidecar[i], records[i];
         && e.ProfileEntry? && e.symbol == r.symbol && e.exchange == r.exchange
         && e.fundType == r.fundType && e.category == r.category && Prints(e.shares, r.shares)
  }

  lemma ProfilesAreStored(t: Tables, f: Fetched<ProfileRecord>, now: int)
    requires NumbersContiguous(t)
    ensures var t', end := Step(t, ProfileWrite(f, now)), EndTime(f.attempt, now);
            if Refuses(t, f.request, f.attempt.startedAt, end) then t' == t
            else if f.attempt.status == Failed then StoresFailure(t, t', f.request, f.attempt, end)
            else if f.batch.None? then StoresNoBatch(t, t', f.request, f.attempt, end)
            else exists sidecar :: && ProfilesListed(sidecar, f.batch.value.records)
                                   && StoresBatch(t, t', f.request, f.attempt, end, f.batch.value.payloadHash,
                                                  f.batch.value.partial, sidecar)
  {
    RecordsAreStored(t, ProfileEntries(f), now);
    if f.batch.Some? {
      assert ProfilesListed(ProfileEntries(f).batch.value.records, f.batch.value.records);
    }
  }

  /** A bar's fields under their own names, stamped with the provider, the batch and a time. */
  ghost predicate BarListed(e: SidecarEntry, r: FetchedBar, source: string, batch: nat, observedAt: int) {
    && e.BarEntry? && Some(e.symbol) == r.symbol && e.tradeDate == r.tradeDate && e.tradingStatus == r.tradingStatus
    && e.sourceProvider == source && e.sourceBatch == batch && e.observedAt == observedAt
    && Prints(e.values.open, r.values.open) && Prints(e.values.high, r.values.high)
    && Prints(e.values.low, r.values.low) && Prints(e.values.close, r.values.close)
    && Prints(e.values.prevClose, r.values.prevClose)
    && Prints(e.values.volume, r.values.volume) && Prints(e.values.amount, r.values.amount)
  }

  /** The daily-bars sidecar lists the bars in order, all with one observation time. */
  ghost predicate BarsListed(sidecar: seq<SidecarEntry>, records: seq<FetchedBar>, source: string, batch: nat,
                             observedAt: int) {
    |sidecar| == |records| && forall i :: 0 <= i < |records| ==> BarListed(sidecar[i], records[i], source, batch, observedAt)
  }

  lemma BarIsListed(r: FetchedBar, source: string, batch: nat, observedAt: int)
    requires r.symbol.Some?
    ensures BarListed(BuildEntry(r, r.symbol.value, source, batch, observedAt), r, source, batch, observedAt)
  {
  }

  lemma BarsAreListed(records: seq<FetchedBar>, source: string, batch: nat, observedAt: int)
    ensures var entries := BuildEntries(records, source, batch, observedAt);
            entries.Some? ==> BarsListed(entries.value, records, source, batch, observedAt)
  {
    var entries := BuildEntries(records, source, batch, observedAt);
    if entries.Some? {
      forall i | 0 <= i < |records| ensures BarListed(entries.value[i], records[i], source, batch, observedAt) {
        BarIsListed(records[i], source, batch, observedAt);
      }
    }
  }

  /** What the daily-bars writer stores; an unresolved symbol stores nothing. */
  lemma BarsAreStored(t: Tables, f: Fetched<FetchedBar>, now: int)
    requires NumbersContiguous(t)
    ensures var t', end := Step(t, DailyWrite(f, now)), EndTime(f.attempt, now);
            if Refuses(t, f.request, f.attempt.startedAt, end) then t' == t
            else if f.attempt.status == Failed then StoresFailure(t, t', f.request, f.attempt, end)
            else if f.batch.None? then StoresNoBatch(t, t', f.request, f.attempt, end)
            else
              var records := f.batch.value.records;
              if exists i :: 0 <= i < |records| && records[i].symbol.None? then t' == t
              else exists sidecar ::
                && BarsListed(sidecar, records, f.request.providerKey, |t.batches|,
                              if records == [] then end else records[0].observedAt)
                && StoresBatch(t, t', f.request, f.attempt, end, f.batch.value.payloadHash, f.batch.value.partial, sidecar)
  {
    TwoStepWriterCommitsOneStepShape(t, f, now);
    var entries := AsRecords(f, now, |t.batches|);
    if entries.Some? {
      RecordsAreStored(t, entries.value, now);
      if f.attempt.status != Failed && f.batch.Some? {
        var b := f.batch.value;
        BarsAreListed(b.records, f.request.providerKey, |t.batches|, ObservedAt(b.records, FinishTime(f.attempt, now)));
      }
    } else {
      var records := f.batch.value.records;
      assert exists i :: 0 <= i < |records| && records[i].symbol.None?;
    }
  }
}
