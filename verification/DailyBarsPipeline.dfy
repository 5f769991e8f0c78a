/**
 The two assets end to end: whatever was written before, the bars that reach
 `core.daily_bars` are the bars the last raw run fetched. Besides the run having
 completed, every premise is about the inputs: the history of writes and what the
 providers answer.
 */
module DailyBarsPipeline {
  import opened Wrappers
  import opened Evidence
  import opened Sidecar
  import opened Ledger
  import opened DailyBarsAssets
  import opened DailyBarStore
  import LedgerStore
  import Ordering
  import PersonalUniverse
  import RequestKeys
  import Sequences

  // ---------- a raw run is one or two ledger events ----------

  /** The events a raw run that does not raise adds to the ledger `t`. */
  function RunEvents(t: Tables, provider: RuntimeProvider, enabled: bool, primary: Fetch, fallback: Fetch): seq<Event>
    requires RawRun(t, provider, enabled, primary, fallback).result.Done?
  {
    RunShape(t, provider, enabled, primary, fallback);
    var p := DailyWrite(primary.bars, primary.now);
    if EndsWithPrimary(WriteDaily(t, primary), provider, enabled) then [p]
    else [p, DailyWrite(fallback.bars, fallback.now)]
  }

  /** A completed raw run after a history leaves a reachable ledger. */
  lemma RunIsReachable(history: seq<Event>, provider: RuntimeProvider, enabled: bool, primary: Fetch, fallback: Fetch)
    requires RawRun(Run(history), provider, enabled, primary, fallback).result.Done?
    ensures RawRun(Run(history), provider, enabled, primary, fallback).tables
            == Run(history + RunEvents(Run(history), provider, enabled, primary, fallback))
  {
    var t := Run(history);
    var first := WriteDaily(t, primary);
    var p := DailyWrite(primary.bars, primary.now);
    RunShape(t, provider, enabled, primary, fallback);
    OneMoreWrite(history, t, primary, first.tables);
    if !EndsWithPrimary(first, provider, enabled) {
      OneMoreWrite(history + [p], first.tables, fallback, WriteDaily(first.tables, fallback).tables);
      assert history + [p] + [DailyWrite(fallback.bars, fallback.now)]
             == history + [p, DailyWrite(fallback.bars, fallback.now)];
    }
  }

  lemma OneMoreWrite(history: seq<Event>, t: Tables, fetch: Fetch, after: Tables)
    requires t == Run(history) && WriteDaily(t, fetch).result.Done? && after == WriteDaily(t, fetch).tables
    ensures after == Run(history + [DailyWrite(fetch.bars, fetch.now)])
  {
    var more := history + [DailyWrite(fetch.bars, fetch.now)];
    assert more[..|more| - 1] == history;
    WriteDailyIsAStep(t, fetch);
  }

  // ---------- what the history says about the tables ----------

  function EventFinish(e: Event): int {
    match e
    case DailyWrite(f, now) => FinishTime(f.attempt, now)
    case InstrumentWrite(f, now) => FinishTime(f.attempt, now)
    case ProfileWrite(f, now) => FinishTime(f.attempt, now)
  }

  ghost predicate AllFinishBy(events: seq<Event>, key: LogicalKey, time: int) {
    forall i :: 0 <= i < |events| && EventKey(events[i]) == key ==> EventFinish(events[i]) <= time
  }

  lemma DraftFacts(t: Tables, e: Event)
    ensures var d := DraftOf(t, e);
            d.Some? ==> d.value.request == EventKey(e) && d.value.finishedAt == EventFinish(e)
  {
  }

  lemma StepFinish(t: Tables, e: Event, key: LogicalKey, b: AttemptRow)
    requires b in RowsFor(Step(t, e).attempts, key)
    ensures b in RowsFor(t.attempts, key) || (EventKey(e) == key && b.finishedAt == EventFinish(e))
  {
    var draft := DraftOf(t, e);
    DraftFacts(t, e);
    if draft.Some? {
      CommitRows(t, draft.value, key);
    }
  }

  lemma {:induction false} RowsFinishBy(events: seq<Event>, key: LogicalKey, time: int)
    requires AllFinishBy(events, key, time)
    ensures forall b :: b in RowsFor(Run(events).attempts, key) ==> b.finishedAt <= time
  {
    if events == [] {
    } else {
      var init, e := events[..|events| - 1], events[|events| - 1];
      assert AllFinishBy(init, key, time);
      RowsFinishBy(init, key, time);
      forall b | b in RowsFor(Run(events).attempts, key) ensures b.finishedAt <= time {
        StepFinish(Run(init), e, key, b);
      }
    }
  }

  lemma {:induction false} CountOfPair(history: seq<Event>, more: seq<Event>, key: LogicalKey)
    ensures CountStorable(history + more, key) == CountStorable(history, key) + CountStorable(more, key)
  {
    if more == [] {
      assert history + more == history;
    } else {
      var init := more[..|more| - 1];
      CountOfPair(history, init, key);
      assert (history + more)[..|history + more| - 1] == history + init;
    }
  }

  /** A run adds at most one attempt to the primary's request and one to the fallback's. */
  lemma RunCount(t: Tables, provider: RuntimeProvider, enabled: bool, requestKey: string,
                 primary: Fetch, fallback: Fetch, key: LogicalKey)
    requires FetchesFor(primary, DailyKey(provider, requestKey))
    requires FetchesFor(fallback, DailyKey(BAOSTOCK, requestKey))
    requires RawRun(t, provider, enabled, primary, fallback).result.Done?
    ensures CountStorable(RunEvents(t, provider, enabled, primary, fallback), key) <= 1
  {
    var events := RunEvents(t, provider, enabled, primary, fallback);
    RunShape(t, provider, enabled, primary, fallback);
    assert CountStorable(events[..0], key) == 0;
    assert events[..1][..0] == events[..0];
    assert |events| == 1 ==> events[..1] == events;
    assert CountStorable(events[..1], key) == if EventKey(events[0]) == key && Storable(events[0]) then 1 else 0;
  }

  // ---------- the attempt a run leaves ----------

  /** The fetch that produced the result `r`. */
  function SourceOf(provider: RuntimeProvider, r: RawResult, primary: Fetch, fallback: Fetch): Fetch {
    if r.request.providerKey == provider then primary else fallback
  }

  /** The attempt and batch ids of `r` name rows holding exactly what `fetch` delivered. */
  ghost predicate Holds(t: Tables, r: RawResult, fetch: Fetch) {
    && fetch.Fetches?
    && r.attempt < |t.attempts|
    && t.attempts[r.attempt].finishedAt == FinishTime(fetch.bars.attempt, fetch.now)
    && r.request == fetch.bars.request
    && t.attempts[r.attempt].request == r.request
    && (r.requestStatus == RequestSucceeded ==>
          && fetch.bars.batch.Some? && r.batch.Some?
          && var records := fetch.bars.batch.value.records;
             && r.recordCount == |records|
             && t.attempts[r.attempt].sidecar
                == BuildEntries(records, fetch.bars.request.providerKey, r.batch.value,
                                ObservedAt(records, FinishTime(fetch.bars.attempt, fetch.now)))
             && t.attempts[r.attempt].sidecar.Some?)
    && (r.requestStatus == RequestPartial ==> t.attempts[r.attempt].sidecar.None?)
    && r.requestStatus != Pending
  }

  /** What the rows and ids of a committed draft hold. */
  lemma CommitHolds(t: Tables, d: Draft, fetch: Fetch)
    requires fetch.Fetches? && DailyDraft(fetch.bars, fetch.now, |t.batches|) == Some(d)
    ensures Holds(Commit(t, d), CommitResult(t, d, true), fetch)
  {
    var t', a := Commit(t, d), FinalAttempt(d, NextNumber(t, d.request, d.number));
    assert t'.attempts[|t.attempts|] == a;
    assert d.finishedAt == FinishTime(fetch.bars.attempt, fetch.now) && d.request == fetch.bars.request;
    assert a.finishedAt == d.finishedAt && a.request == d.request;
    assert StatusAfter(a) == RequestSucceeded <==> d.body.BatchBody?;
  }

  lemma WriteHolds(t: Tables, fetch: Fetch)
    requires WriteDaily(t, fetch).result.Done?
    ensures Holds(WriteDaily(t, fetch).tables, WriteDaily(t, fetch).result.value, fetch)
  {
    CommitHolds(t, DailyDraft(fetch.bars, fetch.now, |t.batches|).value, fetch);
  }

  lemma RunHolds(t: Tables, provider: RuntimeProvider, enabled: bool, requestKey: string, primary: Fetch, fallback: Fetch)
    requires FetchesFor(primary, DailyKey(provider, requestKey))
    requires FetchesFor(fallback, DailyKey(BAOSTOCK, requestKey))
    requires RawRun(t, provider, enabled, primary, fallback).result.Done?
    ensures var w := RawRun(t, provider, enabled, primary, fallback);
            Holds(w.tables, w.result.value, SourceOf(provider, w.result.value, primary, fallback))
  {
    var first := WriteDaily(t, primary);
    RunShape(t, provider, enabled, primary, fallback);
    WriteHolds(t, primary);
    if !EndsWithPrimary(first, provider, enabled) {
      WriteHolds(first.tables, fallback);
    }
  }

  // ---------- the theorem ----------

  /** The inputs under which the consumer is promised the last run: no earlier write of
      either request finished later, and each request stays within the 1000-row read. */
  ghost predicate WellTimed(history: seq<Event>, provider: RuntimeProvider, requestKey: string,
                            primary: Fetch, fallback: Fetch) {
    && CountStorable(history, DailyKey(provider, requestKey)) < ATTEMPT_LIMIT
    && CountStorable(history, DailyKey(BAOSTOCK, requestKey)) < ATTEMPT_LIMIT
    && (primary.Fetches? ==>
          AllFinishBy(history, DailyKey(provider, requestKey), FinishTime(primary.bars.attempt, primary.now)))
    && (fallback.Fetches? ==>
          AllFinishBy(history, DailyKey(BAOSTOCK, requestKey), FinishTime(fallback.bars.attempt, fallback.now)))
  }

  lemma RunIsVisible(history: seq<Event>, provider: RuntimeProvider, enabled: bool, requestKey: string,
                     primary: Fetch, fallback: Fetch, key: LogicalKey)
    requires FetchesFor(primary, DailyKey(provider, requestKey))
    requires FetchesFor(fallback, DailyKey(BAOSTOCK, requestKey))
    requires RawRun(Run(history), provider, enabled, primary, fallback).result.Done?
    requires CountStorable(history, key) < ATTEMPT_LIMIT
    ensures Visible(RawRun(Run(history), provider, enabled, primary, fallback).tables, key)
  {
    var t := Run(history);
    var events := RunEvents(t, provider, enabled, primary, fallback);
    RunIsReachable(history, provider, enabled, primary, fallback);
    RunCount(t, provider, enabled, requestKey, primary, fallback, key);
    CountOfPair(history, events, key);
    AttemptCount(history + events, key);
  }

  /** The events of a run finish no later, per request, than the fetch its result came from. */
  lemma RunEventsFinish(t: Tables, provider: RuntimeProvider, enabled: bool, requestKey: string,
                        primary: Fetch, fallback: Fetch)
    requires FetchesFor(primary, DailyKey(provider, requestKey))
    requires FetchesFor(fallback, DailyKey(BAOSTOCK, requestKey))
    requires RawRun(t, provider, enabled, primary, fallback).result.Done?
    requires Holds(RawRun(t, provider, enabled, primary, fallback).tables,
                   RawRun(t, provider, enabled, primary, fallback).result.value,
                   SourceOf(provider, RawRun(t, provider, enabled, primary, fallback).result.value, primary, fallback))
    ensures var r := RawRun(t, provider, enabled, primary, fallback).result.value;
            var f := SourceOf(provider, r, primary, fallback);
            AllFinishBy(RunEvents(t, provider, enabled, primary, fallback), r.request,
                        FinishTime(f.bars.attempt, f.now))
  {
    RunShape(t, provider, enabled, primary, fallback);
  }

  lemma RunFinishesLast(history: seq<Event>, provider: RuntimeProvider, enabled: bool, requestKey: string,
                        primary: Fetch, fallback: Fetch)
    requires FetchesFor(primary, DailyKey(provider, requestKey))
    requires FetchesFor(fallback, DailyKey(BAOSTOCK, requestKey))
    requires RawRun(Run(history), provider, enabled, primary, fallback).result.Done?
    requires WellTimed(history, provider, requestKey, primary, fallback)
    ensures var w := RawRun(Run(history), provider, enabled, primary, fallback);
            && w.result.value.attempt < |w.tables.attempts|
            && NoneFinishedLater(w.tables, w.tables.attempts[w.result.value.attempt])
  {
    var t := Run(history);
    var r := RawRun(t, provider, enabled, primary, fallback).result.value;
    var events := RunEvents(t, provider, enabled, primary, fallback);
    RunHolds(t, provider, enabled, requestKey, primary, fallback);
    var source := SourceOf(provider, r, primary, fallback);
    var time := FinishTime(source.bars.attempt, source.now);
    RunEventsFinish(t, provider, enabled, requestKey, primary, fallback);
    assert AllFinishBy(history, r.request, time);
    assert AllFinishBy(history + events, r.request, time);
    RowsFinishBy(history + events, r.request, time);
    RunIsReachable(history, provider, enabled, primary, fallback);
  }

  /** The time every bar of a fetch is stamped with: the first bar's, or the finish of an
      empty fetch. */
  function Stamp(f: Fetch): int
    requires f.Fetches? && f.bars.batch.Some?
  {
    if |f.bars.batch.value.records| > 0 then f.bars.batch.value.records[0].observedAt
    else if f.bars.attempt.finishedAt.Some? then f.bars.attempt.finishedAt.value
    else f.now
  }

  /** The result `r` names a succeeded fetch whose symbols all resolved. */
  ghost predicate Delivers(f: Fetch, r: RawResult) {
    && f.Fetches? && f.bars.batch.Some? && r.batch.Some?
    && forall i :: 0 <= i < |f.bars.batch.value.records| ==> f.bars.batch.value.records[i].symbol.Some?
  }

  /** The reading carries what the run with result `r` fetched. */
  ghost predicate Conveys(reading: Reading, r: RawResult, provider: RuntimeProvider, primary: Fetch, fallback: Fetch,
                          instruments: Instruments) {
    var f := SourceOf(provider, r, primary, fallback);
    match r.requestStatus
    case RequestSucceeded =>
      && Delivers(f, r)
      && reading.Read? && reading.attempt.sidecar.Some?
      && |reading.attempt.sidecar.value| == |f.bars.batch.value.records|
      && RebuiltFrom(BuildNewBars(instruments, reading.attempt.sidecar.value), f.bars.batch.value.records, instruments,
                     f.bars.request.providerKey, r.batch.value, Stamp(f))
      && (forall stored: Bars :: BuildNewBars(instruments, reading.attempt.sidecar.value).Some? ==>
            TableShows(stored,
                       UpsertMany(stored, BuildNewBars(instruments, reading.attempt.sidecar.value).value).bars,
                       f.bars.batch.value.records, instruments, f.bars.request.providerKey, r.batch.value, Stamp(f)))
    case RequestPartial =>
      if r.request.providerKey == provider then reading.Read? && reading.attempt.sidecar.None? else reading.Skipped?
    case _ => reading.Skipped?
  }

  lemma SidecarIsFetched(a: AttemptRow, f: Fetch, batch: nat, instruments: Instruments)
    requires f.Fetches? && f.bars.batch.Some? && a.sidecar.Some?
    requires var records := f.bars.batch.value.records;
             a.sidecar == BuildEntries(records, f.bars.request.providerKey, batch,
                                       ObservedAt(records, FinishTime(f.bars.attempt, f.now)))
    ensures forall i :: 0 <= i < |f.bars.batch.value.records| ==> f.bars.batch.value.records[i].symbol.Some?
    ensures |a.sidecar.value| == |f.bars.batch.value.records|
    ensures RebuiltFrom(BuildNewBars(instruments, a.sidecar.value), f.bars.batch.value.records, instruments,
                        f.bars.request.providerKey, batch, Stamp(f))
    ensures forall stored: Bars :: BuildNewBars(instruments, a.sidecar.value).Some? ==>
              TableShows(stored, UpsertMany(stored, BuildNewBars(instruments, a.sidecar.value).value).bars,
                         f.bars.batch.value.records, instruments, f.bars.request.providerKey, batch, Stamp(f))
  {
    var records := f.bars.batch.value.records;
    SidecarCarriesBars(instruments, records, f.bars.request.providerKey, batch, Stamp(f));
    if BuildNewBars(instruments, a.sidecar.value).Some? {
      forall stored: Bars
        ensures TableShows(stored, UpsertMany(stored, BuildNewBars(instruments, a.sidecar.value).value).bars,
                           records, instruments, f.bars.request.providerKey, batch, Stamp(f))
      {
        FetchedBarsShow(stored, instruments, records, f.bars.request.providerKey, batch, Stamp(f));
      }
    }
  }

  /** What is expected of the consumer carries what the run fetched. */
  lemma ResultConveys(t: Tables, r: RawResult, provider: RuntimeProvider, primary: Fetch, fallback: Fetch,
                      instruments: Instruments)
    requires Holds(t, r, SourceOf(provider, r, primary, fallback))
    ensures Conveys(Expected(t, provider, r), r, provider, primary, fallback, instruments)
  {
    if r.requestStatus == RequestSucceeded {
      SidecarIsFetched(t.attempts[r.attempt], SourceOf(provider, r, primary, fallback), r.batch.value, instruments);
    }
  }

  /** After any history, one completed raw run and any writes of other requests, the
      consumer reads the run's own attempt, and the bars it rebuilds from that attempt's
      sidecar are the bars the run fetched, number for number and in order. A failed run
      leaves the consumer nothing to read; a partial one its bare attempt, if the primary's. */
  lemma LastRunReachesTheConsumer(history: seq<Event>, more: seq<Event>, provider: RuntimeProvider, enabled: bool,
                                  requestKey: string, primary: Fetch, fallback: Fetch, instruments: Instruments)
    requires FetchesFor(primary, DailyKey(provider, requestKey))
    requires FetchesFor(fallback, DailyKey(BAOSTOCK, requestKey))
    requires RawRun(Run(history), provider, enabled, primary, fallback).result.Done?
    requires WellTimed(history, provider, requestKey, primary, fallback)
    requires forall e :: e in more ==>
      EventKey(e) != DailyKey(provider, requestKey) && EventKey(e) != DailyKey(BAOSTOCK, requestKey)
    ensures var w := RawRun(Run(history), provider, enabled, primary, fallback);
            Conveys(Consume(Extend(w.tables, more), provider, enabled, requestKey), w.result.value, provider,
                    primary, fallback, instruments)
  {
    var t := Run(history);
    var w := RawRun(t, provider, enabled, primary, fallback);
    var r := w.result.value;
    RunIsVisible(history, provider, enabled, requestKey, primary, fallback, DailyKey(provider, requestKey));
    RunIsVisible(history, provider, enabled, requestKey, primary, fallback, DailyKey(BAOSTOCK, requestKey));
    RunFinishesLast(history, provider, enabled, requestKey, primary, fallback);
    ConsumerAfterAnyHistory(history, more, provider, enabled, requestKey, primary, fallback);
    RunHolds(t, provider, enabled, requestKey, primary, fallback);
    ResultConveys(w.tables, r, provider, primary, fallback, instruments);
  }

  // ---------- into core.daily_bars ----------

  datatype AssetResult = SkippedAsset | LookupRaised | ValueRaised | Summary(inserted: nat, skipped: int)

  datatype Materialized = Materialized(bars: Bars, result: AssetResult)

  /** The bars of a sidecar, rebuilt and upserted. */
  function UpsertEntries(entries: seq<SidecarEntry>, stored: Bars, instruments: Instruments): Materialized {
    match BuildNewBars(instruments, entries)
    case None => Materialized(stored, ValueRaised)
    case Some(news) =>
      var u := UpsertMany(stored, news);
      Materialized(u.bars, Summary(u.written, |entries| - u.written))
  }

  /** The asset from the attempt it reads on; an attempt without a sidecar holds no entries. */
  function UpsertReading(reading: Reading, stored: Bars, instruments: Instruments): Materialized {
    match reading
    case Skipped => Materialized(stored, SkippedAsset)
    case LookupFailed => Materialized(stored, LookupRaised)
    case Read(a) => UpsertEntries(if a.sidecar.None? then [] else a.sidecar.value, stored, instruments)
  }

  lemma EntriesArrive(entries: seq<SidecarEntry>, direct: Option<seq<NewBar>>, stored: Bars, instruments: Instruments)
    requires BuildNewBars(instruments, entries) == direct
    ensures UpsertEntries(entries, stored, instruments)
            == if direct.None? then Materialized(stored, ValueRaised)
               else
                 var u := UpsertMany(stored, direct.value);
                 Materialized(u.bars, Summary(u.written, |entries| - u.written))
  {
  }

  lemma NoEntries(stored: Bars, instruments: Instruments)
    ensures UpsertEntries([], stored, instruments) == Materialized(stored, Summary(0, 0))
  {
  }

  /** The end of `upsert_etf_daily_bars`, with its two early returns. */
  method UpsertSidecar(repository: Repository, entries: seq<SidecarEntry>, instruments: Instruments)
    returns (result: AssetResult)
    modifies repository
    ensures Materialized(repository.rows, result) == UpsertEntries(entries, old(repository.rows), instruments)
  {
    if entries == [] {
      NoEntries(repository.rows, instruments);
      return Summary(0, 0);
    }
    var news := CollectNewBars(instruments, entries);
    EntriesArrive(entries, news, repository.rows, instruments);
    if news.None? {
      return ValueRaised;
    }
    if news.value == [] {
      return Summary(0, |entries|);
    }
    var written := repository.Upsert(news.value);
    result := Summary(written, |entries| - written);
  }

  /** The `etf_daily_bars` asset. */
  method EtfDailyBars(store: LedgerStore.Store, repository: Repository, instruments: Instruments,
                      provider: RuntimeProvider, enabled: bool, requestKey: string) returns (result: AssetResult)
    modifies repository
    ensures Materialized(repository.rows, result)
            == UpsertReading(Consume(store.State(), provider, enabled, requestKey), old(repository.rows), instruments)
  {
    var reading := store.SelectForUpsert(provider, enabled, requestKey);
    match reading {
      case Skipped => result := SkippedAsset;
      case LookupFailed => result := LookupRaised;
      case Read(a) =>
        result := UpsertSidecar(repository, if a.sidecar.None? then [] else a.sidecar.value, instruments);
    }
  }

  /** What one run does to the table. A succeeded run whose list holds a refused bar changes
      nothing; any other leaves every fetched day showing its last known bar as the latest
      revision, and counts as inserted the revisions it added. A failed or partial run
      changes nothing. */
  ghost predicate Arrives(after: Materialized, stored: Bars, r: RawResult, provider: RuntimeProvider,
                          primary: Fetch, fallback: Fetch, instruments: Instruments) {
    var f := SourceOf(provider, r, primary, fallback);
    match r.requestStatus
    case RequestSucceeded =>
      && Delivers(f, r)
      && var records, source := f.bars.batch.value.records, f.bars.request.providerKey;
         if SomeRefused(records, instruments) then after == Materialized(stored, ValueRaised)
         else
           && TableShows(stored, after.bars, records, instruments, source, r.batch.value, Stamp(f))
           && RevisionCount(stored, after.bars)
           && exists news :: && AllCarried(news, Sequences.Filter(records, KnownTest(instruments)), instruments, source,
                                           r.batch.value, Stamp(f))
                             && Upserts(after, stored, news, |records|)
    case RequestPartial =>
      after == Materialized(stored, if r.request.providerKey == provider then Summary(0, 0) else SkippedAsset)
    case _ => after == Materialized(stored, SkippedAsset)
  }

  predicate Upserts(after: Materialized, stored: Bars, news: seq<NewBar>, total: nat) {
    var u := UpsertMany(stored, news);
    after == Materialized(u.bars, Summary(u.written, total - u.written))
  }

  lemma ConveyedBarsArrive(reading: Reading, stored: Bars, r: RawResult, provider: RuntimeProvider,
                           primary: Fetch, fallback: Fetch, instruments: Instruments)
    requires Conveys(reading, r, provider, primary, fallback, instruments)
    ensures Arrives(UpsertReading(reading, stored, instruments), stored, r, provider, primary, fallback, instruments)
  {
    if r.requestStatus == RequestSucceeded {
      var entries := reading.attempt.sidecar.value;
      var news := BuildNewBars(instruments, entries);
      EntriesArrive(entries, news, stored, instruments);
      if news.Some? {
        NothingWrittenIff(stored, news.value);
        assert Upserts(UpsertReading(reading, stored, instruments), stored, news.value, |entries|);
      }
    } else if r.requestStatus == RequestPartial {
      NoEntries(stored, instruments);
    }
  }

  // ---------- the two assets of one partition ----------

  /** What a provider answers; the adapter itself decides which request it was asked for. */
  datatype Answer = AnswerRaises | Answers(attempt: FetchedAttempt, batch: Option<FetchedBatch<FetchedBar>>, now: int)

  function Asked(request: LogicalKey, a: Answer): Fetch {
    if a.AnswerRaises? then FetchRaises else Fetches(Fetched(request, a.attempt, a.batch), a.now)
  }

  /** The request of every primary adapter: the symbols in the order they came. */
  function PrimaryRequest(digest: string -> string, provider: RuntimeProvider, day: RequestKeys.Date,
                          symbols: seq<string>): LogicalKey {
    DailyKey(provider, RequestKeys.MakeKey(digest, day, day, symbols))
  }

  /** The request of the baostock adapter: the symbols sorted. */
  function BaostockRequest(digest: string -> string, day: RequestKeys.Date, symbols: seq<string>): LogicalKey {
    DailyKey(BAOSTOCK, RequestKeys.MakeKey(digest, day, day, Ordering.SortBy(symbols, Ordering.StrLe)))
  }

  /** The raw asset of one day over the personal universe, then the consumer of the same day:
      nothing about keys is assumed. Both adapters are asked for the universe, the universe is
      sorted, so both requests carry the consumer's key, and the fetched bars arrive. */
  lemma PartitionReachesDailyBars(
    history: seq<Event>, more: seq<Event>, provider: RuntimeProvider, enabled: bool, stored: Bars,
    instruments: Instruments, digest: string -> string, day: RequestKeys.Date, isDigit: char -> bool,
    groups: PersonalUniverse.Groups, names: seq<string>, symbols: seq<string>, primary: Answer, fallback: Answer)
    requires PersonalUniverse.Symbols(isDigit, groups, names) == Done(symbols)
    requires RawRun(Run(history), provider, enabled, Asked(PrimaryRequest(digest, provider, day, symbols), primary),
                    Asked(BaostockRequest(digest, day, symbols), fallback)).result.Done?
    requires WellTimed(history, provider, RequestKeys.MakeKey(digest, day, day, symbols),
                       Asked(PrimaryRequest(digest, provider, day, symbols), primary),
                       Asked(BaostockRequest(digest, day, symbols), fallback))
    requires forall e :: e in more ==>
      EventKey(e) != PrimaryRequest(digest, provider, day, symbols) && EventKey(e) != BaostockRequest(digest, day, symbols)
    ensures var first, second := Asked(PrimaryRequest(digest, provider, day, symbols), primary),
                                 Asked(BaostockRequest(digest, day, symbols), fallback);
            var w := RawRun(Run(history), provider, enabled, first, second);
            var reading := Consume(Extend(w.tables, more), provider, enabled, RequestKeys.MakeKey(digest, day, day, symbols));
            Arrives(UpsertReading(reading, stored, instruments), stored, w.result.value, provider, first, second, instruments)
  {
    var key := RequestKeys.MakeKey(digest, day, day, symbols);
    var first, second := Asked(PrimaryRequest(digest, provider, day, symbols), primary),
                         Asked(BaostockRequest(digest, day, symbols), fallback);
    PersonalUniverse.UniverseIsSorted(isDigit, groups, names);
    RequestKeys.SortedSymbolsShareTheirKey(digest, day, day, symbols);
    LastRunReachesTheConsumer(history, more, provider, enabled, key, first, second, instruments);
    var w := RawRun(Run(history), provider, enabled, first, second);
    ConveyedBarsArrive(Consume(Extend(w.tables, more), provider, enabled, key), stored, w.result.value, provider,
                       first, second, instruments);
  }
}
