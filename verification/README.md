# Verified model of the evidence pipeline

This project models the part of the invest platform that decides what evidence
is stored, what is read back from it and what is published on the strength of
it, and proves what holds over every run of those steps.

- **The provider evidence ledger.** Three raw writers append attempts and batches
  under a logical request and rewrite its status, each inside one unit of work.
  A later asset works out from the tables alone which provider and which attempt
  to read. `Evidence`, `Ledger` and `DailyBarsAssets` give the tables, one
  transaction and whole runs as values; `LedgerStore` performs the same
  transactions row by row on mutable tables and is proved against them.
  `DailyBarsPipeline` joins both assets over the symbols of `PersonalUniverse`:
  whatever was written before, the bars that reach `core.daily_bars` are the bars
  the last run fetched.
- **The sidecar.** `DecimalText` and `Sidecar` print and parse the fixed-point
  text stored with an attempt; `DailyBarStore` rebuilds bars from it and applies
  the revision rule of `core.daily_bars`. `RequestKeys` is the bounded key.
- **Market breadth.** `MarketBreadth` has both generations of the selector and
  their all-or-nothing publication.
- **The candidate pool.** `CandidatePool` treats the six-part natural key as a
  cache of a pure calculation over an append-only history of bar revisions;
  `CandidatePoolStore` is the service on mutable tables; `Migration0024` is the
  key change and the way back.
- **Coverage.** `CoverageReport`, `ProviderQuality`, `BackfillPlan` and
  `CoverageMerge` are four judgements of the same rows and the merge of reports.
- **Reconciliation and backfill.** `Reconciliation` is the keyed two-way diff;
  `HistoricalBackfill` the chunk plan and its fail-closed loop.

`Wrappers`, `Ordering` and `Sequences` hold what several modules share.

Dates and times are integers, `Decimal` arithmetic is exact over the reals, and a
unit of work is one atomic step that is rolled back when it raises.

## What the proofs found

- The comment at `apps/pipeline/src/invest_pipeline/etf_daily_bars.py:434-441` calls
  `attempt_no` the primary selection key. The code sorts by `finished_at` first, so a
  clock that steps back hides the newer attempt. `UpsertReadsLast` is the exact
  condition, `BackwardClockHidesNewerAttempt` the example.
- Numbering reads only the 1000 lowest attempts while the table forbids repeats, so a
  request accepts 1001 attempts and then rejects every write (`AttemptCount`).
- When a fallback call raises, the failed primary is committed and a later consumer may
  read the baostock attempt of an older run (`OlderRunIsRead`).
  `AbortedFallbackReadsOlderRun` tells exactly when it skips, finds nothing, or reads the
  last of those attempts.
- `upsert_etf_instruments` reads the first success among the ten lowest attempts, not the
  latest as its docstring says. `InstrumentsReadOlderSuccess` is a run where the two differ,
  `InstrumentReadsLastIff` says exactly when they do not, and no later writes change what is
  read (`InstrumentReadNeverChanges`).
- The plan and the failed symbols agree for a provider that has a row in the report;
  for an absent provider everything is failed and nothing is planned.
- Quality is monotone except in one case: under an SLA of zero days a provider whose latest
  covered end was the as-of date loses freshness when an end moves past it. The score still
  does not fall when enough symbols became good and complete (`QualityMonotoneIff`);
  publishability at the defaults is lost (`PublishabilityKeptIff`, `PastEndsLoseQuality`).
  An SLA of one day or more loses nothing, because a negative age counts as fresh.
- Repeating an upsert is free exactly when the list of bars is self-consistent
  (`UpsertIdempotentIff`).
- A profile record with an empty text field reads back with None there
  (`ProfileRoundTrip`).
- The baostock adapter keys its request by sorted symbols, the other adapters and the
  consumer by the symbols as given. For an arbitrary list the keys meet only when it is sorted
  (`SortedKeyAgrees`); both assets pass the personal universe, which is sorted
  (`UniverseIsSorted`), so theirs always meet (`PartitionReachesDailyBars`).
- One publication for a five-part key that existed before migration 0024 makes
  `downgrade` refuse for good (`RepublishingALegacyKeyBlocksDowngrade`).

## Model

| member | source | states |
|---|---|---|
| `LedgerStore.Store.constructor` | apps/migrations/migrations/versions/20260731_0002_provider_three_layer.py:71-234 | a fresh schema holds no request, attempt or batch |
| `LedgerStore.Store.GetOrCreateRequest` | packages/storage/src/invest_storage/repositories.py:689-708 | an existing logical request is returned untouched; only a missing one is inserted, as pending |
| `LedgerStore.Store.AddAttempt` | packages/storage/src/invest_storage/repositories.py:744-763 | an insert is refused exactly when the finish precedes the start or the request already uses the number; otherwise one row is appended and nothing else moves |
| `LedgerStore.Store.AddBatch` | packages/storage/src/invest_storage/repositories.py:891-905 | one batch row is appended |
| `LedgerStore.Store.MarkSucceeded` | packages/storage/src/invest_storage/repositories.py:793-823 | status, finish time, hash and sidecar of that one attempt are set; number, request and start stay |
| `LedgerStore.Store.MarkStatus` | packages/storage/src/invest_storage/repositories.py:710-724 | status and completion time of that one request are set |
| `LedgerStore.Store.Rollback` | packages/storage/src/invest_storage/unit_of_work.py:955-971 | leaving the unit of work by an exception restores all three tables |
| `LedgerStore.Store.Open` | apps/pipeline/src/invest_pipeline/etf_daily_bars.py:197-214 | resolves the request and picks the attempt number: suggested when there is none, otherwise one more than the greatest of the 1000 lowest numbers |
| `LedgerStore.Store.StoreFailure` | apps/pipeline/src/invest_pipeline/etf_daily_bars.py:216-243 | a failed fetch leaves one failed attempt with stage and code, a failed request and no batch, or is refused by a constraint |
| `LedgerStore.Store.StoreRunningThenSucceeded` | apps/pipeline/src/invest_pipeline/etf_daily_bars.py:245-313 | the running row, the batch, the sidecar and the completion, for each of the four ways the branch can end |
| `LedgerStore.Store.WriteDailyBarsRaw` | apps/pipeline/src/invest_pipeline/etf_daily_bars.py:139-313 | the whole writer refines the one-step transaction WriteDaily, result included; every raised error leaves all three tables as they were |
| `LedgerStore.Store.StoreSucceeded` | apps/pipeline/src/invest_pipeline/etf_profiles.py:334-391 | the one-step success branch of the profile and instrument writers |
| `LedgerStore.Store.WriteRecordsRaw` | apps/pipeline/src/invest_pipeline/etf_instruments.py:141-280 | the one-step writers commit exactly their draft, or are rejected and change nothing |
| `LedgerStore.Store.RunRawAsset` | apps/pipeline/src/invest_pipeline/assets.py:373-395 | the asset with its transient fallback refines RawRun: the failed primary stays committed, and only akshare with baostock enabled falls back |
| `LedgerStore.Store.SelectForUpsert` | apps/pipeline/src/invest_pipeline/assets.py:483-546 | the branches that pick provider and request in the asset compute Consume |
| `Ledger.MaxNumber` | apps/pipeline/src/invest_pipeline/etf_daily_bars.py:210-211 | the greatest attempt number among the rows read |
| `Ledger.NextNumberFresh` | apps/pipeline/src/invest_pipeline/etf_daily_bars.py:207-214 | the next number is already taken exactly when more than 1000 attempts are stored; below that it continues the numbering without a gap |
| `Ledger.CommitKeepsNumbers` | apps/migrations/migrations/versions/20260731_0002_provider_three_layer.py:137-140 | an accepted attempt keeps the numbers of every request contiguous and at most 1001 in number |
| `Ledger.CommitKeepsRequests` | apps/pipeline/src/invest_pipeline/etf_daily_bars.py:300-304 | a commit leaves every request's status and completion time decided by its last attempt |
| `Ledger.CommitKeepsFinal` | apps/migrations/migrations/versions/20260731_0002_provider_three_layer.py:146-167 | a commit never leaves a running attempt; failed ones carry stage and code, succeeded ones a hash |
| `Ledger.CommitKeepsBatches` | apps/migrations/migrations/versions/20260731_0002_provider_three_layer.py:190-234 | every batch belongs to one succeeded attempt of its own request, counts its sidecar and shares its hash; no attempt has two |
| `Ledger.CommitKeepsSidecars` | apps/pipeline/src/invest_pipeline/etf_daily_bars.py:255-289 | every attempt that carries a sidecar has its batch |
| `Ledger.StepKeepsInv` | apps/pipeline/src/invest_pipeline/etf_daily_bars.py:196-313 | one write of any of the three writers, committed or rolled back, keeps the ledger invariant |
| `Ledger.ReachableLedger` | apps/pipeline/src/invest_pipeline/etf_daily_bars.py:196-313 | the ledger invariant holds after every sequence of writes by the three writers |
| `Ledger.EvidenceAppendOnly` | packages/storage/src/invest_storage/repositories.py:744-823 | over any continuation of a run the committed attempts and batches stay a prefix of what is stored: nothing is altered or removed |
| `Ledger.TwoStepWriterCommitsOneStepShape` | apps/pipeline/src/invest_pipeline/etf_daily_bars.py:245-313 | the transactions of the two kinds of writer agree on the same entries, or there is none when a symbol does not resolve |
| `LedgerStore.WriteBothWays` | apps/pipeline/src/invest_pipeline/etf_profiles.py:298-391 | run from equal tables, the writer that stores a running attempt and completes it later and a one-step writer given the same entries end with equal tables and matching results; with an unresolved symbol the first leaves its tables alone |
| `Ledger.AttemptCount` | apps/pipeline/src/invest_pipeline/etf_daily_bars.py:207-214 | after any run a request holds one attempt per storable fetch, cut at 1001 |
| `Ledger.BoundIsReached` | apps/pipeline/src/invest_pipeline/etf_daily_bars.py:207-214 | n copies of a storable write leave min(n, 1001) attempts: the bound is reached and every later write is rejected |
| `Ledger.RecordsAreStored` | apps/pipeline/src/invest_pipeline/etf_instruments.py:141-280 | what the one-step writers store, field by field: one attempt more under the next number, its stage defaulting to provider and its missing or empty code to unknown_error, 64 zeros as the hash of a missing batch, the batch row, the request status; refused exactly when it ends before it starts or more than 1000 attempts are there |
| `Ledger.ProfilesAreStored` | apps/pipeline/src/invest_pipeline/etf_profiles.py:171-391 | the same for profiles, whose sidecar holds each record's fields under their own names |
| `Ledger.BarsAreStored` | apps/pipeline/src/invest_pipeline/etf_daily_bars.py:196-313 | the same for the daily-bars writer: each bar's seven texts under their own names, with symbol, date, status, provider, batch and the first bar's observation time; nothing is stored exactly when also a symbol does not resolve |
| `DailyBarsAssets.LatestSucceeded` | apps/pipeline/src/invest_pipeline/etf_daily_bars.py:424-447 | a succeeded attempt that no other succeeded attempt beats on (finished_at, attempt_no); none exactly when none succeeded |
| `DailyBarsAssets.HighestNumbered` | apps/pipeline/src/invest_pipeline/assets.py:499-503 | the highest-numbered attempt among those read |
| `DailyBarsAssets.WriteIsAnswered` | apps/pipeline/src/invest_pipeline/etf_daily_bars.py:139-313 | which error a write raises and when, and otherwise each field of the result it returns |
| `DailyBarsAssets.FallbackIsForTimeouts` | apps/pipeline/src/invest_pipeline/etf_daily_bars.py:316-352 | the fallback runs on top of the committed primary exactly for akshare with baostock enabled, after a stored failure with code ProviderTimeoutError or ProviderUnavailableError; in every other case the run is its primary write |
| `DailyBarsAssets.ConsumerChooses` | apps/pipeline/src/invest_pipeline/assets.py:483-546 | which request the consumer reads: its own unless it failed; then baostock's exactly when provider, flag, the last attempt read and that request's status allow it; otherwise it skips |
| `DailyBarsAssets.UpsertReadsLast` | apps/pipeline/src/invest_pipeline/etf_daily_bars.py:411-447 | exactly when the upsert reads the last attempt: it is within the 1000 rows read and no earlier success finished later |
| `DailyBarsAssets.UpsertOfSucceeded` | apps/pipeline/src/invest_pipeline/etf_daily_bars.py:411-447 | what is read of a request marked succeeded: nothing exactly when more than 1000 attempts are stored and the first 1000 did not succeed, otherwise one of its successes, and exactly which case gives the last |
| `DailyBarsAssets.BackwardClockHidesNewerAttempt` | apps/pipeline/src/invest_pipeline/etf_daily_bars.py:434-447 | a concrete run of two successes with clocks going backwards where the newer attempt is not the one read |
| `DailyBarsAssets.CommitEffect` | apps/pipeline/src/invest_pipeline/etf_daily_bars.py:196-313 | the committed attempt is the last of its request and decides its status; every other request is undisturbed |
| `DailyBarsAssets.WriteDailyCommits` | apps/pipeline/src/invest_pipeline/etf_daily_bars.py:196-313 | a write that does not raise is the commit of its draft, and the draft was acceptable |
| `DailyBarsAssets.WriteDailyEffect` | apps/pipeline/src/invest_pipeline/etf_daily_bars.py:196-313 | the result a completed write returns describes the last attempt and the status stored for its request, in a ledger that keeps the invariant; other requests are undisturbed |
| `DailyBarsAssets.WriteDailyIsAStep` | apps/pipeline/src/invest_pipeline/etf_daily_bars.py:139-313 | a write is one ledger event, so ledgers left by raw runs are reachable |
| `DailyBarsAssets.ConsumerReadsLastRun` | apps/pipeline/src/invest_pipeline/assets.py:483-546 | after any completed raw run the consumer reads that run's own attempt when it succeeded, by primary or by fallback, and skips when it failed |
| `DailyBarsAssets.ConsumerAfterAnyHistory` | apps/pipeline/src/invest_pipeline/assets.py:483-546 | the same after any history of writes before and any writes of other requests after |
| `DailyBarsAssets.UnrelatedWritesDoNotMatter` | apps/pipeline/src/invest_pipeline/etf_daily_bars.py:411-447 | no sequence of writes for other requests changes what can be read of a request |
| `DailyBarsAssets.AbortedFallback` | apps/pipeline/src/invest_pipeline/etf_daily_bars.py:316-352 | when the fallback call raises, the run leaves the failed primary only, and the consumer skips or does what an upsert of the older baostock request does |
| `DailyBarsAssets.AbortedFallbackReadsOlderRun` | apps/pipeline/src/invest_pipeline/assets.py:483-523 | then the consumer skips exactly when the older baostock request is not marked succeeded, and otherwise reads from its attempts; finding nothing, some success or the last one are told apart exactly |
| `DailyBarsAssets.OlderRunIsRead` | apps/pipeline/src/invest_pipeline/assets.py:483-523 | a concrete run: a baostock success, then an akshare timeout whose fallback raises; the older attempt is read |
| `DailyBarsAssets.InstrumentReadsLastIff` | apps/pipeline/src/invest_pipeline/etf_instruments.py:329-339 | the instruments upsert reads the latest success exactly when it is the only success and lies among the ten lowest-numbered attempts |
| `DailyBarsAssets.InstrumentReadsFirst` | apps/pipeline/src/invest_pipeline/etf_instruments.py:329-339 | what is read is the first success among the ten lowest-numbered attempts, and nothing exactly when none of them succeeded |
| `DailyBarsAssets.InstrumentsReadOlderSuccess` | apps/pipeline/src/invest_pipeline/etf_instruments.py:283-339 | a concrete run of two successful writes, the second later, where the second is not the one read |
| `DailyBarsAssets.InstrumentReadNeverChanges` | apps/pipeline/src/invest_pipeline/etf_instruments.py:329-339 | once an attempt is read, or ten are stored, no later sequence of writes changes what is read |
| `DailyBarsPipeline.RunIsReachable` | apps/pipeline/src/invest_pipeline/assets.py:373-395 | a completed raw run on top of any history is again a history of one or two ledger events |
| `DailyBarsPipeline.RowsFinishBy` | apps/pipeline/src/invest_pipeline/etf_daily_bars.py:196-313 | no stored attempt of a request finished later than the latest of the writes that produced it |
| `DailyBarsPipeline.RunHolds` | apps/pipeline/src/invest_pipeline/etf_daily_bars.py:255-313 | the ids in a run's result name rows that hold exactly what the fetch it came from delivered |
| `DailyBarsPipeline.RunIsVisible` | apps/pipeline/src/invest_pipeline/etf_daily_bars.py:411-413 | under 1000 earlier storable writes, the run's attempt is within the rows the consumer reads |
| `DailyBarsPipeline.RunFinishesLast` | apps/pipeline/src/invest_pipeline/etf_daily_bars.py:424-447 | when no earlier write of the two requests finished later, neither did any stored success |
| `DailyBarsPipeline.LastRunReachesTheConsumer` | apps/pipeline/src/invest_pipeline/assets.py:483-546 | with premises about the inputs only: the list rebuilt from what the consumer reads is refused exactly when a fetched bar is, and otherwise is the known fetched bars in order, number for number under its own name; a failed run gives it nothing, a partial one a bare attempt if the primary's and nothing if the fallback's |
| `DailyBarsPipeline.UpsertSidecar` | apps/pipeline/src/invest_pipeline/etf_daily_bars.py:447-462 | the end of the upsert with its two early returns computes the rebuild, the upsert and the counts that ConveyedBarsArrive speaks about |
| `DailyBarsPipeline.EtfDailyBars` | apps/pipeline/src/invest_pipeline/assets.py:483-546 | the consuming asset on mutable tables: selection, read, rebuild and upsert in one |
| `DailyBarsPipeline.ConveyedBarsArrive` | apps/pipeline/src/invest_pipeline/etf_daily_bars.py:447-462 | what a conveyed run does to the table: a refused bar, a failed or a partial run changes nothing; otherwise each fetched day of a known instrument shows its last bar as the latest revision, a day fetched once gains at most that revision, other days are untouched, and the counts are those of the upsert |
| `DailyBarsPipeline.PartitionReachesDailyBars` | apps/pipeline/src/invest_pipeline/assets.py:360-546 | both assets of one day over the personal universe, end to end: no assumption about request keys, and core.daily_bars shows what the last run fetched, said of the fetched records and the tables alone |
| `DecimalText.NumberOfDigits` | apps/pipeline/src/invest_pipeline/etf_daily_bars.py:569-592 | the digits printed for a coefficient spell that coefficient |
| `DecimalText.ValueMeaning` | apps/pipeline/src/invest_pipeline/etf_daily_bars.py:569-602 | a decimal is its coefficient times ten to its exponent, with its sign |
| `DecimalText.Printed` | apps/pipeline/src/invest_pipeline/etf_daily_bars.py:569-592 | concrete texts: zeros kept behind the point and padded before it, a positive exponent written out, a scaled zero printed as 0 |
| `DecimalText.ReadSpecially` | apps/pipeline/src/invest_pipeline/etf_daily_bars.py:595-602 | absent and empty texts read as no number, a text that is no number is an error |
| `DecimalText.FormatParse` | apps/pipeline/src/invest_pipeline/etf_daily_bars.py:569-602 | printing with "f" and parsing gives an equal number for every decimal |
| `DecimalText.NormalSameValue` | apps/pipeline/src/invest_pipeline/etf_daily_bars.py:569-602 | the decimal read back denotes the same number, and is digit for digit the same exactly when the exponent is not positive |
| `DecimalText.OptionRoundTrip` | apps/pipeline/src/invest_pipeline/etf_daily_bars.py:595-602 | the same for optional values: None stays None |
| `Sidecar.ValuesRoundTrip` | apps/pipeline/src/invest_pipeline/etf_daily_bars.py:543-592 | all seven OHLCV values survive the sidecar as numbers |
| `Sidecar.BuildEntries` | apps/pipeline/src/invest_pipeline/etf_daily_bars.py:273-289 | one entry per bar in order, stamped alike; fails exactly when a symbol does not resolve |
| `Sidecar.ProfileRoundTrip` | apps/pipeline/src/invest_pipeline/etf_profiles.py:171-253 | a profile record always reads back; it reads back as itself exactly when neither text field is the empty string, and a second trip changes nothing more |
| `DailyBarStore.CollectNewBars` | apps/pipeline/src/invest_pipeline/etf_daily_bars.py:465-519 | the loop rebuilds every entry, drops unknown instruments and fails on the first bad entry |
| `DailyBarStore.SidecarCarriesBars` | apps/pipeline/src/invest_pipeline/etf_daily_bars.py:465-519 | said of the fetched bars: the list is refused exactly when a symbol starts with none of 1, 2, 5 and 6 or a known instrument's numbers break the written-out price rules; otherwise it is the bars whose symbol is an SSE (5, 6) or SZSE (1, 2) instrument, in order, with that instrument's id, each number under its own name, status, provider, batch and time |
| `DailyBarStore.EveryBarArrives` | apps/pipeline/src/invest_pipeline/etf_daily_bars.py:465-519 | when every fetched bar is of a known instrument and sound, the list holds one bar per record, in order |
| `DailyBarStore.UnreadableEntry` | apps/pipeline/src/invest_pipeline/etf_daily_bars.py:487-592 | a text that does not parse fails a known instrument's entry; an unknown instrument's texts are never looked at |
| `DailyBarStore.FetchedBarsShow` | packages/storage/src/invest_storage/repositories.py:1217-1278 | after the rebuilt list is upserted every fetched day shows its last known bar as the latest revision, a day fetched once gains at most that one revision with the run's stamp, and other days are untouched |
| `DailyBarStore.UpsertOne` | packages/storage/src/invest_storage/repositories.py:1217-1278 | one bar adds one revision at the end of its own day exactly when the latest has other content, and counts it; no other day moves |
| `DailyBarStore.UpsertInTurn` | packages/storage/src/invest_storage/repositories.py:1217-1278 | two lists in turn are the joined list, and the counts add up |
| `DailyBarStore.NothingWrittenIff` | packages/storage/src/invest_storage/repositories.py:1217-1278 | an upsert writes nothing exactly when every bar is the latest revision already, exactly when the table is unchanged; histories only grow at the end |
| `DailyBarStore.UpsertLeavesUpToDate` | packages/storage/src/invest_storage/repositories.py:1217-1278 | after an upsert of a self-consistent list every one of its bars is the latest revision |
| `DailyBarStore.LatestIffConsistent` | packages/storage/src/invest_storage/repositories.py:1217-1278 | after an upsert all bars of the list are latest revisions exactly when the list does not contradict itself |
| `DailyBarStore.UpsertIdempotentIff` | packages/storage/src/invest_storage/repositories.py:1217-1278 | repeating an upsert writes nothing exactly when the list does not contradict itself about an instrument and day |
| `DailyBarStore.Repository.constructor` | packages/storage/src/invest_storage/repositories.py:965-966 | an empty table |
| `DailyBarStore.Repository.Upsert` | packages/storage/src/invest_storage/repositories.py:1217-1278 | the loop computes the revision rule, leaves old revisions alone and reports how many rows it added |
| `RequestKeys.KeyBounded` | apps/pipeline/src/invest_pipeline/request_keys.py:10-27 | every key has between 1 and 128 characters, for any symbols |
| `RequestKeys.KeyForm` | apps/pipeline/src/invest_pipeline/request_keys.py:10-27 | the two texts of a key: the symbols joined by dashes up to 95 characters, beyond that the digest of the symbols joined by commas, each behind both dates |
| `RequestKeys.JoinSnoc` | apps/pipeline/src/invest_pipeline/request_keys.py:10-27 | the separator stands between any two symbols, in order |
| `RequestKeys.ReadableUpToThirteen` | apps/pipeline/src/invest_pipeline/request_keys.py:10-27 | six-digit symbols keep the readable form exactly up to thirteen of them |
| `RequestKeys.JoinInjective` | apps/pipeline/src/invest_pipeline/request_keys.py:10-27 | a joined list of six-digit symbols determines the list |
| `RequestKeys.KeyInjective` | apps/pipeline/src/invest_pipeline/request_keys.py:10-27 | equal keys imply equal dates and equal symbol lists, across both forms, unless the digest itself collides |
| `RequestKeys.DashedSymbolsShareAKey` | apps/pipeline/src/invest_pipeline/request_keys.py:10-27 | a concrete pair of lists showing the six-digit condition is needed |
| `RequestKeys.SortedKeyAgrees` | apps/pipeline/src/invest_pipeline/adapters/baostock/adapter.py:97-104 | for any six-digit list, the key over the sorted symbols meets the key over the given ones exactly when the list is sorted |
| `RequestKeys.SortedSymbolsShareTheirKey` | apps/pipeline/src/invest_pipeline/adapters/baostock/adapter.py:97-104 | for a sorted list, whatever its symbols look like, the two keys are the same |
| `PersonalUniverse.CollectSymbols` | apps/pipeline/src/invest_pipeline/personal_universe.py:507-536 | the nested loops yield the sorted set of all listed symbols, or the error of an invalid entry or of an empty universe |
| `PersonalUniverse.UniverseIsSorted` | apps/pipeline/src/invest_pipeline/personal_universe.py:289-340 | a loaded universe is not empty, sorted, without repetition, and holds exactly the symbols of the enabled groups |
| `PersonalUniverse.UniverseErrors` | apps/pipeline/src/invest_pipeline/personal_universe.py:289-536 | exactly when a universe is refused: an unknown group, else an entry that is no text of six digits, else no symbol at all |
| `MarketBreadth.Window` | apps/pipeline/src/invest_pipeline/market_breadth_service.py:356-381 | only stored bars whose date lies in the last `days` calendar days up to the as-of date |
| `MarketBreadth.UniverseWindows` | apps/pipeline/src/invest_pipeline/market_breadth_service.py:356-407 | the two selectors read the bars of the last 60 and 400 calendar days, the day itself included |
| `MarketBreadth.NormalBarsAre` | apps/pipeline/src/invest_pipeline/market_breadth_service.py:436-440 | the bars averaged are those with status normal, in order |
| `MarketBreadth.AverageClose` | apps/pipeline/src/invest_pipeline/market_breadth_service.py:441-449 | the collecting loop (and its two v2 copies, lines 513-531) computes the mean that SelectFields spells out, exactly when every close is usable; its guard against a non-positive average never fires |
| `MarketBreadth.SelectBreadthInput` | apps/pipeline/src/invest_pipeline/market_breadth_service.py:410-470 | the v1 early-exit selector computes Select, whose meaning SelectAccepts and SelectFields give |
| `MarketBreadth.SelectAccepts` | apps/pipeline/src/invest_pipeline/market_breadth_service.py:410-470 | v1 accepts exactly when the latest bar is of the day with positive closes and the last twenty normal bars have positive closes |
| `MarketBreadth.SelectFields` | apps/pipeline/src/invest_pipeline/market_breadth_service.py:410-470 | close and previous close are the latest bar's own, ma20 is the twenty closes added up over 20, the status is the raw text when normal or suspended and unknown otherwise |
| `MarketBreadth.RaisedClose` | apps/pipeline/src/invest_pipeline/market_breadth_service.py:441-449 | raising any one of the twenty averaged closes by d raises ma20 by d/20 |
| `MarketBreadth.EqualCloses` | apps/pipeline/src/invest_pipeline/market_breadth_service.py:441-449 | twenty equal closes average to that close |
| `MarketBreadth.CompareExtremes` | apps/pipeline/src/invest_pipeline/market_breadth_service.py:550-562 | the collected highs and lows decide the two flags, unless one of them is unusable |
| `MarketBreadth.SelectBreadthInputV2` | apps/pipeline/src/invest_pipeline/market_breadth_service.py:481-575 | the v2 early-exit selector computes SelectV2, whose meaning SelectV2Accepts, SelectV2Fields and V2Meaning give |
| `MarketBreadth.SelectV2Accepts` | apps/pipeline/src/invest_pipeline/market_breadth_service.py:481-575 | v2 accepts exactly when all four prices of the latest bar, the last sixty closes and the last 250 highs and lows of normal bars are positive |
| `MarketBreadth.SelectV2Fields` | apps/pipeline/src/invest_pipeline/market_breadth_service.py:481-575 | the same fields as v1, and ma60 is the sixty closes added up over 60 |
| `MarketBreadth.RaisedCloseV2` | apps/pipeline/src/invest_pipeline/market_breadth_service.py:513-531 | raising any one of the sixty closes by d raises ma60 by d/60, and ma20 by d/20 exactly if it is among the last twenty |
| `MarketBreadth.ShorterWindowIsSuffix` | apps/pipeline/src/invest_pipeline/market_breadth_service.py:356-407 | the 60-day window is a suffix of the 400-day window of a date-ordered history |
| `MarketBreadth.V1AgreesWithV2` | apps/pipeline/src/invest_pipeline/market_breadth_service.py:356-575 | when v2 accepts, v1 accepts exactly when its own window holds twenty normal bars, and then close, previous close, ma20, date and status are equal |
| `MarketBreadth.OlderBarsDoNotMatter` | apps/pipeline/src/invest_pipeline/market_breadth_service.py:503-575 | once 250 normal bars are there, whatever older bars come before them the v2 input is the same |
| `MarketBreadth.AverageIsBetweenExtremes` | apps/pipeline/src/invest_pipeline/market_breadth_service.py:513-531 | an average lies between the least and the greatest value it averages |
| `MarketBreadth.V2Averages` | apps/pipeline/src/invest_pipeline/market_breadth_service.py:511-531 | both averages of every accepted input lie between the least and greatest close they average, whatever the latest bar's status |
| `MarketBreadth.V2Meaning` | apps/pipeline/src/invest_pipeline/market_breadth_service.py:550-562 | a new high (low) is one that reaches the window maximum (minimum); for an instrument trading normally that means being equal to it |
| `MarketBreadth.SnapshotTable.constructor` | packages/storage/src/invest_storage/repositories.py:4932-4933 | an empty table |
| `MarketBreadth.SnapshotTable.Add` | packages/storage/src/invest_storage/repositories.py:4935-4971 | a snapshot already stored is not stored again |
| `MarketBreadth.Gather` | apps/pipeline/src/invest_pipeline/market_breadth_service.py:629-654 | the inputs of the whole universe in order, or none of them |
| `MarketBreadth.Publish` | apps/pipeline/src/invest_pipeline/market_breadth_service.py:578-666 | a date mismatch changes nothing; otherwise one snapshot of all inputs or of none, and the count is the universe's size or zero |
| `MarketBreadth.PublishV2` | apps/pipeline/src/invest_pipeline/market_breadth_service.py:669-753 | the same for v2 |
| `MarketBreadth.PublicationsAgree` | apps/pipeline/src/invest_pipeline/market_breadth_service.py:578-753 | when v2 publishes a whole universe, v1 publishes it with the same inputs exactly when every 60-day window holds twenty normal bars, and otherwise publishes none of it |
| `CandidatePool.FindRun` | packages/storage/src/invest_storage/repositories.py:2882-2925 | finds a run with the six-part key, or there is none |
| `CandidatePool.FingerprintDeterminesSelection` | packages/domain/src/invest_domain/candidate_pool/fingerprint.py:67-103 | two selections drawn from one append-only history with equal fingerprints are the same selection |
| `CandidatePool.LoadedIsDrawn` | apps/pipeline/src/invest_pipeline/candidate_pool_service.py:320-370 | the selection loaded for a date picks the latest stored revisions of the snapshot's instruments, in their order |
| `CandidatePool.LoadedExactly` | apps/pipeline/src/invest_pipeline/candidate_pool_service.py:320-370 | the load is refused exactly when some listed instrument's last stored row breaks the written-out price rules; otherwise it holds the instruments that have a row for the date, once each and in order, at their last revision |
| `CandidatePool.EarlyErrors` | apps/pipeline/src/invest_pipeline/candidate_pool_service.py:424-437 | exactly when a call stops at the snapshot, the date or a bad bar, and that no failed call writes |
| `CandidatePool.PublishOutcome` | apps/pipeline/src/invest_pipeline/candidate_pool_service.py:424-489 | once loaded: the count and the repeated instrument each raise exactly when the key is not stored, the call is done exactly when it is stored or both checks pass, and the run it names or adds has the written-out key, counts, state and times |
| `CandidatePool.StepKeepsInv` | apps/pipeline/src/invest_pipeline/candidate_pool_service.py:424-489 | one publish, revision or snapshot keeps the pool invariant |
| `CandidatePool.ReachablePool` | apps/pipeline/src/invest_pipeline/candidate_pool_service.py:424-489 | after any interleaving, each run published since the migration is PUBLISHED and holds what the calculator makes of still-stored revisions under its own key |
| `CandidatePool.CacheAgreement` | apps/pipeline/src/invest_pipeline/candidate_pool_service.py:440-461 | whatever run a successful call returns, new or found, its stored items equal the result computed now; the tables change exactly when the key was new |
| `CandidatePool.HistoryNeverAltered` | apps/pipeline/src/invest_pipeline/candidate_pool_service.py:440-489 | over any interleaving committed runs and items are never altered or removed |
| `CandidatePool.RunsAreDistinctSuccessfulKeys` | apps/pipeline/src/invest_pipeline/candidate_pool_service.py:440-489 | the runs added are exactly as many as the distinct six-part keys of successful calls, and carry exactly those keys |
| `CandidatePool.RevisionForcesNewRun` | apps/pipeline/src/invest_pipeline/candidate_pool_service.py:424-461 | after a revision of any selected bar a successful call publishes a new run |
| `CandidatePool.RerunIsANoOp` | apps/pipeline/src/invest_pipeline/candidate_pool_service.py:440-461 | collecting the same self-consistent bars and publishing again returns the same result and changes nothing |
| `CandidatePoolStore.Store.constructor` | packages/storage/src/invest_storage/repositories.py:2828-2829 | starts from a given database state |
| `CandidatePoolStore.Store.LoadBarsForTradeDate` | apps/pipeline/src/invest_pipeline/candidate_pool_service.py:320-370 | the loop loads the latest revision per instrument, skips absent ones and fails on a row that builds no bar, as LoadedExactly spells out |
| `CandidatePoolStore.Store.AddRun` | packages/storage/src/invest_storage/repositories.py:2831-2874 | one run row is appended |
| `CandidatePoolStore.Store.BulkAdd` | packages/storage/src/invest_storage/repositories.py:3047-3078 | items are stored together, or refused together when an instrument repeats |
| `CandidatePoolStore.Store.Transition` | packages/storage/src/invest_storage/repositories.py:2994-3027 | moves one run along CALCULATED, VALIDATED, PUBLISHED and stamps the matching time; other runs stay |
| `CandidatePoolStore.Store.StoreRun` | apps/pipeline/src/invest_pipeline/candidate_pool_service.py:463-489 | the run, its items and both transitions end as one PUBLISHED run with all items, or leave nothing |
| `CandidatePoolStore.Store.CalculateAndPublish` | apps/pipeline/src/invest_pipeline/candidate_pool_service.py:373-489 | the service refines Publish, whose outcomes EarlyErrors and PublishOutcome give exactly |
| `Migration0024.Table.constructor` | apps/migrations/migrations/versions/20260902_0024_candidate_pool_market_data_fingerprint.py:68-79 | the table before the migration: five-part keys unique, no fingerprint |
| `Migration0024.Table.Upgrade` | apps/migrations/migrations/versions/20260902_0024_candidate_pool_market_data_fingerprint.py:82-120 | keeps the runs, gives each row its own sentinel, and the six-part constraint it adds always holds |
| `Migration0024.Table.Downgrade` | apps/migrations/migrations/versions/20260902_0024_candidate_pool_market_data_fingerprint.py:123-161 | refuses, before any change, exactly when two rows share the five-part key; otherwise restores five-part uniqueness over the same runs |
| `Migration0024.UpgradeThenDowngrade` | apps/migrations/migrations/versions/20260902_0024_candidate_pool_market_data_fingerprint.py:82-161 | up and straight down is the identity |
| `Migration0024.DowngradeAfterHistory` | apps/migrations/migrations/versions/20260902_0024_candidate_pool_market_data_fingerprint.py:123-161 | after any history downgrade is refused exactly when two different keys, among those there from the start and those of the successful calls, share their five-part key |
| `Migration0024.RepublishingALegacyKeyBlocksDowngrade` | apps/migrations/migrations/versions/20260902_0024_candidate_pool_market_data_fingerprint.py:123-161 | one successful publication for a pre-migration five-part key blocks downgrade for every continuation |
| `CoverageReport.MinStart` | apps/pipeline/src/invest_pipeline/provider_coverage_report.py:618-625 | the earliest start among the samples |
| `CoverageReport.MaxEnd` | apps/pipeline/src/invest_pipeline/provider_coverage_report.py:618-625 | the latest end among the samples |
| `CoverageReport.BuildProvider` | apps/pipeline/src/invest_pipeline/provider_coverage_report.py:718-798 | one row per covered symbol, in matrix order |
| `CoverageReport.BuiltReportIsValid` | apps/pipeline/src/invest_pipeline/provider_coverage_report.py:801-950 | a valid matrix builds a report that passes its own checks, with one row per provider and symbol in key order |
| `CoverageReport.BuiltRowMeaning` | apps/pipeline/src/invest_pipeline/provider_coverage_report.py:718-798 | each row of a built report: its symbol, the least start and greatest end over the samples, exactly the samples' fields, the probe's record count or 0, all of the probe's errors sorted by code, message, symbol and provider, and the requested fields |
| `CoverageReport.ReportHeader` | apps/pipeline/src/invest_pipeline/provider_coverage_report.py:801-950 | schema version 1, the given time, and the digest of the rows |
| `CoverageReport.CoveredFieldsAreTheUnion` | apps/pipeline/src/invest_pipeline/provider_coverage_report.py:579-594 | a row's fields are the sorted set, without repetition, of all fields of all its samples |
| `CoverageReport.FieldsTuple` | apps/pipeline/src/invest_pipeline/provider_coverage_report.py:579-594 | the loop that appends each name once and then sorts yields the sorted set of the names, without repetition |
| `CoverageReport.BuildProviderRow` | apps/pipeline/src/invest_pipeline/provider_coverage_report.py:740-798 | the rows of the first matrix entry with the key, whose meaning BuiltRowMeaning gives, or none exactly when no entry has it |
| `CoverageReport.BuildSymbolRows` | apps/pipeline/src/invest_pipeline/provider_coverage_report.py:748-784 | the appending loop builds the rows that BuiltRowMeaning describes, one per covered symbol, in order |
| `CoverageReport.BuildReportModel` | apps/pipeline/src/invest_pipeline/provider_coverage_report.py:801-950 | the loop over the matrix, its second lookup by key and its second canonicalisation of the requested fields compute BuildReport, whose rows BuiltRowMeaning describes |
| `ProviderQuality.FindProvider` | apps/pipeline/src/invest_pipeline/provider_quality.py:142-146 | the provider's row, or it is absent |
| `ProviderQuality.FindRow` | apps/pipeline/src/invest_pipeline/provider_quality.py:190-196 | the symbol's row, or it is absent |
| `ProviderQuality.CoveredIsGood` | apps/pipeline/src/invest_pipeline/provider_quality.py:190-216 | what is neither missing nor failed is exactly what is covered, field-complete and error-free |
| `ProviderQuality.CountsAgree` | apps/pipeline/src/invest_pipeline/provider_quality.py:177-254 | coverage is the share of good symbols and completeness the share of field-complete ones, and the first never exceeds the second |
| `ProviderQuality.RefusedSymbols` | apps/pipeline/src/invest_pipeline/provider_quality.py:132-139 | scoring is refused exactly for an empty list, a blank symbol or a repeated one |
| `ProviderQuality.MissingAndFailed` | apps/pipeline/src/invest_pipeline/provider_quality.py:190-213 | missing are exactly the expected symbols without a row, failed those whose row lacks a covered date or a supported field or has an error; both sorted, without repetition |
| `ProviderQuality.QualityIsWeighed` | apps/pipeline/src/invest_pipeline/provider_quality.py:214-254 | coverage and completeness are the shares of the symbols with a sound and with a complete row; ten times the score is three times their sum plus twice the sum of freshness score and reliability |
| `ProviderQuality.FreshnessIsRated` | apps/pipeline/src/invest_pipeline/provider_quality.py:153-223 | the age is that of the greatest covered end of an expected symbol, and status and score are the written-out conditions on age and SLA |
| `ProviderQuality.AbsentProviderScore` | apps/pipeline/src/invest_pipeline/provider_quality.py:177-254 | a provider without a row: everything missing and failed, no age, and only reliability counts |
| `ProviderQuality.ScoreWithinBounds` | apps/pipeline/src/invest_pipeline/provider_quality.py:177-254 | coverage never exceeds completeness, and the weighted score is within 0 and 1 before the clamp |
| `ProviderQuality.PerfectCounts` | apps/pipeline/src/invest_pipeline/provider_quality.py:190-213 | coverage 1 holds exactly when every expected symbol is good, and then nothing is missing, failed or incomplete |
| `ProviderQuality.DecideFromScore` | apps/pipeline/src/invest_pipeline/provider_quality.py:348-388 | which reasons are given and in which order; none exactly when publishable; bad thresholds are refused |
| `ProviderQuality.HealthyIff` | apps/pipeline/src/invest_pipeline/provider_health.py:104-129 | HEALTHY, enabled and publishable at the defaults, and every symbol good with a fresh latest end are one judgement |
| `ProviderQuality.HealthIsDiagnosed` | apps/pipeline/src/invest_pipeline/provider_health.py:104-129 | each of the five statuses exactly under its condition on the rows of the expected symbols |
| `ProviderQuality.FreshnessKeptIff` | apps/pipeline/src/invest_pipeline/provider_quality.py:153-174 | later covered ends never cost freshness, exactly unless the SLA is zero days and the latest end was the as-of date and no longer is |
| `ProviderQuality.PublishabilityKeptIff` | apps/pipeline/src/invest_pipeline/provider_quality.py:348-388 | an improved publishable provider stays publishable exactly when the SLA allows a day or its latest end is still the as-of date |
| `ProviderQuality.QualityMonotoneIff` | apps/pipeline/src/invest_pipeline/provider_quality.py:177-254 | more rows, more fields, fewer errors and later covered ends do not lower the score, exactly unless the day is lost and the newly good and complete symbols together fall short of two thirds of the symbols |
| `ProviderQuality.MonotoneUpToTheDay` | apps/pipeline/src/invest_pipeline/provider_quality.py:177-388 | with no covered end past the as-of date neither score nor publishability is ever lost |
| `ProviderQuality.LosingTheDay` | apps/pipeline/src/invest_pipeline/provider_quality.py:348-388 | every publishable provider that loses the day loses both score and publishability |
| `ProviderQuality.PastEndsLoseQuality` | apps/pipeline/src/invest_pipeline/provider_quality.py:153-174 | a concrete improvement, one covered end moved a day past the as-of date under a zero-day SLA, that loses both |
| `BackfillPlan.BuildPlan` | apps/pipeline/src/invest_pipeline/provider_coverage_plan.py:106-141 | the nested loops compute Plan |
| `BackfillPlan.PlanIsExact` | apps/pipeline/src/invest_pipeline/provider_coverage_plan.py:97-141 | the plan is in priority order and names exactly the rows with incomplete fields or an error |
| `BackfillPlan.PlanItems` | apps/pipeline/src/invest_pipeline/provider_coverage_plan.py:97-141 | an item is planned exactly when a row has an error or lacks a requested field, with that row's symbol, the provider's rank or 1000, and the mark of a failed probe |
| `BackfillPlan.PlanOrder` | apps/pipeline/src/invest_pipeline/provider_coverage_plan.py:106-141 | lower ranks first, within a rank failed probes first, then the symbols in order |
| `BackfillPlan.TiesInProviderOrder` | apps/pipeline/src/invest_pipeline/provider_coverage_plan.py:106-141 | items that compare equal stand in the order of their providers |
| `BackfillPlan.PlanRepeatsNothing` | apps/pipeline/src/invest_pipeline/provider_coverage_plan.py:106-141 | the plan of a valid report repeats no item |
| `BackfillPlan.BuiltRowAgrees` | apps/pipeline/src/invest_pipeline/provider_coverage_plan.py:97-103 | in a built report with the supported fields requested, a row needs collection exactly when the score calls it failed |
| `BackfillPlan.PlanAgreesWithScore` | apps/pipeline/src/invest_pipeline/provider_coverage_plan.py:106-141 | for every built report the planned expected symbols of a reported provider are exactly its failed symbols, and missing ones are never planned |
| `BackfillPlan.ProbeErrorIsPlanned` | apps/pipeline/src/invest_pipeline/provider_coverage_plan.py:106-141 | end to end, whatever the samples cover: an expected symbol with a captured probe error is failed in the score, makes the provider unpublishable and is planned as a failed probe |
| `BackfillPlan.AbsentProviderIsFailedButNotPlanned` | apps/pipeline/src/invest_pipeline/provider_quality.py:190-213 | a provider absent from the report has every symbol failed and none planned |
| `CoverageMerge.MergeOrderIndependent` | apps/pipeline/src/invest_pipeline/provider_coverage_merge.py:15-60 | permuting the reports changes neither the merged report nor the error raised |
| `CoverageMerge.MergeErrors` | apps/pipeline/src/invest_pipeline/provider_coverage_merge.py:15-60 | exactly when a merge raises which error, and that it names exactly the providers held more than once |
| `CoverageMerge.MergedFields` | apps/pipeline/src/invest_pipeline/provider_coverage_merge.py:15-60 | the common schema version, the greatest generation time, the digest of the sorted hashes, and all provider rows of all reports in strict key order |
| `CoverageMerge.MergeKeepsScores` | apps/pipeline/src/invest_pipeline/provider_coverage_merge.py:15-60 | a provider scores in the merge as in the one report that held it; one held nowhere stays absent |
| `CoverageMerge.MergedPlanIsJoinedPlans` | apps/pipeline/src/invest_pipeline/provider_coverage_merge.py:15-60 | the merged plan is the separate plans joined and put in priority order: nothing lost, invented or repeated |
| `CoverageMerge.MergedReportIsValid` | apps/pipeline/src/invest_pipeline/provider_coverage_merge.py:15-60 | merging valid reports gives a valid report |
| `Reconciliation.IndexByKey` | apps/pipeline/src/invest_pipeline/provider_consistency.py:177-195 | the dictionary holds exactly the bars by key, and is refused exactly when a key repeats |
| `Reconciliation.ComparedFields` | apps/pipeline/src/invest_pipeline/provider_consistency.py:198-214 | the differing fields of one pair, in field order |
| `Reconciliation.CompareCommon` | apps/pipeline/src/invest_pipeline/provider_consistency.py:263-271 | the loop over the common keys collects their differences in key order |
| `Reconciliation.CompareBatches` | apps/pipeline/src/invest_pipeline/provider_consistency.py:217-280 | the comparison with its checks in order computes Compare |
| `Reconciliation.FirstFaultIsRaised` | apps/pipeline/src/invest_pipeline/provider_consistency.py:217-262 | each error is raised exactly when its fault is the first the batches show, left before right; the comparison succeeds exactly when there is none |
| `Reconciliation.ReportNamesProviders` | apps/pipeline/src/invest_pipeline/provider_consistency.py:272-280 | the report names each side's own provider |
| `Reconciliation.ReportCountsKeys` | apps/pipeline/src/invest_pipeline/provider_consistency.py:217-280 | matched plus missing is the size of each batch, and the missing lists are exact and strictly ordered |
| `Reconciliation.MismatchesAreExact` | apps/pipeline/src/invest_pipeline/provider_consistency.py:198-280 | exactly one mismatch per common key and differing field, in strict (key, field) order |
| `Reconciliation.SwapMirrors` | apps/pipeline/src/invest_pipeline/provider_consistency.py:217-280 | swapping the batches mirrors the report, and one comparison succeeds exactly when the other does |
| `Reconciliation.RecordOrderDoesNotMatter` | apps/pipeline/src/invest_pipeline/provider_consistency.py:217-280 | permuting the records of either batch changes neither the report nor the kind of error |
| `HistoricalBackfill.ChunkDateRange` | apps/pipeline/src/invest_pipeline/historical_daily_bars_cli.py:314-349 | errors exactly as the source; otherwise ordered gap-free windows, all but the last full, ceil(days / max_days) of them |
| `HistoricalBackfill.EveryDayOnce` | apps/pipeline/src/invest_pipeline/historical_daily_bars_cli.py:314-349 | the windows cover exactly the days of the range, each day once |
| `HistoricalBackfill.PartitionIsUnique` | apps/pipeline/src/invest_pipeline/historical_daily_bars_cli.py:314-349 | there is only one such list of windows |
| `HistoricalBackfill.Runner.constructor` | apps/pipeline/src/invest_pipeline/historical_daily_bars_cli.py:627-660 | a runner that has been called for no window yet |
| `HistoricalBackfill.Runner.RunChunk` | apps/pipeline/src/invest_pipeline/historical_daily_bars_cli.py:694-700 | one call per window, recorded, answered by the outside world |
| `HistoricalBackfill.RunChunks` | apps/pipeline/src/invest_pipeline/historical_daily_bars_cli.py:688-821 | the loop: code 0 exactly when every call finishes and succeeds, 1 exactly when the last answer is any other exception, 3 exactly when it is a configuration or lookup failure or an attempt that failed; counts, failed index and totals are those of the calls made |
| `HistoricalBackfill.RunBackfill` | apps/pipeline/src/invest_pipeline/historical_daily_bars_cli.py:627-821 | code 2 exactly for a bad request, and then nothing is called; otherwise the same over the windows of the range, of which code 0 means that all were handed over and 1 or 3 those up to the failed one |
| `HistoricalBackfill.TotalsAdd` | apps/pipeline/src/invest_pipeline/historical_daily_bars_cli.py:688-821 | the two totals add up over any split of the chunks |
| `HistoricalBackfill.StopIsDetermined` | apps/pipeline/src/invest_pipeline/historical_daily_bars_cli.py:694-821 | the answers determine where a run stops, and it reaches the end exactly when every chunk succeeds |
| `HistoricalBackfill.HandedOverDays` | apps/pipeline/src/invest_pipeline/historical_daily_bars_cli.py:694-821 | the windows of a run that stopped at a chunk hold exactly the days up to that chunk's end, those of a run that did not the whole range |

## Left out

- SHA-256, JSON text and canonical hashing: digests and sidecars are modelled by the values they stand for; only `RequestKeys` takes the digest as a function and names the collision it relies on.
- `Decimal` contexts: arithmetic is exact, so 28-digit rounding, NaN payloads and exponent limits are not modelled; a price is missing, not finite, or a real number.
- The file shape checks of the personal universe (missing file, wrong YAML types, version), which raise before symbols are collected.
- Surrogate ids: a request's id is its logical key, and the ids of attempts, batches and runs are row positions.
- Concurrent transactions, including the race inside `get_or_create`; units of work run one after another.
- The argument checks of the raw writers (an empty symbol list, reversed dates), which raise before any table is touched.
- Provider adapters, credentials, HTTP clients, settings and Dagster: a fetch is a parameter, as is the clock.
- Error messages, request parameters, batch warnings and status texts that no branch reads.
- Stored daily bars whose `source_batch_id` is NULL, which make the candidate pool's bar loader raise.
- The candidate-pool calculator, the policy file and `build_market_breadth`: any pure function of their inputs.
- Whitespace-only hashes and keys, which the domain types reject before the modelled code runs.
- The hex-shape check of the fingerprint column; migration 0024's sentinels are distinct from every digest by type.
- The table-creation statements of migration 0002: its constraints are what the ledger steps enforce.
- Coverage rows carry requested date ranges, raw payload hashes and warnings in the source; no judgement modelled here reads them.
- The report builder's own errors (blank field names, a reversed requested range), `isinstance` checks and the tuple formats of warnings and errors in the report constructors.
- `select_active_etf_symbols`: a dictionary of sets that would only add an easy member.
- The field-by-field profile resolver and its evidence rows.
- `date.max` overflow at the very end of the calendar in `chunk_date_range`.
- The printed chunk lines, token scrubbing and the default chunk runner of the backfill command: a chunk call is a parameter with its four possible outcomes.
- Other migrations, the web front end, the API and the research hand-off.
