/**
 The three evidence tables of migration 20260731_0002 and the values the
 Provider adapters hand to the writers.

 A request's surrogate id is modelled by its logical key (the two are one-to-one
 under `uq_provider_requests_logical_key`); an attempt's and a batch's id is the
 position of its row, so ids are fresh and rows keep them.
 */
module Evidence {
  import opened Wrappers

  // ---------- what is stored ----------

  datatype LogicalKey = LogicalKey(providerKey: string, datasetKey: string, requestKey: string)

  datatype RequestStatus = Pending | RequestSucceeded | RequestPartial | RequestFailed

  datatype RequestRow = RequestRow(status: RequestStatus, completedAt: Option<int>)

  datatype AttemptStatus = Running | Succeeded | Failed

  /** One entry of the JSON sidecar kept in `response_payload_json`. */
  datatype SidecarEntry =
    | BarEntry(symbol: string, tradeDate: int, values: BarTexts, tradingStatus: string,
               sourceProvider: string, sourceBatch: nat, observedAt: int)
    | ProfileEntry(symbol: string, exchange: string, fundType: Option<string>,
                   category: Option<string>, shares: Option<string>)
    | InstrumentEntry(symbol: string, exchange: string, text: string)

  datatype BarTexts = BarTexts(open: Option<string>, high: Option<string>, low: Option<string>,
                               close: Option<string>, prevClose: Option<string>,
                               volume: Option<string>, amount: Option<string>)

  datatype AttemptRow = AttemptRow(
    request: LogicalKey,
    attemptNo: int,
    startedAt: int,
    finishedAt: int,
    status: AttemptStatus,
    errorStage: Option<string>,
    errorCode: Option<string>,
    payloadHash: Option<string>,
    sidecar: Option<seq<SidecarEntry>>)

  datatype BatchRow = BatchRow(request: LogicalKey, attempt: nat, recordCount: nat,
                               payloadHash: string, partial: bool)

  datatype Tables = Tables(requests: map<LogicalKey, RequestRow>,
                           attempts: seq<AttemptRow>,
                           batches: seq<BatchRow>)

  const EMPTY_TABLES := Tables(map[], [], [])

  // ---------- what a Provider returns ----------

  // ProviderAttempt.__post_init__ rejects numbers below 1, ProviderBatch blank hashes.
  type AttemptNumber = n: int | n >= 1 witness 1
  type PayloadHash = s: string | s != "" witness "0"

  datatype FetchedAttempt = FetchedAttempt(
    number: AttemptNumber,
    status: AttemptStatus,
    startedAt: int,
    finishedAt: Option<int>,
    errorStage: Option<string>,
    errorCode: Option<string>)

  datatype FetchedBatch<+R> = FetchedBatch(records: seq<R>, payloadHash: PayloadHash, partial: bool)

  datatype Fetched<+R> = Fetched(request: LogicalKey, attempt: FetchedAttempt,
                                 batch: Option<FetchedBatch<R>>)

  const UNKNOWN_ERROR := "unknown_error"

  /** The 64 zeros stored as the hash of a response that carried no batch. */
  const NO_PAYLOAD_HASH: string :=
    "0000000000000000000000000000000000000000000000000000000000000000"

  /** `attempt.finished_at or _now()`. */
  function FinishTime(a: FetchedAttempt, now: int): int {
    if a.finishedAt.Some? then a.finishedAt.value else now
  }

  /** `attempt.error_code or "unknown_error"`: Python's `or` also replaces "". */
  function ErrorCode(a: FetchedAttempt): string {
    if a.errorCode.Some? && a.errorCode.value != "" then a.errorCode.value else UNKNOWN_ERROR
  }

  function ErrorStage(a: FetchedAttempt): string {
    if a.errorStage.Some? then a.errorStage.value else "provider"
  }

  /** RawEtlResult: the ids the transaction assigned and the terminal statuses. */
  datatype RawResult = RawResult(request: LogicalKey, attempt: nat, batch: Option<nat>,
                                 requestStatus: RequestStatus, attemptStatus: AttemptStatus,
                                 recordCount: nat, errorCode: Option<string>)

  datatype WriteError = FetchError | IntegrityError | UnresolvedSymbol | BadArguments
}
