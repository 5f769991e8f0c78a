/** The chunked historical backfill (historical_daily_bars_cli.py). Dates are day numbers. */
module HistoricalBackfill {
  import opened Wrappers

  /** An inclusive window of days. */
  datatype Chunk = Chunk(first: int, last: int)

  datatype ChunkError = BadMaxDays | BadRange

  function Days(c: Chunk): int { c.last - c.first + 1 }

  function CeilDiv(n: nat, d: nat): nat
    requires d > 0
  {
    (n + d - 1) / d
  }

  /** Ordered, disjoint, gap-free windows from `start` to `end`: full ones, then a last one. */
  ghost predicate Partitions(chunks: seq<Chunk>, start: int, end: int, maxDays: int) {
    && chunks != []
    && chunks[0].first == start && chunks[|chunks| - 1].last == end
    && (forall i :: 0 <= i < |chunks| - 1 ==> Days(chunks[i]) == maxDays && chunks[i + 1].first == chunks[i].last + 1)
    && 1 <= Days(chunks[|chunks| - 1]) <= maxDays
  }

  /** `chunk_date_range`. */
  method ChunkDateRange(start: int, end: int, maxDays: int) returns (r: Result<seq<Chunk>, ChunkError>)
    ensures maxDays <= 0 <==> r == Raised(BadMaxDays)
    ensures maxDays > 0 && start > end <==> r == Raised(BadRange)
    ensures r.Raised? ==> maxDays <= 0 || start > end
    ensures r.Done? ==> Partitions(r.value, start, end, maxDays)
    ensures r.Done? ==> |r.value| == CeilDiv(end - start + 1, maxDays)
  {
    if maxDays <= 0 {
      return Raised(BadMaxDays);
    }
    if start > end {
      return Raised(BadRange);
    }
    var chunks: seq<Chunk> := [];
    var cursor := start;
    var stride := maxDays - 1;
    while cursor <= end
      invariant start <= cursor <= end + 1
      invariant forall i :: 0 <= i < |chunks| - 1 ==>
        Days(chunks[i]) == maxDays && chunks[i + 1].first == chunks[i].last + 1
      invariant chunks == [] ==> cursor == start
      invariant chunks != [] ==> chunks[0].first == start && chunks[|chunks| - 1].last == cursor - 1
      invariant chunks != [] ==> 1 <= Days(chunks[|chunks| - 1]) <= maxDays
      invariant cursor <= end ==> cursor == start + |chunks| * maxDays
      invariant cursor <= end && chunks != [] ==> Days(chunks[|chunks| - 1]) == maxDays
      invariant cursor == end + 1 ==> (|chunks| - 1) * maxDays < end - start + 1 <= |chunks| * maxDays
      decreases end + 1 - cursor
    {
      var chunkEnd := if cursor + stride < end then cursor + stride else end;
      assert (|chunks| + 1) * maxDays == |chunks| * maxDays + maxDays;
      chunks := chunks + [Chunk(cursor, chunkEnd)];
      cursor := chunkEnd + 1;
    }
    CeilBetween(end - start + 1, maxDays, |chunks|);
    r := Done(chunks);
  }

  lemma ProductMonotone(a: int, b: int, d: nat)
    ensures a <= b ==> a * d <= b * d
  {
    if a <= b {
      assert 0 <= (b - a) * d;
      assert b * d == a * d + (b - a) * d;
    }
  }

  /** A common positive factor can be cancelled from a strict comparison. */
  lemma LessFromProducts(a: int, b: int, d: nat)
    requires a * d < b * d
    ensures a < b
  {
    ProductMonotone(b, a, d);
  }

  lemma CeilBetween(n: nat, d: nat, k: nat)
    requires d > 0 && (k - 1) * d < n <= k * d
    ensures CeilDiv(n, d) == k
  {
    var q := (n + d - 1) / d;
    assert q * d <= n + d - 1 < (q + 1) * d;
    assert (k - 1) * d == k * d - d && (k + 1) * d == k * d + d;
    LessFromProducts(k, q + 1, d);
    LessFromProducts(q, k + 1, d);
  }

  // ---------- what a partition means ----------

  lemma {:induction false} ChunkStarts(chunks: seq<Chunk>, start: int, end: int, maxDays: int, i: nat)
    requires Partitions(chunks, start, end, maxDays) && i < |chunks|
    ensures chunks[i].first == start + i * maxDays
  {
    if i == 0 {
    } else {
      ChunkStarts(chunks, start, end, maxDays, i - 1);
      assert (i - 1) * maxDays + maxDays == i * maxDays;
    }
  }

  /** Where window `i` lies. */
  lemma ChunkBounds(chunks: seq<Chunk>, start: int, end: int, maxDays: int, i: nat)
    requires Partitions(chunks, start, end, maxDays) && i < |chunks|
    ensures start <= chunks[i].first <= chunks[i].last <= end
    ensures chunks[i].last == if i < |chunks| - 1 then start + (i + 1) * maxDays - 1 else end
  {
    var last := |chunks| - 1;
    ChunkStarts(chunks, start, end, maxDays, i);
    ChunkStarts(chunks, start, end, maxDays, last);
    ProductMonotone(0, i, maxDays);
    ProductMonotone(i + 1, last, maxDays);
    assert (i + 1) * maxDays == i * maxDays + maxDays;
  }

  lemma ChunksApart(chunks: seq<Chunk>, start: int, end: int, maxDays: int, i: nat, j: nat)
    requires Partitions(chunks, start, end, maxDays) && i < j < |chunks|
    ensures chunks[i].last < chunks[j].first
  {
    ChunkBounds(chunks, start, end, maxDays, i);
    ChunkStarts(chunks, start, end, maxDays, j);
    ProductMonotone(i + 1, j, maxDays);
  }

  /** The windows cover exactly the days of the range, each day in exactly one window. */
  lemma EveryDayOnce(chunks: seq<Chunk>, start: int, end: int, maxDays: int, day: int)
    requires Partitions(chunks, start, end, maxDays)
    ensures start <= day <= end <==> exists i :: 0 <= i < |chunks| && chunks[i].first <= day <= chunks[i].last
    ensures forall i, j :: 0 <= i < j < |chunks| ==> chunks[i].last < chunks[j].first
  {
    forall i, j | 0 <= i < j < |chunks| ensures chunks[i].last < chunks[j].first {
      ChunksApart(chunks, start, end, maxDays, i, j);
    }
    forall i | 0 <= i < |chunks| ensures start <= chunks[i].first && chunks[i].last <= end {
      ChunkBounds(chunks, start, end, maxDays, i);
    }
    if start <= day <= end {
      var i := FindWindow(chunks, start, end, maxDays, day, 0);
      assert chunks[i].first <= day <= chunks[i].last;
    }
  }

  lemma {:induction false} FindWindow(chunks: seq<Chunk>, start: int, end: int, maxDays: int, day: int, from: nat)
    returns (i: nat)
    requires Partitions(chunks, start, end, maxDays) && from < |chunks|
    requires chunks[from].first <= day <= end
    ensures i < |chunks| && chunks[i].first <= day <= chunks[i].last
    decreases |chunks| - from
  {
    if day <= chunks[from].last {
      i := from;
    } else {
      i := FindWindow(chunks, start, end, maxDays, day, from + 1);
    }
  }

  lemma PartitionNotLonger(a: seq<Chunk>, b: seq<Chunk>, start: int, end: int, maxDays: int)
    requires Partitions(a, start, end, maxDays) && Partitions(b, start, end, maxDays)
    ensures |a| <= |b|
  {
    ChunkStarts(a, start, end, maxDays, |a| - 1);
    ChunkStarts(b, start, end, maxDays, |b| - 1);
    assert |b| * maxDays == (|b| - 1) * maxDays + maxDays;
    LessFromProducts(|a| - 1, |b|, maxDays);
  }

  /** There is only one such list, so `Partitions` pins the chunk plan down completely. */
  lemma PartitionIsUnique(a: seq<Chunk>, b: seq<Chunk>, start: int, end: int, maxDays: int)
    requires Partitions(a, start, end, maxDays) && Partitions(b, start, end, maxDays)
    ensures a == b
  {
    PartitionNotLonger(a, b, start, end, maxDays);
    PartitionNotLonger(b, a, start, end, maxDays);
    forall i | 0 <= i < |a| ensures a[i] == b[i] {
      ChunkStarts(a, start, end, maxDays, i);
      ChunkStarts(b, start, end, maxDays, i);
      ChunkBounds(a, start, end, maxDays, i);
      ChunkBounds(b, start, end, maxDays, i);
    }
  }

  // ---------- the runner ----------

  /** How one `run_chunk` call ends: a result, or one of the three exception branches. */
  datatype ChunkOutcome =
    | Finished(succeeded: bool, inserted: int, skipped: int)
    | ConfigFailure
    | LookupFailure
    | OtherFailure

  /** A chunk runner: it records its calls and answers as the outside world decides. */
  class Runner {
    var calls: seq<Chunk>
    const respond: (nat, Chunk) -> ChunkOutcome

    constructor (respond: (nat, Chunk) -> ChunkOutcome)
      ensures calls == [] && this.respond == respond
    {
      calls := [];
      this.respond := respond;
    }

    method RunChunk(c: Chunk) returns (o: ChunkOutcome)
      modifies this
      ensures calls == old(calls) + [c] && o == respond(|old(calls)|, c)
    {
      o := respond(|calls|, c);
      calls := calls + [c];
    }
  }

  // ---------- run_backfill ----------

  datatype Summary = Summary(totalChunks: nat, completedChunks: nat, failedChunk: Option<nat>,
                             inserted: int, skipped: int)

  datatype BackfillResult = BackfillResult(code: int, summary: Option<Summary>)

  /** The answer to the i-th chunk of a run whose runner had already made `base` calls. */
  function Answer(respond: (nat, Chunk) -> ChunkOutcome, base: nat, chunks: seq<Chunk>, i: nat): ChunkOutcome
    requires i < |chunks|
  {
    respond(base + i, chunks[i])
  }

  function Inserted(respond: (nat, Chunk) -> ChunkOutcome, base: nat, chunks: seq<Chunk>, n: nat): int
    requires n <= |chunks|
  {
    if n == 0 then 0
    else
      var o := Answer(respond, base, chunks, n - 1);
      Inserted(respond, base, chunks, n - 1) + (if o.Finished? then o.inserted else 0)
  }

  function Skipped(respond: (nat, Chunk) -> ChunkOutcome, base: nat, chunks: seq<Chunk>, n: nat): int
    requires n <= |chunks|
  {
    if n == 0 then 0
    else
      var o := Answer(respond, base, chunks, n - 1);
      Skipped(respond, base, chunks, n - 1) + (if o.Finished? then o.skipped else 0)
  }

  /** The totals are sums over the answers: nothing for no chunk, each further chunk adds its
      own counts, and a run of chunks adds what its parts add. */
  lemma {:induction false} TotalsAdd(respond: (nat, Chunk) -> ChunkOutcome, base: nat, chunks: seq<Chunk>, m: nat, n: nat)
    requires m <= n <= |chunks|
    ensures Inserted(respond, base, chunks, n)
            == Inserted(respond, base, chunks, m) + Inserted(respond, base + m, chunks[m..], n - m)
    ensures Skipped(respond, base, chunks, n)
            == Skipped(respond, base, chunks, m) + Skipped(respond, base + m, chunks[m..], n - m)
    decreases n
  {
    if n == m {
    } else {
      TotalsAdd(respond, base, chunks, m, n - 1);
      assert chunks[m..][n - 1 - m] == chunks[n - 1];
    }
  }

  lemma TotalsOfOne(respond: (nat, Chunk) -> ChunkOutcome, base: nat, c: Chunk, inserted: int, skipped: int)
    requires respond(base, c) == Finished(true, inserted, skipped)
    ensures Inserted(respond, base, [c], 1) == inserted && Skipped(respond, base, [c], 1) == skipped
    ensures Inserted(respond, base, [c], 0) == 0 && Skipped(respond, base, [c], 0) == 0
  {
  }

  /** A chunk's attempt succeeded. */
  ghost predicate Succeeds(respond: (nat, Chunk) -> ChunkOutcome, base: nat, chunks: seq<Chunk>, i: nat)
    requires i < |chunks|
  {
    respond(base + i, chunks[i]).Finished? && respond(base + i, chunks[i]).succeeded
  }

  /** The first `n` chunks succeeded, and if any remain the next one did not. */
  ghost predicate StoppedAt(respond: (nat, Chunk) -> ChunkOutcome, base: nat, chunks: seq<Chunk>, n: nat) {
    && n <= |chunks|
    && (forall i :: 0 <= i < n ==> Succeeds(respond, base, chunks, i))
    && (n < |chunks| ==> !Succeeds(respond, base, chunks, n))
  }

  /** The windows a run that stopped at `n` handed to the runner. */
  function Attempted(chunks: seq<Chunk>, n: nat): seq<Chunk>
    requires n <= |chunks|
  {
    if n < |chunks| then chunks[..n + 1] else chunks
  }

  /** Some window holds the day. */
  ghost predicate Holds(windows: seq<Chunk>, day: int) {
    exists i :: 0 <= i < |windows| && windows[i].first <= day <= windows[i].last
  }

  /** The days of the windows are exactly those from `first` to `last`. */
  ghost predicate Covers(windows: seq<Chunk>, first: int, last: int) {
    forall day :: Holds(windows, day) <==> first <= day <= last
  }

  /** Every chunk's call finishes and its attempt succeeds. */
  ghost predicate AllSucceed(respond: (nat, Chunk) -> ChunkOutcome, base: nat, chunks: seq<Chunk>) {
    forall i :: 0 <= i < |chunks| ==> respond(base + i, chunks[i]).Finished? && respond(base + i, chunks[i]).succeeded
  }

  /** How the answer a run stopped on decides its exit code. */
  ghost predicate ExitsWith(code: int, o: ChunkOutcome) {
    && (code == 1 <==> o.OtherFailure?)
    && (code == 3 <==> o.ConfigFailure? || o.LookupFailure? || (o.Finished? && !o.succeeded))
  }

  /** What the result and the calls of a run over `chunks` say about the answers. */
  ghost predicate Reports(r: BackfillResult, s: Summary, respond: (nat, Chunk) -> ChunkOutcome, base: nat,
                          chunks: seq<Chunk>)
  {
    && StoppedAt(respond, base, chunks, s.completedChunks)
    && r.summary == Some(s)
    && s.totalChunks == |chunks|
    && s.inserted == Inserted(respond, base, chunks, s.completedChunks)
    && s.skipped == Skipped(respond, base, chunks, s.completedChunks)
    && (r.code == 0 <==> AllSucceed(respond, base, chunks))
    && (r.code == 0 <==> s.failedChunk.None? && s.completedChunks == |chunks|)
    && (r.code != 0 ==>
          && s.completedChunks < |chunks|
          && s.failedChunk == Some(s.completedChunks + 1)
          && ExitsWith(r.code, respond(base + s.completedChunks, chunks[s.completedChunks])))
  }

  lemma ReportsSuccess(respond: (nat, Chunk) -> ChunkOutcome, base: nat, chunks: seq<Chunk>, s: Summary)
    requires StoppedAt(respond, base, chunks, |chunks|)
    requires s.totalChunks == s.completedChunks == |chunks| && s.failedChunk == None
    requires s.inserted == Inserted(respond, base, chunks, |chunks|)
    requires s.skipped == Skipped(respond, base, chunks, |chunks|)
    ensures Reports(BackfillResult(0, Some(s)), s, respond, base, chunks)
  {
    forall i | 0 <= i < |chunks|
      ensures respond(base + i, chunks[i]).Finished? && respond(base + i, chunks[i]).succeeded
    {
      assert Succeeds(respond, base, chunks, i);
    }
  }

  lemma ReportsFailure(respond: (nat, Chunk) -> ChunkOutcome, base: nat, chunks: seq<Chunk>, s: Summary, code: int)
    requires s.completedChunks < |chunks| && StoppedAt(respond, base, chunks, s.completedChunks)
    requires s.totalChunks == |chunks| && s.failedChunk == Some(s.completedChunks + 1)
    requires s.inserted == Inserted(respond, base, chunks, s.completedChunks)
    requires s.skipped == Skipped(respond, base, chunks, s.completedChunks)
    requires code == 1 || code == 3
    requires ExitsWith(code, respond(base + s.completedChunks, chunks[s.completedChunks]))
    ensures Reports(BackfillResult(code, Some(s)), s, respond, base, chunks)
  {
    assert !Succeeds(respond, base, chunks, s.completedChunks);
  }

  /** The loop of `run_backfill`: one call per chunk, in order, until one does not succeed. */
  method RunChunks(runner: Runner, plan: seq<Chunk>) returns (result: BackfillResult)
    modifies runner
    ensures result.code == 0 || result.code == 1 || result.code == 3
    ensures result.summary.Some? && Reports(result, result.summary.value, runner.respond, |old(runner.calls)|, plan)
    ensures runner.calls == old(runner.calls) + Attempted(plan, result.summary.value.completedChunks)
  {
    ghost var base, before := |runner.calls|, runner.calls;
    var completed, inserted, skipped := 0, 0, 0;
    while completed < |plan|
      invariant completed <= |plan|
      invariant runner.calls == before + plan[..completed]
      invariant forall i: nat :: i < completed ==> Succeeds(runner.respond, base, plan, i)
      invariant inserted == Inserted(runner.respond, base, plan, completed)
      invariant skipped == Skipped(runner.respond, base, plan, completed)
    {
      var o := runner.RunChunk(plan[completed]);
      assert plan[..completed + 1] == plan[..completed] + [plan[completed]];
      if !o.Finished? || !o.succeeded {
        var code := if o.OtherFailure? then 1 else 3;
        var stopped := Summary(|plan|, completed, Some(completed + 1), inserted, skipped);
        ReportsFailure(runner.respond, base, plan, stopped, code);
        return BackfillResult(code, Some(stopped));
      }
      completed, inserted, skipped := completed + 1, inserted + o.inserted, skipped + o.skipped;
    }
    assert plan[..|plan|] == plan;
    var finished := Summary(|plan|, completed, None, inserted, skipped);
    ReportsSuccess(runner.respond, base, plan, finished);
    result := BackfillResult(0, Some(finished));
  }

  /** `run_backfill`: fail-closed over the chunks, in order. Exit code 2 means that nothing was
      called; exit code 0 that every chunk of the range succeeded and the whole range was handed
      over; otherwise the answer of the last call tells 1 and 3 apart. */
  method RunBackfill(runner: Runner, symbolCount: nat, start: int, end: int, today: int, maxDays: int)
    returns (result: BackfillResult, ghost chunks: seq<Chunk>)
    modifies runner
    ensures result.code == 2 <==> symbolCount == 0 || start > end || end > today || maxDays <= 0
    ensures result.code == 2 ==> runner.calls == old(runner.calls) && result.summary.None?
    ensures result.code == 0 || result.code == 1 || result.code == 2 || result.code == 3
    ensures result.code != 2 ==>
      && result.summary.Some?
      && Partitions(chunks, start, end, maxDays)
      && Reports(result, result.summary.value, runner.respond, |old(runner.calls)|, chunks)
      && runner.calls == old(runner.calls) + Attempted(chunks, result.summary.value.completedChunks)
    ensures result.code == 0 ==> Covers(runner.calls[|old(runner.calls)|..], start, end)
    ensures result.code == 1 || result.code == 3 ==>
      Covers(runner.calls[|old(runner.calls)|..], start, chunks[result.summary.value.completedChunks].last)
  {
    chunks := [];
    if symbolCount == 0 {
      return BackfillResult(2, None), chunks;
    }
    if start > end || end > today {
      return BackfillResult(2, None), chunks;
    }
    var planned := ChunkDateRange(start, end, maxDays);
    if planned.Raised? {
      return BackfillResult(2, None), chunks;
    }
    chunks := planned.value;
    ghost var before := runner.calls;
    result := RunChunks(runner, planned.value);
    AttemptedCovers(before, chunks, start, end, maxDays, result.summary.value.completedChunks);
  }

  /** Where a run stops is determined by the answers, and it reaches the end exactly when
      every chunk succeeds. */
  lemma StopIsDetermined(respond: (nat, Chunk) -> ChunkOutcome, base: nat, chunks: seq<Chunk>, m: nat, n: nat)
    requires StoppedAt(respond, base, chunks, m) && StoppedAt(respond, base, chunks, n)
    ensures m == n
    ensures n == |chunks| <==> forall i :: 0 <= i < |chunks| ==> Succeeds(respond, base, chunks, i)
  {
  }

  /** The windows handed over cover exactly the days up to where the run stopped: the whole
      range, or up to the end of the failed window. */
  lemma HandedOverDays(chunks: seq<Chunk>, start: int, end: int, maxDays: int, n: nat)
    requires Partitions(chunks, start, end, maxDays) && n <= |chunks|
    ensures Covers(Attempted(chunks, n), start, if n < |chunks| then chunks[n].last else end)
  {
    var handed := Attempted(chunks, n);
    var last := handed[|handed| - 1].last;
    assert Partitions(handed, start, last, maxDays);
    forall day ensures Holds(handed, day) <==> start <= day <= last {
      EveryDayOnce(handed, start, last, maxDays, day);
    }
  }

  lemma AttemptedCovers(before: seq<Chunk>, chunks: seq<Chunk>, start: int, end: int, maxDays: int, n: nat)
    requires Partitions(chunks, start, end, maxDays) && n <= |chunks|
    ensures Covers((before + Attempted(chunks, n))[|before|..], start, if n < |chunks| then chunks[n].last else end)
  {
    assert (before + Attempted(chunks, n))[|before|..] == Attempted(chunks, n);
    HandedOverDays(chunks, start, end, maxDays, n);
  }
}
