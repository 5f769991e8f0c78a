/**
 Candidate-pool publication: the six-part natural key as a cache of a pure
 calculation over bars that keep being revised.

 The parameter hash and the market-data fingerprint are injective digests, so
 each is modelled by the value it digests.
 */
module CandidatePool {
  import opened Wrappers
  import opened Sequences
  import opened DailyBarStore

  // ---------- rows ----------

  datatype Policy = Policy(algorithmKey: string, algorithmVersion: string, parameters: string)

  datatype FiveKey = FiveKey(tradeDate: int, algorithmKey: string, algorithmVersion: string,
                             parameterHash: Policy, snapshotId: int)

  /** What one selected bar contributes to the fingerprint. */
  datatype Identity = Identity(id: BarId, revision: nat, rowHash: Content)

  /** The digest of a selection of bars, or the sentinel migration 0024 gives a legacy row. */
  datatype Fingerprint = Digest(selected: set<Identity>) | Legacy(runId: nat)

  datatype NaturalKey = NaturalKey(five: FiveKey, fingerprint: Fingerprint)

  datatype Status = Calculated | Validated | PoolPublished | Rejected

  datatype RunRow = RunRow(key: NaturalKey, inputRowCount: nat, includedCount: nat, status: Status,
                           createdAt: int, finishedAt: Option<int>, publishedAt: Option<int>)

  datatype Item = Item(instrument: int, included: bool, detail: string)

  datatype Snapshot = Snapshot(id: int, date: int, instruments: seq<int>)

  /** A run's id is the position of its row; `items[id]` are its item rows. */
  datatype Pool = Pool(snapshots: map<int, Snapshot>, bars: Bars, runs: seq<RunRow>, items: seq<seq<Item>>)

  // ---------- selection ----------

  datatype SelectedBar = SelectedBar(id: BarId, revision: nat, row: BarRow)

  /** `_load_bars_for_trade_date`: None when a stored row no longer builds a DailyBar. */
  function LoadBars(bars: Bars, instruments: seq<int>, date: int): Option<seq<SelectedBar>> {
    if instruments == [] then Some([])
    else
      var init := LoadBars(bars, instruments[..|instruments| - 1], date);
      var id := BarId(instruments[|instruments| - 1], date);
      var latest := Latest(bars, id);
      if init.None? then None
      else if latest.None? then init
      else if !Valid(latest.value.content) then None
      else Some(init.value + [SelectedBar(id, |History(bars, id)|, latest.value)])
  }

  function Identities(selected: seq<SelectedBar>): set<Identity> {
    set b | b in selected :: Identity(b.id, b.revision, b.row.content)
  }

  // ---------- publication ----------

  datatype CalcResult = CalcResult(items: seq<Item>, includedCount: nat)

  /** Any pure calculator: the result depends on the snapshot, the bars and the policy. */
  type Calculator = (Snapshot, seq<SelectedBar>, Policy) -> CalcResult

  datatype PublishError = SnapshotNotFound | DateMismatch | InvalidBar | InvalidRun | DuplicateItems

  datatype PublishResult = PublishResult(run: nat, result: CalcResult)

  datatype Outcome = Outcome(pool: Pool, result: Result<PublishResult, PublishError>)

  function FindRun(runs: seq<RunRow>, key: NaturalKey): (r: Option<nat>)
    ensures r.Some? ==> r.value < |runs| && runs[r.value].key == key
    ensures r.None? <==> forall i :: 0 <= i < |runs| ==> runs[i].key != key
  {
    if runs == [] then None
    else if runs[|runs| - 1].key == key then Some(|runs| - 1)
    else FindRun(runs[..|runs| - 1], key)
  }

  predicate ItemsDistinct(items: seq<Item>) {
    forall i, j :: 0 <= i < j < |items| ==> items[i].instrument != items[j].instrument
  }

  function KeyFor(snapshot: Snapshot, selected: seq<SelectedBar>, policy: Policy): NaturalKey {
    NaturalKey(FiveKey(snapshot.date, policy.algorithmKey, policy.algorithmVersion, policy, snapshot.id),
               Digest(Identities(selected)))
  }

  function PublishedRow(key: NaturalKey, snapshot: Snapshot, result: CalcResult, now: int): RunRow {
    RunRow(key, |snapshot.instruments|, result.includedCount, PoolPublished, now, Some(now), Some(now))
  }

  /** `calculate_and_publish_candidate_pool` as one unit of work. */
  function Publish(p: Pool, calculate: Calculator, tradeDate: int, snapshotId: int, policy: Policy, now: int): Outcome {
    if snapshotId !in p.snapshots then Outcome(p, Raised(SnapshotNotFound))
    else
      var snapshot := p.snapshots[snapshotId];
      if snapshot.date != tradeDate then Outcome(p, Raised(DateMismatch))
      else match LoadBars(p.bars, snapshot.instruments, tradeDate)
        case None => Outcome(p, Raised(InvalidBar))
        case Some(selected) =>
          var key := KeyFor(snapshot, selected, policy);
          var result := calculate(snapshot, selected, policy);
          var existing := FindRun(p.runs, key);
          if existing.Some? then Outcome(p, Done(PublishResult(existing.value, result)))
          else if result.includedCount > |snapshot.instruments| then Outcome(p, Raised(InvalidRun))
          else if !ItemsDistinct(result.items) then Outcome(p, Raised(DuplicateItems))
          else
            Outcome(p.(runs := p.runs + [PublishedRow(key, snapshot, result, now)], items := p.items + [result.items]),
                    Done(PublishResult(|p.runs|, result)))
  }

  // ---------- histories ----------

  datatype Op =
    | PublishOp(tradeDate: int, snapshotId: int, policy: Policy, now: int)
    | ReviseOp(news: seq<NewBar>)
    | SnapshotOp(snapshot: Snapshot)

  /** InputSnapshot rejects empty and duplicated memberships; a stored id is never reused. */
  predicate Admissible(p: Pool, s: Snapshot) {
    s.id !in p.snapshots && s.instruments != [] && Distinct(s.instruments)
  }

  function Step(p: Pool, calculate: Calculator, op: Op): Pool {
    match op
    case PublishOp(tradeDate, snapshotId, policy, now) =>
      Publish(p, calculate, tradeDate, snapshotId, policy, now).pool
    case ReviseOp(news) => p.(bars := UpsertMany(p.bars, news).bars)
    case SnapshotOp(s) => if Admissible(p, s) then p.(snapshots := p.snapshots[s.id := s]) else p
  }

  function Run(start: Pool, calculate: Calculator, ops: seq<Op>): Pool {
    if ops == [] then start
    else Step(Run(start, calculate, ops[..|ops| - 1]), calculate, ops[|ops| - 1])
  }

  /** The keys of the publish calls that succeeded, whether they wrote or found a run. */
  function SuccessfulKeys(start: Pool, calculate: Calculator, ops: seq<Op>): set<NaturalKey> {
    if ops == [] then {}
    else
      var init, op := ops[..|ops| - 1], ops[|ops| - 1];
      var before := Run(start, calculate, init);
      SuccessfulKeys(start, calculate, init) +
      (if op.PublishOp? then CalledKey(before, calculate, op) else {})
  }

  function CalledKey(p: Pool, calculate: Calculator, op: Op): set<NaturalKey>
    requires op.PublishOp?
  {
    var o := Publish(p, calculate, op.tradeDate, op.snapshotId, op.policy, op.now);
    if o.result.Done? && o.result.value.run < |o.pool.runs| then {o.pool.runs[o.result.value.run].key} else {}
  }

  /** A database right after migration 0024: only legacy rows, each with its own sentinel. */
  ghost predicate Legacies(start: Pool) {
    && |start.items| == |start.runs|
    && (forall i :: 0 <= i < |start.runs| ==> start.runs[i].key.fingerprint == Legacy(i))
    && (forall id :: id in start.snapshots ==>
          start.snapshots[id].id == id && Distinct(start.snapshots[id].instruments))
  }

  // ---------- the invariant ----------

  predicate EndsWith(selected: seq<SelectedBar>, id: BarId) {
    selected != [] && selected[|selected| - 1].id == id
  }

  function Chop(selected: seq<SelectedBar>, id: BarId): seq<SelectedBar> {
    if EndsWith(selected, id) then selected[..|selected| - 1] else selected
  }

  predicate Stored(bars: Bars, b: SelectedBar) {
    1 <= b.revision <= |History(bars, b.id)| && History(bars, b.id)[b.revision - 1] == b.row
  }

  /** `selected` picks stored revisions for some of the instruments, in their order. */
  ghost predicate Drawn(bars: Bars, instruments: seq<int>, date: int, selected: seq<SelectedBar>)
    decreases |instruments|
  {
    if instruments == [] then selected == []
    else
      var id := BarId(instruments[|instruments| - 1], date);
      && (EndsWith(selected, id) ==> Stored(bars, selected[|selected| - 1]))
      && Drawn(bars, instruments[..|instruments| - 1], date, Chop(selected, id))
  }

  /** The stored run is the calculator's answer on stored revisions with its fingerprint. */
  ghost predicate ReplaysWith(p: Pool, calculate: Calculator, run: nat, selected: seq<SelectedBar>)
    requires run < |p.runs| && run < |p.items|
  {
    var key := p.runs[run].key;
    && key.five.snapshotId in p.snapshots
    && var snapshot := p.snapshots[key.five.snapshotId];
       && Drawn(p.bars, snapshot.instruments, key.five.tradeDate, selected)
       && key == KeyFor(snapshot, selected, key.five.parameterHash)
       && var result := calculate(snapshot, selected, key.five.parameterHash);
          && p.items[run] == result.items
          && p.runs[run].inputRowCount == |snapshot.instruments|
          && p.runs[run].includedCount == result.includedCount
          && p.runs[run].status == PoolPublished
          && p.runs[run].publishedAt.Some?
  }

  ghost predicate Replays(p: Pool, calculate: Calculator, run: nat)
    requires run < |p.runs| && run < |p.items|
  {
    exists selected :: ReplaysWith(p, calculate, run, selected)
  }

  ghost predicate PoolInv(p: Pool, calculate: Calculator) {
    && |p.items| == |p.runs|
    && KeysDistinct(p.runs)
    && (forall id :: id in p.snapshots ==> p.snapshots[id].id == id && Distinct(p.snapshots[id].instruments))
    && (forall i :: 0 <= i < |p.runs| && p.runs[i].key.fingerprint.Digest? ==> Replays(p, calculate, i))
  }

  // ---------- selections ----------

  /** Every drawn bar belongs to one of the instruments and to the stored history. */
  lemma {:induction false} DrawnMembers(bars: Bars, instruments: seq<int>, date: int, selected: seq<SelectedBar>)
    requires Drawn(bars, instruments, date, selected)
    ensures forall b :: b in selected ==> b.id.instrument in instruments && b.id.tradeDate == date && Stored(bars, b)
  {
    if instruments == [] {
    } else {
      var init, last := instruments[..|instruments| - 1], instruments[|instruments| - 1];
      var id := BarId(last, date);
      DrawnMembers(bars, init, date, Chop(selected, id));
      assert instruments == init + [last];
      if EndsWith(selected, id) {
        assert selected == Chop(selected, id) + [selected[|selected| - 1]];
      }
    }
  }

  lemma {:induction false} LoadedIsDrawn(bars: Bars, instruments: seq<int>, date: int)
    requires Distinct(instruments) && LoadBars(bars, instruments, date).Some?
    ensures Drawn(bars, instruments, date, LoadBars(bars, instruments, date).value)
  {
    if instruments == [] {
    } else {
      var init, last := instruments[..|instruments| - 1], instruments[|instruments| - 1];
      LoadedIsDrawn(bars, init, date);
      var before := LoadBars(bars, init, date).value;
      assert !EndsWith(before, BarId(last, date)) by {
        DrawnMembers(bars, init, date, before);
        DistinctLast(instruments);
      }
      ChopUndoesLoad(bars, instruments, date);
    }
  }

  lemma DistinctLast<T>(s: seq<T>)
    requires Distinct(s) && s != []
    ensures s[|s| - 1] !in s[..|s| - 1]
  {
  }

  lemma ChopUndoesLoad(bars: Bars, instruments: seq<int>, date: int)
    requires instruments != [] && LoadBars(bars, instruments, date).Some?
    requires var id := BarId(instruments[|instruments| - 1], date);
             !EndsWith(LoadBars(bars, instruments[..|instruments| - 1], date).value, id)
    ensures var id, selected := BarId(instruments[|instruments| - 1], date), LoadBars(bars, instruments, date).value;
            && Chop(selected, id) == LoadBars(bars, instruments[..|instruments| - 1], date).value
            && (EndsWith(selected, id) ==> Stored(bars, selected[|selected| - 1]))
  {
  }

  lemma {:induction false} DrawnSurvivesRevision(bars: Bars, later: Bars, instruments: seq<int>, date: int,
                                                 selected: seq<SelectedBar>)
    requires Drawn(bars, instruments, date, selected) && RevisionCount(bars, later)
    ensures Drawn(later, instruments, date, selected)
  {
    if instruments == [] {
    } else {
      var id := BarId(instruments[|instruments| - 1], date);
      DrawnSurvivesRevision(bars, later, instruments[..|instruments| - 1], date, Chop(selected, id));
      assert History(bars, id) <= History(later, id);
    }
  }

  function IdentityOf(b: SelectedBar): Identity {
    Identity(b.id, b.revision, b.row.content)
  }

  lemma InIdentities(s: seq<SelectedBar>, b: SelectedBar)
    requires b in s
    ensures IdentityOf(b) in Identities(s)
  {
  }

  lemma FromIdentities(s: seq<SelectedBar>, x: Identity) returns (b: SelectedBar)
    requires x in Identities(s)
    ensures b in s && IdentityOf(b) == x
  {
    b :| b in s && Identity(b.id, b.revision, b.row.content) == x;
  }

  /** The last bar of `s`, when it is the only one for `id`. */
  ghost predicate OnlyLast(s: seq<SelectedBar>, id: BarId) {
    forall b :: b in Chop(s, id) ==> b.id != id
  }

  lemma DrawnOnlyLast(bars: Bars, instruments: seq<int>, date: int, selected: seq<SelectedBar>)
    requires instruments != [] && Distinct(instruments) && Drawn(bars, instruments, date, selected)
    ensures OnlyLast(selected, BarId(instruments[|instruments| - 1], date))
  {
    var init, last := instruments[..|instruments| - 1], instruments[|instruments| - 1];
    DrawnMembers(bars, init, date, Chop(selected, BarId(last, date)));
    assert last !in init;
  }

  lemma OnlyLastMember(s: seq<SelectedBar>, id: BarId, b: SelectedBar)
    requires OnlyLast(s, id) && b in s && b.id == id
    ensures EndsWith(s, id) && b == s[|s| - 1]
  {
    if EndsWith(s, id) {
      assert s == Chop(s, id) + [s[|s| - 1]];
    }
  }

  /** Dropping the last instrument drops exactly its identity. */
  lemma ChopIdentities(s: seq<SelectedBar>, id: BarId)
    requires OnlyLast(s, id)
    ensures Identities(Chop(s, id)) == set x | x in Identities(s) && x.id != id
  {
    forall x | x in Identities(Chop(s, id)) ensures x in Identities(s) && x.id != id {
      var b := FromIdentities(Chop(s, id), x);
      InIdentities(s, b);
    }
    forall x | x in Identities(s) && x.id != id ensures x in Identities(Chop(s, id)) {
      var b := FromIdentities(s, x);
      if EndsWith(s, id) {
        assert s == Chop(s, id) + [s[|s| - 1]];
      }
      InIdentities(Chop(s, id), b);
    }
  }

  /** Two selections of one store with equal identities end in the same bar for `id`. */
  lemma SameLast(bars: Bars, a: seq<SelectedBar>, b: seq<SelectedBar>, id: BarId)
    requires OnlyLast(a, id) && OnlyLast(b, id) && Identities(a) == Identities(b)
    requires EndsWith(a, id) && Stored(bars, a[|a| - 1]) && (EndsWith(b, id) ==> Stored(bars, b[|b| - 1]))
    ensures EndsWith(b, id) && a[|a| - 1] == b[|b| - 1]
  {
    InIdentities(a, a[|a| - 1]);
    var c := FromIdentities(b, IdentityOf(a[|a| - 1]));
    OnlyLastMember(b, id, c);
  }

  /** The fingerprint determines the selection: bars, order and audit fields included. */
  lemma {:induction false} FingerprintDeterminesSelection(bars: Bars, instruments: seq<int>, date: int,
                                                          a: seq<SelectedBar>, b: seq<SelectedBar>)
    requires Distinct(instruments)
    requires Drawn(bars, instruments, date, a) && Drawn(bars, instruments, date, b)
    requires Identities(a) == Identities(b)
    ensures a == b
  {
    if instruments == [] {
    } else {
      var id := BarId(instruments[|instruments| - 1], date);
      DrawnOnlyLast(bars, instruments, date, a);
      DrawnOnlyLast(bars, instruments, date, b);
      ChopIdentities(a, id);
      ChopIdentities(b, id);
      FingerprintDeterminesSelection(bars, instruments[..|instruments| - 1], date, Chop(a, id), Chop(b, id));
      if EndsWith(a, id) {
        SameLast(bars, a, b, id);
        assert a == Chop(a, id) + [a[|a| - 1]] && b == Chop(b, id) + [b[|b| - 1]];
      } else if EndsWith(b, id) {
        SameLast(bars, b, a, id);
      }
    }
  }

  // ---------- every history ----------

  lemma ReplaysStays(p: Pool, q: Pool, calculate: Calculator, run: nat)
    requires run < |p.runs| && run < |p.items| && Replays(p, calculate, run)
    requires p.runs <= q.runs && p.items <= q.items && RevisionCount(p.bars, q.bars)
    requires forall id :: id in p.snapshots ==> id in q.snapshots && q.snapshots[id] == p.snapshots[id]
    ensures Replays(q, calculate, run)
  {
    var selected :| ReplaysWith(p, calculate, run, selected);
    var key := p.runs[run].key;
    DrawnSurvivesRevision(p.bars, q.bars, p.snapshots[key.five.snapshotId].instruments, key.five.tradeDate, selected);
    assert ReplaysWith(q, calculate, run, selected);
  }

  /** Nothing committed is altered: runs, items and bar revisions are only appended, and
      snapshots keep their contents. */
  ghost predicate Grows(p: Pool, q: Pool) {
    && p.runs <= q.runs && p.items <= q.items && RevisionCount(p.bars, q.bars)
    && forall id :: id in p.snapshots ==> id in q.snapshots && q.snapshots[id] == p.snapshots[id]
  }

  lemma StepGrows(p: Pool, calculate: Calculator, op: Op)
    ensures Grows(p, Step(p, calculate, op))
  {
    if op.ReviseOp? {
      NothingWrittenIff(p.bars, op.news);
    }
  }

  lemma RevisionsTransitive(a: Bars, b: Bars, c: Bars)
    requires RevisionCount(a, b) && RevisionCount(b, c)
    ensures RevisionCount(a, c)
  {
    forall id ensures History(a, id) <= History(c, id) {
      assert History(a, id) <= History(b, id) && History(b, id) <= History(c, id);
    }
  }

  lemma GrowsTransitive(p: Pool, q: Pool, r: Pool)
    requires Grows(p, q) && Grows(q, r)
    ensures Grows(p, r)
  {
    RevisionsTransitive(p.bars, q.bars, r.bars);
  }

  lemma RunOneMore(start: Pool, calculate: Calculator, ops: seq<Op>, op: Op)
    ensures Run(start, calculate, ops + [op]) == Step(Run(start, calculate, ops), calculate, op)
  {
    assert (ops + [op])[..|ops|] == ops;
  }

  lemma {:induction false} HistoryNeverAltered(start: Pool, calculate: Calculator, ops: seq<Op>, more: seq<Op>)
    ensures Grows(Run(start, calculate, ops), Run(start, calculate, ops + more))
  {
    if more == [] {
      assert ops + more == ops;
    } else {
      var init, last := more[..|more| - 1], more[|more| - 1];
      HistoryNeverAltered(start, calculate, ops, init);
      assert ops + more == ops + init + [last];
      RunOneMore(start, calculate, ops + init, last);
      StepGrows(Run(start, calculate, ops + init), calculate, last);
      GrowsTransitive(Run(start, calculate, ops), Run(start, calculate, ops + init), Run(start, calculate, ops + more));
    }
  }

  lemma NewRunReplays(p: Pool, calculate: Calculator, tradeDate: int, snapshotId: int, policy: Policy, now: int)
    requires PoolInv(p, calculate)
    requires var o := Publish(p, calculate, tradeDate, snapshotId, policy, now);
             o.result.Done? && |o.pool.runs| > |p.runs|
    ensures Replays(Publish(p, calculate, tradeDate, snapshotId, policy, now).pool, calculate, |p.runs|)
  {
    var snapshot := p.snapshots[snapshotId];
    var selected := LoadBars(p.bars, snapshot.instruments, tradeDate).value;
    LoadedIsDrawn(p.bars, snapshot.instruments, tradeDate);
    assert ReplaysWith(Publish(p, calculate, tradeDate, snapshotId, policy, now).pool, calculate, |p.runs|, selected);
  }

  lemma StepKeepsInv(p: Pool, calculate: Calculator, op: Op)
    requires PoolInv(p, calculate)
    ensures PoolInv(Step(p, calculate, op), calculate)
  {
    var q := Step(p, calculate, op);
    StepGrows(p, calculate, op);
    forall i | 0 <= i < |q.runs| && q.runs[i].key.fingerprint.Digest? ensures Replays(q, calculate, i) {
      if i < |p.runs| {
        ReplaysStays(p, q, calculate, i);
      } else {
        NewRunReplays(p, calculate, op.tradeDate, op.snapshotId, op.policy, op.now);
      }
    }
  }

  /** In every reachable state each run published since the migration is PUBLISHED and its
      stored items are what the calculator makes of still-stored revisions. */
  lemma {:induction false} ReachablePool(start: Pool, calculate: Calculator, ops: seq<Op>)
    requires Legacies(start)
    ensures PoolInv(Run(start, calculate, ops), calculate)
  {
    if ops == [] {
    } else {
      ReachablePool(start, calculate, ops[..|ops| - 1]);
      StepKeepsInv(Run(start, calculate, ops[..|ops| - 1]), calculate, ops[|ops| - 1]);
    }
  }

  /** Cache agreement: whatever run a successful call returns, new or found, its stored items
      equal the result computed now, and it is PUBLISHED with that many items. */
  lemma CacheAgreement(p: Pool, calculate: Calculator, tradeDate: int, snapshotId: int, policy: Policy, now: int)
    requires PoolInv(p, calculate)
    requires Publish(p, calculate, tradeDate, snapshotId, policy, now).result.Done?
    ensures var o := Publish(p, calculate, tradeDate, snapshotId, policy, now);
            var r := o.result.value;
            && r.run < |o.pool.runs| && r.run < |o.pool.items|
            && o.pool.items[r.run] == r.result.items
            && o.pool.runs[r.run].includedCount == r.result.includedCount
            && o.pool.runs[r.run].status == PoolPublished
            && o.pool.runs[r.run].key.fingerprint.Digest?
            && (o.pool == p <==> exists i :: 0 <= i < |p.runs| && p.runs[i].key == o.pool.runs[r.run].key)
  {
    var o := Publish(p, calculate, tradeDate, snapshotId, policy, now);
    var snapshot := p.snapshots[snapshotId];
    var selected := LoadBars(p.bars, snapshot.instruments, tradeDate).value;
    var key := KeyFor(snapshot, selected, policy);
    var existing := FindRun(p.runs, key);
    if existing.Some? {
      assert Replays(p, calculate, existing.value);
      var stored :| ReplaysWith(p, calculate, existing.value, stored);
      LoadedIsDrawn(p.bars, snapshot.instruments, tradeDate);
      FingerprintDeterminesSelection(p.bars, snapshot.instruments, tradeDate, stored, selected);
    } else {
      assert |o.pool.runs| == |p.runs| + 1;
    }
  }

  // ---------- when a call succeeds, said of the tables alone ----------

  /** The day's latest revision exists and its numbers make no bar: not traded with positive
      prices and low <= open, close <= high, and not suspended without any number. */
  ghost predicate BadLast(bars: Bars, id: BarId) {
    var h := History(bars, id);
    h != [] && !SoundContent(h[|h| - 1].content)
  }

  predicate SoundContent(c: Content) {
    if c.tradingStatus == "normal" then
      && c.open.Some? && c.high.Some? && c.low.Some? && c.close.Some?
      && 0.0 < c.low.value && c.low.value <= c.open.value <= c.high.value && c.low.value <= c.close.value <= c.high.value
      && (c.prevClose.Some? ==> c.prevClose.value > 0.0)
      && (c.volume.Some? ==> c.volume.value >= 0.0) && (c.amount.Some? ==> c.amount.value >= 0.0)
    else
      && c.tradingStatus == "suspended"
      && [c.open, c.high, c.low, c.close, c.prevClose, c.volume, c.amount] == [None, None, None, None, None, None, None]
  }

  ghost predicate SomeBad(bars: Bars, instruments: seq<int>, date: int) {
    exists k :: 0 <= k < |instruments| && BadLast(bars, BarId(instruments[k], date))
  }

  function PresentTest(bars: Bars, date: int): int -> bool { i => History(bars, BarId(i, date)) != [] }

  /** The last revision of each instrument in turn. */
  ghost predicate AreLatest(selected: seq<SelectedBar>, bars: Bars, present: seq<int>, date: int) {
    && |selected| == |present|
    && forall i :: 0 <= i < |present| ==>
         var id := BarId(present[i], date);
         var h := History(bars, id);
         h != [] && selected[i] == SelectedBar(id, |h|, h[|h| - 1])
  }

  /** A load is refused exactly when some instrument's latest row is bad; otherwise it is the
      latest row of every instrument that has one, in order. An absent bar refuses nothing. */
  ghost predicate LoadedFrom(selected: Option<seq<SelectedBar>>, bars: Bars, instruments: seq<int>, date: int) {
    && (selected.None? <==> SomeBad(bars, instruments, date))
    && (selected.Some? ==> AreLatest(selected.value, bars, Filter(instruments, PresentTest(bars, date)), date))
  }

  lemma SoundIsValid(c: Content)
    ensures SoundContent(c) <==> Valid(c)
  {
    var numbers := [c.open, c.high, c.low, c.close, c.prevClose, c.volume, c.amount];
    assert numbers == [None, None, None, None, None, None, None] ==>
      numbers[0].None? && numbers[1].None? && numbers[2].None? && numbers[3].None?
      && numbers[4].None? && numbers[5].None? && numbers[6].None?;
  }

  lemma {:induction false} LoadedExactly(bars: Bars, instruments: seq<int>, date: int)
    ensures LoadedFrom(LoadBars(bars, instruments, date), bars, instruments, date)
  {
    if instruments == [] {
    } else {
      var init, last := instruments[..|instruments| - 1], instruments[|instruments| - 1];
      assert instruments == init + [last];
      LoadedExactly(bars, init, date);
      LoadSnoc(bars, init, last, date);
    }
  }

  /** What one more instrument adds to a load. */
  lemma LoadOneMore(bars: Bars, init: seq<int>, last: int, date: int)
    ensures var before, id := LoadBars(bars, init, date), BarId(last, date);
            var h := History(bars, id);
            LoadBars(bars, init + [last], date)
            == if before.None? || BadLast(bars, id) then None
               else if h == [] then before
               else Some(before.value + [SelectedBar(id, |h|, h[|h| - 1])])
  {
    assert (init + [last])[..|init|] == init;
    var h := History(bars, BarId(last, date));
    if h != [] {
      SoundIsValid(h[|h| - 1].content);
    }
  }

  lemma AreLatestSnoc(selected: seq<SelectedBar>, bars: Bars, present: seq<int>, last: int, date: int)
    requires AreLatest(selected, bars, present, date) && History(bars, BarId(last, date)) != []
    ensures var id := BarId(last, date);
            var h := History(bars, id);
            AreLatest(selected + [SelectedBar(id, |h|, h[|h| - 1])], bars, present + [last], date)
  {
  }

  lemma LoadSnoc(bars: Bars, init: seq<int>, last: int, date: int)
    requires LoadedFrom(LoadBars(bars, init, date), bars, init, date)
    ensures LoadedFrom(LoadBars(bars, init + [last], date), bars, init + [last], date)
  {
    LoadOneMore(bars, init, last, date);
    SomeBadSnoc(bars, init, last, date);
    FilterSnoc(init, last, PresentTest(bars, date));
    var before := LoadBars(bars, init, date);
    if before.Some? && History(bars, BarId(last, date)) != [] {
      AreLatestSnoc(before.value, bars, Filter(init, PresentTest(bars, date)), last, date);
    }
  }

  lemma SomeBadSnoc(bars: Bars, init: seq<int>, last: int, date: int)
    ensures SomeBad(bars, init + [last], date) <==> SomeBad(bars, init, date) || BadLast(bars, BarId(last, date))
  {
    var all := init + [last];
    assert all[|init|] == last && forall k :: 0 <= k < |init| ==> all[k] == init[k];
  }

  /** The six parts of the natural key. */
  ghost predicate IsKeyOf(key: NaturalKey, selected: seq<SelectedBar>, tradeDate: int, snapshotId: int, policy: Policy) {
    && key.five.tradeDate == tradeDate && key.five.snapshotId == snapshotId
    && key.five.algorithmKey == policy.algorithmKey && key.five.algorithmVersion == policy.algorithmVersion
    && key.five.parameterHash == policy
    && key.fingerprint == Digest(set b | b in selected :: Identity(b.id, b.revision, b.row.content))
  }

  ghost predicate KeyStored(runs: seq<RunRow>, selected: seq<SelectedBar>, tradeDate: int, snapshotId: int, policy: Policy) {
    exists i :: 0 <= i < |runs| && IsKeyOf(runs[i].key, selected, tradeDate, snapshotId, policy)
  }

  ghost predicate RepeatsInstrument(items: seq<Item>) {
    exists i, j :: 0 <= i < j < |items| && items[i].instrument == items[j].instrument
  }

  /** Exactly when a call stops before it calculates, and that no failed call writes. */
  lemma EarlyErrors(p: Pool, calculate: Calculator, tradeDate: int, snapshotId: int, policy: Policy, now: int)
    requires forall id :: id in p.snapshots ==> p.snapshots[id].id == id
    ensures var o := Publish(p, calculate, tradeDate, snapshotId, policy, now);
            && (o.result == Raised(SnapshotNotFound) <==> snapshotId !in p.snapshots)
            && (o.result == Raised(DateMismatch) <==>
                  snapshotId in p.snapshots && p.snapshots[snapshotId].date != tradeDate)
            && (o.result == Raised(InvalidBar) <==>
                  && snapshotId in p.snapshots && p.snapshots[snapshotId].date == tradeDate
                  && SomeBad(p.bars, p.snapshots[snapshotId].instruments, tradeDate))
            && (o.result.Raised? ==> o.pool == p)
  {
    if snapshotId in p.snapshots {
      LoadedExactly(p.bars, p.snapshots[snapshotId].instruments, tradeDate);
    }
  }

  /** What a call does once the bars are loaded, and exactly when. `selected` is the latest row
      of every instrument that has one. */
  lemma PublishOutcome(p: Pool, calculate: Calculator, tradeDate: int, snapshotId: int, policy: Policy, now: int,
                       selected: seq<SelectedBar>)
    requires forall id :: id in p.snapshots ==> p.snapshots[id].id == id
    requires snapshotId in p.snapshots && p.snapshots[snapshotId].date == tradeDate
    requires LoadedFrom(Some(selected), p.bars, p.snapshots[snapshotId].instruments, tradeDate)
    ensures var o := Publish(p, calculate, tradeDate, snapshotId, policy, now);
            var rows, snapshot := |p.snapshots[snapshotId].instruments|, p.snapshots[snapshotId];
            var result := calculate(snapshot, selected, policy);
            var stored := KeyStored(p.runs, selected, tradeDate, snapshotId, policy);
            && (o.result == Raised(InvalidRun) <==> !stored && result.includedCount > rows)
            && (o.result == Raised(DuplicateItems) <==>
                  !stored && result.includedCount <= rows && RepeatsInstrument(result.items))
            && (o.result.Done? <==> stored || (result.includedCount <= rows && !RepeatsInstrument(result.items)))
            && (o.result.Done? ==>
                  && o.result.value.result == result && o.result.value.run < |o.pool.runs|
                  && IsKeyOf(o.pool.runs[o.result.value.run].key, selected, tradeDate, snapshotId, policy)
                  && (stored ==> o.pool == p)
                  && (!stored ==> PublishesOne(p, o.pool, o.result.value.run, result, rows, now)))
  {
    var instruments := p.snapshots[snapshotId].instruments;
    LoadedExactly(p.bars, instruments, tradeDate);
    SameLoad(LoadBars(p.bars, instruments, tradeDate), Some(selected), p.bars, instruments, tradeDate);
    KeyIsUnique(p, tradeDate, snapshotId, policy, selected);
  }

  /** One new run at the end, PUBLISHED, with the calculator's items and the clock's time. */
  ghost predicate PublishesOne(p: Pool, q: Pool, run: nat, result: CalcResult, rows: nat, now: int) {
    && run == |p.runs| && |q.runs| == |p.runs| + 1 && q.runs[..run] == p.runs && q.items == p.items + [result.items]
    && q.bars == p.bars && q.snapshots == p.snapshots
    && var row := q.runs[run];
       && row.inputRowCount == rows && row.includedCount == result.includedCount && row.status == PoolPublished
       && row.createdAt == now && row.finishedAt == Some(now) && row.publishedAt == Some(now)
  }

  lemma SameLoad(a: Option<seq<SelectedBar>>, b: Option<seq<SelectedBar>>, bars: Bars, instruments: seq<int>, date: int)
    requires LoadedFrom(a, bars, instruments, date) && LoadedFrom(b, bars, instruments, date)
    ensures a == b
  {
    if a.Some? {
      assert a.value == b.value;
    }
  }

  lemma KeyIsUnique(p: Pool, tradeDate: int, snapshotId: int, policy: Policy, selected: seq<SelectedBar>)
    requires snapshotId in p.snapshots && p.snapshots[snapshotId].date == tradeDate
    requires p.snapshots[snapshotId].id == snapshotId
    ensures forall key :: key == KeyFor(p.snapshots[snapshotId], selected, policy)
                          <==> IsKeyOf(key, selected, tradeDate, snapshotId, policy)
    ensures FindRun(p.runs, KeyFor(p.snapshots[snapshotId], selected, policy)).Some?
            <==> KeyStored(p.runs, selected, tradeDate, snapshotId, policy)
  {
  }

  // ---------- how many runs there are ----------

  function KeysFrom(runs: seq<RunRow>, n: nat): set<NaturalKey>
  {
    set i | n <= i < |runs| :: runs[i].key
  }

  ghost predicate KeysDistinct(runs: seq<RunRow>) {
    forall i, j :: 0 <= i < j < |runs| ==> runs[i].key != runs[j].key
  }

  lemma {:induction false} DistinctKeysCount(runs: seq<RunRow>, n: nat)
    requires n <= |runs| && KeysDistinct(runs)
    ensures |KeysFrom(runs, n)| == |runs| - n
  {
    if n == |runs| {
      assert KeysFrom(runs, n) == {};
    } else {
      var init, last := runs[..|runs| - 1], runs[|runs| - 1].key;
      DistinctKeysCount(init, n);
      KeysFromAppend(init, runs[|runs| - 1], n);
      assert init + [runs[|runs| - 1]] == runs;
      assert last !in KeysFrom(init, n);
    }
  }

  lemma KeysFromAppend(runs: seq<RunRow>, r: RunRow, n: nat)
    requires n <= |runs|
    ensures KeysFrom(runs + [r], n) == KeysFrom(runs, n) + {r.key}
  {
    var all := runs + [r];
    forall k | k in KeysFrom(runs, n) ensures k in KeysFrom(all, n) {
      var i :| n <= i < |runs| && runs[i].key == k;
      assert all[i].key == k;
    }
    assert all[|runs|].key == r.key;
  }

  lemma KeyIsCounted(runs: seq<RunRow>, n: nat, i: nat)
    requires n <= i < |runs|
    ensures runs[i].key in KeysFrom(runs, n)
  {
  }

  /** One successful call contributes its key and nothing else. */
  lemma StepKeys(p: Pool, calculate: Calculator, op: Op, n: nat)
    requires PoolInv(p, calculate) && n <= |p.runs|
    requires forall i :: 0 <= i < n ==> p.runs[i].key.fingerprint.Legacy?
    ensures KeysFrom(Step(p, calculate, op).runs, n)
            == KeysFrom(p.runs, n) + (if op.PublishOp? then CalledKey(p, calculate, op) else {})
  {
    if op.PublishOp? {
      var o := Publish(p, calculate, op.tradeDate, op.snapshotId, op.policy, op.now);
      if o.result.Done? {
        CacheAgreement(p, calculate, op.tradeDate, op.snapshotId, op.policy, op.now);
        var r := o.result.value.run;
        assert o.pool.runs[r].key.fingerprint.Digest? && r >= n;
        if o.pool == p {
          KeyIsCounted(p.runs, n, r);
        } else {
          KeysFromAppend(p.runs, o.pool.runs[r], n);
        }
      }
    }
  }

  /** The runs added since the start carry exactly the keys of the successful calls, one
      run per distinct key. */
  lemma {:induction false} RunsAreDistinctSuccessfulKeys(start: Pool, calculate: Calculator, ops: seq<Op>)
    requires Legacies(start)
    ensures var p := Run(start, calculate, ops);
            && start.runs <= p.runs
            && KeysFrom(p.runs, |start.runs|) == SuccessfulKeys(start, calculate, ops)
            && |p.runs| == |start.runs| + |SuccessfulKeys(start, calculate, ops)|
  {
    var p := Run(start, calculate, ops);
    var n := |start.runs|;
    ReachablePool(start, calculate, ops);
    HistoryNeverAltered(start, calculate, [], ops);
    assert [] + ops == ops;
    DistinctKeysCount(p.runs, n);
    if ops == [] {
      assert KeysFrom(p.runs, n) == {};
    } else {
      var init := ops[..|ops| - 1];
      var before := Run(start, calculate, init);
      RunsAreDistinctSuccessfulKeys(start, calculate, init);
      ReachablePool(start, calculate, init);
      forall i | 0 <= i < n ensures before.runs[i].key.fingerprint.Legacy? {
        assert before.runs[i] == start.runs[i];
      }
      StepKeys(before, calculate, ops[|ops| - 1], n);
    }
  }

  // ---------- revisions and reruns ----------

  /** Every published fingerprint only names revisions that exist. */
  lemma FingerprintsAreStored(p: Pool, calculate: Calculator, run: nat, x: Identity)
    requires PoolInv(p, calculate) && run < |p.runs|
    requires p.runs[run].key.fingerprint.Digest? && x in p.runs[run].key.fingerprint.selected
    ensures x.revision <= |History(p.bars, x.id)|
  {
    assert Replays(p, calculate, run);
    var selected :| ReplaysWith(p, calculate, run, selected);
    var key := p.runs[run].key;
    var b := FromIdentities(selected, x);
    DrawnMembers(p.bars, p.snapshots[key.five.snapshotId].instruments, key.five.tradeDate, selected);
  }

  lemma {:induction false} LoadedLatest(bars: Bars, instruments: seq<int>, date: int, instrument: int)
    requires LoadBars(bars, instruments, date).Some? && instrument in instruments
    requires History(bars, BarId(instrument, date)) != []
    ensures exists b :: b in LoadBars(bars, instruments, date).value
              && b.id == BarId(instrument, date) && b.revision == |History(bars, BarId(instrument, date))|
  {
    var init, last := instruments[..|instruments| - 1], instruments[|instruments| - 1];
    assert instruments == init + [last];
    var selected := LoadBars(bars, instruments, date).value;
    if instrument == last {
      assert selected[|selected| - 1] in selected;
    } else {
      LoadedLatest(bars, init, date, instrument);
      var b :| b in LoadBars(bars, init, date).value
        && b.id == BarId(instrument, date) && b.revision == |History(bars, BarId(instrument, date))|;
      assert b in selected;
    }
  }

  /** After a revision of any selected bar, a successful call publishes a brand-new run. */
  lemma RevisionForcesNewRun(p: Pool, calculate: Calculator, news: seq<NewBar>, instrument: int,
                             tradeDate: int, snapshotId: int, policy: Policy, now: int)
    requires PoolInv(p, calculate)
    requires snapshotId in p.snapshots && instrument in p.snapshots[snapshotId].instruments
    requires var id, q := BarId(instrument, tradeDate), Step(p, calculate, ReviseOp(news));
             |History(q.bars, id)| > |History(p.bars, id)|
    requires Publish(Step(p, calculate, ReviseOp(news)), calculate, tradeDate, snapshotId, policy, now).result.Done?
    ensures var q := Step(p, calculate, ReviseOp(news));
            |Publish(q, calculate, tradeDate, snapshotId, policy, now).pool.runs| == |p.runs| + 1
  {
    var q := Step(p, calculate, ReviseOp(news));
    var instruments := p.snapshots[snapshotId].instruments;
    var selected := LoadBars(q.bars, instruments, tradeDate).value;
    var key := KeyFor(q.snapshots[snapshotId], selected, policy);
    LoadedLatest(q.bars, instruments, tradeDate, instrument);
    var b :| b in selected && b.id == BarId(instrument, tradeDate)
      && b.revision == |History(q.bars, BarId(instrument, tradeDate))|;
    InIdentities(selected, b);
    var existing := FindRun(q.runs, key);
    if existing.Some? {
      FingerprintsAreStored(p, calculate, existing.value, IdentityOf(b));
      assert false;
    }
  }

  /** Collecting the same self-consistent bars again and publishing again returns the run
      already published and changes nothing. */
  lemma RerunIsANoOp(p: Pool, calculate: Calculator, news: seq<NewBar>,
                     tradeDate: int, snapshotId: int, policy: Policy, now: int, later: int)
    requires Consistent(news)
    requires var q := Step(p, calculate, ReviseOp(news));
             Publish(q, calculate, tradeDate, snapshotId, policy, now).result.Done?
    ensures var q := Step(p, calculate, ReviseOp(news));
            var first := Publish(q, calculate, tradeDate, snapshotId, policy, now);
            var again := Step(first.pool, calculate, ReviseOp(news));
            && again == first.pool
            && Publish(again, calculate, tradeDate, snapshotId, policy, later).pool == first.pool
            && Publish(again, calculate, tradeDate, snapshotId, policy, later).result.Done?
            && Publish(again, calculate, tradeDate, snapshotId, policy, later).result.value.result
               == first.result.value.result
  {
    var q := Step(p, calculate, ReviseOp(news));
    UpsertIdempotentIff(p.bars, news);
    NothingWrittenIff(q.bars, news);
    var first := Publish(q, calculate, tradeDate, snapshotId, policy, now);
    var r := first.result.value.run;
    if first.pool != q {
      assert first.pool.runs[r].key == KeyFor(q.snapshots[snapshotId],
        LoadBars(q.bars, q.snapshots[snapshotId].instruments, tradeDate).value, policy);
    }
  }
}
