/**
 Migration 20260902_0024: the fingerprint column joins the natural key of
 `candidate_pool_runs`, and `downgrade` refuses once history has outgrown the
 old key.
 */
module Migration0024 {
  import opened Wrappers
  import opened CandidatePool

  /** A row of the table; the fingerprint is None while the column is absent or NULL. */
  datatype Row = Row(five: FiveKey, fingerprint: Option<Fingerprint>, payload: RunPayload)

  datatype RunPayload = RunPayload(inputRowCount: nat, includedCount: nat, status: Status,
                                   createdAt: int, finishedAt: Option<int>, publishedAt: Option<int>)

  datatype UniqueKey = NoUnique | FivePart | SixPart

  predicate FiveUnique(rows: seq<Row>) {
    forall i, j :: 0 <= i < j < |rows| ==> rows[i].five != rows[j].five
  }

  predicate SixUnique(rows: seq<Row>) {
    forall i, j :: 0 <= i < j < |rows| ==> rows[i].five != rows[j].five || rows[i].fingerprint != rows[j].fingerprint
  }

  /** The same runs, whatever their fingerprint column holds. */
  ghost predicate SameRuns(a: seq<Row>, b: seq<Row>) {
    |a| == |b| && forall i :: 0 <= i < |a| ==> a[i].five == b[i].five && a[i].payload == b[i].payload
  }

  function WithFingerprint(rows: seq<Row>, f: nat -> Option<Fingerprint>): (r: seq<Row>)
    ensures |r| == |rows| && forall i :: 0 <= i < |rows| ==> r[i] == rows[i].(fingerprint := f(i))
  {
    seq(|rows|, i requires 0 <= i < |rows| => rows[i].(fingerprint := f(i)))
  }

  /** GROUP BY the five columns HAVING COUNT(*) > 1. */
  predicate HasConflict(rows: seq<Row>) {
    exists i, j :: 0 <= i < j < |rows| && rows[i].five == rows[j].five
  }

  class Table {
    var rows: seq<Row>
    var hasFingerprint: bool
    var notNull: bool
    var unique: UniqueKey

    /** The constraints the schema currently declares hold of the rows. */
    ghost predicate Valid()
      reads this
    {
      && (unique == FivePart ==> FiveUnique(rows))
      && (unique == SixPart ==> hasFingerprint && SixUnique(rows))
      && (notNull ==> forall i :: 0 <= i < |rows| ==> rows[i].fingerprint.Some?)
      && (!hasFingerprint ==> !notNull && forall i :: 0 <= i < |rows| ==> rows[i].fingerprint.None?)
    }

    constructor (start: seq<Row>)
      requires FiveUnique(start) && forall i :: 0 <= i < |start| ==> start[i].fingerprint.None?
      ensures Valid() && rows == start && !hasFingerprint && unique == FivePart
    {
      rows, hasFingerprint, notNull, unique := start, false, false, FivePart;
    }

    /** `upgrade`: add the column, backfill per-row sentinels, tighten, swap the key. The
        new constraint always holds, so the swap cannot fail. */
    method Upgrade()
      requires Valid() && !hasFingerprint && unique == FivePart
      modifies this
      ensures Valid() && hasFingerprint && notNull && unique == SixPart
      ensures SameRuns(rows, old(rows))
      ensures forall i :: 0 <= i < |rows| ==> rows[i].fingerprint == Some(Legacy(i))
    {
      hasFingerprint := true;
      rows := WithFingerprint(rows, (i: nat) => Some(Legacy(i)));
      notNull := true;
      unique := NoUnique;
      assert SixUnique(rows);
      unique := SixPart;
    }

    /** `downgrade`: the preflight refuses before any change exactly when two rows share the
        five-part key; otherwise the five-part key is restored over the same runs. */
    method Downgrade() returns (refused: bool)
      requires Valid() && hasFingerprint && unique == SixPart
      modifies this
      ensures refused <==> HasConflict(old(rows))
      ensures refused ==> unchanged(this)
      ensures !refused ==> && Valid() && !hasFingerprint && unique == FivePart && SameRuns(rows, old(rows))
    {
      if HasConflict(rows) {
        return true;
      }
      unique := NoUnique;
      assert FiveUnique(rows);
      unique := FivePart;
      notNull := false;
      rows := WithFingerprint(rows, (i: nat) => None);
      hasFingerprint := false;
      refused := false;
    }
  }

  /** Up and straight down again is the identity: a freshly upgraded table is never refused. */
  method UpgradeThenDowngrade(start: seq<Row>) returns (end: seq<Row>)
    requires FiveUnique(start) && forall i :: 0 <= i < |start| ==> start[i].fingerprint.None?
    ensures end == start
  {
    var table := new Table(start);
    table.Upgrade();
    assert FiveUnique(table.rows);
    var refused := table.Downgrade();
    end := table.rows;
    assert forall i :: 0 <= i < |start| ==> end[i] == start[i];
  }

  // ---------- over the histories of the publishing service ----------

  function RowOf(r: RunRow): Row {
    Row(r.key.five, Some(r.key.fingerprint),
        RunPayload(r.inputRowCount, r.includedCount, r.status, r.createdAt, r.finishedAt, r.publishedAt))
  }

  function RowsOf(runs: seq<RunRow>): (r: seq<Row>)
    ensures |r| == |runs| && forall i :: 0 <= i < |runs| ==> r[i] == RowOf(runs[i])
  {
    seq(|runs|, i requires 0 <= i < |runs| => RowOf(runs[i]))
  }

  /** Two different six-part keys of the set share their five-part key. */
  ghost predicate SharesFiveKey(keys: set<NaturalKey>) {
    exists a, b :: a in keys && b in keys && a != b && a.five == b.five
  }

  lemma RowsKeepKeys(runs: seq<RunRow>)
    requires KeysDistinct(runs)
    ensures SixUnique(RowsOf(runs))
    ensures HasConflict(RowsOf(runs)) ==> SharesFiveKey(KeysFrom(runs, 0))
  {
    var rows := RowsOf(runs);
    forall i, j | 0 <= i < j < |rows|
      ensures rows[i].five != rows[j].five || rows[i].fingerprint != rows[j].fingerprint
    {
      assert runs[i].key != runs[j].key;
      assert rows[i] == RowOf(runs[i]) && rows[j] == RowOf(runs[j]);
    }
    if HasConflict(rows) {
      var i, j :| 0 <= i < j < |rows| && rows[i].five == rows[j].five;
      KeyIsCounted(runs, 0, i);
      KeyIsCounted(runs, 0, j);
      assert runs[i].key != runs[j].key && runs[i].key.five == runs[j].key.five;
    }
  }

  lemma SharedFiveKeyConflicts(runs: seq<RunRow>)
    requires SharesFiveKey(KeysFrom(runs, 0))
    ensures HasConflict(RowsOf(runs))
  {
    var a, b :| a in KeysFrom(runs, 0) && b in KeysFrom(runs, 0) && a != b && a.five == b.five;
    var i :| 0 <= i < |runs| && runs[i].key == a;
    var j :| 0 <= j < |runs| && runs[j].key == b;
    ConflictBetween(runs, i, j);
  }

  lemma KeysSplit(start: seq<RunRow>, runs: seq<RunRow>)
    requires start <= runs
    ensures KeysFrom(runs, 0) == KeysFrom(start, 0) + KeysFrom(runs, |start|)
  {
    forall k | k in KeysFrom(start, 0) ensures k in KeysFrom(runs, 0) {
      var i :| 0 <= i < |start| && start[i].key == k;
      KeyIsCounted(runs, 0, i);
    }
    forall k | k in KeysFrom(runs, 0) ensures k in KeysFrom(start, 0) + KeysFrom(runs, |start|) {
      var i :| 0 <= i < |runs| && runs[i].key == k;
      if i < |start| {
        KeyIsCounted(start, 0, i);
      }
    }
  }

  /** Whatever was called after the upgrade, the six-part constraint holds, and downgrade is
      refused exactly when, among the keys there from the start and the keys of the successful
      publish calls, two different ones share their five-part key. */
  lemma DowngradeAfterHistory(start: Pool, calculate: Calculator, ops: seq<Op>)
    requires Legacies(start)
    ensures var rows := RowsOf(Run(start, calculate, ops).runs);
            && SixUnique(rows)
            && (HasConflict(rows)
                <==> SharesFiveKey(KeysFrom(start.runs, 0) + SuccessfulKeys(start, calculate, ops)))
  {
    var p := Run(start, calculate, ops);
    ReachablePool(start, calculate, ops);
    RunsAreDistinctSuccessfulKeys(start, calculate, ops);
    KeysSplit(start.runs, p.runs);
    assert KeysDistinct(p.runs);
    RowsKeepKeys(p.runs);
    if SharesFiveKey(KeysFrom(p.runs, 0)) {
      SharedFiveKeyConflicts(p.runs);
    }
  }

  /** One successful publication for the five-part key of a pre-migration run closes the way
      back for good: its sentinel is never found, so a second row appears beside it. */
  lemma RepublishingALegacyKeyBlocksDowngrade(start: Pool, calculate: Calculator, ops: seq<Op>, more: seq<Op>,
                                              legacy: nat, op: Op)
    requires Legacies(start) && legacy < |start.runs| && op.PublishOp?
    requires var before := Run(start, calculate, ops);
             var o := Publish(before, calculate, op.tradeDate, op.snapshotId, op.policy, op.now);
             && o.result.Done?
             && (o.result.value.run < |o.pool.runs| ==>
                   o.pool.runs[o.result.value.run].key.five == start.runs[legacy].key.five)
    ensures HasConflict(RowsOf(Run(start, calculate, ops + [op] + more).runs))
  {
    var r := Publish(Run(start, calculate, ops), calculate, op.tradeDate, op.snapshotId, op.policy, op.now)
      .result.value.run;
    PublishedRunStays(start, calculate, ops, more, op);
    HistoryNeverAltered(start, calculate, [], ops + [op] + more);
    assert [] + (ops + [op] + more) == ops + [op] + more;
    ConflictBetween(Run(start, calculate, ops + [op] + more).runs, legacy, r);
  }

  /** The run a successful call returns is there for every continuation, under its own key. */
  lemma PublishedRunStays(start: Pool, calculate: Calculator, ops: seq<Op>, more: seq<Op>, op: Op)
    requires Legacies(start) && op.PublishOp?
    requires Publish(Run(start, calculate, ops), calculate, op.tradeDate, op.snapshotId, op.policy, op.now).result.Done?
    ensures var o := Publish(Run(start, calculate, ops), calculate, op.tradeDate, op.snapshotId, op.policy, op.now);
            var end, r := Run(start, calculate, ops + [op] + more), o.result.value.run;
            && r < |o.pool.runs| && r < |end.runs| && end.runs[r] == o.pool.runs[r]
            && end.runs[r].key.fingerprint.Digest?
  {
    ReachablePool(start, calculate, ops);
    CacheAgreement(Run(start, calculate, ops), calculate, op.tradeDate, op.snapshotId, op.policy, op.now);
    RunOneMore(start, calculate, ops, op);
    HistoryNeverAltered(start, calculate, ops + [op], more);
  }

  lemma ConflictBetween(runs: seq<RunRow>, a: nat, b: nat)
    requires a < |runs| && b < |runs| && a != b && runs[a].key.five == runs[b].key.five
    ensures HasConflict(RowsOf(runs))
  {
    var i, j := if a < b then a else b, if a < b then b else a;
    assert RowsOf(runs)[i].five == RowsOf(runs)[j].five;
  }
}
