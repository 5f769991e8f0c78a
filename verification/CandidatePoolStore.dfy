/** The candidate-pool tables as mutable storage, and the service's unit of work. */
module CandidatePoolStore {
  import opened Wrappers
  import opened DailyBarStore
  import opened CandidatePool

  /** `CandidatePoolStatus.can_transition_to`: CALCULATED, VALIDATED, then a terminal state. */
  predicate CanTransition(from: Status, to: Status) {
    (from == Calculated && to == Validated) || (from == Validated && (to == PoolPublished || to == Rejected))
  }

  class Store {
    var snapshots: map<int, Snapshot>
    var bars: Bars
    var runs: seq<RunRow>
    var items: seq<seq<Item>>

    constructor (start: Pool)
      ensures State() == start
    {
      snapshots, bars, runs, items := start.snapshots, start.bars, start.runs, start.items;
    }

    function State(): Pool
      reads this
    {
      Pool(snapshots, bars, runs, items)
    }

    /** The loop of `_load_bars_for_trade_date`. */
    method LoadBarsForTradeDate(instruments: seq<int>, date: int) returns (selected: Option<seq<SelectedBar>>)
      ensures selected == LoadBars(bars, instruments, date)
    {
      var taken: seq<SelectedBar> := [];
      for i := 0 to |instruments|
        invariant LoadBars(bars, instruments[..i], date) == Some(taken)
      {
        assert instruments[..i + 1][..i] == instruments[..i];
        var id := BarId(instruments[i], date);
        var latest := Latest(bars, id);
        if latest.Some? {
          if !Valid(latest.value.content) {
            InvalidSpreads(bars, instruments, date, i + 1);
            return None;
          }
          taken := taken + [SelectedBar(id, |History(bars, id)|, latest.value)];
        }
      }
      assert instruments[..|instruments|] == instruments;
      selected := Some(taken);
    }

    method AddRun(row: RunRow) returns (id: nat)
      modifies this`runs, this`items
      ensures id == |old(runs)| && runs == old(runs) + [row] && items == old(items) + [[]]
    {
      id := |runs|;
      runs, items := runs + [row], items + [[]];
    }

    /** Inserts the items of one run; None is the IntegrityError of a repeated instrument. */
    method BulkAdd(run: nat, rows: seq<Item>) returns (inserted: Option<nat>)
      requires run < |items| && items[run] == []
      modifies this`items
      ensures if ItemsDistinct(rows) then inserted == Some(|rows|) && items == old(items)[run := rows]
              else inserted == None && items == old(items)
    {
      if !ItemsDistinct(rows) {
        return None;
      }
      items := items[run := rows];
      inserted := Some(|rows|);
    }

    method Transition(run: nat, to: Status, at: int)
      requires run < |runs| && CanTransition(runs[run].status, to)
      modifies this`runs
      ensures |runs| == |old(runs)| && forall i :: 0 <= i < |runs| && i != run ==> runs[i] == old(runs)[i]
      ensures var r := old(runs)[run];
              runs[run] == r.(status := to,
                              finishedAt := if to == Validated then Some(at) else r.finishedAt,
                              publishedAt := if to == PoolPublished then Some(at) else r.publishedAt)
    {
      var r := runs[run];
      runs := runs[run := r.(status := to,
                             finishedAt := if to == Validated then Some(at) else r.finishedAt,
                             publishedAt := if to == PoolPublished then Some(at) else r.publishedAt)];
    }

    /** Adds a run with its items and walks it to PUBLISHED; on a refused item nothing stays. */
    method StoreRun(key: NaturalKey, inputRows: nat, result: CalcResult, now: int) returns (id: Option<nat>)
      requires |items| == |runs|
      modifies this`runs, this`items
      ensures |items| == |runs|
      ensures if ItemsDistinct(result.items) then
                && id == Some(|old(runs)|)
                && runs == old(runs) + [RunRow(key, inputRows, result.includedCount, PoolPublished, now, Some(now), Some(now))]
                && items == old(items) + [result.items]
              else id == None && runs == old(runs) && items == old(items)
    {
      var savedRuns, savedItems := runs, items;
      var run := AddRun(RunRow(key, inputRows, result.includedCount, Calculated, now, None, None));
      var inserted := BulkAdd(run, result.items);
      if inserted.None? {
        runs, items := savedRuns, savedItems;
        return None;
      }
      Transition(run, Validated, now);
      Transition(run, PoolPublished, now);
      id := Some(run);
    }

    /** `calculate_and_publish_candidate_pool`. */
    method CalculateAndPublish(calculate: Calculator, tradeDate: int, snapshotId: int, policy: Policy, now: int)
      returns (result: Result<PublishResult, PublishError>)
      requires |items| == |runs|
      modifies this`runs, this`items
      ensures |items| == |runs|
      ensures Outcome(State(), result) == Publish(old(State()), calculate, tradeDate, snapshotId, policy, now)
    {
      if snapshotId !in snapshots {
        return Raised(SnapshotNotFound);
      }
      var snapshot := snapshots[snapshotId];
      if snapshot.date != tradeDate {
        return Raised(DateMismatch);
      }
      var selected := LoadBarsForTradeDate(snapshot.instruments, tradeDate);
      if selected.None? {
        return Raised(InvalidBar);
      }
      var key := KeyFor(snapshot, selected.value, policy);
      var calculated := calculate(snapshot, selected.value, policy);
      var existing := FindRun(runs, key);
      if existing.Some? {
        return Done(PublishResult(existing.value, calculated));
      }
      if calculated.includedCount > |snapshot.instruments| {
        return Raised(InvalidRun);
      }
      var id := StoreRun(key, |snapshot.instruments|, calculated, now);
      if id.None? {
        return Raised(DuplicateItems);
      }
      result := Done(PublishResult(id.value, calculated));
    }
  }

  lemma {:induction false} InvalidSpreads(bars: Bars, instruments: seq<int>, date: int, n: nat)
    requires n <= |instruments| && LoadBars(bars, instruments[..n], date).None?
    ensures LoadBars(bars, instruments, date).None?
  {
    if n == |instruments| {
      assert instruments[..n] == instruments;
    } else {
      var init := instruments[..|instruments| - 1];
      assert init[..n] == instruments[..n];
      InvalidSpreads(bars, init, date, n);
    }
  }
}
