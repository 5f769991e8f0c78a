/** The deterministic collection plan derived from a coverage report. */
module BackfillPlan {
  import opened Wrappers
  import opened Ordering
  import opened Sequences
  import opened CoverageReport
  import opened ProviderQuality

  datatype PlanItem = PlanItem(providerKey: string, symbol: string, rank: int, afterErrors: int, failedProbe: bool)

  const DEFAULT_RANK := 1000

  /** The tuple order of `priority`: provider rank, failed probes first, then the symbol. */
  predicate PriorityLe(a: PlanItem, b: PlanItem) {
    if a.rank != b.rank then a.rank < b.rank
    else if a.afterErrors != b.afterErrors then a.afterErrors < b.afterErrors
    else StrLe(a.symbol, b.symbol)
  }

  lemma PriorityLeIsPreorder()
    ensures TotalPreorder(PriorityLe)
  {
    StrLeIsTotalOrder();
    assert forall x: string, y: string, z: string :: StrLe(x, y) && StrLe(y, z) ==> StrLe(x, z);
  }

  predicate HasCompleteFields(row: SymbolRow, requested: Option<seq<string>>) {
    if requested.None? then row.fields != [] else forall f :: f in requested.value ==> f in row.fields
  }

  function RequestedFor(p: ProviderRow, row: SymbolRow): Option<seq<string>> {
    if row.requestedFields.Some? then row.requestedFields else p.requestedFields
  }

  predicate NeedsCollection(p: ProviderRow, row: SymbolRow) {
    !HasCompleteFields(row, RequestedFor(p, row)) || row.errors != []
  }

  function ItemFor(p: ProviderRow, row: SymbolRow, ranks: map<string, int>): PlanItem {
    PlanItem(p.providerKey, row.symbol, Lookup(ranks, p.providerKey, DEFAULT_RANK),
             if row.errors != [] then 0 else 1, row.errors != [])
  }

  function RowItems(p: ProviderRow, ranks: map<string, int>): SymbolRow -> seq<PlanItem> {
    (row: SymbolRow) => if NeedsCollection(p, row) then [ItemFor(p, row, ranks)] else []
  }

  function ProviderItems(ranks: map<string, int>): ProviderRow -> seq<PlanItem> {
    (p: ProviderRow) => FlatMap(p.symbols, RowItems(p, ranks))
  }

  /** `build_backfill_plan`. */
  function Plan(providers: seq<ProviderRow>, ranks: map<string, int>): seq<PlanItem> {
    SortBy(FlatMap(providers, ProviderItems(ranks)), PriorityLe)
  }

  /** The nested loops of `build_backfill_plan`. */
  method BuildPlan(report: Report, ranks: map<string, int>) returns (plan: seq<PlanItem>)
    ensures plan == Plan(report.providers, ranks)
  {
    var items: seq<PlanItem> := [];
    for i := 0 to |report.providers|
      invariant items == FlatMap(report.providers[..i], ProviderItems(ranks))
    {
      items := AppendItems(items, report.providers[i], ranks);
      FlatMapSnoc(report.providers, i, ProviderItems(ranks));
    }
    assert report.providers[..|report.providers|] == report.providers;
    plan := SortBy(items, PriorityLe);
  }

  /** The inner loop: an item for each row of the provider that needs collection. */
  method AppendItems(before: seq<PlanItem>, p: ProviderRow, ranks: map<string, int>) returns (items: seq<PlanItem>)
    ensures items == before + ProviderItems(ranks)(p)
  {
    items := before;
    for j := 0 to |p.symbols|
      invariant items == before + FlatMap(p.symbols[..j], RowItems(p, ranks))
    {
      var row := p.symbols[j];
      if NeedsCollection(p, row) {
        items := items + [ItemFor(p, row, ranks)];
      }
      FlatMapSnoc(p.symbols, j, RowItems(p, ranks));
    }
    assert p.symbols[..|p.symbols|] == p.symbols;
  }

  /** The plan names a provider's symbol. */
  ghost predicate Planned(plan: seq<PlanItem>, providerKey: string, symbol: string) {
    exists item :: item in plan && item.providerKey == providerKey && item.symbol == symbol
  }

  /** Some row of the provider and symbol needs collection. */
  ghost predicate Wanted(providers: seq<ProviderRow>, providerKey: string, symbol: string) {
    exists p, row :: p in providers && row in p.symbols && p.providerKey == providerKey && row.symbol == symbol
                     && NeedsCollection(p, row)
  }

  lemma PlanMembers(providers: seq<ProviderRow>, ranks: map<string, int>, item: PlanItem)
    ensures item in Plan(providers, ranks) <==> item in FlatMap(providers, ProviderItems(ranks))
  {
    SameMultisetSameElements(Plan(providers, ranks), FlatMap(providers, ProviderItems(ranks)));
  }

  /** Every row that needs collection has its item in the plan. */
  lemma RowIsPlanned(providers: seq<ProviderRow>, ranks: map<string, int>, p: ProviderRow, row: SymbolRow)
    requires p in providers && row in p.symbols && NeedsCollection(p, row)
    ensures ItemFor(p, row, ranks) in Plan(providers, ranks)
  {
    var item := ItemFor(p, row, ranks);
    assert item in RowItems(p, ranks)(row);
    FlatMapMember(p.symbols, RowItems(p, ranks), item);
    assert item in ProviderItems(ranks)(p);
    FlatMapMember(providers, ProviderItems(ranks), item);
    PlanMembers(providers, ranks, item);
  }

  /** Every item of the plan comes from a row that needs collection. */
  lemma ItemHasRow(providers: seq<ProviderRow>, ranks: map<string, int>, item: PlanItem)
    returns (p: ProviderRow, row: SymbolRow)
    requires item in Plan(providers, ranks)
    ensures p in providers && row in p.symbols && NeedsCollection(p, row) && item == ItemFor(p, row, ranks)
  {
    PlanMembers(providers, ranks, item);
    FlatMapMember(providers, ProviderItems(ranks), item);
    p :| p in providers && item in ProviderItems(ranks)(p);
    FlatMapMember(p.symbols, RowItems(p, ranks), item);
    row :| row in p.symbols && item in RowItems(p, ranks)(row);
  }

  /** The plan is in priority order and names exactly the rows that need collection. */
  lemma PlanIsExact(providers: seq<ProviderRow>, ranks: map<string, int>, providerKey: string, symbol: string)
    ensures SortedBy(Plan(providers, ranks), PriorityLe)
    ensures Planned(Plan(providers, ranks), providerKey, symbol) <==> Wanted(providers, providerKey, symbol)
  {
    PriorityLeIsPreorder();
    SortIsSorted(FlatMap(providers, ProviderItems(ranks)), PriorityLe);
    if Planned(Plan(providers, ranks), providerKey, symbol) {
      var item :| item in Plan(providers, ranks) && item.providerKey == providerKey && item.symbol == symbol;
      var p, row := ItemHasRow(providers, ranks, item);
    }
    if Wanted(providers, providerKey, symbol) {
      var p, row :| p in providers && row in p.symbols && p.providerKey == providerKey && row.symbol == symbol
                    && NeedsCollection(p, row);
      RowIsPlanned(providers, ranks, p, row);
    }
  }

  // ---------- the plan, said of the report's rows ----------

  /** A row lacks a requested field: of its own request if it has one, otherwise of its
      provider's; with no request at all, it lacks every field. */
  ghost predicate Lacks(p: ProviderRow, row: SymbolRow) {
    if row.requestedFields.Some? then exists f :: f in row.requestedFields.value && f !in row.fields
    else if p.requestedFields.Some? then exists f :: f in p.requestedFields.value && f !in row.fields
    else row.fields == []
  }

  /** The item that asks for a row: an unranked provider ranks 1000, and a failed probe
      comes before what is only incomplete. */
  ghost predicate AsksFor(item: PlanItem, p: ProviderRow, row: SymbolRow, ranks: map<string, int>) {
    && item.providerKey == p.providerKey && item.symbol == row.symbol
    && (p.providerKey in ranks ==> item.rank == ranks[p.providerKey])
    && (p.providerKey !in ranks ==> item.rank == 1000)
    && (item.failedProbe <==> row.errors != [])
    && item.afterErrors == (if item.failedProbe then 0 else 1)
  }

  lemma AskedIsPlanned(providers: seq<ProviderRow>, ranks: map<string, int>, item: PlanItem, p: ProviderRow,
                       row: SymbolRow)
    requires p in providers && row in p.symbols && AsksFor(item, p, row, ranks) && (row.errors != [] || Lacks(p, row))
    ensures item in Plan(providers, ranks)
  {
    RowIsPlanned(providers, ranks, p, row);
    assert item == ItemFor(p, row, ranks);
  }

  lemma PlannedIsAsked(providers: seq<ProviderRow>, ranks: map<string, int>, item: PlanItem)
    returns (p: ProviderRow, row: SymbolRow)
    requires item in Plan(providers, ranks)
    ensures p in providers && row in p.symbols && AsksFor(item, p, row, ranks) && (row.errors != [] || Lacks(p, row))
  {
    p, row := ItemHasRow(providers, ranks, item);
  }

  /** The plan holds an item exactly when some row calls for it. */
  lemma PlanItems(providers: seq<ProviderRow>, ranks: map<string, int>, item: PlanItem)
    ensures item in Plan(providers, ranks) <==>
            exists p, row :: && p in providers && row in p.symbols && AsksFor(item, p, row, ranks)
                             && (row.errors != [] || Lacks(p, row))
  {
    if item in Plan(providers, ranks) {
      var p, row := PlannedIsAsked(providers, ranks, item);
    } else {
      forall p, row | p in providers && row in p.symbols && AsksFor(item, p, row, ranks)
        ensures !(row.errors != [] || Lacks(p, row))
      {
        if row.errors != [] || Lacks(p, row) {
          AskedIsPlanned(providers, ranks, item, p, row);
        }
      }
    }
  }

  /** Lower ranks come first; within a rank failed probes; then the symbols in order. */
  lemma PlanOrder(providers: seq<ProviderRow>, ranks: map<string, int>, i: nat, j: nat)
    requires i < j < |Plan(providers, ranks)|
    ensures var a, b := Plan(providers, ranks)[i], Plan(providers, ranks)[j];
            && a.rank <= b.rank
            && (a.rank == b.rank ==> (b.failedProbe ==> a.failedProbe))
            && (a.rank == b.rank && a.failedProbe == b.failedProbe ==> StrLe(a.symbol, b.symbol))
  {
    var plan := Plan(providers, ranks);
    PriorityLeIsPreorder();
    SortIsSorted(FlatMap(providers, ProviderItems(ranks)), PriorityLe);
    assert plan[i] in plan && plan[j] in plan;
    var p, row := PlannedIsAsked(providers, ranks, plan[i]);
    var q, other := PlannedIsAsked(providers, ranks, plan[j]);
  }

  lemma RowItemsApart(p: ProviderRow, ranks: map<string, int>)
    requires ValidProvider(p)
    ensures Distinct(FlatMap(p.symbols, RowItems(p, ranks)))
  {
    forall i, j, item | 0 <= i < j < |p.symbols| && item in RowItems(p, ranks)(p.symbols[i])
      ensures item !in RowItems(p, ranks)(p.symbols[j])
    {
      assert RowSymbols(p.symbols)[i] != RowSymbols(p.symbols)[j];
    }
    FlatMapDistinct(p.symbols, RowItems(p, ranks));
  }

  lemma ItemsOfProvider(p: ProviderRow, ranks: map<string, int>, item: PlanItem)
    requires item in ProviderItems(ranks)(p)
    ensures item.providerKey == p.providerKey
  {
    FlatMapMember(p.symbols, RowItems(p, ranks), item);
  }

  /** The plan of a valid report repeats no item. */
  lemma PlanRepeatsNothing(r: Report, ranks: map<string, int>)
    requires ValidReport(r)
    ensures Distinct(Plan(r.providers, ranks))
  {
    forall p | p in r.providers ensures Distinct(ProviderItems(ranks)(p)) {
      var i :| 0 <= i < |r.providers| && r.providers[i] == p;
      RowItemsApart(p, ranks);
    }
    forall i, j, item | 0 <= i < j < |r.providers| && item in ProviderItems(ranks)(r.providers[i])
      ensures item !in ProviderItems(ranks)(r.providers[j])
    {
      assert ProviderKeys(r.providers)[i] != ProviderKeys(r.providers)[j];
      ItemsOfProvider(r.providers[i], ranks, item);
      if item in ProviderItems(ranks)(r.providers[j]) {
        ItemsOfProvider(r.providers[j], ranks, item);
      }
    }
    FlatMapDistinct(r.providers, ProviderItems(ranks));
    DistinctOfPermutation(FlatMap(r.providers, ProviderItems(ranks)), Plan(r.providers, ranks));
  }

  predicate ProviderKeyLe(a: PlanItem, b: PlanItem) { StrLe(a.providerKey, b.providerKey) }

  lemma ItemsInReportOrder(r: Report, ranks: map<string, int>)
    requires ValidReport(r)
    ensures SortedBy(FlatMap(r.providers, ProviderItems(ranks)), ProviderKeyLe)
  {
    StrLeIsTotalOrder();
    forall p | p in r.providers ensures SortedBy(ProviderItems(ranks)(p), ProviderKeyLe) {
      forall i, j | 0 <= i < j < |ProviderItems(ranks)(p)|
        ensures ProviderKeyLe(ProviderItems(ranks)(p)[i], ProviderItems(ranks)(p)[j])
      {
        ItemsOfProvider(p, ranks, ProviderItems(ranks)(p)[i]);
        ItemsOfProvider(p, ranks, ProviderItems(ranks)(p)[j]);
        StrLeTotal(p.providerKey, p.providerKey);
      }
    }
    forall i, j, a, b | 0 <= i < j < |r.providers| && a in ProviderItems(ranks)(r.providers[i])
                        && b in ProviderItems(ranks)(r.providers[j])
      ensures ProviderKeyLe(a, b)
    {
      ItemsOfProvider(r.providers[i], ranks, a);
      ItemsOfProvider(r.providers[j], ranks, b);
      assert StrLe(ProviderKeys(r.providers)[i], ProviderKeys(r.providers)[j]);
    }
    FlatMapSorted(r.providers, ProviderItems(ranks), ProviderKeyLe);
  }

  /** Items with the same rank, probe result and symbol stand in the order of their providers. */
  lemma TiesInProviderOrder(r: Report, ranks: map<string, int>, i: nat, j: nat)
    requires ValidReport(r) && i < j < |Plan(r.providers, ranks)|
    requires var a, b := Plan(r.providers, ranks)[i], Plan(r.providers, ranks)[j];
             a.rank == b.rank && a.failedProbe == b.failedProbe && a.symbol == b.symbol
    ensures StrLe(Plan(r.providers, ranks)[i].providerKey, Plan(r.providers, ranks)[j].providerKey)
  {
    var items, plan := FlatMap(r.providers, ProviderItems(ranks)), Plan(r.providers, ranks);
    var tied := TiedWith(PriorityLe, plan[i]);
    PriorityLeIsPreorder();
    ItemsInReportOrder(r, ranks);
    SortKeepsTies(items, PriorityLe, plan[i]);
    FilterKeepsOrder(items, ProviderKeyLe, tied);
    SameTie(r.providers, ranks, plan[i], plan[j]);
    FilteredOrder(plan, ProviderKeyLe, tied, i, j);
  }

  lemma SameTie(providers: seq<ProviderRow>, ranks: map<string, int>, a: PlanItem, b: PlanItem)
    requires a in Plan(providers, ranks) && b in Plan(providers, ranks)
    requires a.rank == b.rank && a.failedProbe == b.failedProbe && a.symbol == b.symbol
    ensures TiedWith(PriorityLe, a)(a) && TiedWith(PriorityLe, a)(b)
  {
    var p, row := PlannedIsAsked(providers, ranks, a);
    var q, other := PlannedIsAsked(providers, ranks, b);
    StrLeTotal(a.symbol, a.symbol);
    assert PriorityLe(a, a) && PriorityLe(a, b) && PriorityLe(b, a);
  }

  // ---------- a captured probe error reaches the score and the plan ----------

  lemma KeptErrorsStay(row: SymbolRow, probe: Probe, providerKey: string)
    requires KeepsErrors(row, probe, providerKey) && ErrorsOf(probe, providerKey, row.symbol) != []
    ensures row.errors != []
  {
    assert ErrorsOf(probe, providerKey, row.symbol)[0] in multiset(row.errors);
  }

  /** Whatever the samples cover: an expected symbol whose probe captured an error is failed in
      the score, makes the provider unpublishable, and is planned as a failed probe. */
  lemma ProbeErrorIsPlanned(digest: seq<ProviderRow> -> string, probe: Probe, coverage: seq<ProviderCoverage>,
                            requested: Option<seq<string>>, generatedAt: string, reg: Registration,
                            expected: seq<string>, asOf: int, ranks: map<string, int>, i: nat, j: nat)
    requires ValidCoverage(coverage) && ValidSymbols(expected)
    requires i < |coverage| && coverage[i].providerKey == reg.providerKey && j < |coverage[i].symbols|
    requires coverage[i].symbols[j].symbol in expected
    requires ErrorsOf(probe, reg.providerKey, coverage[i].symbols[j].symbol) != []
    ensures var r, symbol := BuildReport(digest, probe, coverage, requested, generatedAt), coverage[i].symbols[j].symbol;
            && symbol in Evaluate(r, reg, expected, asOf).value.failed
            && !PublishableByDefault(Evaluate(r, reg, expected, asOf).value)
            && exists item :: && item in Plan(r.providers, ranks) && item.providerKey == reg.providerKey
                              && item.symbol == symbol && item.failedProbe && item.afterErrors == 0
  {
    var r, symbol := BuildReport(digest, probe, coverage, requested, generatedAt), coverage[i].symbols[j].symbol;
    BuiltReportIsValid(digest, probe, coverage, requested, generatedAt);
    BuiltRowMeaning(digest, probe, coverage, requested, generatedAt, i, j);
    var p := r.providers[i];
    var row := p.symbols[j];
    KeptErrorsStay(row, probe, reg.providerKey);
    MissingAndFailed(r, reg, expected, asOf, p);
    NotSoundWithErrors(p, row, reg.supported);
    ErrorRowIsPlanned(r.providers, ranks, p, row);
  }

  lemma NotSoundWithErrors(p: ProviderRow, row: SymbolRow, supported: set<string>)
    requires ValidProvider(p) && row in p.symbols && row.errors != []
    ensures Reported(p, row.symbol) && !Sound(p, supported, row.symbol)
  {
    UniqueRow(p.symbols, row);
    forall other | other in p.symbols && other.symbol == row.symbol ensures other == row {
      UniqueRow(p.symbols, other);
    }
  }

  lemma ErrorRowIsPlanned(providers: seq<ProviderRow>, ranks: map<string, int>, p: ProviderRow, row: SymbolRow)
    requires p in providers && row in p.symbols && row.errors != []
    ensures exists item :: && item in Plan(providers, ranks) && item.providerKey == p.providerKey
                           && item.symbol == row.symbol && item.failedProbe && item.afterErrors == 0
  {
    var item := PlanItem(p.providerKey, row.symbol, if p.providerKey in ranks then ranks[p.providerKey] else 1000, 0, true);
    assert AsksFor(item, p, row, ranks);
    AskedIsPlanned(providers, ranks, item, p, row);
  }

  // ---------- the plan and the score name the same symbols ----------

  /** In a built report with the supported fields requested, a row is planned exactly when
      the score calls it failed. */
  lemma BuiltRowAgrees(probe: Probe, p: ProviderCoverage, i: nat, requested: seq<string>, supported: set<string>)
    requires i < |p.symbols| && supported != {} && forall f :: f in requested <==> f in supported
    ensures var built := BuildProvider(probe, p, Some(requested));
            NeedsCollection(built, built.symbols[i]) <==> !Good(built.symbols[i], supported)
  {
    var built := BuildProvider(probe, p, Some(requested));
    var row := built.symbols[i];
    assert row.requestedFields == Some(Canonical(requested));
    assert HasCompleteFields(row, RequestedFor(built, row)) <==> Complete(row, supported);
    if p.symbols[i].ranges == [] {
      var f :| f in supported;
      assert f !in row.fields;
    }
  }

  /** For every report built with the supported fields requested: the plan's expected symbols
      of a reported provider are exactly the score's failed symbols, and no missing symbol is
      planned. */
  lemma PlanAgreesWithScore(digest: seq<ProviderRow> -> string, probe: Probe, coverage: seq<ProviderCoverage>,
                            requested: seq<string>, generatedAt: string, reg: Registration,
                            expected: seq<string>, asOf: int, ranks: map<string, int>, symbol: string)
    requires ValidCoverage(coverage) && ValidSymbols(expected) && symbol in expected
    requires forall f :: f in requested <==> f in reg.supported
    requires exists i :: 0 <= i < |coverage| && coverage[i].providerKey == reg.providerKey
    ensures var r := BuildReport(digest, probe, coverage, Some(requested), generatedAt);
            var score := Evaluate(r, reg, expected, asOf).value;
            && (Planned(Plan(r.providers, ranks), reg.providerKey, symbol) <==> symbol in score.failed)
            && (symbol in score.missing ==> !Planned(Plan(r.providers, ranks), reg.providerKey, symbol))
  {
    var r := BuildReport(digest, probe, coverage, Some(requested), generatedAt);
    BuiltReportIsValid(digest, probe, coverage, Some(requested), generatedAt);
    var i :| 0 <= i < |coverage| && coverage[i].providerKey == reg.providerKey;
    var p := r.providers[i];
    assert p in r.providers && p.providerKey == reg.providerKey;
    forall a, b | 0 <= a < b < |r.providers| ensures r.providers[a].providerKey != r.providers[b].providerKey {
      assert ProviderKeys(r.providers)[a] != ProviderKeys(r.providers)[b];
    }
    UniqueProvider(r.providers, p);
    PlanIsExact(r.providers, ranks, reg.providerKey, symbol);
    SameMultisetSameElements(SortBy(expected, StrLe), expected);
    assert ValidProvider(p);
    assert FindProvider(r.providers, reg.providerKey) == Some(p);
    RowAgreement(probe, coverage[i], requested, reg.supported, symbol);
  }

  lemma RowAgreement(probe: Probe, c: ProviderCoverage, requested: seq<string>, supported: set<string>, symbol: string)
    requires supported != {} && forall f :: f in requested <==> f in supported
    requires ValidProvider(BuildProvider(probe, c, Some(requested)))
    ensures var p := BuildProvider(probe, c, Some(requested));
            (exists row :: row in p.symbols && row.symbol == symbol && NeedsCollection(p, row))
            <==> IsFailed(Some(p), supported, symbol)
  {
    var p := BuildProvider(probe, c, Some(requested));
    forall row | row in p.symbols
      ensures NeedsCollection(p, row) <==> !Good(row, supported)
      ensures FindRow(p.symbols, row.symbol) == Some(row)
    {
      var i :| 0 <= i < |p.symbols| && p.symbols[i] == row;
      BuiltRowAgrees(probe, c, i, requested, supported);
      UniqueRow(p.symbols, row);
    }
  }

  /** The provider has to be in the report: for an absent one every expected symbol is
      failed, and none of them is planned. */
  lemma AbsentProviderIsFailedButNotPlanned(r: Report, reg: Registration, expected: seq<string>, asOf: int,
                                            ranks: map<string, int>, symbol: string)
    requires ValidSymbols(expected) && symbol in expected
    requires forall p :: p in r.providers ==> p.providerKey != reg.providerKey
    ensures symbol in Evaluate(r, reg, expected, asOf).value.failed
    ensures !Planned(Plan(r.providers, ranks), reg.providerKey, symbol)
  {
    SameMultisetSameElements(SortBy(expected, StrLe), expected);
    PlanIsExact(r.providers, ranks, reg.providerKey, symbol);
  }
}
