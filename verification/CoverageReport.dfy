/**
 The provider coverage report: how a coverage matrix and the captured probe
 errors become the rows every other judgement reads.
 */
module CoverageReport {
  import opened Wrappers
  import opened Ordering
  import opened Sequences

  // ---------- the coverage matrix (provider_routing/coverage.py) ----------

  /** A covered date range; the frozenset of fields is listed in any order. */
  datatype Sample = Sample(start: int, end: int, fields: seq<string>)

  datatype SymbolCoverage = SymbolCoverage(symbol: string, ranges: seq<Sample>)

  datatype ProviderCoverage = ProviderCoverage(providerKey: string, symbols: seq<SymbolCoverage>)

  ghost predicate StrictlySorted(keys: seq<string>) {
    SortedBy(keys, StrLe) && forall i, j :: 0 <= i < j < |keys| ==> keys[i] != keys[j]
  }

  function SymbolsOf(symbols: seq<SymbolCoverage>): seq<string> { Names(symbols, (x: SymbolCoverage) => x.symbol) }

  function KeysOf(providers: seq<ProviderCoverage>): seq<string> { Names(providers, (x: ProviderCoverage) => x.providerKey) }

  ghost predicate ValidSample(s: Sample) { s.start <= s.end && s.fields != [] }

  /** What the dataclasses of the matrix enforce at construction. */
  ghost predicate ValidCoverage(coverage: seq<ProviderCoverage>) {
    && StrictlySorted(KeysOf(coverage))
    && forall i :: 0 <= i < |coverage| ==>
         && StrictlySorted(SymbolsOf(coverage[i].symbols))
         && forall j :: 0 <= j < |coverage[i].symbols| ==>
              forall k :: 0 <= k < |coverage[i].symbols[j].ranges| ==> ValidSample(coverage[i].symbols[j].ranges[k])
  }

  // ---------- the report ----------

  datatype ProbeError = ProbeError(code: string, message: string, symbol: string, providerKey: string)

  datatype SymbolRow = SymbolRow(symbol: string, coveredStart: Option<int>, coveredEnd: Option<int>, recordCount: nat,
                                 fields: seq<string>, requestedFields: Option<seq<string>>, errors: seq<ProbeError>)

  datatype ProviderRow = ProviderRow(providerKey: string, symbols: seq<SymbolRow>, requestedFields: Option<seq<string>>)

  datatype Report = Report(schemaVersion: int, generatedAt: string, contentHash: string, providers: seq<ProviderRow>)

  function RowSymbols(rows: seq<SymbolRow>): seq<string> { Names(rows, (x: SymbolRow) => x.symbol) }

  function ProviderKeys(rows: seq<ProviderRow>): seq<string> { Names(rows, (x: ProviderRow) => x.providerKey) }

  ghost predicate ValidProvider(p: ProviderRow) {
    StrictlySorted(RowSymbols(p.symbols))
  }

  /** What `__post_init__` of the report and its rows enforces. */
  ghost predicate ValidReport(r: Report) {
    && StrictlySorted(ProviderKeys(r.providers))
    && forall i :: 0 <= i < |r.providers| ==> ValidProvider(r.providers[i])
  }

  // ---------- building ----------

  function MinStart(ranges: seq<Sample>): (m: int)
    requires ranges != []
    ensures (exists s :: s in ranges && s.start == m) && forall s :: s in ranges ==> m <= s.start
  {
    if |ranges| == 1 then assert ranges[0] in ranges; ranges[0].start
    else
      assert ranges == [ranges[0]] + ranges[1..];
      var m := MinStart(ranges[1..]);
      if ranges[0].start < m then ranges[0].start else m
  }

  function MaxEnd(ranges: seq<Sample>): (m: int)
    requires ranges != []
    ensures (exists s :: s in ranges && s.end == m) && forall s :: s in ranges ==> s.end <= m
  {
    if |ranges| == 1 then assert ranges[0] in ranges; ranges[0].end
    else
      assert ranges == [ranges[0]] + ranges[1..];
      var m := MaxEnd(ranges[1..]);
      if ranges[0].end > m then ranges[0].end else m
  }

  /** `_fields_tuple` of the union of the samples' fields; empty without samples. */
  function CoveredFields(ranges: seq<Sample>): seq<string> {
    Canonical(FlatMap(ranges, (s: Sample) => s.fields))
  }

  predicate ErrorLe(a: ProbeError, b: ProbeError) {
    if a.code != b.code then StrLe(a.code, b.code)
    else if a.message != b.message then StrLe(a.message, b.message)
    else if a.symbol != b.symbol then StrLe(a.symbol, b.symbol)
    else StrLe(a.providerKey, b.providerKey)
  }

  function BuildSymbolRow(c: SymbolCoverage, recordCount: nat, requested: Option<seq<string>>,
                          errors: seq<ProbeError>): SymbolRow {
    SymbolRow(c.symbol,
              if c.ranges == [] then None else Some(MinStart(c.ranges)),
              if c.ranges == [] then None else Some(MaxEnd(c.ranges)),
              recordCount,
              if c.ranges == [] then [] else CoveredFields(c.ranges),
              if requested.None? then None else Some(Canonical(requested.value)),
              SortBy(errors, ErrorLe))
  }

  function Lookup<V>(m: map<string, V>, key: string, default: V): V {
    if key in m then m[key] else default
  }

  /** What the probe runner captured besides the matrix: record counts and typed errors. */
  datatype Probe = Probe(counts: map<string, map<string, nat>>, errors: map<string, map<string, seq<ProbeError>>>)

  function BuildRow(probe: Probe, providerKey: string, c: SymbolCoverage, requested: Option<seq<string>>): SymbolRow {
    BuildSymbolRow(c, Lookup(Lookup(probe.counts, providerKey, map[]), c.symbol, 0), requested,
                   Lookup(Lookup(probe.errors, providerKey, map[]), c.symbol, []))
  }

  function SymbolRows(probe: Probe, p: ProviderCoverage, requested: Option<seq<string>>): (r: seq<SymbolRow>)
    ensures |r| == |p.symbols|
    ensures forall i :: 0 <= i < |p.symbols| ==> r[i] == BuildRow(probe, p.providerKey, p.symbols[i], requested)
  {
    seq(|p.symbols|, i requires 0 <= i < |p.symbols| => BuildRow(probe, p.providerKey, p.symbols[i], requested))
  }

  function BuildProvider(probe: Probe, p: ProviderCoverage, requested: Option<seq<string>>): (r: ProviderRow)
    ensures r.providerKey == p.providerKey && |r.symbols| == |p.symbols|
    ensures forall i :: 0 <= i < |p.symbols| ==> r.symbols[i] == BuildRow(probe, p.providerKey, p.symbols[i], requested)
  {
    ProviderRow(p.providerKey, SymbolRows(probe, p, requested),
                if requested.None? then None else Some(Canonical(requested.value)))
  }

  predicate ProviderLe(a: ProviderRow, b: ProviderRow) { StrLe(a.providerKey, b.providerKey) }

  function ProviderRows(probe: Probe, coverage: seq<ProviderCoverage>, requested: Option<seq<string>>)
    : (r: seq<ProviderRow>)
    ensures |r| == |coverage|
    ensures forall i :: 0 <= i < |coverage| ==> r[i] == BuildProvider(probe, coverage[i], requested)
  {
    seq(|coverage|, i requires 0 <= i < |coverage| => BuildProvider(probe, coverage[i], requested))
  }

  function BuildProviders(probe: Probe, coverage: seq<ProviderCoverage>, requested: Option<seq<string>>): seq<ProviderRow> {
    SortBy(ProviderRows(probe, coverage, requested), ProviderLe)
  }

  /** `build_coverage_report_model`; `digest` stands for the canonical SHA-256. */
  function BuildReport(digest: seq<ProviderRow> -> string, probe: Probe, coverage: seq<ProviderCoverage>,
                       requested: Option<seq<string>>, generatedAt: string): Report {
    var providers := BuildProviders(probe, coverage, requested);
    Report(1, generatedAt, digest(providers), providers)
  }

  lemma ProviderLeIsPreorder()
    ensures TotalPreorder(ProviderLe)
  {
    StrLeIsTotalOrder();
    assert forall x: string, y: string, z: string :: StrLe(x, y) && StrLe(y, z) ==> StrLe(x, z);
  }

  /** Rows built from providers in key order are already in their final order. */
  lemma BuiltInOrder(probe: Probe, coverage: seq<ProviderCoverage>, requested: Option<seq<string>>)
    requires StrictlySorted(KeysOf(coverage))
    ensures |BuildProviders(probe, coverage, requested)| == |coverage|
    ensures forall i :: 0 <= i < |coverage| ==>
      BuildProviders(probe, coverage, requested)[i] == BuildProvider(probe, coverage[i], requested)
  {
    var rows := ProviderRows(probe, coverage, requested);
    var keys := KeysOf(coverage);
    forall i, j | 0 <= i < j < |rows| ensures ProviderLe(rows[i], rows[j]) {
      assert rows[i].providerKey == keys[i] && rows[j].providerKey == keys[j];
    }
    SortOfSorted(rows, ProviderLe);
  }

  /** A valid matrix builds a valid report, one row per provider and symbol, in order. */
  lemma BuiltReportIsValid(digest: seq<ProviderRow> -> string, probe: Probe, coverage: seq<ProviderCoverage>,
                           requested: Option<seq<string>>, generatedAt: string)
    requires ValidCoverage(coverage)
    ensures var r := BuildReport(digest, probe, coverage, requested, generatedAt);
            && ValidReport(r)
            && |r.providers| == |coverage|
            && forall i :: 0 <= i < |coverage| ==> r.providers[i] == BuildProvider(probe, coverage[i], requested)
  {
    var rows := BuildProviders(probe, coverage, requested);
    BuiltInOrder(probe, coverage, requested);
    assert ProviderKeys(rows) == KeysOf(coverage);
    forall i | 0 <= i < |rows| ensures ValidProvider(rows[i]) {
      assert RowSymbols(rows[i].symbols) == SymbolsOf(coverage[i].symbols);
    }
  }

  /** Order and repetition of the reported fields and samples do not matter: the tuple is
      the sorted set of all fields of all samples. */
  lemma CoveredFieldsAreTheUnion(ranges: seq<Sample>, name: string)
    ensures StrictlySorted(CoveredFields(ranges))
    ensures name in CoveredFields(ranges) <==> exists s :: s in ranges && name in s.fields
  {
    CanonicalIsStrict(FlatMap(ranges, (s: Sample) => s.fields));
    FlatMapMember(ranges, (s: Sample) => s.fields, name);
  }

  // ---------- the rows of a built report, said of the matrix and the probe ----------

  function CountOf(probe: Probe, providerKey: string, symbol: string): nat {
    if providerKey in probe.counts && symbol in probe.counts[providerKey] then probe.counts[providerKey][symbol] else 0
  }

  function ErrorsOf(probe: Probe, providerKey: string, symbol: string): seq<ProbeError> {
    if providerKey in probe.errors && symbol in probe.errors[providerKey] then probe.errors[providerKey][symbol] else []
  }

  /** By code, then message, then symbol, then provider. */
  predicate ErrorBefore(a: ProbeError, b: ProbeError) {
    || (a.code != b.code && StrLe(a.code, b.code))
    || (a.code == b.code && a.message != b.message && StrLe(a.message, b.message))
    || (a.code == b.code && a.message == b.message && a.symbol != b.symbol && StrLe(a.symbol, b.symbol))
    || (a.code == b.code && a.message == b.message && a.symbol == b.symbol && StrLe(a.providerKey, b.providerKey))
  }

  /** A sorted listing of a set of names. */
  ghost predicate Lists(tuple: seq<string>, names: seq<string>) {
    StrictlySorted(tuple) && forall name :: name in tuple <==> name in names
  }

  /** The covered range and fields of a row are those of the samples together. */
  ghost predicate Spans(row: SymbolRow, samples: seq<Sample>) {
    && (samples == [] ==> row.coveredStart.None? && row.coveredEnd.None? && row.fields == [])
    && (samples != [] ==>
          && row.coveredStart.Some? && (exists k :: 0 <= k < |samples| && samples[k].start == row.coveredStart.value)
          && row.coveredEnd.Some? && (exists k :: 0 <= k < |samples| && samples[k].end == row.coveredEnd.value)
          && (forall k :: 0 <= k < |samples| ==>
                row.coveredStart.value <= samples[k].start && samples[k].end <= row.coveredEnd.value))
    && StrictlySorted(row.fields)
    && forall name :: name in row.fields <==> exists k :: 0 <= k < |samples| && name in samples[k].fields
  }

  /** The row's errors are the probe's for that provider and symbol, all of them and sorted. */
  ghost predicate KeepsErrors(row: SymbolRow, probe: Probe, providerKey: string) {
    && multiset(row.errors) == multiset(ErrorsOf(probe, providerKey, row.symbol))
    && SortedBy(row.errors, ErrorBefore)
  }

  ghost predicate Requests(row: Option<seq<string>>, requested: Option<seq<string>>) {
    (row.None? <==> requested.None?) && (row.Some? && requested.Some? ==> Lists(row.value, requested.value))
  }

  lemma ErrorBeforeIsErrorLe()
    ensures TotalPreorder(ErrorLe)
    ensures forall a, b :: ErrorLe(a, b) <==> ErrorBefore(a, b)
  {
    StrLeIsTotalOrder();
    assert forall x: string, y: string, z: string :: StrLe(x, y) && StrLe(y, z) ==> StrLe(x, z);
    assert forall x: string :: StrLe(x, x);
    forall a, b ensures ErrorLe(a, b) <==> ErrorBefore(a, b) {
    }
  }

  lemma ErrorsAreKept(errors: seq<ProbeError>)
    ensures multiset(SortBy(errors, ErrorLe)) == multiset(errors)
    ensures SortedBy(SortBy(errors, ErrorLe), ErrorBefore)
  {
    ErrorBeforeIsErrorLe();
    SortIsSorted(errors, ErrorLe);
  }

  lemma SamplesAreSpanned(row: SymbolRow, c: SymbolCoverage, recordCount: nat, requested: Option<seq<string>>,
                          errors: seq<ProbeError>)
    requires row == BuildSymbolRow(c, recordCount, requested, errors)
    ensures Spans(row, c.ranges)
  {
    var samples := c.ranges;
    if samples != [] {
      var first :| first in samples && first.start == MinStart(samples);
      var last :| last in samples && last.end == MaxEnd(samples);
      forall k | 0 <= k < |samples| ensures MinStart(samples) <= samples[k].start && samples[k].end <= MaxEnd(samples) {
        assert samples[k] in samples;
      }
      CanonicalIsStrict(FlatMap(samples, (s: Sample) => s.fields));
      forall name ensures name in row.fields <==> exists k :: 0 <= k < |samples| && name in samples[k].fields {
        CoveredFieldsAreTheUnion(samples, name);
      }
    }
  }

  lemma RequestsAreListed(requested: Option<seq<string>>)
    ensures Requests(if requested.None? then None else Some(Canonical(requested.value)), requested)
  {
    if requested.Some? {
      CanonicalIsStrict(requested.value);
    }
  }

  /** Every row of a built report: its symbol and provider, what the samples cover, how many
      records and which errors the probe captured for it, and which fields were requested. */
  lemma BuiltRowMeaning(digest: seq<ProviderRow> -> string, probe: Probe, coverage: seq<ProviderCoverage>,
                        requested: Option<seq<string>>, generatedAt: string, i: nat, j: nat)
    requires ValidCoverage(coverage) && i < |coverage| && j < |coverage[i].symbols|
    ensures var r := BuildReport(digest, probe, coverage, requested, generatedAt);
            && |r.providers| == |coverage| && |r.providers[i].symbols| == |coverage[i].symbols|
            && r.providers[i].providerKey == coverage[i].providerKey
            && Requests(r.providers[i].requestedFields, requested)
            && var row, c := r.providers[i].symbols[j], coverage[i].symbols[j];
               && row.symbol == c.symbol
               && Spans(row, c.ranges)
               && row.recordCount == CountOf(probe, coverage[i].providerKey, c.symbol)
               && KeepsErrors(row, probe, coverage[i].providerKey)
               && Requests(row.requestedFields, requested)
  {
    BuiltReportIsValid(digest, probe, coverage, requested, generatedAt);
    RequestsAreListed(requested);
    RowMeaning(probe, coverage[i].providerKey, coverage[i].symbols[j], requested);
  }

  lemma RowMeaning(probe: Probe, providerKey: string, c: SymbolCoverage, requested: Option<seq<string>>)
    ensures var row := BuildRow(probe, providerKey, c, requested);
            && row.symbol == c.symbol && Spans(row, c.ranges)
            && row.recordCount == CountOf(probe, providerKey, c.symbol)
            && KeepsErrors(row, probe, providerKey)
            && Requests(row.requestedFields, requested)
  {
    var errors := ErrorsOf(probe, providerKey, c.symbol);
    RequestsAreListed(requested);
    ErrorsAreKept(errors);
    SamplesAreSpanned(BuildRow(probe, providerKey, c, requested), c, CountOf(probe, providerKey, c.symbol), requested, errors);
  }

  /** The report's own fields. */
  lemma ReportHeader(digest: seq<ProviderRow> -> string, probe: Probe, coverage: seq<ProviderCoverage>,
                     requested: Option<seq<string>>, generatedAt: string)
    ensures var r := BuildReport(digest, probe, coverage, requested, generatedAt);
            r.schemaVersion == 1 && r.generatedAt == generatedAt && r.contentHash == digest(r.providers)
  {
  }

  // ---------- the builders as the module writes them ----------

  /** `_fields_tuple`: appends each name once, then sorts in place. */
  method FieldsTuple(fields: seq<string>) returns (tuple: seq<string>)
    ensures tuple == Canonical(fields)
    ensures StrictlySorted(tuple) && forall name :: name in tuple <==> name in fields
  {
    var seen: set<string> := {};
    var names: seq<string> := [];
    for i := 0 to |fields|
      invariant names == Dedup(fields[..i])
      invariant forall name :: name in seen <==> name in fields[..i]
    {
      assert fields[..i + 1] == fields[..i] + [fields[i]];
      assert fields[..i + 1][..i] == fields[..i];
      if fields[i] !in seen {
        seen := seen + {fields[i]};
        names := names + [fields[i]];
      }
    }
    assert fields[..|fields|] == fields;
    tuple := SortBy(names, StrLe);
    CanonicalIsStrict(fields);
  }

  /** The rows of the first matrix entry with the key; None when there is no such entry. */
  ghost predicate RowOfFirst(row: Option<ProviderRow>, probe: Probe, coverage: seq<ProviderCoverage>, key: string,
                             requested: Option<seq<string>>) {
    && (row.None? <==> key !in KeysOf(coverage))
    && (row.Some? ==> exists i :: && 0 <= i < |coverage| && coverage[i].providerKey == key
                                  && (forall j :: 0 <= j < i ==> coverage[j].providerKey != key)
                                  && row.value == BuildProvider(probe, coverage[i], requested))
  }

  /** `build_provider_coverage_row`: the first matrix entry with the key, its rows appended
      symbol by symbol; None when the matrix has no such entry. */
  method BuildProviderRow(probe: Probe, coverage: seq<ProviderCoverage>, key: string, requested: Option<seq<string>>)
    returns (row: Option<ProviderRow>)
    ensures RowOfFirst(row, probe, coverage, key, requested)
  {
    var found := 0;
    while found < |coverage| && coverage[found].providerKey != key
      invariant found <= |coverage|
      invariant forall j :: 0 <= j < found ==> coverage[j].providerKey != key
    {
      found := found + 1;
    }
    if found == |coverage| {
      return None;
    }
    assert KeysOf(coverage)[found] == key;
    var symbols := BuildSymbolRows(probe, coverage[found], requested);
    row := Some(ProviderRow(key, symbols, if requested.None? then None else Some(Canonical(requested.value))));
  }

  method BuildSymbolRows(probe: Probe, p: ProviderCoverage, requested: Option<seq<string>>)
    returns (rows: seq<SymbolRow>)
    ensures rows == SymbolRows(probe, p, requested)
  {
    ghost var all := SymbolRows(probe, p, requested);
    rows := [];
    for i := 0 to |p.symbols|
      invariant rows == all[..i]
    {
      rows := rows + [BuildRow(probe, p.providerKey, p.symbols[i], requested)];
    }
  }

  lemma CanonicalTwice(s: seq<string>)
    ensures Canonical(Canonical(s)) == Canonical(s)
  {
    CanonicalOfSameElements(Canonical(s), s);
  }

  /** Requested fields already in canonical form build the same rows. */
  lemma CanonicalRequest(probe: Probe, p: ProviderCoverage, requested: seq<string>)
    ensures BuildProvider(probe, p, Some(Canonical(requested))) == BuildProvider(probe, p, Some(requested))
  {
    CanonicalTwice(requested);
    var a, b := BuildProvider(probe, p, Some(Canonical(requested))), BuildProvider(probe, p, Some(requested));
    assert a.symbols == b.symbols;
  }

  /** In a matrix with distinct keys the first entry with a key is the only one. */
  lemma FirstIsOnly(coverage: seq<ProviderCoverage>, i: nat, j: nat)
    requires StrictlySorted(KeysOf(coverage)) && i < |coverage| && j < |coverage|
    requires coverage[i].providerKey == coverage[j].providerKey
    ensures i == j
  {
    assert KeysOf(coverage)[j] == KeysOf(coverage)[i];
  }

  method CanonicalFields(requested: Option<seq<string>>) returns (fields: Option<seq<string>>)
    ensures fields == if requested.None? then None else Some(Canonical(requested.value))
  {
    fields := None;
    if requested.Some? {
      var tuple := FieldsTuple(requested.value);
      fields := Some(tuple);
    }
  }

  lemma CanonicalFieldsBuildAlike(probe: Probe, p: ProviderCoverage, requested: Option<seq<string>>)
    ensures BuildProvider(probe, p, if requested.None? then None else Some(Canonical(requested.value)))
            == BuildProvider(probe, p, requested)
  {
    if requested.Some? {
      CanonicalRequest(probe, p, requested.value);
    }
  }

  /** Looked up with its own key and canonical fields, a matrix entry yields its own row. */
  lemma RowOfEntry(row: Option<ProviderRow>, probe: Probe, coverage: seq<ProviderCoverage>, i: nat,
                   requested: Option<seq<string>>)
    requires StrictlySorted(KeysOf(coverage)) && i < |coverage|
    requires RowOfFirst(row, probe, coverage, coverage[i].providerKey,
                        if requested.None? then None else Some(Canonical(requested.value)))
    ensures row == Some(BuildProvider(probe, coverage[i], requested))
  {
    assert KeysOf(coverage)[i] == coverage[i].providerKey;
    var fields := if requested.None? then None else Some(Canonical(requested.value));
    var j :| 0 <= j < |coverage| && coverage[j].providerKey == coverage[i].providerKey
             && row.value == BuildProvider(probe, coverage[j], fields);
    FirstIsOnly(coverage, i, j);
    CanonicalFieldsBuildAlike(probe, coverage[i], requested);
  }

  /** `build_coverage_report_model`: one provider row per matrix entry, looked up again by its
      key, then sorted. The requested fields are put in canonical form here and once more below. */
  method BuildReportModel(digest: seq<ProviderRow> -> string, probe: Probe, coverage: seq<ProviderCoverage>,
                          requested: Option<seq<string>>, generatedAt: string) returns (report: Report)
    requires StrictlySorted(KeysOf(coverage))
    ensures report == BuildReport(digest, probe, coverage, requested, generatedAt)
  {
    var fields := CanonicalFields(requested);
    var rows := BuildProviderRows(probe, coverage, fields, requested);
    rows := SortBy(rows, ProviderLe);
    report := Report(1, generatedAt, digest(rows), rows);
  }

  /** The rows of every entry, in matrix order, from the fields in canonical form. */
  method BuildProviderRows(probe: Probe, coverage: seq<ProviderCoverage>, fields: Option<seq<string>>,
                           ghost requested: Option<seq<string>>) returns (rows: seq<ProviderRow>)
    requires StrictlySorted(KeysOf(coverage))
    requires fields == if requested.None? then None else Some(Canonical(requested.value))
    ensures rows == ProviderRows(probe, coverage, requested)
  {
    ghost var all := ProviderRows(probe, coverage, requested);
    rows := [];
    for i := 0 to |coverage|
      invariant rows == all[..i]
    {
      var row := BuildProviderRow(probe, coverage, coverage[i].providerKey, fields);
      RowOfEntry(row, probe, coverage, i, requested);
      if row.Some? {
        rows := rows + [row.value];
      }
      assert all[..i + 1] == all[..i] + [all[i]];
    }
  }
}
