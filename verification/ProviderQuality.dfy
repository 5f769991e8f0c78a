/**
 Scoring a provider's coverage, the publish decision and the health status:
 three judgements of the same rows.
 */
module ProviderQuality {
  import opened Wrappers
  import opened Ordering
  import opened Sequences
  import opened CoverageReport

  datatype RawRegistration = Registration(providerKey: string, reliability: real, freshnessSla: int, supported: set<string>)

  /** `ProviderDatasetRegistration.__post_init__`. */
  type Registration = r: RawRegistration | 0.0 <= r.reliability <= 1.0 && r.freshnessSla >= 0 && r.supported != {}
    witness Registration("fixture_dev", 1.0, 0, {"close"})

  datatype Freshness = Fresh | Warning | Failed

  datatype Score = Score(coverage: real, completeness: real, freshnessDays: Option<int>, freshness: Freshness,
                         freshnessScore: real, reliability: real, quality: real,
                         missing: seq<string>, failed: seq<string>)

  function FindProvider(providers: seq<ProviderRow>, key: string): (r: Option<ProviderRow>)
    ensures r.Some? ==> r.value in providers && r.value.providerKey == key
    ensures r.None? <==> forall p :: p in providers ==> p.providerKey != key
  {
    if providers == [] then None
    else
      assert providers == [providers[0]] + providers[1..];
      if providers[0].providerKey == key then Some(providers[0]) else FindProvider(providers[1..], key)
  }

  /** `{row.symbol: row for row in rows}.get(symbol)`. */
  function FindRow(rows: seq<SymbolRow>, symbol: string): (r: Option<SymbolRow>)
    ensures r.Some? ==> r.value in rows && r.value.symbol == symbol
    ensures r.None? <==> forall row :: row in rows ==> row.symbol != symbol
  {
    if rows == [] then None
    else
      var init, last := rows[..|rows| - 1], rows[|rows| - 1];
      assert rows == init + [last];
      if last.symbol == symbol then Some(last) else FindRow(init, symbol)
  }

  function RowOf(p: Option<ProviderRow>, symbol: string): Option<SymbolRow> {
    if p.None? then None else FindRow(p.value.symbols, symbol)
  }

  predicate Complete(row: SymbolRow, supported: set<string>) {
    forall f :: f in supported ==> f in row.fields
  }

  predicate Good(row: SymbolRow, supported: set<string>) {
    row.coveredStart.Some? && row.coveredEnd.Some? && Complete(row, supported) && row.errors == []
  }

  // The symbol-level judgements of one provider row.
  predicate IsMissing(p: Option<ProviderRow>, symbol: string) { RowOf(p, symbol).None? }

  predicate IsComplete(p: Option<ProviderRow>, supported: set<string>, symbol: string) {
    RowOf(p, symbol).Some? && Complete(RowOf(p, symbol).value, supported)
  }

  predicate IsGood(p: Option<ProviderRow>, supported: set<string>, symbol: string) {
    RowOf(p, symbol).Some? && Good(RowOf(p, symbol).value, supported)
  }

  predicate IsFailed(p: Option<ProviderRow>, supported: set<string>, symbol: string) {
    RowOf(p, symbol).Some? && !Good(RowOf(p, symbol).value, supported)
  }

  function MissingTest(p: Option<ProviderRow>): string -> bool { s => IsMissing(p, s) }
  function CompleteTest(p: Option<ProviderRow>, supported: set<string>): string -> bool { s => IsComplete(p, supported, s) }
  function GoodTest(p: Option<ProviderRow>, supported: set<string>): string -> bool { s => IsGood(p, supported, s) }
  function FailedTest(p: Option<ProviderRow>, supported: set<string>): string -> bool { s => IsFailed(p, supported, s) }

  /** `max(covered_ends, default=None)` over the expected symbols. */
  function LatestEnd(p: Option<ProviderRow>, symbols: seq<string>): Option<int> {
    if symbols == [] then None
    else
      var rest, e := LatestEnd(p, symbols[1..]), EndOf(p, symbols[0]);
      if rest.None? then e
      else if e.None? || e.value <= rest.value then rest
      else e
  }

  function EndOf(p: Option<ProviderRow>, symbol: string): Option<int> {
    if RowOf(p, symbol).None? then None else RowOf(p, symbol).value.coveredEnd
  }

  /** `_freshness`: the SLA of zero days demands the very day. */
  function FreshnessOf(latest: Option<int>, asOf: int, sla: int): Freshness {
    if latest.None? then Failed
    else
      var days := asOf - latest.value;
      if sla == 0 then (if days == 0 then Fresh else Failed)
      else if days <= sla then Fresh
      else if days <= 2 * sla then Warning
      else Failed
  }

  function FreshnessScore(f: Freshness): real {
    match f
    case Fresh => 1.0
    case Warning => 0.5
    case Failed => 0.0
  }

  function Weighted(coverage: real, completeness: real, freshness: real, reliability: real): real {
    coverage * 0.30 + completeness * 0.30 + freshness * 0.20 + reliability * 0.20
  }

  function Clamp(q: real): real {
    var low := if q > 0.0 then q else 0.0;
    if low < 1.0 then low else 1.0
  }

  /** The characters `str.strip` removes. */
  predicate IsSpace(c: char) {
    var n := c as int;
    || 9 <= n <= 13 || 28 <= n <= 32 || n == 0x85 || n == 0xA0 || n == 0x1680 || 0x2000 <= n <= 0x200A
    || n == 0x2028 || n == 0x2029 || n == 0x202F || n == 0x205F || n == 0x3000
  }

  predicate Blank(s: string) { forall i :: 0 <= i < |s| ==> IsSpace(s[i]) }

  /** `_validated_expected_symbols`: non-empty, no blank symbol, no repetition. */
  predicate ValidSymbols(symbols: seq<string>) {
    && symbols != []
    && (forall i :: 0 <= i < |symbols| ==> !Blank(symbols[i]))
    && forall i, j :: 0 <= i < j < |symbols| ==> symbols[i] != symbols[j]
  }

  /** `Decimal(part) / Decimal(whole)`. */
  function Ratio(part: int, whole: nat): real
    requires whole > 0
  {
    part as real / whole as real
  }

  /** `covered_count`: whatever is neither missing nor failed, of a reported provider. */
  function CoveredCount(p: Option<ProviderRow>, reg: Registration, symbols: seq<string>): int {
    if p.None? then 0
    else |symbols| - |Filter(symbols, MissingTest(p))| - |Filter(symbols, FailedTest(p, reg.supported))|
  }

  /** The score that counts out of `n` symbols and a latest covered end add up to. */
  function ScoreFrom(covered: int, complete: nat, n: nat, latest: Option<int>, asOf: int, reg: Registration,
                     missing: seq<string>, failed: seq<string>): Score
    requires n > 0
  {
    var status := FreshnessOf(latest, asOf, reg.freshnessSla);
    var coverage := Ratio(covered, n);
    var completeness := Ratio(complete, n);
    Score(coverage, completeness,
          if latest.None? then None else Some(asOf - latest.value), status, FreshnessScore(status), reg.reliability,
          Clamp(Weighted(coverage, completeness, FreshnessScore(status), reg.reliability)), missing, failed)
  }

  /** The score over the sorted expected symbols. */
  function ScoreOf(p: Option<ProviderRow>, reg: Registration, symbols: seq<string>, asOf: int): Score
    requires symbols != []
  {
    ScoreFrom(CoveredCount(p, reg, symbols), |Filter(symbols, CompleteTest(p, reg.supported))|, |symbols|,
              LatestEnd(p, symbols), asOf, reg, Filter(symbols, MissingTest(p)),
              if p.None? then symbols else Filter(symbols, FailedTest(p, reg.supported)))
  }

  datatype QualityError = BadSymbols | BadThreshold

  /** `evaluate_provider_quality`. */
  function Evaluate(r: Report, reg: Registration, expected: seq<string>, asOf: int): Result<Score, QualityError> {
    if !ValidSymbols(expected) then Raised(BadSymbols)
    else Done(ScoreOf(FindProvider(r.providers, reg.providerKey), reg, SortBy(expected, StrLe), asOf))
  }

  // ---------- publish decision and health ----------

  datatype Reason = LowCoverage | LowCompleteness | StaleOrFailedFreshness | FailedSymbols

  function Rank(r: Reason): nat {
    match r
    case LowCoverage => 0
    case LowCompleteness => 1
    case StaleOrFailedFreshness => 2
    case FailedSymbols => 3
  }

  /** The reasons stand in their fixed order, once each. */
  ghost predicate InOrder(reasons: seq<Reason>) {
    forall i, j :: 0 <= i < j < |reasons| ==> Rank(reasons[i]) < Rank(reasons[j])
  }

  method AppendWhen(holds: bool, reasons: seq<Reason>, next: Reason) returns (r: seq<Reason>)
    requires InOrder(reasons) && forall x :: x in reasons ==> Rank(x) < Rank(next)
    ensures InOrder(r) && forall x :: x in r <==> x in reasons || (holds && x == next)
    ensures r == [] <==> reasons == [] && !holds
  {
    r := reasons;
    if holds {
      forall i | 0 <= i < |reasons| ensures Rank(reasons[i]) < Rank(next) {
        assert reasons[i] in reasons;
      }
      r := reasons + [next];
    }
  }

  /** `decision_from_score`: the reasons in their fixed order; publishable when there is none. */
  method DecideFromScore(score: Score, minCoverage: real, minCompleteness: real)
    returns (reasons: Result<seq<Reason>, QualityError>)
    ensures reasons.Raised? <==> !(0.0 <= minCoverage <= 1.0 && 0.0 <= minCompleteness <= 1.0)
    ensures reasons.Done? ==>
      var r := reasons.value;
      && (LowCoverage in r <==> score.coverage < minCoverage)
      && (LowCompleteness in r <==> score.completeness < minCompleteness)
      && (StaleOrFailedFreshness in r <==> score.freshness != Fresh)
      && (FailedSymbols in r <==> score.failed != [])
      && InOrder(r)
      && (r == [] <==> Publishable(score, minCoverage, minCompleteness))
  {
    if !(0.0 <= minCoverage <= 1.0) || !(0.0 <= minCompleteness <= 1.0) {
      return Raised(BadThreshold);
    }
    var r := AppendWhen(score.coverage < minCoverage, [], LowCoverage);
    r := AppendWhen(score.completeness < minCompleteness, r, LowCompleteness);
    r := AppendWhen(score.freshness != Fresh, r, StaleOrFailedFreshness);
    r := AppendWhen(score.failed != [], r, FailedSymbols);
    reasons := Done(r);
  }

  predicate Publishable(score: Score, minCoverage: real, minCompleteness: real) {
    && score.coverage >= minCoverage && score.completeness >= minCompleteness
    && score.freshness == Fresh && score.failed == []
  }

  predicate PublishableByDefault(score: Score) { Publishable(score, 1.0, 1.0) }

  datatype Health = Disabled | Unknown | Stale | Degraded | Healthy

  /** `_classify` of provider_health.py, in its priority order. */
  function Classify(score: Score, enabled: bool): Health {
    if !enabled then Disabled
    else if score.freshnessDays.None? && score.coverage == 0.0 && score.completeness == 0.0 then Unknown
    else if score.freshness != Fresh then Stale
    else if score.coverage < 1.0 || score.completeness < 1.0 || score.failed != [] then Degraded
    else Healthy
  }

  // ---------- the score ----------

  function GoodCount(p: Option<ProviderRow>, reg: Registration, symbols: seq<string>): nat {
    |Filter(symbols, GoodTest(p, reg.supported))|
  }

  function CompleteCount(p: Option<ProviderRow>, reg: Registration, symbols: seq<string>): nat {
    |Filter(symbols, CompleteTest(p, reg.supported))|
  }

  lemma NothingIsGoodWithoutARow(reg: Registration, symbols: seq<string>)
    ensures GoodCount(None, reg, symbols) == 0
  {
    FilterNone(symbols, GoodTest(None, reg.supported));
  }

  /** What is neither missing nor failed is exactly what is covered, complete and error-free. */
  lemma CoveredIsGood(p: Option<ProviderRow>, reg: Registration, symbols: seq<string>)
    ensures CoveredCount(p, reg, symbols) == GoodCount(p, reg, symbols)
  {
    if p.Some? {
      FilterPartition(symbols, GoodTest(p, reg.supported), MissingTest(p), FailedTest(p, reg.supported));
    } else {
      NothingIsGoodWithoutARow(reg, symbols);
    }
  }

  lemma GoodIsComplete(p: Option<ProviderRow>, reg: Registration, symbols: seq<string>)
    ensures GoodCount(p, reg, symbols) <= CompleteCount(p, reg, symbols) <= |symbols|
  {
    FilterMonotone(symbols, GoodTest(p, reg.supported), CompleteTest(p, reg.supported));
  }

  /** Coverage counts the good symbols, completeness the field-complete ones. */
  lemma CountsAgree(p: Option<ProviderRow>, reg: Registration, symbols: seq<string>, asOf: int)
    requires symbols != []
    ensures ScoreOf(p, reg, symbols, asOf).coverage == Ratio(GoodCount(p, reg, symbols), |symbols|)
    ensures ScoreOf(p, reg, symbols, asOf).completeness == Ratio(CompleteCount(p, reg, symbols), |symbols|)
    ensures GoodCount(p, reg, symbols) <= CompleteCount(p, reg, symbols) <= |symbols|
  {
    CoveredIsGood(p, reg, symbols);
    GoodIsComplete(p, reg, symbols);
  }

  lemma QuotientLe(x: real, y: real, t: real)
    requires t > 0.0
    ensures x <= y <==> x / t <= y / t
  {
    assert (x / t) * t == x && (y / t) * t == y;
    if x / t <= y / t {
      assert (x / t) * t <= (y / t) * t;
    }
    if y / t < x / t {
      assert (y / t) * t < (x / t) * t;
    }
  }

  lemma RatioBounds(a: nat, b: nat, n: nat)
    requires a <= b <= n && n > 0
    ensures 0.0 <= Ratio(a, n) <= Ratio(b, n) <= 1.0
    ensures Ratio(b, n) >= 1.0 <==> b == n
  {
    var t := n as real;
    QuotientLe(0.0, a as real, t);
    QuotientLe(a as real, b as real, t);
    QuotientLe(b as real, t, t);
    QuotientLe(t, b as real, t);
    SelfQuotient(t);
  }

  lemma SelfQuotient(t: real)
    requires t > 0.0
    ensures t / t == 1.0 && 0.0 / t == 0.0
  {
  }

  /** Coverage never exceeds completeness, and the weighted score is already between 0 and 1,
      so clamping it changes nothing. */
  lemma ScoreWithinBounds(p: Option<ProviderRow>, reg: Registration, symbols: seq<string>, asOf: int)
    requires symbols != []
    ensures var s := ScoreOf(p, reg, symbols, asOf);
            && 0.0 <= s.coverage <= s.completeness <= 1.0
            && s.quality == Weighted(s.coverage, s.completeness, s.freshnessScore, s.reliability)
            && 0.0 <= s.quality <= 1.0
  {
    CountsAgree(p, reg, symbols, asOf);
    RatioBounds(GoodCount(p, reg, symbols), CompleteCount(p, reg, symbols), |symbols|);
    var s := ScoreOf(p, reg, symbols, asOf);
    WeightedBounds(s.coverage, s.completeness, s.freshnessScore, s.reliability);
  }

  lemma WeightedBounds(a: real, b: real, c: real, d: real)
    requires 0.0 <= a <= 1.0 && 0.0 <= b <= 1.0 && 0.0 <= c <= 1.0 && 0.0 <= d <= 1.0
    ensures 0.0 <= Weighted(a, b, c, d) <= 1.0
    ensures Clamp(Weighted(a, b, c, d)) == Weighted(a, b, c, d)
  {
  }

  // ---------- when a provider is healthy ----------

  /** Every expected symbol has a covered, field-complete, error-free row. */
  ghost predicate AllGood(p: Option<ProviderRow>, supported: set<string>, symbols: seq<string>) {
    forall s :: s in symbols ==> IsGood(p, supported, s)
  }

  lemma AllGoodCounts(p: Option<ProviderRow>, reg: Registration, symbols: seq<string>)
    ensures GoodCount(p, reg, symbols) == |symbols| <==> AllGood(p, reg.supported, symbols)
  {
    FilterAll(symbols, GoodTest(p, reg.supported));
  }

  lemma AllGoodLeavesNone(p: Option<ProviderRow>, reg: Registration, symbols: seq<string>)
    requires symbols != [] && AllGood(p, reg.supported, symbols)
    ensures p.Some?
    ensures Filter(symbols, MissingTest(p)) == [] && Filter(symbols, FailedTest(p, reg.supported)) == []
  {
    assert IsGood(p, reg.supported, symbols[0]);
    FilterNone(symbols, MissingTest(p));
    FilterNone(symbols, FailedTest(p, reg.supported));
  }

  lemma RatioIsOne(k: nat, n: nat)
    requires n > 0 && k <= n
    ensures Ratio(k, n) >= 1.0 <==> k == n
  {
    RatioBounds(k, k, n);
  }

  lemma PerfectCounts(p: Option<ProviderRow>, reg: Registration, symbols: seq<string>, asOf: int)
    requires symbols != []
    ensures var s := ScoreOf(p, reg, symbols, asOf);
            && (s.coverage >= 1.0 <==> AllGood(p, reg.supported, symbols))
            && (s.coverage >= 1.0 ==> s.completeness >= 1.0 && s.failed == [] && s.missing == [])
  {
    CountsAgree(p, reg, symbols, asOf);
    RatioIsOne(GoodCount(p, reg, symbols), |symbols|);
    RatioIsOne(CompleteCount(p, reg, symbols), |symbols|);
    AllGoodCounts(p, reg, symbols);
    if AllGood(p, reg.supported, symbols) {
      AllGoodLeavesNone(p, reg, symbols);
    }
  }

  /** HEALTHY, publishable at the default thresholds, and the plain statement about the rows
      are the same judgement of an enabled provider. */
  lemma HealthyIff(p: Option<ProviderRow>, reg: Registration, symbols: seq<string>, asOf: int, enabled: bool)
    requires symbols != []
    ensures var s := ScoreOf(p, reg, symbols, asOf);
            && (Classify(s, enabled) == Healthy <==> enabled && PublishableByDefault(s))
            && (PublishableByDefault(s) <==>
                  && AllGood(p, reg.supported, symbols)
                  && FreshnessOf(LatestEnd(p, symbols), asOf, reg.freshnessSla) == Fresh)
  {
    PerfectCounts(p, reg, symbols, asOf);
    ScoreWithinBounds(p, reg, symbols, asOf);
  }

  // ---------- monotonicity ----------

  /** The second row reports at least as much as the first, and nothing worse. */
  ghost predicate RowImproves(row: SymbolRow, better: SymbolRow) {
    && (forall f :: f in row.fields ==> f in better.fields)
    && (row.errors == [] ==> better.errors == [])
    && (row.coveredStart.Some? ==> better.coveredStart.Some?)
    && (row.coveredEnd.Some? ==> better.coveredEnd.Some? && row.coveredEnd.value <= better.coveredEnd.value)
  }

  /** Rows were added, fields added, errors cleared and covered ends moved later. */
  ghost predicate Improves(p: Option<ProviderRow>, better: Option<ProviderRow>, symbols: seq<string>) {
    forall s :: s in symbols ==> SymbolImproves(p, better, s)
  }

  ghost predicate SymbolImproves(p: Option<ProviderRow>, better: Option<ProviderRow>, s: string) {
    RowOf(p, s).Some? ==> RowOf(better, s).Some? && RowImproves(RowOf(p, s).value, RowOf(better, s).value)
  }

  lemma LatestEndNotEarlier(p: Option<ProviderRow>, better: Option<ProviderRow>, symbols: seq<string>)
    requires Improves(p, better, symbols) && LatestEnd(p, symbols).Some?
    ensures LatestEnd(better, symbols).Some?
    ensures LatestEnd(p, symbols).value <= LatestEnd(better, symbols).value
  {
    var s := LatestEndWitness(p, symbols);
    assert SymbolImproves(p, better, s);
    LatestEndAtLeast(better, symbols, s);
  }

  lemma {:induction false} LatestEndWitness(p: Option<ProviderRow>, symbols: seq<string>) returns (s: string)
    requires LatestEnd(p, symbols).Some?
    ensures s in symbols && EndOf(p, s) == LatestEnd(p, symbols)
  {
    if EndOf(p, symbols[0]) == LatestEnd(p, symbols) {
      s := symbols[0];
    } else {
      s := LatestEndWitness(p, symbols[1..]);
    }
  }

  lemma {:induction false} LatestEndAtLeast(p: Option<ProviderRow>, symbols: seq<string>, s: string)
    requires s in symbols && EndOf(p, s).Some?
    ensures LatestEnd(p, symbols).Some? && EndOf(p, s).value <= LatestEnd(p, symbols).value
  {
    if s == symbols[0] {
    } else {
      LatestEndAtLeast(p, symbols[1..], s);
    }
  }

  /** The one way an improvement can cost freshness: an SLA of zero days, a latest end that
      was the very day, and one that no longer is. */
  predicate LosesTheDay(p: Option<ProviderRow>, better: Option<ProviderRow>, symbols: seq<string>, asOf: int, sla: nat) {
    sla == 0 && LatestEnd(p, symbols) == Some(asOf) && LatestEnd(better, symbols) != Some(asOf)
  }

  /** Later covered ends never cost freshness, exactly unless the day itself is lost. */
  lemma FreshnessKeptIff(p: Option<ProviderRow>, better: Option<ProviderRow>, symbols: seq<string>, asOf: int, sla: nat)
    requires Improves(p, better, symbols)
    ensures FreshnessScore(FreshnessOf(LatestEnd(p, symbols), asOf, sla))
            <= FreshnessScore(FreshnessOf(LatestEnd(better, symbols), asOf, sla))
            <==> !LosesTheDay(p, better, symbols, asOf, sla)
  {
    if LatestEnd(p, symbols).Some? {
      LatestEndNotEarlier(p, better, symbols);
    }
  }

  lemma GoodStaysGood(p: Option<ProviderRow>, better: Option<ProviderRow>, supported: set<string>, symbols: seq<string>)
    requires Improves(p, better, symbols) && AllGood(p, supported, symbols)
    ensures AllGood(better, supported, symbols)
  {
    forall s | s in symbols ensures IsGood(better, supported, s) {
      assert IsGood(p, supported, s) && SymbolImproves(p, better, s);
    }
  }

  /** An improvement of a publishable provider keeps it publishable exactly when the SLA
      allows a day or the latest covered end is still the very day. */
  lemma PublishabilityKeptIff(p: Option<ProviderRow>, better: Option<ProviderRow>, reg: Registration,
                              symbols: seq<string>, asOf: int)
    requires symbols != [] && Improves(p, better, symbols)
    requires PublishableByDefault(ScoreOf(p, reg, symbols, asOf))
    ensures PublishableByDefault(ScoreOf(better, reg, symbols, asOf))
            <==> reg.freshnessSla > 0 || LatestEnd(better, symbols) == Some(asOf)
  {
    HealthyIff(p, reg, symbols, asOf, true);
    HealthyIff(better, reg, symbols, asOf, true);
    GoodStaysGood(p, better, reg.supported, symbols);
    FreshnessKeptIff(p, better, symbols, asOf, reg.freshnessSla);
  }

  /** How many more good and complete symbols the second row has, counted together. */
  function Gain(p: Option<ProviderRow>, better: Option<ProviderRow>, reg: Registration, symbols: seq<string>): int {
    (GoodCount(better, reg, symbols) - GoodCount(p, reg, symbols))
    + (CompleteCount(better, reg, symbols) - CompleteCount(p, reg, symbols))
  }

  lemma MoreIsCounted(p: Option<ProviderRow>, better: Option<ProviderRow>, reg: Registration, symbols: seq<string>)
    requires Improves(p, better, symbols)
    ensures GoodCount(p, reg, symbols) <= GoodCount(better, reg, symbols)
    ensures CompleteCount(p, reg, symbols) <= CompleteCount(better, reg, symbols)
  {
    forall s | s in symbols
      ensures IsGood(p, reg.supported, s) ==> IsGood(better, reg.supported, s)
      ensures IsComplete(p, reg.supported, s) ==> IsComplete(better, reg.supported, s)
    {
      assert SymbolImproves(p, better, s);
    }
    FilterMonotone(symbols, GoodTest(p, reg.supported), GoodTest(better, reg.supported));
    FilterMonotone(symbols, CompleteTest(p, reg.supported), CompleteTest(better, reg.supported));
  }

  lemma RatioTimes(k: int, n: nat)
    requires n > 0
    ensures Ratio(k, n) * n as real == k as real
  {
  }

  /** Comparing a ratio with a number is comparing the products. */
  lemma RatioAtLeast(k: int, n: nat, x: real)
    requires n > 0
    ensures Ratio(k, n) >= x <==> k as real >= x * n as real
  {
    var t, r := n as real, Ratio(k, n);
    RatioTimes(k, n);
    assert (r - x) * t == r * t - x * t;
    if r >= x {
      assert (r - x) * t >= 0.0;
    } else {
      assert (x - r) * t > 0.0;
    }
  }

  lemma RatioSum(a: int, b: int, n: nat)
    requires n > 0
    ensures Ratio(a, n) + Ratio(b, n) == Ratio(a + b, n)
  {
    assert (a + b) as real == a as real + b as real;
  }

  lemma RatioGain(g: int, c: int, g': int, c': int, n: nat)
    requires n > 0
    ensures (Ratio(g', n) - Ratio(g, n)) + (Ratio(c', n) - Ratio(c, n)) == Ratio((g' - g) + (c' - c), n)
  {
    RatioSum(g' - g, g, n);
    RatioSum(c' - c, c, n);
    RatioSum(g' - g, c' - c, n);
  }

  /** A gain makes up for a lost day from two thirds of the symbols on. */
  lemma Balance(gain: nat, n: nat, f: real, f': real)
    requires n > 0
    ensures f <= f' ==> 0.30 * Ratio(gain, n) + 0.20 * (f' - f) >= 0.0
    ensures f == 1.0 && f' == 0.0 ==> (0.30 * Ratio(gain, n) + 0.20 * (f' - f) >= 0.0 <==> 3 * gain >= 2 * n)
  {
    RatioAtLeast(gain, n, 0.0);
    RatioAtLeast(gain, n, 2.0 / 3.0);
  }

  /** The weighted scores of two pairs of counts, compared. */
  lemma CompareWeighted(g: nat, c: nat, g': nat, c': nat, n: nat, f: real, f': real, r: real)
    requires n > 0 && g <= g' && c <= c'
    ensures var before, after := Weighted(Ratio(g, n), Ratio(c, n), f, r), Weighted(Ratio(g', n), Ratio(c', n), f', r);
            && (f <= f' ==> before <= after)
            && (f == 1.0 && f' == 0.0 ==> (before <= after <==> 3 * ((g' - g) + (c' - c)) >= 2 * n))
  {
    RatioGain(g, c, g', c', n);
    Balance((g' - g) + (c' - c), n, f, f');
    WeightedChange(Ratio(g, n), Ratio(c, n), f, Ratio(g', n), Ratio(c', n), f', r);
  }

  lemma WeightedChange(a: real, b: real, f: real, a': real, b': real, f': real, r: real)
    ensures Weighted(a', b', f', r) - Weighted(a, b, f, r) == 0.30 * ((a' - a) + (b' - b)) + 0.20 * (f' - f)
  {
  }

  /** The quality as a weighing of counts. */
  function QualityOfCounts(p: Option<ProviderRow>, reg: Registration, symbols: seq<string>, asOf: int): real
    requires symbols != []
  {
    Weighted(Ratio(GoodCount(p, reg, symbols), |symbols|), Ratio(CompleteCount(p, reg, symbols), |symbols|),
             FreshnessScore(FreshnessOf(LatestEnd(p, symbols), asOf, reg.freshnessSla)), reg.reliability)
  }

  lemma QualityCounts(p: Option<ProviderRow>, reg: Registration, symbols: seq<string>, asOf: int)
    requires symbols != []
    ensures ScoreOf(p, reg, symbols, asOf).quality == QualityOfCounts(p, reg, symbols, asOf)
  {
    CountsAgree(p, reg, symbols, asOf);
    ScoreWithinBounds(p, reg, symbols, asOf);
  }

  lemma CountsMonotoneIff(p: Option<ProviderRow>, better: Option<ProviderRow>, reg: Registration,
                          symbols: seq<string>, asOf: int)
    requires symbols != [] && Improves(p, better, symbols)
    ensures QualityOfCounts(p, reg, symbols, asOf) <= QualityOfCounts(better, reg, symbols, asOf)
            <==> || !LosesTheDay(p, better, symbols, asOf, reg.freshnessSla)
                 || 3 * Gain(p, better, reg, symbols) >= 2 * |symbols|
  {
    FreshnessKeptIff(p, better, symbols, asOf, reg.freshnessSla);
    MoreIsCounted(p, better, reg, symbols);
    CompareWeighted(GoodCount(p, reg, symbols), CompleteCount(p, reg, symbols),
                    GoodCount(better, reg, symbols), CompleteCount(better, reg, symbols), |symbols|,
                    FreshnessScore(FreshnessOf(LatestEnd(p, symbols), asOf, reg.freshnessSla)),
                    FreshnessScore(FreshnessOf(LatestEnd(better, symbols), asOf, reg.freshnessSla)), reg.reliability);
  }

  /** Quality is monotone: more rows, more fields, fewer errors and later covered ends never
      lower the score, except that a lost day under a zero-day SLA is outweighed only by
      enough newly good and complete symbols. */
  lemma QualityMonotoneIff(p: Option<ProviderRow>, better: Option<ProviderRow>, reg: Registration,
                           symbols: seq<string>, asOf: int)
    requires symbols != [] && Improves(p, better, symbols)
    ensures ScoreOf(p, reg, symbols, asOf).quality <= ScoreOf(better, reg, symbols, asOf).quality
            <==> || !LosesTheDay(p, better, symbols, asOf, reg.freshnessSla)
                 || 3 * Gain(p, better, reg, symbols) >= 2 * |symbols|
  {
    QualityCounts(p, reg, symbols, asOf);
    QualityCounts(better, reg, symbols, asOf);
    CountsMonotoneIff(p, better, reg, symbols, asOf);
  }

  /** No covered end past `asOf`: then nothing at all is lost, whatever the SLA. */
  lemma MonotoneUpToTheDay(p: Option<ProviderRow>, better: Option<ProviderRow>, reg: Registration,
                           symbols: seq<string>, asOf: int)
    requires symbols != [] && Improves(p, better, symbols)
    requires forall s :: s in symbols && EndOf(better, s).Some? ==> EndOf(better, s).value <= asOf
    ensures ScoreOf(p, reg, symbols, asOf).quality <= ScoreOf(better, reg, symbols, asOf).quality
    ensures PublishableByDefault(ScoreOf(p, reg, symbols, asOf)) ==>
            PublishableByDefault(ScoreOf(better, reg, symbols, asOf))
  {
    QualityMonotoneIff(p, better, reg, symbols, asOf);
    HealthyIff(p, reg, symbols, asOf, true);
    if LatestEnd(p, symbols) == Some(asOf) {
      LatestEndNotEarlier(p, better, symbols);
      var s := LatestEndWitness(better, symbols);
    }
    if PublishableByDefault(ScoreOf(p, reg, symbols, asOf)) {
      PublishabilityKeptIff(p, better, reg, symbols, asOf);
    }
  }

  /** A publishable provider that loses the day loses score and publishability. */
  lemma LosingTheDay(p: Option<ProviderRow>, better: Option<ProviderRow>, reg: Registration,
                     symbols: seq<string>, asOf: int)
    requires symbols != [] && Improves(p, better, symbols)
    requires PublishableByDefault(ScoreOf(p, reg, symbols, asOf))
    requires LosesTheDay(p, better, symbols, asOf, reg.freshnessSla)
    ensures !PublishableByDefault(ScoreOf(better, reg, symbols, asOf))
    ensures ScoreOf(better, reg, symbols, asOf).quality < ScoreOf(p, reg, symbols, asOf).quality
  {
    PublishabilityKeptIff(p, better, reg, symbols, asOf);
    QualityMonotoneIff(p, better, reg, symbols, asOf);
    HealthyIff(p, reg, symbols, asOf, true);
    AllGoodCounts(p, reg, symbols);
    GoodIsComplete(p, reg, symbols);
    GoodIsComplete(better, reg, symbols);
  }

  function OneRow(reg: Registration, row: SymbolRow): Option<ProviderRow> {
    Some(ProviderRow(reg.providerKey, [row], None))
  }

  lemma OneRowJudged(reg: Registration, row: SymbolRow)
    ensures RowOf(OneRow(reg, row), row.symbol) == Some(row)
    ensures LatestEnd(OneRow(reg, row), [row.symbol]) == row.coveredEnd
  {
    assert [row.symbol][1..] == [];
  }

  /** The day can be lost: with a zero-day SLA, moving the one covered end from the very day
      to the next loses both score and publishability. */
  lemma PastEndsLoseQuality(reg: Registration, asOf: int)
    requires reg.freshnessSla == 0
    ensures var row := SymbolRow("510300", Some(asOf), Some(asOf), 1, SupportedList(reg.supported), None, []);
            var p, q := OneRow(reg, row), OneRow(reg, row.(coveredEnd := Some(asOf + 1)));
            var before, after := ScoreOf(p, reg, ["510300"], asOf), ScoreOf(q, reg, ["510300"], asOf);
            && Improves(p, q, ["510300"])
            && PublishableByDefault(before) && !PublishableByDefault(after) && after.quality < before.quality
  {
    var row := SymbolRow("510300", Some(asOf), Some(asOf), 1, SupportedList(reg.supported), None, []);
    var late := row.(coveredEnd := Some(asOf + 1));
    OneRowJudged(reg, row);
    OneRowJudged(reg, late);
    SupportedListMembers(reg.supported);
    assert AllGood(OneRow(reg, row), reg.supported, ["510300"]);
    HealthyIff(OneRow(reg, row), reg, ["510300"], asOf, true);
    assert SymbolImproves(OneRow(reg, row), OneRow(reg, late), "510300");
    LosingTheDay(OneRow(reg, row), OneRow(reg, late), reg, ["510300"], asOf);
  }

  /** Some listing of a set of field names. */
  ghost function SupportedList(fields: set<string>): seq<string> {
    if fields == {} then []
    else
      var f :| f in fields;
      [f] + SupportedList(fields - {f})
  }

  lemma {:induction false} SupportedListMembers(fields: set<string>)
    ensures forall f :: f in fields ==> f in SupportedList(fields)
  {
    if fields == {} {
    } else {
      var f :| f in fields && SupportedList(fields) == [f] + SupportedList(fields - {f});
      SupportedListMembers(fields - {f});
    }
  }

  // ---------- the judgements, said of the report's rows ----------

  lemma UniqueRow(rows: seq<SymbolRow>, row: SymbolRow)
    requires StrictlySorted(RowSymbols(rows)) && row in rows
    ensures FindRow(rows, row.symbol) == Some(row)
  {
    var found := FindRow(rows, row.symbol).value;
    var i :| 0 <= i < |rows| && rows[i] == row;
    var j :| 0 <= j < |rows| && rows[j] == found;
    assert RowSymbols(rows)[i] == RowSymbols(rows)[j];
  }

  lemma UniqueProvider(providers: seq<ProviderRow>, p: ProviderRow)
    requires (forall i, j :: 0 <= i < j < |providers| ==> providers[i].providerKey != providers[j].providerKey)
    requires p in providers
    ensures FindProvider(providers, p.providerKey) == Some(p)
    ensures forall q :: q in providers && q.providerKey == p.providerKey ==> q == p
  {
  }

  ghost predicate Reported(p: ProviderRow, symbol: string) {
    exists row :: row in p.symbols && row.symbol == symbol
  }

  ghost predicate Full(p: ProviderRow, supported: set<string>, symbol: string) {
    exists row :: row in p.symbols && row.symbol == symbol && forall f :: f in supported ==> f in row.fields
  }

  /** The symbol has a row with a covered range, every supported field and no error. */
  ghost predicate Sound(p: ProviderRow, supported: set<string>, symbol: string) {
    exists row :: && row in p.symbols && row.symbol == symbol
                  && row.coveredStart.Some? && row.coveredEnd.Some? && row.errors == []
                  && forall f :: f in supported ==> f in row.fields
  }

  ghost predicate Ends(p: ProviderRow, symbol: string, day: int) {
    exists row :: row in p.symbols && row.symbol == symbol && row.coveredEnd == Some(day)
  }

  ghost function SoundSymbols(p: ProviderRow, supported: set<string>, expected: seq<string>): set<string> {
    set symbol | symbol in expected && Sound(p, supported, symbol)
  }

  ghost function FullSymbols(p: ProviderRow, supported: set<string>, expected: seq<string>): set<string> {
    set symbol | symbol in expected && Full(p, supported, symbol)
  }

  /** How many days before `asOf` the last covered end of an expected symbol lies. */
  ghost predicate Age(days: Option<int>, p: ProviderRow, expected: seq<string>, asOf: int) {
    && (days.None? <==> forall symbol, day :: symbol in expected ==> !Ends(p, symbol, day))
    && (days.Some? ==>
          && (exists symbol :: symbol in expected && Ends(p, symbol, asOf - days.value))
          && forall symbol, day :: symbol in expected && Ends(p, symbol, day) ==> day <= asOf - days.value)
  }

  /** The status and the score that an age earns under an SLA. */
  ghost predicate Rated(days: Option<int>, sla: nat, status: Freshness, score: real) {
    && (status == Fresh <==> days.Some? && (days.value == 0 || (0 < sla && days.value <= sla)))
    && (status == Warning <==> days.Some? && 0 < sla < days.value <= sla + sla)
    && score == (if status == Fresh then 1.0 else if status == Warning then 0.5 else 0.0)
  }

  lemma RowSaysIt(p: ProviderRow, supported: set<string>, symbol: string)
    requires ValidProvider(p)
    ensures IsMissing(Some(p), symbol) <==> !Reported(p, symbol)
    ensures IsComplete(Some(p), supported, symbol) <==> Full(p, supported, symbol)
    ensures IsGood(Some(p), supported, symbol) <==> Sound(p, supported, symbol)
    ensures forall day :: EndOf(Some(p), symbol) == Some(day) <==> Ends(p, symbol, day)
  {
    if Reported(p, symbol) {
      var row :| row in p.symbols && row.symbol == symbol;
      UniqueRow(p.symbols, row);
      forall other | other in p.symbols && other.symbol == symbol ensures other == row {
        UniqueRow(p.symbols, other);
      }
    }
  }

  lemma SortedSymbols(expected: seq<string>)
    requires ValidSymbols(expected)
    ensures var symbols := SortBy(expected, StrLe);
            StrictlySorted(symbols) && Distinct(symbols) && forall s :: s in symbols <==> s in expected
  {
    StrLeIsTotalOrder();
    SortIsSorted(expected, StrLe);
    DistinctOfPermutation(expected, SortBy(expected, StrLe));
    SameMultisetSameElements(SortBy(expected, StrLe), expected);
  }

  lemma FilterIsStrict(symbols: seq<string>, p: string -> bool)
    requires StrictlySorted(symbols)
    ensures StrictlySorted(Filter(symbols, p))
  {
    FilterKeepsOrder(symbols, StrLe, p);
    FilterKeepsDistinct(symbols, p);
  }

  ghost predicate OnlySpace(s: string) { forall c :: c in s ==> IsSpace(c) }

  /** Exactly when the expected symbols are refused. */
  lemma RefusedSymbols(r: Report, reg: Registration, expected: seq<string>, asOf: int)
    ensures Evaluate(r, reg, expected, asOf).Raised? <==>
            || expected == []
            || (exists i :: 0 <= i < |expected| && OnlySpace(expected[i]))
            || (exists i, j :: 0 <= i < j < |expected| && expected[i] == expected[j])
  {
    forall i | 0 <= i < |expected| ensures Blank(expected[i]) <==> OnlySpace(expected[i]) {
    }
    assert ValidSymbols(expected) <==> Evaluate(r, reg, expected, asOf).Done?;
  }

  lemma Scored(r: Report, reg: Registration, expected: seq<string>, asOf: int, p: ProviderRow)
    requires ValidReport(r) && p in r.providers && p.providerKey == reg.providerKey && ValidSymbols(expected)
    ensures ValidProvider(p)
    ensures Evaluate(r, reg, expected, asOf) == Done(ScoreOf(Some(p), reg, SortBy(expected, StrLe), asOf))
  {
    var keys := ProviderKeys(r.providers);
    forall i, j | 0 <= i < j < |r.providers| ensures r.providers[i].providerKey != r.providers[j].providerKey {
      assert keys[i] != keys[j];
    }
    UniqueProvider(r.providers, p);
  }

  lemma ListFields(p: ProviderRow, reg: Registration, symbols: seq<string>, asOf: int)
    requires symbols != []
    ensures var s := ScoreOf(Some(p), reg, symbols, asOf);
            && s.missing == Filter(symbols, MissingTest(Some(p)))
            && s.failed == Filter(symbols, FailedTest(Some(p), reg.supported))
  {
  }

  lemma ListMembers(p: ProviderRow, supported: set<string>, symbols: seq<string>, symbol: string)
    requires ValidProvider(p)
    ensures symbol in Filter(symbols, MissingTest(Some(p))) <==> symbol in symbols && !Reported(p, symbol)
    ensures symbol in Filter(symbols, FailedTest(Some(p), supported)) <==>
            symbol in symbols && Reported(p, symbol) && !Sound(p, supported, symbol)
  {
    RowSaysIt(p, supported, symbol);
  }

  /** The score lists these symbols as missing and as failed, in order and without repetition. */
  ghost predicate ListedApart(missing: seq<string>, failed: seq<string>, p: ProviderRow, supported: set<string>,
                              expected: seq<string>) {
    && StrictlySorted(missing) && StrictlySorted(failed)
    && (forall symbol :: symbol in missing <==> symbol in expected && !Reported(p, symbol))
    && (forall symbol :: symbol in failed <==> symbol in expected && Reported(p, symbol) && !Sound(p, supported, symbol))
  }

  lemma ListsOf(p: ProviderRow, supported: set<string>, expected: seq<string>)
    requires ValidProvider(p) && ValidSymbols(expected)
    ensures var symbols := SortBy(expected, StrLe);
            ListedApart(Filter(symbols, MissingTest(Some(p))), Filter(symbols, FailedTest(Some(p), supported)), p,
                        supported, expected)
  {
    var symbols := SortBy(expected, StrLe);
    SortedSymbols(expected);
    FilterIsStrict(symbols, MissingTest(Some(p)));
    FilterIsStrict(symbols, FailedTest(Some(p), supported));
    forall symbol
      ensures symbol in Filter(symbols, MissingTest(Some(p))) <==> symbol in expected && !Reported(p, symbol)
      ensures symbol in Filter(symbols, FailedTest(Some(p), supported)) <==>
              symbol in expected && Reported(p, symbol) && !Sound(p, supported, symbol)
    {
      ListMembers(p, supported, symbols, symbol);
    }
  }

  /** Which symbols of a reported provider are missing, and which failed. */
  lemma MissingAndFailed(r: Report, reg: Registration, expected: seq<string>, asOf: int, p: ProviderRow)
    requires ValidReport(r) && p in r.providers && p.providerKey == reg.providerKey && ValidSymbols(expected)
    ensures var s := Evaluate(r, reg, expected, asOf).value; ListedApart(s.missing, s.failed, p, reg.supported, expected)
  {
    Scored(r, reg, expected, asOf, p);
    ListsOf(p, reg.supported, expected);
    ListFields(p, reg, SortBy(expected, StrLe), asOf);
  }

  lemma CountsAreSets(p: ProviderRow, reg: Registration, expected: seq<string>)
    requires ValidProvider(p) && ValidSymbols(expected)
    ensures GoodCount(Some(p), reg, SortBy(expected, StrLe)) == |SoundSymbols(p, reg.supported, expected)|
    ensures CompleteCount(Some(p), reg, SortBy(expected, StrLe)) == |FullSymbols(p, reg.supported, expected)|
  {
    SortedSymbols(expected);
    forall symbol
      ensures IsGood(Some(p), reg.supported, symbol) <==> Sound(p, reg.supported, symbol)
      ensures IsComplete(Some(p), reg.supported, symbol) <==> Full(p, reg.supported, symbol)
    {
      RowSaysIt(p, reg.supported, symbol);
    }
    FilterCounts(SortBy(expected, StrLe), GoodTest(Some(p), reg.supported), SoundSymbols(p, reg.supported, expected));
    FilterCounts(SortBy(expected, StrLe), CompleteTest(Some(p), reg.supported), FullSymbols(p, reg.supported, expected));
  }

  /** `x` is the share `k` out of `n`. */
  ghost predicate Share(x: real, k: nat, n: nat) { x * n as real == k as real }

  /** Three to ten for each share, two to ten each for freshness and reliability. */
  ghost predicate Weighs(s: Score) {
    10.0 * s.quality == 3.0 * (s.coverage + s.completeness) + 2.0 * (s.freshnessScore + s.reliability)
  }

  lemma RatioIsShare(k: nat, n: nat)
    requires n > 0
    ensures Share(Ratio(k, n), k, n)
  {
    RatioTimes(k, n);
  }

  lemma WeightedWeighs(s: Score)
    requires s.quality == Weighted(s.coverage, s.completeness, s.freshnessScore, s.reliability)
    ensures Weighs(s)
  {
  }

  lemma SharesOf(p: Option<ProviderRow>, reg: Registration, symbols: seq<string>, asOf: int)
    requires symbols != []
    ensures var s := ScoreOf(p, reg, symbols, asOf);
            && Share(s.coverage, GoodCount(p, reg, symbols), |symbols|)
            && Share(s.completeness, CompleteCount(p, reg, symbols), |symbols|)
            && Weighs(s)
  {
    CountsAgree(p, reg, symbols, asOf);
    RatioIsShare(GoodCount(p, reg, symbols), |symbols|);
    RatioIsShare(CompleteCount(p, reg, symbols), |symbols|);
    ScoreWithinBounds(p, reg, symbols, asOf);
    WeightedWeighs(ScoreOf(p, reg, symbols, asOf));
  }

  lemma ReliabilityOf(p: Option<ProviderRow>, reg: Registration, symbols: seq<string>, asOf: int)
    requires symbols != []
    ensures ScoreOf(p, reg, symbols, asOf).reliability == reg.reliability
  {
  }

  /** The ratios are the shares of sound and of complete symbols among the expected ones, and
      the score weighs them with freshness and reliability. */
  lemma QualityIsWeighed(r: Report, reg: Registration, expected: seq<string>, asOf: int, p: ProviderRow)
    requires ValidReport(r) && p in r.providers && p.providerKey == reg.providerKey && ValidSymbols(expected)
    ensures var s := Evaluate(r, reg, expected, asOf).value;
            && Share(s.coverage, |SoundSymbols(p, reg.supported, expected)|, |expected|)
            && Share(s.completeness, |FullSymbols(p, reg.supported, expected)|, |expected|)
            && Weighs(s) && s.reliability == reg.reliability
  {
    Scored(r, reg, expected, asOf, p);
    CountsAreSets(p, reg, expected);
    SharesOf(Some(p), reg, SortBy(expected, StrLe), asOf);
    ReliabilityOf(Some(p), reg, SortBy(expected, StrLe), asOf);
  }

  lemma EndSaysIt(p: ProviderRow, symbol: string, day: int)
    requires ValidProvider(p)
    ensures EndOf(Some(p), symbol) == Some(day) <==> Ends(p, symbol, day)
  {
    RowSaysIt(p, {}, symbol);
  }

  lemma NoEndIsLater(p: ProviderRow, symbols: seq<string>, symbol: string, day: int)
    requires ValidProvider(p) && symbol in symbols && Ends(p, symbol, day)
    ensures LatestEnd(Some(p), symbols).Some? && day <= LatestEnd(Some(p), symbols).value
  {
    EndSaysIt(p, symbol, day);
    LatestEndAtLeast(Some(p), symbols, symbol);
  }

  lemma LatestIsAnEnd(p: ProviderRow, symbols: seq<string>) returns (symbol: string)
    requires ValidProvider(p) && LatestEnd(Some(p), symbols).Some?
    ensures symbol in symbols && Ends(p, symbol, LatestEnd(Some(p), symbols).value)
  {
    symbol := LatestEndWitness(Some(p), symbols);
    EndSaysIt(p, symbol, LatestEnd(Some(p), symbols).value);
  }

  lemma LatestHasAge(latest: Option<int>, p: ProviderRow, symbols: seq<string>, asOf: int)
    requires forall symbol, day :: symbol in symbols && Ends(p, symbol, day) ==> latest.Some? && day <= latest.value
    requires latest.Some? ==> exists symbol :: symbol in symbols && Ends(p, symbol, latest.value)
    ensures Age(AgeOf(latest, asOf), p, symbols, asOf)
  {
    if latest.Some? {
      assert asOf - (asOf - latest.value) == latest.value;
    }
  }

  lemma LatestIsGreatest(p: ProviderRow, symbols: seq<string>, asOf: int)
    requires ValidProvider(p)
    ensures Age(AgeOf(LatestEnd(Some(p), symbols), asOf), p, symbols, asOf)
  {
    var latest := LatestEnd(Some(p), symbols);
    forall symbol, day | symbol in symbols && Ends(p, symbol, day)
      ensures latest.Some? && day <= latest.value
    {
      NoEndIsLater(p, symbols, symbol, day);
    }
    if latest.Some? {
      var symbol := LatestIsAnEnd(p, symbols);
    }
    LatestHasAge(latest, p, symbols, asOf);
  }

  lemma AgeOfSameSymbols(days: Option<int>, p: ProviderRow, a: seq<string>, b: seq<string>, asOf: int)
    requires Age(days, p, a, asOf) && forall s :: s in a <==> s in b
    ensures Age(days, p, b, asOf)
  {
  }

  function AgeOf(latest: Option<int>, asOf: int): Option<int> {
    if latest.None? then None else Some(asOf - latest.value)
  }

  lemma AgeIsRated(latest: Option<int>, asOf: int, sla: nat)
    ensures var f := FreshnessOf(latest, asOf, sla); Rated(AgeOf(latest, asOf), sla, f, FreshnessScore(f))
  {
  }

  lemma FreshnessFrom(covered: int, complete: nat, n: nat, latest: Option<int>, asOf: int, reg: Registration,
                      missing: seq<string>, failed: seq<string>)
    requires n > 0
    ensures var s := ScoreFrom(covered, complete, n, latest, asOf, reg, missing, failed);
            && s.freshnessDays == AgeOf(latest, asOf)
            && s.freshness == FreshnessOf(latest, asOf, reg.freshnessSla)
            && s.freshnessScore == FreshnessScore(s.freshness)
  {
  }

  lemma FreshnessFields(p: Option<ProviderRow>, reg: Registration, symbols: seq<string>, asOf: int)
    requires symbols != []
    ensures var s := ScoreOf(p, reg, symbols, asOf);
            && s.freshnessDays == AgeOf(LatestEnd(p, symbols), asOf)
            && s.freshness == FreshnessOf(LatestEnd(p, symbols), asOf, reg.freshnessSla)
            && s.freshnessScore == FreshnessScore(s.freshness)
  {
    FreshnessFrom(CoveredCount(p, reg, symbols), |Filter(symbols, CompleteTest(p, reg.supported))|, |symbols|,
                  LatestEnd(p, symbols), asOf, reg, Filter(symbols, MissingTest(p)),
                  if p.None? then symbols else Filter(symbols, FailedTest(p, reg.supported)));
  }

  /** Freshness is decided by the age of the greatest covered end of an expected symbol. */
  lemma FreshnessIsRated(r: Report, reg: Registration, expected: seq<string>, asOf: int, p: ProviderRow)
    requires ValidReport(r) && p in r.providers && p.providerKey == reg.providerKey && ValidSymbols(expected)
    ensures var s := Evaluate(r, reg, expected, asOf).value;
            && Age(s.freshnessDays, p, expected, asOf)
            && Rated(s.freshnessDays, reg.freshnessSla, s.freshness, s.freshnessScore)
  {
    var symbols := SortBy(expected, StrLe);
    Scored(r, reg, expected, asOf, p);
    SortedSymbols(expected);
    LatestIsGreatest(p, symbols, asOf);
    FreshnessFields(Some(p), reg, symbols, asOf);
    AgeIsRated(LatestEnd(Some(p), symbols), asOf, reg.freshnessSla);
    AgeOfSameSymbols(ScoreOf(Some(p), reg, symbols, asOf).freshnessDays, p, symbols, expected, asOf);
  }

  // ---------- what the health status says ----------

  lemma NoneAndAll(x: real, k: nat, n: nat)
    requires n > 0 && k <= n && Share(x, k, n)
    ensures x == 0.0 <==> k == 0
    ensures x < 1.0 <==> k < n
  {
    assert x * n as real - 1.0 * n as real == (x - 1.0) * n as real;
    if x < 1.0 {
      assert (x - 1.0) * n as real < 0.0;
    } else {
      assert (x - 1.0) * n as real >= 0.0;
    }
  }

  lemma SubsetCounts(a: set<string>, b: set<string>)
    requires a <= b
    ensures |a| <= |b|
    ensures |a| == |b| <==> a == b
  {
    assert b == a + (b - a);
  }

  lemma ExpectedCounted(expected: seq<string>)
    requires Distinct(expected)
    ensures |set s | s in expected| == |expected|
  {
    var all := set s | s in expected;
    FilterAll(expected, s => s in all);
    FilterCounts(expected, s => s in all, all);
  }

  lemma SoundCounts(p: ProviderRow, supported: set<string>, expected: seq<string>)
    requires ValidSymbols(expected)
    ensures var sound, full := SoundSymbols(p, supported, expected), FullSymbols(p, supported, expected);
            && |sound| <= |full| <= |expected|
            && (|sound| == 0 <==> sound == {}) && (|full| == 0 <==> full == {})
            && (|sound| == |expected| <==> forall s :: s in expected ==> Sound(p, supported, s))
  {
    var sound, full, all := SoundSymbols(p, supported, expected), FullSymbols(p, supported, expected),
                            set s | s in expected;
    ExpectedCounted(expected);
    SubsetCounts(sound, full);
    SubsetCounts(full, all);
    SubsetCounts(sound, all);
    if forall s :: s in expected ==> Sound(p, supported, s) {
      assert forall s :: s in all ==> s in sound;
    }
    if sound == all {
      forall s | s in expected ensures Sound(p, supported, s) {
        assert s in all;
      }
    }
  }

  /** The five statuses, each with exactly its condition on the rows of the expected symbols:
      nothing covered and nothing complete; not fresh; something less than sound; all sound. */
  ghost predicate Diagnosed(h: Health, enabled: bool, s: Score, p: ProviderRow, supported: set<string>,
                            expected: seq<string>) {
    var nothing := (forall symbol, day :: symbol in expected ==> !Ends(p, symbol, day))
                   && forall symbol :: symbol in expected ==> !Full(p, supported, symbol);
    && (h == Disabled <==> !enabled)
    && (h == Unknown <==> enabled && nothing)
    && (h == Stale <==> enabled && !nothing && s.freshness != Fresh)
    && (h == Degraded <==>
          enabled && s.freshness == Fresh && exists symbol :: symbol in expected && !Sound(p, supported, symbol))
    && (h == Healthy <==>
          enabled && s.freshness == Fresh && forall symbol :: symbol in expected ==> Sound(p, supported, symbol))
  }

  lemma RatiosSay(s: Score, p: ProviderRow, supported: set<string>, expected: seq<string>)
    requires ValidSymbols(expected)
    requires Share(s.coverage, |SoundSymbols(p, supported, expected)|, |expected|)
    requires Share(s.completeness, |FullSymbols(p, supported, expected)|, |expected|)
    ensures s.coverage == 0.0 && s.completeness == 0.0 <==>
            forall symbol :: symbol in expected ==> !Full(p, supported, symbol)
    ensures s.coverage < 1.0 <==> exists symbol :: symbol in expected && !Sound(p, supported, symbol)
    ensures s.completeness < 1.0 ==> s.coverage < 1.0
  {
    var sound, full := SoundSymbols(p, supported, expected), FullSymbols(p, supported, expected);
    SoundCounts(p, supported, expected);
    NoneAndAll(s.coverage, |sound|, |expected|);
    NoneAndAll(s.completeness, |full|, |expected|);
    if full == {} {
      forall symbol | symbol in expected ensures !Full(p, supported, symbol) {
        assert symbol !in full;
      }
    }
  }

  lemma Diagnose(s: Score, enabled: bool, p: ProviderRow, supported: set<string>, expected: seq<string>)
    requires s.freshnessDays.None? <==> forall symbol, day :: symbol in expected ==> !Ends(p, symbol, day)
    requires s.coverage == 0.0 && s.completeness == 0.0 <==>
             forall symbol :: symbol in expected ==> !Full(p, supported, symbol)
    requires s.coverage < 1.0 <==> exists symbol :: symbol in expected && !Sound(p, supported, symbol)
    requires s.completeness < 1.0 ==> s.coverage < 1.0
    requires s.failed != [] ==> exists symbol :: symbol in expected && !Sound(p, supported, symbol)
    requires s.freshnessDays.None? ==> s.freshness != Fresh
    ensures Diagnosed(Classify(s, enabled), enabled, s, p, supported, expected)
  {
  }

  /** The health of a reported provider, said of its rows. */
  lemma HealthIsDiagnosed(r: Report, reg: Registration, expected: seq<string>, asOf: int, p: ProviderRow, enabled: bool)
    requires ValidReport(r) && p in r.providers && p.providerKey == reg.providerKey && ValidSymbols(expected)
    ensures var s := Evaluate(r, reg, expected, asOf).value;
            Diagnosed(Classify(s, enabled), enabled, s, p, reg.supported, expected)
  {
    var s := Evaluate(r, reg, expected, asOf).value;
    QualityIsWeighed(r, reg, expected, asOf, p);
    RatiosSay(s, p, reg.supported, expected);
    MissingAndFailed(r, reg, expected, asOf, p);
    FailedIsNotSound(s, p, reg.supported, expected);
    FreshnessIsRated(r, reg, expected, asOf, p);
    Diagnose(s, enabled, p, reg.supported, expected);
  }

  lemma FailedIsNotSound(s: Score, p: ProviderRow, supported: set<string>, expected: seq<string>)
    requires forall symbol :: symbol in s.failed <==>
               symbol in expected && Reported(p, symbol) && !Sound(p, supported, symbol)
    ensures s.failed != [] ==> exists symbol :: symbol in expected && !Sound(p, supported, symbol)
  {
    if s.failed != [] {
      assert s.failed[0] in s.failed;
    }
  }

  /** A provider the report does not hold: every expected symbol is missing and failed, and
      only the reliability counts. */
  lemma AbsentProviderScore(r: Report, reg: Registration, expected: seq<string>, asOf: int, enabled: bool)
    requires ValidSymbols(expected) && forall p :: p in r.providers ==> p.providerKey != reg.providerKey
    ensures var s := Evaluate(r, reg, expected, asOf).value;
            && StrictlySorted(s.missing) && StrictlySorted(s.failed)
            && (forall symbol :: symbol in s.missing <==> symbol in expected)
            && (forall symbol :: symbol in s.failed <==> symbol in expected)
            && s.coverage == 0.0 && s.completeness == 0.0 && s.freshnessDays == None && s.freshness == Failed
            && 10.0 * s.quality == 2.0 * reg.reliability
            && Classify(s, enabled) == if enabled then Unknown else Disabled
  {
    var symbols := SortBy(expected, StrLe);
    SortedSymbols(expected);
    FilterIsStrict(symbols, MissingTest(None));
    AbsentCounts(reg, symbols, asOf);
  }

  lemma {:induction false} NoEndWithoutARow(symbols: seq<string>)
    ensures LatestEnd(None, symbols) == None
  {
    if symbols == [] {
    } else {
      NoEndWithoutARow(symbols[1..]);
    }
  }

  lemma AbsentCounts(reg: Registration, symbols: seq<string>, asOf: int)
    requires symbols != []
    ensures var s := ScoreOf(None, reg, symbols, asOf);
            && s.coverage == 0.0 && s.completeness == 0.0 && s.freshnessDays == None
            && s.freshness == Failed && 10.0 * s.quality == 2.0 * reg.reliability
  {
    var s := ScoreOf(None, reg, symbols, asOf);
    NothingIsGoodWithoutARow(reg, symbols);
    FilterNone(symbols, CompleteTest(None, reg.supported));
    NoEndWithoutARow(symbols);
    SharesOf(None, reg, symbols, asOf);
    ReliabilityOf(None, reg, symbols, asOf);
    FreshnessFields(None, reg, symbols, asOf);
    NoneAndAll(s.coverage, 0, |symbols|);
    NoneAndAll(s.completeness, 0, |symbols|);
  }
}
