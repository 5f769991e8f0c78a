/** Merging per-provider coverage reports into one. */
module CoverageMerge {
  import opened Wrappers
  import opened Ordering
  import opened Sequences
  import opened CoverageReport
  import opened ProviderQuality
  import opened BackfillPlan

  datatype MergeError = NoReports | SchemaMismatch | DuplicateProviders(keys: seq<string>)

  function ProvidersOf(): Report -> seq<ProviderRow> { (r: Report) => r.providers }

  function KeyOf(): ProviderRow -> seq<string> { (p: ProviderRow) => [p.providerKey] }

  function HashOf(): Report -> seq<string> { (r: Report) => [r.contentHash] }

  function GeneratedOf(): Report -> seq<string> { (r: Report) => [r.generatedAt] }

  function Joined(reports: seq<Report>): seq<ProviderRow> { FlatMap(reports, ProvidersOf()) }

  /** Keys that occur more than once, once each and sorted. */
  function Duplicates(keys: seq<string>): seq<string> {
    Canonical(Filter(keys, RepeatedIn(keys)))
  }

  function RepeatedIn(keys: seq<string>): string -> bool {
    key => multiset(keys)[key] > 1
  }

  function MaxString(s: seq<string>): (m: string)
    requires s != []
    ensures m in s
  {
    if |s| == 1 then s[0]
    else
      var m := MaxString(s[1..]);
      assert s == [s[0]] + s[1..];
      if StrLe(s[0], m) then m else s[0]
  }

  /** `merge_coverage_reports`; `digest` hashes the sorted input hashes. */
  function Merge(digest: seq<string> -> string, reports: seq<Report>): Result<Report, MergeError> {
    if reports == [] then Raised(NoReports)
    else if MixedSchemas(reports) then Raised(SchemaMismatch)
    else
      var providers := Joined(reports);
      var keys := FlatMap(providers, KeyOf());
      if Duplicates(keys) != [] then Raised(DuplicateProviders(Duplicates(keys)))
      else
        var generated := FlatMap(reports, GeneratedOf());
        assert generated != [] by {
          assert generated == GeneratedOf()(reports[0]) + FlatMap(reports[1..], GeneratedOf());
        }
        Done(Report(reports[0].schemaVersion, MaxString(generated),
                    digest(SortBy(FlatMap(reports, HashOf()), StrLe)), SortBy(providers, ProviderLe)))
  }

  // ---------- independence of the order of the reports ----------

  lemma {:induction false} MaxStringIsGreatest(s: seq<string>, x: string)
    requires x in s
    ensures StrLe(x, MaxString(s))
  {
    StrLeTotal(s[0], s[0]);
    if |s| == 1 {
    } else {
      StrLeTotal(s[0], MaxString(s[1..]));
      if x != s[0] {
        MaxStringIsGreatest(s[1..], x);
        if !StrLe(s[0], MaxString(s[1..])) {
          StrLeTransitive(x, MaxString(s[1..]), s[0]);
        }
      }
    }
  }

  lemma MaxStringOfPermutation(s: seq<string>, t: seq<string>)
    requires s != [] && t != [] && multiset(s) == multiset(t)
    ensures MaxString(s) == MaxString(t)
  {
    SameMultisetSameElements(s, t);
    MaxStringIsGreatest(s, MaxString(t));
    MaxStringIsGreatest(t, MaxString(s));
    StrLeAntisymmetric(MaxString(s), MaxString(t));
  }

  lemma DuplicatesOfPermutation(s: seq<string>, t: seq<string>)
    requires multiset(s) == multiset(t)
    ensures Duplicates(s) == Duplicates(t)
  {
    SameMultisetSameElements(s, t);
    CanonicalOfSameElements(Filter(s, RepeatedIn(s)), Filter(t, RepeatedIn(t)));
  }

  lemma {:induction false} KeysOfProviders(providers: seq<ProviderRow>)
    ensures FlatMap(providers, KeyOf()) == ProviderKeys(providers)
  {
    if providers == [] {
    } else {
      KeysOfProviders(providers[1..]);
      assert ProviderKeys(providers) == [providers[0].providerKey] + ProviderKeys(providers[1..]);
    }
  }

  lemma NoDuplicateKeys(keys: seq<string>, i: nat, j: nat)
    requires Duplicates(keys) == [] && i < j < |keys|
    ensures keys[i] != keys[j]
  {
    if keys[i] == keys[j] {
      RepeatedIsDuplicate(keys, i, j);
    }
  }

  lemma RepeatedIsDuplicate(keys: seq<string>, i: nat, j: nat)
    requires i < j < |keys| && keys[i] == keys[j]
    ensures keys[i] in Duplicates(keys)
  {
    TwiceInMultiset(keys, i, j);
    assert keys[i] in keys;
    assert keys[i] in Filter(keys, RepeatedIn(keys));
  }

  /** Without a duplicated key the providers' keys are pairwise different. */
  lemma NoDuplicatesMeansDistinct(providers: seq<ProviderRow>)
    requires Duplicates(FlatMap(providers, KeyOf())) == []
    ensures forall i, j :: 0 <= i < j < |providers| ==> providers[i].providerKey != providers[j].providerKey
  {
    KeysOfProviders(providers);
    forall i, j | 0 <= i < j < |providers| ensures providers[i].providerKey != providers[j].providerKey {
      NoDuplicateKeys(ProviderKeys(providers), i, j);
    }
  }

  lemma DistinctProviders(providers: seq<ProviderRow>)
    requires forall i, j :: 0 <= i < j < |providers| ==> providers[i].providerKey != providers[j].providerKey
    ensures DistinctBy(providers, ProviderLe)
  {
    forall p, q | p in providers && q in providers && ProviderLe(p, q) && ProviderLe(q, p) ensures p == q {
      StrLeAntisymmetric(p.providerKey, q.providerKey);
    }
  }

  predicate MixedSchemas(reports: seq<Report>)
    requires reports != []
  {
    exists r :: r in reports && r.schemaVersion != reports[0].schemaVersion
  }

  lemma SchemasAgree(a: seq<Report>, b: seq<Report>)
    requires a != [] && b != [] && multiset(a) == multiset(b)
    ensures MixedSchemas(a) == MixedSchemas(b)
    ensures !MixedSchemas(a) ==> a[0].schemaVersion == b[0].schemaVersion
  {
    SameMultisetSameElements(a, b);
    assert a[0] in a && b[0] in b;
  }

  lemma SameDuplicates(a: seq<Report>, b: seq<Report>)
    requires multiset(a) == multiset(b)
    ensures Duplicates(FlatMap(Joined(a), KeyOf())) == Duplicates(FlatMap(Joined(b), KeyOf()))
  {
    FlatMapPermutation(a, b, ProvidersOf());
    FlatMapPermutation(Joined(a), Joined(b), KeyOf());
    DuplicatesOfPermutation(FlatMap(Joined(a), KeyOf()), FlatMap(Joined(b), KeyOf()));
  }

  /** Permuting the reports changes nothing: not the merged report, not the error raised. */
  lemma MergeOrderIndependent(digest: seq<string> -> string, a: seq<Report>, b: seq<Report>)
    requires multiset(a) == multiset(b)
    ensures Merge(digest, a) == Merge(digest, b)
  {
    SameMultisetSameLength(a, b);
    if a != [] {
      SchemasAgree(a, b);
      SameDuplicates(a, b);
      if Duplicates(FlatMap(Joined(a), KeyOf())) == [] {
        MergedPartsAgree(digest, a, b);
      }
    }
  }

  lemma MergedPartsAgree(digest: seq<string> -> string, a: seq<Report>, b: seq<Report>)
    requires multiset(a) == multiset(b) && Duplicates(FlatMap(Joined(a), KeyOf())) == []
    requires a != [] && b != []
    ensures SortBy(Joined(a), ProviderLe) == SortBy(Joined(b), ProviderLe)
    ensures SortBy(FlatMap(a, HashOf()), StrLe) == SortBy(FlatMap(b, HashOf()), StrLe)
    ensures FlatMap(a, GeneratedOf()) != [] && FlatMap(b, GeneratedOf()) != []
    ensures MaxString(FlatMap(a, GeneratedOf())) == MaxString(FlatMap(b, GeneratedOf()))
  {
    FlatMapPermutation(a, b, ProvidersOf());
    NoDuplicatesMeansDistinct(Joined(a));
    DistinctProviders(Joined(a));
    ProviderLeIsPreorder();
    SortOrderIndependent(Joined(a), Joined(b), ProviderLe);
    FlatMapPermutation(a, b, HashOf());
    StrLeIsTotalOrder();
    SortOrderIndependent(FlatMap(a, HashOf()), FlatMap(b, HashOf()), StrLe);
    FlatMapPermutation(a, b, GeneratedOf());
    assert FlatMap(a, GeneratedOf()) == GeneratedOf()(a[0]) + FlatMap(a[1..], GeneratedOf());
    assert FlatMap(b, GeneratedOf()) == GeneratedOf()(b[0]) + FlatMap(b[1..], GeneratedOf());
    MaxStringOfPermutation(FlatMap(a, GeneratedOf()), FlatMap(b, GeneratedOf()));
  }

  // ---------- nothing is lost ----------

  /** A merged provider row is the row of the one report that held the provider, so it is
      scored there and in the merge alike; a provider no report held stays absent. */
  lemma MergeKeepsScores(digest: seq<string> -> string, reports: seq<Report>, r: Report, reg: Registration,
                         expected: seq<string>, asOf: int)
    requires r in reports
    requires FindProvider(r.providers, reg.providerKey).Some?
             || forall q :: q in reports ==> FindProvider(q.providers, reg.providerKey).None?
    ensures Merge(digest, reports).Done? ==>
      Evaluate(Merge(digest, reports).value, reg, expected, asOf) == Evaluate(r, reg, expected, asOf)
  {
    if Merge(digest, reports).Done? {
      var merged := Merge(digest, reports).value.providers;
      SameMultisetSameElements(merged, Joined(reports));
      if FindProvider(r.providers, reg.providerKey).Some? {
        NoDuplicatesMeansDistinct(Joined(reports));
        HeldProvider(reports, r, merged, reg.providerKey);
      } else {
        NeverHeld(reports, merged, reg.providerKey);
      }
    }
  }

  lemma HeldProvider(reports: seq<Report>, r: Report, merged: seq<ProviderRow>, key: string)
    requires r in reports && FindProvider(r.providers, key).Some?
    requires forall q :: q in merged <==> q in Joined(reports)
    requires var joined := Joined(reports);
             forall i, j :: 0 <= i < j < |joined| ==> joined[i].providerKey != joined[j].providerKey
    ensures FindProvider(merged, key) == FindProvider(r.providers, key)
  {
    var held := FindProvider(r.providers, key).value;
    FlatMapMember(reports, ProvidersOf(), held);
    assert held in ProvidersOf()(r);
    SameProvider(Joined(reports), merged, held);
  }

  lemma NeverHeld(reports: seq<Report>, merged: seq<ProviderRow>, key: string)
    requires forall q :: q in reports ==> FindProvider(q.providers, key).None?
    requires forall q :: q in merged <==> q in Joined(reports)
    ensures FindProvider(merged, key).None?
  {
    forall p | p in merged ensures p.providerKey != key {
      FlatMapMember(reports, ProvidersOf(), p);
      var q :| q in reports && p in ProvidersOf()(q);
      assert FindProvider(q.providers, key).None?;
    }
  }

  lemma SameProvider(joined: seq<ProviderRow>, merged: seq<ProviderRow>, p: ProviderRow)
    requires forall i, j :: 0 <= i < j < |joined| ==> joined[i].providerKey != joined[j].providerKey
    requires forall q :: q in merged <==> q in joined
    requires p in joined
    ensures FindProvider(merged, p.providerKey) == Some(p)
  {
    UniqueProvider(joined, p);
  }

  function PlanOf(ranks: map<string, int>): Report -> seq<PlanItem> { (r: Report) => Plan(r.providers, ranks) }

  /** The merged plan is the separate plans joined and put in priority order: every item
      kept, none invented, none repeated. */
  lemma MergedPlanIsJoinedPlans(digest: seq<string> -> string, reports: seq<Report>, ranks: map<string, int>)
    requires Merge(digest, reports).Done?
    ensures var plan := Plan(Merge(digest, reports).value.providers, ranks);
            && SortedBy(plan, PriorityLe)
            && multiset(plan) == multiset(FlatMap(reports, PlanOf(ranks)))
  {
    var merged := Merge(digest, reports).value.providers;
    PriorityLeIsPreorder();
    SortIsSorted(FlatMap(merged, ProviderItems(ranks)), PriorityLe);
    FlatMapPermutation(merged, Joined(reports), ProviderItems(ranks));
    SeparatePlans(reports, ranks);
  }

  lemma {:induction false} SeparatePlans(reports: seq<Report>, ranks: map<string, int>)
    ensures multiset(FlatMap(Joined(reports), ProviderItems(ranks))) == multiset(FlatMap(reports, PlanOf(ranks)))
  {
    if reports == [] {
    } else {
      var rest := reports[1..];
      SeparatePlans(rest, ranks);
      assert Joined(reports) == reports[0].providers + Joined(rest);
      FlatMapConcat(reports[0].providers, Joined(rest), ProviderItems(ranks));
      assert multiset(PlanOf(ranks)(reports[0])) == multiset(FlatMap(reports[0].providers, ProviderItems(ranks)));
    }
  }

  lemma JoinedRowIsValid(reports: seq<Report>, p: ProviderRow)
    requires (forall r :: r in reports ==> ValidReport(r)) && p in Joined(reports)
    ensures ValidProvider(p)
  {
    FlatMapMember(reports, ProvidersOf(), p);
    var r :| r in reports && p in ProvidersOf()(r);
    var j :| 0 <= j < |r.providers| && r.providers[j] == p;
    assert ValidReport(r);
  }

  lemma SortedKeys(providers: seq<ProviderRow>)
    requires SortedBy(providers, ProviderLe)
    requires forall i, j :: 0 <= i < j < |providers| ==> providers[i].providerKey != providers[j].providerKey
    ensures StrictlySorted(ProviderKeys(providers))
  {
    var keys := ProviderKeys(providers);
    forall i, j | 0 <= i < j < |keys| ensures StrLe(keys[i], keys[j]) && keys[i] != keys[j] {
      assert ProviderLe(providers[i], providers[j]);
    }
  }

  /** The merge is itself a valid report whenever its inputs are. */
  lemma MergedReportIsValid(digest: seq<string> -> string, reports: seq<Report>)
    requires Merge(digest, reports).Done? && forall r :: r in reports ==> ValidReport(r)
    ensures ValidReport(Merge(digest, reports).value)
  {
    var joined := Joined(reports);
    var merged := SortBy(joined, ProviderLe);
    ProviderLeIsPreorder();
    SortIsSorted(joined, ProviderLe);
    NoDuplicatesMeansDistinct(joined);
    DistinctKeysOfPermutation(joined, merged);
    SortedKeys(merged);
    SameMultisetSameElements(merged, joined);
    forall i | 0 <= i < |merged| ensures ValidProvider(merged[i]) {
      assert merged[i] in merged;
      JoinedRowIsValid(reports, merged[i]);
    }
  }

  lemma DistinctKeysOfPermutation(a: seq<ProviderRow>, b: seq<ProviderRow>)
    requires multiset(a) == multiset(b)
    requires forall i, j :: 0 <= i < j < |a| ==> a[i].providerKey != a[j].providerKey
    ensures forall i, j :: 0 <= i < j < |b| ==> b[i].providerKey != b[j].providerKey
  {
    FlatMapPermutation(a, b, KeyOf());
    KeysOfProviders(a);
    KeysOfProviders(b);
    forall i, j | 0 <= i < j < |b| ensures b[i].providerKey != b[j].providerKey {
      if b[i].providerKey == b[j].providerKey {
        TwiceInMultiset(ProviderKeys(b), i, j);
        DistinctCounts(ProviderKeys(a), b[i].providerKey);
      }
    }
  }

  // ---------- the merge, said of the reports ----------

  ghost function Rows(providers: seq<ProviderRow>, key: string): nat {
    if providers == [] then 0 else (if providers[0].providerKey == key then 1 else 0) + Rows(providers[1..], key)
  }

  /** How many provider rows the reports hold for a key, all together. */
  ghost function Held(reports: seq<Report>, key: string): nat {
    if reports == [] then 0 else Rows(reports[0].providers, key) + Held(reports[1..], key)
  }

  /** All provider rows of all reports. */
  ghost function AllRows(reports: seq<Report>): multiset<ProviderRow> {
    if reports == [] then multiset{} else multiset(reports[0].providers) + AllRows(reports[1..])
  }

  ghost predicate SchemasDiffer(reports: seq<Report>) {
    exists r, q :: r in reports && q in reports && r.schemaVersion != q.schemaVersion
  }

  lemma {:induction false} RowsAreCounted(providers: seq<ProviderRow>, key: string)
    ensures multiset(FlatMap(providers, KeyOf()))[key] == Rows(providers, key)
  {
    if providers == [] {
    } else {
      RowsAreCounted(providers[1..], key);
    }
  }

  lemma {:induction false} HeldIsCounted(reports: seq<Report>, key: string)
    ensures multiset(FlatMap(Joined(reports), KeyOf()))[key] == Held(reports, key)
    ensures multiset(Joined(reports)) == AllRows(reports)
  {
    if reports == [] {
    } else {
      HeldIsCounted(reports[1..], key);
      RowsAreCounted(reports[0].providers, key);
      assert Joined(reports) == reports[0].providers + Joined(reports[1..]);
      FlatMapConcat(reports[0].providers, Joined(reports[1..]), KeyOf());
    }
  }

  lemma DuplicatesAreHeldTwice(reports: seq<Report>)
    ensures var keys := Duplicates(FlatMap(Joined(reports), KeyOf()));
            StrictlySorted(keys) && forall key :: key in keys <==> Held(reports, key) > 1
  {
    var keys := FlatMap(Joined(reports), KeyOf());
    CanonicalIsStrict(Filter(keys, RepeatedIn(keys)));
    forall key ensures key in Duplicates(keys) <==> Held(reports, key) > 1 {
      HeldIsCounted(reports, key);
      assert key in keys <==> multiset(keys)[key] > 0;
    }
  }

  /** A merge is refused when there is no report, two schemas, or a provider held twice; it then
      names exactly the providers held twice, in order. */
  ghost predicate MergeRefusal(e: MergeError, reports: seq<Report>) {
    match e
    case NoReports => reports == []
    case SchemaMismatch => SchemasDiffer(reports)
    case DuplicateProviders(keys) =>
      && reports != [] && !SchemasDiffer(reports) && keys != []
      && StrictlySorted(keys) && forall key :: key in keys <==> Held(reports, key) > 1
  }

  lemma SameStrictLists(a: seq<string>, b: seq<string>)
    requires StrictlySorted(a) && StrictlySorted(b) && forall x :: x in a <==> x in b
    ensures a == b
  {
    SameElementsSameMultiset(a, b);
    StrLeIsTotalOrder();
    SortedUnique(a, b, StrLe);
  }

  /** Exactly when a merge raises which error. */
  lemma MergeErrors(digest: seq<string> -> string, reports: seq<Report>, e: MergeError)
    ensures Merge(digest, reports) == Raised(e) <==> MergeRefusal(e, reports)
  {
    var keys := Duplicates(FlatMap(Joined(reports), KeyOf()));
    DuplicatesAreHeldTwice(reports);
    if reports != [] {
      SchemasDifferFromFirst(reports);
    }
    if e.DuplicateProviders? {
      if MergeRefusal(e, reports) {
        SameStrictLists(e.keys, keys);
      }
    }
  }

  lemma SchemasDifferFromFirst(reports: seq<Report>)
    requires reports != []
    ensures SchemasDiffer(reports) <==> MixedSchemas(reports)
  {
    assert reports[0] in reports;
  }

  lemma {:induction false} FlatMapOfOnes<A>(s: seq<A>, name: A -> string, f: A -> seq<string>)
    requires forall x :: f(x) == [name(x)]
    ensures FlatMap(s, f) == Names(s, name)
  {
    if s == [] {
    } else {
      FlatMapOfOnes(s[1..], name, f);
    }
  }

  /** The merged report: the common schema, the latest generation time, the digest of the
      sorted hashes, and every provider row of every report in strict key order. */
  lemma MergedFields(digest: seq<string> -> string, reports: seq<Report>)
    requires Merge(digest, reports).Done?
    ensures var m := Merge(digest, reports).value;
            && (forall r :: r in reports ==> m.schemaVersion == r.schemaVersion && StrLe(r.generatedAt, m.generatedAt))
            && (exists r :: r in reports && r.generatedAt == m.generatedAt)
            && m.contentHash == digest(SortBy(Names(reports, (r: Report) => r.contentHash), StrLe))
            && multiset(m.providers) == AllRows(reports)
            && StrictlySorted(ProviderKeys(m.providers))
  {
    MergedHeader(digest, reports);
    HeldIsCounted(reports, "");
    MergedOrder(reports);
    MergedHash(digest, reports);
  }

  lemma MergedHash(digest: seq<string> -> string, reports: seq<Report>)
    requires Merge(digest, reports).Done?
    ensures Merge(digest, reports).value.contentHash == digest(SortBy(Names(reports, (r: Report) => r.contentHash), StrLe))
  {
    FlatMapOfOnes(reports, (r: Report) => r.contentHash, HashOf());
  }

  lemma MergedHeader(digest: seq<string> -> string, reports: seq<Report>)
    requires Merge(digest, reports).Done?
    ensures var m := Merge(digest, reports).value;
            && (forall r :: r in reports ==> m.schemaVersion == r.schemaVersion && StrLe(r.generatedAt, m.generatedAt))
            && (exists r :: r in reports && r.generatedAt == m.generatedAt)
  {
    var times := FlatMap(reports, GeneratedOf());
    assert times == GeneratedOf()(reports[0]) + FlatMap(reports[1..], GeneratedOf());
    FlatMapMember(reports, GeneratedOf(), MaxString(times));
    forall r | r in reports ensures StrLe(r.generatedAt, MaxString(times)) {
      FlatMapMember(reports, GeneratedOf(), r.generatedAt);
      assert r.generatedAt in GeneratedOf()(r);
      MaxStringIsGreatest(times, r.generatedAt);
    }
  }

  lemma MergedOrder(reports: seq<Report>)
    requires Duplicates(FlatMap(Joined(reports), KeyOf())) == []
    ensures StrictlySorted(ProviderKeys(SortBy(Joined(reports), ProviderLe)))
  {
    ProviderLeIsPreorder();
    SortIsSorted(Joined(reports), ProviderLe);
    NoDuplicatesMeansDistinct(Joined(reports));
    DistinctKeysOfPermutation(Joined(reports), SortBy(Joined(reports), ProviderLe));
    SortedKeys(SortBy(Joined(reports), ProviderLe));
  }
}
