/** Provider-to-provider comparison of two daily-bar batches (provider_consistency.py). */
module Reconciliation {
  import opened Wrappers
  import opened Ordering
  import opened Sequences

  datatype Key = Key(instrument: int, tradeDate: int, adjustment: string)

  /** A bar as compared; the seven values are listed in COMPARED_FIELDS order. */
  datatype RawBar = Bar(key: Key, provider: string, values: seq<Option<real>>)

  const FIELDS: nat := 7

  type Bar = b: RawBar | |b.values| == 7
    witness Bar(Key(0, 0, "none"), "p", [None, None, None, None, None, None, None])

  datatype Mismatch = Mismatch(key: Key, field: nat, left: Option<real>, right: Option<real>)

  datatype Report = Report(leftProvider: string, rightProvider: string, matched: nat,
                           missingLeft: seq<Key>, missingRight: seq<Key>, mismatches: seq<Mismatch>)

  datatype Side = Left | Right

  datatype CompareError = EmptyBatch(side: Side) | MixedProviders(side: Side) | SameProvider
                        | MixedAdjustments(side: Side) | DuplicateKey(side: Side)

  // ---------- keys ----------

  predicate KeyLe(a: Key, b: Key) {
    if a.instrument != b.instrument then a.instrument < b.instrument
    else if a.tradeDate != b.tradeDate then a.tradeDate < b.tradeDate
    else StrLe(a.adjustment, b.adjustment)
  }

  lemma KeyLeIsTotalOrder()
    ensures TotalPreorder(KeyLe)
    ensures forall a, b :: KeyLe(a, b) && KeyLe(b, a) ==> a == b
  {
    StrLeIsTotalOrder();
    assert forall x: string, y: string, z: string :: StrLe(x, y) && StrLe(y, z) ==> StrLe(x, z);
  }

  function Keys(bars: seq<Bar>): (r: seq<Key>)
    ensures |r| == |bars| && forall i :: 0 <= i < |r| ==> r[i] == bars[i].key
  {
    seq(|bars|, i requires 0 <= i < |bars| => bars[i].key)
  }

  predicate KeysDistinct(bars: seq<Bar>) {
    forall i, j :: 0 <= i < j < |bars| ==> bars[i].key != bars[j].key
  }

  function Find(bars: seq<Bar>, key: Key): (r: Option<Bar>)
    ensures r.Some? ==> r.value in bars && r.value.key == key
    ensures r.None? <==> key !in Keys(bars)
  {
    if bars == [] then None
    else
      assert bars == [bars[0]] + bars[1..];
      assert Keys(bars) == [bars[0].key] + Keys(bars[1..]);
      if bars[0].key == key then Some(bars[0]) else Find(bars[1..], key)
  }

  // ---------- validation ----------

  predicate OneProvider(bars: seq<Bar>) { forall i :: 0 <= i < |bars| ==> bars[i].provider == bars[0].provider }

  predicate OneAdjustment(bars: seq<Bar>) {
    forall i :: 0 <= i < |bars| ==> bars[i].key.adjustment == bars[0].key.adjustment
  }

  /** The checks, in the order the source makes them. */
  function Validate(left: seq<Bar>, right: seq<Bar>): Option<CompareError> {
    if left == [] then Some(EmptyBatch(Left))
    else if right == [] then Some(EmptyBatch(Right))
    else if !OneProvider(left) then Some(MixedProviders(Left))
    else if !OneProvider(right) then Some(MixedProviders(Right))
    else if left[0].provider == right[0].provider then Some(SameProvider)
    else if !OneAdjustment(left) then Some(MixedAdjustments(Left))
    else if !OneAdjustment(right) then Some(MixedAdjustments(Right))
    else if !KeysDistinct(left) then Some(DuplicateKey(Left))
    else if !KeysDistinct(right) then Some(DuplicateKey(Right))
    else None
  }

  // ---------- comparison ----------

  function Shared(bars: seq<Bar>): Key -> bool { k => k in Keys(bars) }

  function Absent(bars: seq<Bar>): Key -> bool { k => k !in Keys(bars) }

  function MismatchesUpTo(key: Key, left: Bar, right: Bar, n: nat): seq<Mismatch>
    requires n <= FIELDS
  {
    if n == 0 then []
    else
      MismatchesUpTo(key, left, right, n - 1) +
      (if left.values[n - 1] != right.values[n - 1]
       then [Mismatch(key, n - 1, left.values[n - 1], right.values[n - 1])] else [])
  }

  function MismatchesAt(left: seq<Bar>, right: seq<Bar>): Key -> seq<Mismatch> {
    (k: Key) =>
      match (Find(left, k), Find(right, k))
      case (Some(a), Some(b)) => MismatchesUpTo(k, a, b, FIELDS)
      case _ => []
  }

  function Common(left: seq<Bar>, right: seq<Bar>): seq<Key> {
    SortBy(Filter(Keys(left), Shared(right)), KeyLe)
  }

  function OnlyIn(bars: seq<Bar>, others: seq<Bar>): seq<Key> {
    SortBy(Filter(Keys(bars), Absent(others)), KeyLe)
  }

  /** The mismatches of every shared key, key by key. */
  function Differences(left: seq<Bar>, right: seq<Bar>): seq<Mismatch> {
    FlatMap(Common(left, right), MismatchesAt(left, right))
  }

  /** `compare_daily_bar_batches`. */
  function Compare(left: seq<Bar>, right: seq<Bar>): Result<Report, CompareError> {
    var error := Validate(left, right);
    if error.Some? then Raised(error.value)
    else
      Done(Report(left[0].provider, right[0].provider, |Common(left, right)|, OnlyIn(left, right), OnlyIn(right, left),
                  Differences(left, right)))
  }

  // ---------- the loops ----------

  /** `m` is the dictionary of the bars seen so far. */
  ghost predicate Indexes(m: map<Key, Bar>, bars: seq<Bar>) {
    && (forall i :: 0 <= i < |bars| ==> bars[i].key in m && m[bars[i].key] == bars[i])
    && (forall k :: k in m ==> m[k] in bars && m[k].key == k)
  }

  lemma IndexExtends(m: map<Key, Bar>, bars: seq<Bar>, b: Bar)
    requires Indexes(m, bars) && b.key !in m
    ensures Indexes(m[b.key := b], bars + [b])
  {
  }

  lemma IndexFinds(m: map<Key, Bar>, bars: seq<Bar>, k: Key)
    requires Indexes(m, bars) && KeysDistinct(bars)
    ensures k in m <==> k in Keys(bars)
    ensures k in m ==> Find(bars, k) == Some(m[k])
  {
    if k in m {
      FindUnique(bars, m[k]);
      var j :| 0 <= j < |bars| && bars[j] == m[k];
      assert Keys(bars)[j] == k;
    }
  }

  /** `_index_by_key`: fills a dictionary, refusing a repeated key. */
  method IndexByKey(bars: seq<Bar>) returns (index: Option<map<Key, Bar>>)
    ensures index.Some? <==> KeysDistinct(bars)
    ensures index.Some? ==> forall k :: (k in index.value <==> k in Keys(bars))
    ensures index.Some? ==> forall k :: k in index.value ==> Find(bars, k) == Some(index.value[k])
  {
    var m: map<Key, Bar> := map[];
    for i := 0 to |bars|
      invariant Indexes(m, bars[..i]) && KeysDistinct(bars[..i])
    {
      assert bars[..i + 1] == bars[..i] + [bars[i]];
      if bars[i].key in m {
        var j :| 0 <= j < i && bars[..i][j] == m[bars[i].key];
        assert bars[j].key == bars[i].key;
        return None;
      }
      IndexExtends(m, bars[..i], bars[i]);
      m := m[bars[i].key := bars[i]];
    }
    assert bars[..|bars|] == bars;
    forall k ensures k in m <==> k in Keys(bars)
      ensures k in m ==> Find(bars, k) == Some(m[k])
    {
      IndexFinds(m, bars, k);
    }
    index := Some(m);
  }

  lemma {:induction false} FindUnique(bars: seq<Bar>, b: Bar)
    requires KeysDistinct(bars) && b in bars
    ensures Find(bars, b.key) == Some(b)
  {
    if bars[0].key == b.key {
      var i :| 0 <= i < |bars| && bars[i] == b;
      assert i == 0;
    } else {
      FindUnique(bars[1..], b);
    }
  }

  /** `_compared_fields_mismatches`. */
  method ComparedFields(key: Key, left: Bar, right: Bar) returns (mismatches: seq<Mismatch>)
    ensures mismatches == MismatchesUpTo(key, left, right, FIELDS)
  {
    mismatches := [];
    for i := 0 to FIELDS
      invariant mismatches == MismatchesUpTo(key, left, right, i)
    {
      if left.values[i] != right.values[i] {
        mismatches := mismatches + [Mismatch(key, i, left.values[i], right.values[i])];
      }
    }
  }

  method CompareBatches(left: seq<Bar>, right: seq<Bar>) returns (report: Result<Report, CompareError>)
    ensures report == Compare(left, right)
  {
    if left == [] { return Raised(EmptyBatch(Left)); }
    if right == [] { return Raised(EmptyBatch(Right)); }
    if !OneProvider(left) { return Raised(MixedProviders(Left)); }
    if !OneProvider(right) { return Raised(MixedProviders(Right)); }
    if left[0].provider == right[0].provider { return Raised(SameProvider); }
    if !OneAdjustment(left) { return Raised(MixedAdjustments(Left)); }
    if !OneAdjustment(right) { return Raised(MixedAdjustments(Right)); }
    var leftIndex := IndexByKey(left);
    if leftIndex.None? { return Raised(DuplicateKey(Left)); }
    var rightIndex := IndexByKey(right);
    if rightIndex.None? { return Raised(DuplicateKey(Right)); }
    var matched, mismatches := CompareCommon(left, right, leftIndex.value, rightIndex.value);
    report := Done(Report(left[0].provider, right[0].provider, matched, OnlyIn(left, right), OnlyIn(right, left), mismatches));
  }

  /** The main loop over the sorted common keys. */
  method CompareCommon(left: seq<Bar>, right: seq<Bar>, leftIndex: map<Key, Bar>, rightIndex: map<Key, Bar>)
    returns (matched: nat, mismatches: seq<Mismatch>)
    requires forall k :: k in leftIndex <==> k in Keys(left)
    requires forall k :: k in rightIndex <==> k in Keys(right)
    requires forall k :: k in leftIndex ==> Find(left, k) == Some(leftIndex[k])
    requires forall k :: k in rightIndex ==> Find(right, k) == Some(rightIndex[k])
    ensures matched == |Common(left, right)| && mismatches == Differences(left, right)
  {
    var common := Common(left, right);
    CommonKeys(left, right);
    mismatches, matched := [], 0;
    for i := 0 to |common|
      invariant matched == i
      invariant mismatches == FlatMap(common[..i], MismatchesAt(left, right))
    {
      var key := common[i];
      assert key in common;
      matched := matched + 1;
      var found := ComparedFields(key, leftIndex[key], rightIndex[key]);
      mismatches := mismatches + found;
      FlatMapSnoc(common, i, MismatchesAt(left, right));
    }
    assert common[..|common|] == common;
  }

  // ---------- soundness and completeness ----------

  lemma CommonKeys(left: seq<Bar>, right: seq<Bar>)
    ensures forall k :: k in Common(left, right) <==> k in Keys(left) && k in Keys(right)
    ensures forall k :: k in OnlyIn(left, right) <==> k in Keys(left) && k !in Keys(right)
  {
    SameMultisetSameElements(Common(left, right), Filter(Keys(left), Shared(right)));
    SameMultisetSameElements(OnlyIn(left, right), Filter(Keys(left), Absent(right)));
  }

  ghost predicate Strict(keys: seq<Key>) {
    forall i, j :: 0 <= i < j < |keys| ==> KeyLe(keys[i], keys[j]) && keys[i] != keys[j]
  }

  lemma SortedKeysStrict(keys: seq<Key>)
    requires Distinct(keys)
    ensures Strict(SortBy(keys, KeyLe))
  {
    KeyLeIsTotalOrder();
    SortIsSorted(keys, KeyLe);
    DistinctOfPermutation(keys, SortBy(keys, KeyLe));
  }

  /** Two listings of one set of distinct keys sort alike. */
  lemma SameKeysSortAlike(a: seq<Key>, b: seq<Key>)
    requires Distinct(a) && Distinct(b) && forall k :: k in a <==> k in b
    ensures SortBy(a, KeyLe) == SortBy(b, KeyLe)
  {
    SameElementsSameMultiset(a, b);
    KeyLeIsTotalOrder();
    SortOrderIndependent(a, b, KeyLe);
  }

  lemma {:induction false} SplitCounts(keys: seq<Key>, bars: seq<Bar>)
    ensures |Filter(keys, Shared(bars))| + |Filter(keys, Absent(bars))| == |keys|
  {
    if keys == [] {
    } else {
      SplitCounts(keys[1..], bars);
    }
  }

  lemma CommonSymmetric(left: seq<Bar>, right: seq<Bar>)
    requires KeysDistinct(left) && KeysDistinct(right)
    ensures Common(left, right) == Common(right, left)
  {
    FilterKeepsDistinct(Keys(left), Shared(right));
    FilterKeepsDistinct(Keys(right), Shared(left));
    SameKeysSortAlike(Filter(Keys(left), Shared(right)), Filter(Keys(right), Shared(left)));
  }

  lemma OnlyInIsStrict(left: seq<Bar>, right: seq<Bar>)
    requires KeysDistinct(left)
    ensures Strict(OnlyIn(left, right)) && Strict(Common(left, right))
    ensures |Common(left, right)| + |OnlyIn(left, right)| == |left|
  {
    SplitCounts(Keys(left), right);
    FilterKeepsDistinct(Keys(left), Absent(right));
    FilterKeepsDistinct(Keys(left), Shared(right));
    SortedKeysStrict(Filter(Keys(left), Absent(right)));
    SortedKeysStrict(Filter(Keys(left), Shared(right)));
  }

  lemma ValidateChecksKeys(left: seq<Bar>, right: seq<Bar>)
    requires Validate(left, right).None?
    ensures KeysDistinct(left) && KeysDistinct(right)
  {
  }

  lemma ComparePasses(left: seq<Bar>, right: seq<Bar>)
    ensures Compare(left, right).Done? ==>
      Validate(left, right).None? && KeysDistinct(left) && KeysDistinct(right)
  {
    if Validate(left, right).None? {
      ValidateChecksKeys(left, right);
    }
  }

  /** Every key is either matched or missing on the other side, and the missing lists are
      strictly ordered. */
  lemma ReportCountsKeys(left: seq<Bar>, right: seq<Bar>)
    ensures Compare(left, right).Done? ==>
            var r := Compare(left, right).value;
            && r.matched + |r.missingLeft| == |left|
            && r.matched + |r.missingRight| == |right|
            && Strict(r.missingLeft) && Strict(r.missingRight)
            && (forall k :: k in r.missingLeft <==> k in Keys(left) && k !in Keys(right))
            && (forall k :: k in r.missingRight <==> k in Keys(right) && k !in Keys(left))
  {
    ComparePasses(left, right);
    if Compare(left, right).Done? {
      OnlyInIsStrict(left, right);
      OnlyInIsStrict(right, left);
      CommonSymmetric(left, right);
      CommonKeys(left, right);
      CommonKeys(right, left);
    }
  }

  // ---------- mismatches ----------

  predicate Before(a: Mismatch, b: Mismatch) {
    (KeyLe(a.key, b.key) && a.key != b.key) || (a.key == b.key && a.field < b.field)
  }

  ghost predicate StrictMismatches(s: seq<Mismatch>) {
    forall i, j :: 0 <= i < j < |s| ==> Before(s[i], s[j])
  }

  lemma {:induction false} FieldMismatches(key: Key, left: Bar, right: Bar, n: nat)
    requires n <= FIELDS
    ensures var s := MismatchesUpTo(key, left, right, n);
            && StrictMismatches(s)
            && (forall m :: m in s <==>
                  m.key == key && m.field < n && left.values[m.field] != right.values[m.field]
                  && m.left == left.values[m.field] && m.right == right.values[m.field])
  {
    if n == 0 {
    } else {
      FieldMismatches(key, left, right, n - 1);
      var before := MismatchesUpTo(key, left, right, n - 1);
      forall m | m in before ensures m.key == key && m.field < n - 1 {
      }
      if left.values[n - 1] != right.values[n - 1] {
        JoinStrict(before, [Mismatch(key, n - 1, left.values[n - 1], right.values[n - 1])]);
      }
    }
  }

  /** A mismatch that the two batches really exhibit. */
  ghost predicate Genuine(left: seq<Bar>, right: seq<Bar>, m: Mismatch) {
    && m.key in Keys(left) && m.key in Keys(right) && m.field < 7
    && m.left == Find(left, m.key).value.values[m.field]
    && m.right == Find(right, m.key).value.values[m.field]
    && m.left != m.right
  }

  lemma MismatchesOfKey(left: seq<Bar>, right: seq<Bar>, key: Key)
    requires key in Keys(left) && key in Keys(right)
    ensures StrictMismatches(MismatchesAt(left, right)(key))
    ensures forall m :: m in MismatchesAt(left, right)(key) <==> m.key == key && Genuine(left, right, m)
  {
    FieldMismatches(key, Find(left, key).value, Find(right, key).value, FIELDS);
  }

  lemma {:induction false} MismatchesInOrder(left: seq<Bar>, right: seq<Bar>, keys: seq<Key>)
    requires Strict(keys) && forall k :: k in keys ==> k in Keys(left) && k in Keys(right)
    ensures var s := FlatMap(keys, MismatchesAt(left, right));
            && StrictMismatches(s)
            && forall m :: m in s <==> m.key in keys && Genuine(left, right, m)
  {
    if keys == [] {
    } else {
      assert keys == [keys[0]] + keys[1..];
      MismatchesInOrder(left, right, keys[1..]);
      MismatchesOfKey(left, right, keys[0]);
      JoinKeys(keys, MismatchesAt(left, right)(keys[0]), FlatMap(keys[1..], MismatchesAt(left, right)));
    }
  }

  /** Mismatches of the first key come before those of all later keys. */
  lemma JoinKeys(keys: seq<Key>, first: seq<Mismatch>, rest: seq<Mismatch>)
    requires Strict(keys) && keys != [] && StrictMismatches(first) && StrictMismatches(rest)
    requires (forall m :: m in first ==> m.key == keys[0]) && forall m :: m in rest ==> m.key in keys[1..]
    ensures StrictMismatches(first + rest)
  {
    forall a, b | a in first && b in rest ensures Before(a, b) {
      var j :| 0 <= j < |keys[1..]| && keys[1..][j] == b.key;
      assert keys[j + 1] == b.key;
    }
    JoinStrict(first, rest);
  }

  lemma JoinStrict(a: seq<Mismatch>, b: seq<Mismatch>)
    requires StrictMismatches(a) && StrictMismatches(b)
    requires forall x, y :: x in a && y in b ==> Before(x, y)
    ensures StrictMismatches(a + b)
  {
  }

  /** The mismatches are exactly the differing fields of the shared keys, once each, in
      strict (key, field) order. */
  lemma MismatchesAreExact(left: seq<Bar>, right: seq<Bar>)
    ensures Compare(left, right).Done? ==>
            var r := Compare(left, right).value;
            && StrictMismatches(r.mismatches)
            && forall m :: m in r.mismatches <==> Genuine(left, right, m)
  {
    ComparePasses(left, right);
    if Compare(left, right).Done? {
      DifferencesAreExact(left, right);
    }
  }

  lemma DifferencesAreExact(left: seq<Bar>, right: seq<Bar>)
    requires KeysDistinct(left)
    ensures StrictMismatches(Differences(left, right))
    ensures forall m :: m in Differences(left, right) <==> Genuine(left, right, m)
  {
    CommonKeys(left, right);
    OnlyInIsStrict(left, right);
    MismatchesInOrder(left, right, Common(left, right));
  }

  // ---------- symmetry and order independence ----------

  function MirrorMismatch(m: Mismatch): Mismatch { Mismatch(m.key, m.field, m.right, m.left) }

  function MirrorAll(s: seq<Mismatch>): (r: seq<Mismatch>)
    ensures |r| == |s| && forall i :: 0 <= i < |s| ==> r[i] == MirrorMismatch(s[i])
  {
    seq(|s|, i requires 0 <= i < |s| => MirrorMismatch(s[i]))
  }

  function Mirror(r: Report): Report {
    Report(r.rightProvider, r.leftProvider, r.matched, r.missingRight, r.missingLeft, MirrorAll(r.mismatches))
  }

  lemma {:induction false} MirrorFields(key: Key, left: Bar, right: Bar, n: nat)
    requires n <= FIELDS
    ensures MismatchesUpTo(key, right, left, n) == MirrorAll(MismatchesUpTo(key, left, right, n))
  {
    if n == 0 {
    } else {
      MirrorFields(key, left, right, n - 1);
    }
  }

  lemma MirrorAppend(a: seq<Mismatch>, b: seq<Mismatch>)
    ensures MirrorAll(a + b) == MirrorAll(a) + MirrorAll(b)
  {
  }

  lemma MirrorAt(left: seq<Bar>, right: seq<Bar>, key: Key)
    ensures MismatchesAt(right, left)(key) == MirrorAll(MismatchesAt(left, right)(key))
  {
    var a, b := Find(left, key), Find(right, key);
    if a.Some? && b.Some? {
      MirrorFields(key, a.value, b.value, FIELDS);
    }
  }

  lemma {:induction false} MirrorKeys(left: seq<Bar>, right: seq<Bar>, keys: seq<Key>)
    ensures FlatMap(keys, MismatchesAt(right, left)) == MirrorAll(FlatMap(keys, MismatchesAt(left, right)))
  {
    if keys == [] {
    } else {
      MirrorKeys(left, right, keys[1..]);
      MirrorAt(left, right, keys[0]);
      MirrorAppend(MismatchesAt(left, right)(keys[0]), FlatMap(keys[1..], MismatchesAt(left, right)));
    }
  }

  lemma ValidateSwaps(left: seq<Bar>, right: seq<Bar>)
    ensures Validate(left, right).None? <==> Validate(right, left).None?
  {
  }

  lemma DifferencesMirror(left: seq<Bar>, right: seq<Bar>)
    requires KeysDistinct(left) && KeysDistinct(right)
    ensures Differences(right, left) == MirrorAll(Differences(left, right))
  {
    CommonSymmetric(left, right);
    MirrorKeys(left, right, Common(left, right));
  }

  /** Swapping the batches mirrors the report; one comparison succeeds iff the other does. */
  lemma SwapMirrors(left: seq<Bar>, right: seq<Bar>)
    ensures Compare(left, right).Done? <==> Compare(right, left).Done?
    ensures Compare(left, right).Done? ==> Compare(right, left).value == Mirror(Compare(left, right).value)
  {
    ValidateSwaps(left, right);
    if Compare(left, right).Done? {
      ComparePasses(left, right);
      DifferencesMirror(left, right);
      CommonSymmetric(left, right);
    }
  }

  lemma SameFind(a: seq<Bar>, b: seq<Bar>, k: Key)
    requires multiset(a) == multiset(b) && KeysDistinct(a) && KeysDistinct(b)
    ensures Find(a, k) == Find(b, k)
  {
    SameMultisetSameElements(a, b);
    if k in Keys(a) {
      FindUnique(a, Find(a, k).value);
      FindUnique(b, Find(a, k).value);
    } else if k in Keys(b) {
      FindUnique(a, Find(b, k).value);
    }
  }

  lemma {:induction false} SameMismatches(l: seq<Bar>, r: seq<Bar>, l': seq<Bar>, r': seq<Bar>, keys: seq<Key>)
    requires forall k :: Find(l, k) == Find(l', k) && Find(r, k) == Find(r', k)
    ensures FlatMap(keys, MismatchesAt(l, r)) == FlatMap(keys, MismatchesAt(l', r'))
  {
    if keys == [] {
    } else {
      SameMismatches(l, r, l', r', keys[1..]);
    }
  }

  lemma KeysOfPermutation(a: seq<Bar>, b: seq<Bar>)
    requires multiset(a) == multiset(b) && KeysDistinct(a)
    ensures KeysDistinct(b)
  {
    SameMultisetSameElements(a, b);
    DistinctOfPermutation(a, b);
    forall i, j | 0 <= i < j < |b| ensures b[i].key != b[j].key {
      if b[i].key == b[j].key {
        assert b[i] in b && b[j] in b;
        FindUnique(a, b[i]);
        FindUnique(a, b[j]);
      }
    }
  }

  /** Two batches with the same records look the same to every lookup. */
  lemma SameLookups(a: seq<Bar>, b: seq<Bar>)
    requires multiset(a) == multiset(b) && KeysDistinct(a)
    ensures KeysDistinct(b) && |a| == |b|
    ensures forall x :: x in a <==> x in b
    ensures forall k :: Find(a, k) == Find(b, k)
    ensures forall k :: k in Keys(a) <==> k in Keys(b)
  {
    SameMultisetSameLength(a, b);
    SameMultisetSameElements(a, b);
    KeysOfPermutation(a, b);
    forall k ensures Find(a, k) == Find(b, k) && (k in Keys(a) <==> k in Keys(b)) {
      SameFind(a, b, k);
    }
  }

  /** Reordering the records inside either batch changes neither the report nor the error. */
  lemma RecordOrderDoesNotMatter(left: seq<Bar>, right: seq<Bar>, left': seq<Bar>, right': seq<Bar>)
    requires multiset(left) == multiset(left') && multiset(right) == multiset(right')
    ensures Compare(left', right') == Compare(left, right)
  {
    SameChecks(left, left');
    SameChecks(right, right');
    if Validate(left, right).None? {
      SameReports(left, right, left', right');
    }
  }

  lemma SameReports(left: seq<Bar>, right: seq<Bar>, left': seq<Bar>, right': seq<Bar>)
    requires multiset(left) == multiset(left') && multiset(right) == multiset(right')
    requires KeysDistinct(left) && KeysDistinct(right)
    ensures OnlyIn(left', right') == OnlyIn(left, right) && OnlyIn(right', left') == OnlyIn(right, left)
    ensures Common(left', right') == Common(left, right)
    ensures Differences(left', right') == Differences(left, right)
  {
    SameLookups(left, left');
    SameLookups(right, right');
    SameOnly(left, right, left', right');
    SameOnly(right, left, right', left');
    SameMismatches(left, right, left', right', Common(left, right));
  }

  /** Every check on one batch answers the same for its records in another order. */
  lemma SameChecks(a: seq<Bar>, b: seq<Bar>)
    requires multiset(a) == multiset(b)
    ensures a == [] <==> b == []
    ensures OneProvider(a) <==> OneProvider(b)
    ensures OneAdjustment(a) <==> OneAdjustment(b)
    ensures a != [] && OneProvider(a) ==> a[0].provider == b[0].provider
    ensures KeysDistinct(a) <==> KeysDistinct(b)
  {
    SameMultisetSameLength(a, b);
    SameMultisetSameElements(a, b);
    if a != [] {
      UniformOfPermutation(a, b);
      UniformOfPermutation(b, a);
    }
    if KeysDistinct(a) {
      KeysOfPermutation(a, b);
    }
    if KeysDistinct(b) {
      KeysOfPermutation(b, a);
    }
  }

  lemma UniformOfPermutation(a: seq<Bar>, b: seq<Bar>)
    requires a != [] && b != [] && forall x :: x in a <==> x in b
    ensures OneProvider(a) ==> OneProvider(b) && b[0].provider == a[0].provider
    ensures OneAdjustment(a) ==> OneAdjustment(b)
  {
    forall i | 0 <= i < |b| ensures exists j :: 0 <= j < |a| && a[j] == b[i] {
      assert b[i] in b;
    }
  }

  lemma SameOnly(l: seq<Bar>, r: seq<Bar>, l': seq<Bar>, r': seq<Bar>)
    requires KeysDistinct(l) && KeysDistinct(l')
    requires forall k :: k in Keys(l) <==> k in Keys(l')
    requires forall k :: k in Keys(r) <==> k in Keys(r')
    ensures OnlyIn(l, r) == OnlyIn(l', r') && Common(l, r) == Common(l', r')
  {
    FilterKeepsDistinct(Keys(l), Absent(r));
    FilterKeepsDistinct(Keys(l'), Absent(r'));
    SameKeysSortAlike(Filter(Keys(l), Absent(r)), Filter(Keys(l'), Absent(r')));
    FilterKeepsDistinct(Keys(l), Shared(r));
    FilterKeepsDistinct(Keys(l'), Shared(r'));
    SameKeysSortAlike(Filter(Keys(l), Shared(r)), Filter(Keys(l'), Shared(r')));
  }

  // ---------- the checks and the names, said of the batches ----------

  ghost predicate TwoProviders(bars: seq<Bar>) { exists a, b :: a in bars && b in bars && a.provider != b.provider }

  ghost predicate TwoAdjustments(bars: seq<Bar>) {
    exists a, b :: a in bars && b in bars && a.key.adjustment != b.key.adjustment
  }

  ghost predicate KeyTwice(bars: seq<Bar>) { exists i, j :: 0 <= i < j < |bars| && bars[i].key == bars[j].key }

  ghost predicate ShareProvider(left: seq<Bar>, right: seq<Bar>) {
    exists a, b :: a in left && b in right && a.provider == b.provider
  }

  function Of(side: Side, left: seq<Bar>, right: seq<Bar>): seq<Bar> { if side.Left? then left else right }

  /** What an error says of the batches. */
  ghost predicate Says(e: CompareError, left: seq<Bar>, right: seq<Bar>) {
    match e
    case EmptyBatch(side) => Of(side, left, right) == []
    case MixedProviders(side) => TwoProviders(Of(side, left, right))
    case SameProvider => ShareProvider(left, right)
    case MixedAdjustments(side) => TwoAdjustments(Of(side, left, right))
    case DuplicateKey(side) => KeyTwice(Of(side, left, right))
  }

  /** The order in which the errors are looked for: the left side first. */
  function Place(e: CompareError): nat {
    match e
    case EmptyBatch(side) => if side.Left? then 0 else 1
    case MixedProviders(side) => if side.Left? then 2 else 3
    case SameProvider => 4
    case MixedAdjustments(side) => if side.Left? then 5 else 6
    case DuplicateKey(side) => if side.Left? then 7 else 8
  }

  lemma UniformMeansOne(bars: seq<Bar>)
    ensures OneProvider(bars) <==> !TwoProviders(bars)
    ensures OneAdjustment(bars) <==> !TwoAdjustments(bars)
    ensures KeysDistinct(bars) <==> !KeyTwice(bars)
  {
    if bars != [] {
      assert bars[0] in bars;
      assert forall i :: 0 <= i < |bars| ==> bars[i] in bars;
    }
  }

  lemma SharedProvider(left: seq<Bar>, right: seq<Bar>)
    requires left != [] && right != [] && OneProvider(left) && OneProvider(right)
    ensures ShareProvider(left, right) <==> left[0].provider == right[0].provider
  {
    assert left[0] in left && right[0] in right;
  }

  lemma FoundIsSaid(left: seq<Bar>, right: seq<Bar>)
    ensures Validate(left, right).Some? ==> Says(Validate(left, right).value, left, right)
  {
    UniformMeansOne(left);
    UniformMeansOne(right);
    if left != [] && right != [] && OneProvider(left) && OneProvider(right) {
      SharedProvider(left, right);
    }
  }

  lemma EarlierIsAbsent(left: seq<Bar>, right: seq<Bar>, e: CompareError)
    requires Validate(left, right).None? || Place(e) < Place(Validate(left, right).value)
    ensures !Says(e, left, right)
  {
    match e
    case EmptyBatch(side) =>
    case MixedProviders(side) => UniformMeansOne(Of(side, left, right));
    case SameProvider => SharedProvider(left, right);
    case MixedAdjustments(side) => UniformMeansOne(Of(side, left, right));
    case DuplicateKey(side) => UniformMeansOne(Of(side, left, right));
  }

  /** An error is raised exactly when it is the first that the batches show; the comparison
      succeeds exactly when they show none. */
  lemma FirstFaultIsRaised(left: seq<Bar>, right: seq<Bar>, e: CompareError)
    ensures Compare(left, right) == Raised(e) <==>
            Says(e, left, right) && forall d :: Place(d) < Place(e) ==> !Says(d, left, right)
    ensures Compare(left, right).Done? <==> forall d :: !Says(d, left, right)
  {
    FoundIsSaid(left, right);
    var found := Validate(left, right);
    forall d | found.None? || Place(d) < Place(found.value) ensures !Says(d, left, right) {
      EarlierIsAbsent(left, right, d);
    }
    assert found.Some? && Place(found.value) == Place(e) ==> found.value == e;
  }

  /** The report names each side's provider. */
  lemma ReportNamesProviders(left: seq<Bar>, right: seq<Bar>)
    requires Compare(left, right).Done?
    ensures left != [] && right != []
    ensures forall b :: b in left ==> b.provider == Compare(left, right).value.leftProvider
    ensures forall b :: b in right ==> b.provider == Compare(left, right).value.rightProvider
  {
    assert Validate(left, right).None?;
    assert Compare(left, right).value.leftProvider == left[0].provider;
    assert Compare(left, right).value.rightProvider == right[0].provider;
  }
}
