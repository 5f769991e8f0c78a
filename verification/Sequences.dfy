/** Comprehensions over lists: filtering, flattening and canonical sorted sets. */
module Sequences {
  import opened Ordering

  function Filter<T(!new)>(s: seq<T>, p: T -> bool): (r: seq<T>)
    ensures forall x :: x in r <==> x in s && p(x)
    ensures |r| <= |s|
  {
    if s == [] then []
    else
      assert s == [s[0]] + s[1..];
      (if p(s[0]) then [s[0]] else []) + Filter(s[1..], p)
  }

  /** Filtering keeps the order. */
  lemma {:induction false} FilterConcat<T(!new)>(s: seq<T>, t: seq<T>, p: T -> bool)
    ensures Filter(s + t, p) == Filter(s, p) + Filter(t, p)
  {
    if s == [] {
      assert s + t == t;
    } else {
      assert (s + t)[1..] == s[1..] + t;
      FilterConcat(s[1..], t, p);
    }
  }

  lemma FilterSnoc<T(!new)>(s: seq<T>, x: T, p: T -> bool)
    ensures Filter(s + [x], p) == Filter(s, p) + (if p(x) then [x] else [])
  {
    FilterConcat(s, [x], p);
    assert Filter([x], p) == (if p(x) then [x] else []) + Filter([], p);
  }

  lemma {:induction false} FilterMonotone<T(!new)>(s: seq<T>, p: T -> bool, q: T -> bool)
    requires forall x :: x in s && p(x) ==> q(x)
    ensures |Filter(s, p)| <= |Filter(s, q)|
  {
    if s == [] {
    } else {
      assert s == [s[0]] + s[1..];
      FilterMonotone(s[1..], p, q);
    }
  }

  /** Three predicates of which exactly one holds of every element count the whole list. */
  lemma {:induction false} FilterPartition<T(!new)>(s: seq<T>, p: T -> bool, q: T -> bool, r: T -> bool)
    requires forall x :: x in s ==> (p(x) && !q(x) && !r(x)) || (!p(x) && q(x) && !r(x)) || (!p(x) && !q(x) && r(x))
    ensures |Filter(s, p)| + |Filter(s, q)| + |Filter(s, r)| == |s|
  {
    if s == [] {
    } else {
      assert s == [s[0]] + s[1..];
      FilterPartition(s[1..], p, q, r);
    }
  }

  lemma {:induction false} FilterNone<T(!new)>(s: seq<T>, p: T -> bool)
    requires forall x :: x in s ==> !p(x)
    ensures Filter(s, p) == []
  {
    if s == [] {
    } else {
      assert s == [s[0]] + s[1..];
      FilterNone(s[1..], p);
    }
  }

  lemma {:induction false} FilterAll<T(!new)>(s: seq<T>, p: T -> bool)
    ensures |Filter(s, p)| == |s| <==> forall x :: x in s ==> p(x)
  {
    if s == [] {
    } else {
      assert s == [s[0]] + s[1..];
      FilterAll(s[1..], p);
    }
  }

  // ---------- sorting keeps the order of ties ----------

  /** The elements that `le` cannot tell apart from `a`. */
  function TiedWith<T>(le: (T, T) -> bool, a: T): T -> bool { x => le(x, a) && le(a, x) }

  lemma FilterCons<T(!new)>(x: T, s: seq<T>, p: T -> bool)
    ensures Filter([x] + s, p) == (if p(x) then [x] else []) + Filter(s, p)
  {
    assert ([x] + s)[1..] == s;
  }

  lemma FilterPast<T(!new)>(x: T, s: seq<T>, inserted: seq<T>, p: T -> bool)
    requires s != [] && Filter(inserted, p) == Filter([x] + s[1..], p) && !(p(x) && p(s[0]))
    ensures Filter([s[0]] + inserted, p) == Filter([x] + s, p)
  {
    FilterCons(s[0], inserted, p);
    FilterCons(x, s[1..], p);
    FilterCons(x, s, p);
  }

  lemma InsertPasses<T>(x: T, s: seq<T>, le: (T, T) -> bool)
    requires s != [] && !le(x, s[0])
    ensures Insert(x, s, le) == [s[0]] + Insert(x, s[1..], le)
  {
  }

  /** Insertion keeps the order of what passes, if nothing it passes over passes with `x`. */
  lemma {:induction false} InsertKeeps<T(!new)>(x: T, s: seq<T>, le: (T, T) -> bool, p: T -> bool)
    requires forall y :: !le(x, y) ==> !(p(x) && p(y))
    ensures Filter(Insert(x, s, le), p) == Filter([x] + s, p)
  {
    if s == [] {
      assert [x] + s == [x];
    } else if !le(x, s[0]) {
      InsertKeeps(x, s[1..], le, p);
      InsertPasses(x, s, le);
      FilterPast(x, s, Insert(x, s[1..], le), p);
    }
  }

  lemma InsertKeepsTies<T(!new)>(x: T, s: seq<T>, le: (T, T) -> bool, a: T)
    requires TotalPreorder(le)
    ensures Filter(Insert(x, s, le), TiedWith(le, a)) == Filter([x] + s, TiedWith(le, a))
  {
    forall y | !le(x, y) ensures !(TiedWith(le, a)(x) && TiedWith(le, a)(y)) {
      assert le(x, a) && le(a, y) ==> le(x, y);
    }
    InsertKeeps(x, s, le, TiedWith(le, a));
  }

  /** `sorted` is stable: elements it cannot tell apart stay in the order they came in. */
  lemma {:induction false} SortKeepsTies<T(!new)>(s: seq<T>, le: (T, T) -> bool, a: T)
    requires TotalPreorder(le)
    ensures Filter(SortBy(s, le), TiedWith(le, a)) == Filter(s, TiedWith(le, a))
  {
    if s == [] {
    } else {
      var tied, rest := TiedWith(le, a), SortBy(s[1..], le);
      SortKeepsTies(s[1..], le, a);
      InsertKeepsTies(s[0], rest, le, a);
      FilterConcat([s[0]], rest, tied);
      FilterConcat([s[0]], s[1..], tied);
      assert s == [s[0]] + s[1..];
    }
  }

  lemma SortedHead<T(!new)>(x: T, kept: seq<T>, le: (T, T) -> bool, y: T)
    requires SortedBy([x] + kept, le) && y in kept
    ensures le(x, y)
  {
    var k :| 0 <= k < |kept| && kept[k] == y;
    assert ([x] + kept)[0] == x && ([x] + kept)[k + 1] == y;
  }

  lemma SortedTail<T(!new)>(front: seq<T>, kept: seq<T>, le: (T, T) -> bool)
    requires SortedBy(front + kept, le)
    ensures SortedBy(kept, le)
  {
    forall a, b | 0 <= a < b < |kept| ensures le(kept[a], kept[b]) {
      assert (front + kept)[a + |front|] == kept[a] && (front + kept)[b + |front|] == kept[b];
    }
  }

  /** What is sorted after filtering was sorted before, among the elements kept. */
  lemma {:induction false} FilteredOrder<T(!new)>(s: seq<T>, le: (T, T) -> bool, p: T -> bool, i: nat, j: nat)
    requires SortedBy(Filter(s, p), le) && i < j < |s| && p(s[i]) && p(s[j])
    ensures le(s[i], s[j])
  {
    assert s == [s[0]] + s[1..];
    if i == 0 {
      assert s[1..][j - 1] == s[j];
      FilterCons(s[0], s[1..], p);
      SortedHead(s[0], Filter(s[1..], p), le, s[j]);
    } else {
      FilterCons(s[0], s[1..], p);
      SortedTail(if p(s[0]) then [s[0]] else [], Filter(s[1..], p), le);
      FilteredOrder(s[1..], le, p, i - 1, j - 1);
    }
  }

  lemma {:induction false} FlatMapSorted<A, B>(s: seq<A>, f: A -> seq<B>, le: (B, B) -> bool)
    requires forall x :: x in s ==> SortedBy(f(x), le)
    requires forall i, j, y, z :: 0 <= i < j < |s| && y in f(s[i]) && z in f(s[j]) ==> le(y, z)
    ensures SortedBy(FlatMap(s, f), le)
  {
    if s == [] {
    } else {
      var rest := s[1..];
      assert forall x :: x in rest ==> x in s;
      assert forall i :: 0 <= i < |rest| ==> rest[i] == s[i + 1];
      FlatMapSorted(rest, f, le);
      var all := FlatMap(s, f);
      forall a, b | 0 <= a < b < |all| ensures le(all[a], all[b]) {
        if a < |f(s[0])| <= b {
          FlatMapMember(rest, f, all[b]);
          var x :| x in rest && all[b] in f(x);
          var j :| 0 <= j < |rest| && rest[j] == x;
          assert s[0] == s[0] && all[a] in f(s[0]) && all[b] in f(s[j + 1]);
        }
      }
    }
  }

  lemma {:induction false} FilterKeepsAll<T(!new)>(s: seq<T>, p: T -> bool)
    requires forall x :: x in s ==> p(x)
    ensures Filter(s, p) == s
  {
    if s == [] {
    } else {
      assert s == [s[0]] + s[1..];
      FilterKeepsAll(s[1..], p);
    }
  }

  function FlatMap<A, B>(s: seq<A>, f: A -> seq<B>): seq<B> {
    if s == [] then [] else f(s[0]) + FlatMap(s[1..], f)
  }

  lemma {:induction false} FlatMapMember<A, B>(s: seq<A>, f: A -> seq<B>, y: B)
    ensures y in FlatMap(s, f) <==> exists x :: x in s && y in f(x)
  {
    if s == [] {
    } else {
      assert s == [s[0]] + s[1..];
      FlatMapMember(s[1..], f, y);
    }
  }

  lemma {:induction false} FlatMapConcat<A, B>(s: seq<A>, t: seq<A>, f: A -> seq<B>)
    ensures FlatMap(s + t, f) == FlatMap(s, f) + FlatMap(t, f)
  {
    if s == [] {
      assert s + t == t;
    } else {
      assert (s + t)[1..] == s[1..] + t;
      FlatMapConcat(s[1..], t, f);
    }
  }

  lemma FlatMapPull<A, B>(before: seq<A>, x: A, after: seq<A>, f: A -> seq<B>)
    ensures multiset(FlatMap(before + ([x] + after), f)) == multiset(f(x)) + multiset(FlatMap(before + after, f))
  {
    FlatMapConcat(before, after, f);
    FlatMapConcat(before, [x] + after, f);
    assert ([x] + after)[1..] == after;
  }

  lemma SplitAt<A>(t: seq<A>, x: A) returns (before: seq<A>, after: seq<A>)
    requires x in t
    ensures t == before + ([x] + after)
    ensures multiset(before + after) == multiset(t) - multiset{x}
  {
    var i :| 0 <= i < |t| && t[i] == x;
    before, after := t[..i], t[i + 1..];
    assert t == before + ([x] + after);
  }

  /** Permuting the outer list permutes the flattened one. */
  lemma {:induction false} FlatMapPermutation<A, B>(s: seq<A>, t: seq<A>, f: A -> seq<B>)
    requires multiset(s) == multiset(t)
    ensures multiset(FlatMap(s, f)) == multiset(FlatMap(t, f))
  {
    SameMultisetSameLength(s, t);
    if s == [] {
    } else {
      SameMultisetSameElements(s, t);
      assert s[0] in s;
      var before, after := SplitAt(t, s[0]);
      assert s == [s[0]] + s[1..];
      assert multiset(s[1..]) == multiset(s) - multiset{s[0]};
      FlatMapPermutation(s[1..], before + after, f);
      FlatMapPull(before, s[0], after, f);
    }
  }

  /** Flattening in two stages. */
  lemma {:induction false} FlatMapTwice<A, B, C>(s: seq<A>, f: A -> seq<B>, g: B -> seq<C>)
    ensures FlatMap(FlatMap(s, f), g) == FlatMap(s, (x: A) => FlatMap(f(x), g))
  {
    if s == [] {
    } else {
      FlatMapConcat(f(s[0]), FlatMap(s[1..], f), g);
      FlatMapTwice(s[1..], f, g);
    }
  }

  /** One more element at the end of a mapped prefix. */
  lemma FlatMapSnoc<A, B>(s: seq<A>, i: nat, f: A -> seq<B>)
    requires i < |s|
    ensures FlatMap(s[..i + 1], f) == FlatMap(s[..i], f) + f(s[i])
  {
    assert s[..i + 1] == s[..i] + [s[i]];
    FlatMapConcat(s[..i], [s[i]], f);
    assert FlatMap([s[i]], f) == f(s[i]) + FlatMap([], f);
  }

  /** `[name(x) for x in s]`. */
  function Names<T>(s: seq<T>, name: T -> string): (r: seq<string>)
    ensures |r| == |s| && forall i :: 0 <= i < |s| ==> r[i] == name(s[i])
  {
    seq(|s|, i requires 0 <= i < |s| => name(s[i]))
  }

  // ---------- distinct elements ----------

  predicate Distinct<T(==)>(s: seq<T>) {
    forall i, j :: 0 <= i < j < |s| ==> s[i] != s[j]
  }

  lemma DistinctCounts<T>(s: seq<T>, x: T)
    requires Distinct(s)
    ensures multiset(s)[x] == if x in s then 1 else 0
  {
    if x in s {
      var i :| 0 <= i < |s| && s[i] == x;
      var before, after := s[..i], s[i + 1..];
      assert x !in before && x !in after;
      assert s == before + [x] + after;
      assert multiset(s) == multiset(before) + multiset{x} + multiset(after);
    }
  }

  lemma TwiceInMultiset<T>(s: seq<T>, i: nat, j: nat)
    requires i < j < |s| && s[i] == s[j]
    ensures multiset(s)[s[i]] > 1
  {
    assert s == s[..j] + s[j..];
    assert s[..j][i] == s[i] && s[j..][0] == s[j];
    assert multiset(s) == multiset(s[..j]) + multiset(s[j..]);
    assert multiset(s[..j])[s[i]] > 0 && multiset(s[j..])[s[i]] > 0;
  }

  lemma {:induction false} FilterKeepsDistinct<T(!new)>(s: seq<T>, p: T -> bool)
    requires Distinct(s)
    ensures Distinct(Filter(s, p))
  {
    if s == [] {
    } else {
      FilterKeepsDistinct(s[1..], p);
      assert forall x :: x in Filter(s[1..], p) ==> x in s[1..];
    }
  }

  lemma {:induction false} FilterKeepsOrder<T(!new)>(s: seq<T>, le: (T, T) -> bool, p: T -> bool)
    requires SortedBy(s, le)
    ensures SortedBy(Filter(s, p), le)
  {
    if s == [] {
    } else {
      FilterKeepsOrder(s[1..], le, p);
      forall x | x in Filter(s[1..], p) ensures le(s[0], x) {
        assert x in s[1..];
      }
    }
  }

  /** Among distinct elements, those that pass are counted as a set. */
  lemma {:induction false} FilterCounts<T(!new)>(s: seq<T>, p: T -> bool, passing: set<T>)
    requires Distinct(s) && forall x :: x in passing <==> x in s && p(x)
    ensures |Filter(s, p)| == |passing|
  {
    if s == [] {
      assert passing == {};
    } else {
      assert s == [s[0]] + s[1..];
      FilterCounts(s[1..], p, passing - {s[0]});
    }
  }

  lemma DistinctConcat<T>(a: seq<T>, b: seq<T>)
    requires Distinct(a) && Distinct(b) && forall x :: x in a ==> x !in b
    ensures Distinct(a + b)
  {
    forall i, j | 0 <= i < j < |a + b| ensures (a + b)[i] != (a + b)[j] {
      if i < |a| <= j {
        assert a[i] in a && b[j - |a|] in b;
      }
    }
  }

  /** Disjoint lists without repetition join to a list without repetition. */
  lemma {:induction false} FlatMapDistinct<A, B>(s: seq<A>, f: A -> seq<B>)
    requires forall x :: x in s ==> Distinct(f(x))
    requires forall i, j, y :: 0 <= i < j < |s| && y in f(s[i]) ==> y !in f(s[j])
    ensures Distinct(FlatMap(s, f))
  {
    if s == [] {
    } else {
      var rest := s[1..];
      assert forall x :: x in rest ==> x in s;
      assert forall i :: 0 <= i < |rest| ==> rest[i] == s[i + 1];
      FlatMapDistinct(rest, f);
      forall y | y in f(s[0]) ensures y !in FlatMap(rest, f) {
        FlatMapMember(rest, f, y);
        assert forall x :: x in rest ==> y !in f(x);
      }
      DistinctConcat(f(s[0]), FlatMap(rest, f));
    }
  }

  lemma DistinctOfPermutation<T>(s: seq<T>, t: seq<T>)
    requires multiset(s) == multiset(t) && Distinct(s)
    ensures Distinct(t)
  {
    forall i, j | 0 <= i < j < |t| ensures t[i] != t[j] {
      if t[i] == t[j] {
        TwiceInMultiset(t, i, j);
        DistinctCounts(s, t[i]);
      }
    }
  }

  lemma SameElementsSameMultiset<T>(s: seq<T>, t: seq<T>)
    requires Distinct(s) && Distinct(t) && forall x :: x in s <==> x in t
    ensures multiset(s) == multiset(t)
  {
    forall x ensures multiset(s)[x] == multiset(t)[x] {
      DistinctCounts(s, x);
      DistinctCounts(t, x);
    }
  }

  // ---------- `tuple(sorted(set(...)))` ----------

  function Dedup(s: seq<string>): (r: seq<string>)
    ensures forall x :: x in r <==> x in s
    ensures Distinct(r)
  {
    if s == [] then []
    else
      var init, last := s[..|s| - 1], s[|s| - 1];
      assert s == init + [last];
      if last in init then Dedup(init) else Dedup(init) + [last]
  }

  /** `_fields_tuple`: drop repetitions, then sort. */
  function Canonical(s: seq<string>): (r: seq<string>)
    ensures forall x :: x in r <==> x in s
  {
    var r := SortBy(Dedup(s), StrLe);
    SameMultisetSameElements(r, Dedup(s));
    r
  }

  /** The tuple depends only on the set of names, not on their order or repetition. */
  lemma CanonicalOfSameElements(s: seq<string>, t: seq<string>)
    requires forall x :: x in s <==> x in t
    ensures Canonical(s) == Canonical(t)
  {
    SameElementsSameMultiset(Dedup(s), Dedup(t));
    StrLeIsTotalOrder();
    SortOrderIndependent(Dedup(s), Dedup(t), StrLe);
  }

  /** Sorted, and without repetition. */
  lemma CanonicalIsStrict(s: seq<string>)
    ensures SortedBy(Canonical(s), StrLe) && Distinct(Canonical(s))
  {
    StrLeIsTotalOrder();
    SortIsSorted(Dedup(s), StrLe);
    DistinctOfPermutation(Dedup(s), Canonical(s));
  }
}
