/** Bounded logical keys of persisted daily-bars requests (request_keys.py). */
module RequestKeys {
  import opened Ordering
  import opened DecimalText

  const MAX_REQUEST_KEY_LENGTH := 128

  datatype CalendarDate = CalendarDate(year: nat, month: nat, day: nat)

  /** A `datetime.date`: years 1 to 9999, months and days within their ranges. */
  type Date = d: CalendarDate | 1 <= d.year <= 9999 && 1 <= d.month <= 12 && 1 <= d.day <= 31
    witness CalendarDate(1, 1, 1)

  function TwoDigits(n: nat): (s: string)
    requires n < 100
    ensures |s| == 2
  {
    [DigitChar(n / 10), DigitChar(n % 10)]
  }

  function IsoFormat(d: Date): (s: string)
    ensures |s| == 10
  {
    TwoDigits(d.year / 100) + TwoDigits(d.year % 100) + "-" + TwoDigits(d.month) + "-" + TwoDigits(d.day)
  }

  lemma TwoDigitsInjective(m: nat, n: nat)
    requires m < 100 && n < 100 && TwoDigits(m) == TwoDigits(n)
    ensures m == n
  {
    assert TwoDigits(m)[0] == TwoDigits(n)[0] && TwoDigits(m)[1] == TwoDigits(n)[1];
  }

  lemma IsoFormatInjective(a: Date, b: Date)
    requires IsoFormat(a) == IsoFormat(b)
    ensures a == b
  {
    var s, t := IsoFormat(a), IsoFormat(b);
    assert s[0..2] == TwoDigits(a.year / 100) && t[0..2] == TwoDigits(b.year / 100);
    assert s[2..4] == TwoDigits(a.year % 100) && t[2..4] == TwoDigits(b.year % 100);
    assert s[5..7] == TwoDigits(a.month) && t[5..7] == TwoDigits(b.month);
    assert s[8..10] == TwoDigits(a.day) && t[8..10] == TwoDigits(b.day);
    TwoDigitsInjective(a.year / 100, b.year / 100);
    TwoDigitsInjective(a.year % 100, b.year % 100);
    TwoDigitsInjective(a.month, b.month);
    TwoDigitsInjective(a.day, b.day);
  }

  /** Python's `separator.join(parts)`. */
  function Join(separator: char, parts: seq<string>): string {
    if parts == [] then []
    else if |parts| == 1 then parts[0]
    else parts[0] + [separator] + Join(separator, parts[1..])
  }

  function Prefix(start: Date, end: Date): (s: string)
    ensures |s| == 33
  {
    "daily-bars-" + IsoFormat(start) + "-" + IsoFormat(end) + "-"
  }

  predicate IsReadable(start: Date, end: Date, symbols: seq<string>) {
    |Prefix(start, end) + Join('-', symbols)| <= MAX_REQUEST_KEY_LENGTH
  }

  /** `digest` is the first 32 hex characters of the SHA-256 of its argument. */
  function MakeKey(digest: string -> string, start: Date, end: Date, symbols: seq<string>): string {
    if IsReadable(start, end, symbols) then Prefix(start, end) + Join('-', symbols)
    else Prefix(start, end) + "symbols-" + digest(Join(',', symbols))
  }

  predicate SixDigits(s: string) { |s| == 6 && AllDigits(s) }

  predicate AllSixDigits(symbols: seq<string>) { forall i :: 0 <= i < |symbols| ==> SixDigits(symbols[i]) }

  /** Two different symbol lists with one digest: what SHA-256 is trusted to avoid. */
  predicate Collision(digest: string -> string, a: seq<string>, b: seq<string>) {
    Join(',', a) != Join(',', b) && digest(Join(',', a)) == digest(Join(',', b))
  }

  // ---------- length ----------

  /** Every key fits the 128-character column, whatever the symbols look like. */
  lemma KeyBounded(digest: string -> string, start: Date, end: Date, symbols: seq<string>)
    requires forall s :: |digest(s)| == 32
    ensures 0 < |MakeKey(digest, start, end, symbols)| <= MAX_REQUEST_KEY_LENGTH
  {
    var d := digest(Join(',', symbols));
    assert |Prefix(start, end) + "symbols-" + d| == 73;
  }

  lemma {:induction false} JoinLength(separator: char, symbols: seq<string>)
    requires AllSixDigits(symbols)
    ensures |Join(separator, symbols)| == if symbols == [] then 0 else 7 * |symbols| - 1
  {
    if |symbols| <= 1 {
    } else {
      JoinLength(separator, symbols[1..]);
    }
  }

  /** The readable form survives exactly up to thirteen six-digit symbols. */
  lemma ReadableUpToThirteen(start: Date, end: Date, symbols: seq<string>)
    requires AllSixDigits(symbols)
    ensures IsReadable(start, end, symbols) <==> |symbols| <= 13
  {
    JoinLength('-', symbols);
  }

  // ---------- injectivity ----------

  lemma {:induction false} JoinInjective(separator: char, a: seq<string>, b: seq<string>)
    requires AllSixDigits(a) && AllSixDigits(b)
    requires Join(separator, a) == Join(separator, b)
    ensures a == b
  {
    JoinLength(separator, a);
    JoinLength(separator, b);
    assert |a| == |b|;
    if a == [] {
    } else {
      var s, t := Join(separator, a), Join(separator, b);
      assert s[..6] == a[0] && t[..6] == b[0];
      if |a| > 1 {
        assert s[7..] == Join(separator, a[1..]) && t[7..] == Join(separator, b[1..]);
        JoinInjective(separator, a[1..], b[1..]);
      }
      assert a == [a[0]] + a[1..] && b == [b[0]] + b[1..];
    }
  }

  lemma PrefixInjective(s1: Date, e1: Date, s2: Date, e2: Date)
    requires Prefix(s1, e1) == Prefix(s2, e2)
    ensures s1 == s2 && e1 == e2
  {
    assert Prefix(s1, e1)[11..21] == IsoFormat(s1) && Prefix(s2, e2)[11..21] == IsoFormat(s2);
    assert Prefix(s1, e1)[22..32] == IsoFormat(e1) && Prefix(s2, e2)[22..32] == IsoFormat(e2);
    IsoFormatInjective(s1, s2);
    IsoFormatInjective(e1, e2);
  }

  lemma JoinStartsWithDigit(symbols: seq<string>)
    requires AllSixDigits(symbols) && symbols != []
    ensures Join('-', symbols) != [] && IsDigit(Join('-', symbols)[0])
  {
    assert SixDigits(symbols[0]);
    assert Join('-', symbols)[0] == symbols[0][0];
  }

  /** What follows the date prefix of a key. */
  function Tail(digest: string -> string, start: Date, end: Date, symbols: seq<string>): string {
    if IsReadable(start, end, symbols) then Join('-', symbols)
    else "symbols-" + digest(Join(',', symbols))
  }

  lemma KeyIsPrefixAndTail(digest: string -> string, start: Date, end: Date, symbols: seq<string>)
    ensures MakeKey(digest, start, end, symbols) == Prefix(start, end) + Tail(digest, start, end, symbols)
  {
    var p, d := Prefix(start, end), digest(Join(',', symbols));
    assert p + "symbols-" + d == p + ("symbols-" + d);
  }

  /** Equal keys come from the same dates and the same symbols in the same order. Only
      two digest-form keys can disagree on the symbols, and then the digest collides. */
  lemma KeyInjective(digest: string -> string, s1: Date, e1: Date, symbols1: seq<string>,
                     s2: Date, e2: Date, symbols2: seq<string>)
    requires AllSixDigits(symbols1) && AllSixDigits(symbols2)
    requires MakeKey(digest, s1, e1, symbols1) == MakeKey(digest, s2, e2, symbols2)
    ensures s1 == s2 && e1 == e2
    ensures symbols1 == symbols2 || (|symbols1| > 13 && |symbols2| > 13 && Collision(digest, symbols1, symbols2))
  {
    KeyIsPrefixAndTail(digest, s1, e1, symbols1);
    KeyIsPrefixAndTail(digest, s2, e2, symbols2);
    var k1, k2 := MakeKey(digest, s1, e1, symbols1), MakeKey(digest, s2, e2, symbols2);
    assert k1[..33] == Prefix(s1, e1) && k2[..33] == Prefix(s2, e2);
    PrefixInjective(s1, e1, s2, e2);
    var t1, t2 := Tail(digest, s1, e1, symbols1), Tail(digest, s2, e2, symbols2);
    assert k1[33..] == t1 && k2[33..] == t2;
    ReadableUpToThirteen(s1, e1, symbols1);
    ReadableUpToThirteen(s2, e2, symbols2);
    if |symbols1| <= 13 && |symbols2| <= 13 {
      JoinInjective('-', symbols1, symbols2);
    } else if |symbols1| <= 13 || |symbols2| <= 13 {
      var short := if |symbols1| <= 13 then symbols1 else symbols2;
      assert t1 == t2 == Join('-', short) && t1[0] == 's';
      if short != [] {
        JoinStartsWithDigit(short);
      }
      assert false;
    } else {
      assert t1[8..] == digest(Join(',', symbols1)) && t2[8..] == digest(Join(',', symbols2));
      if Join(',', symbols1) == Join(',', symbols2) {
        JoinInjective(',', symbols1, symbols2);
      }
    }
  }

  /** The baostock adapter keys its request by the sorted symbols, the consumer by the
      symbols it was given: in general they meet exactly when the list is already sorted. */
  lemma SortedKeyAgrees(digest: string -> string, start: Date, end: Date, symbols: seq<string>)
    requires AllSixDigits(symbols)
    requires !Collision(digest, SortBy(symbols, StrLe), symbols)
    ensures MakeKey(digest, start, end, SortBy(symbols, StrLe)) == MakeKey(digest, start, end, symbols)
            <==> SortedBy(symbols, StrLe)
  {
    var sorted := SortBy(symbols, StrLe);
    StrLeIsTotalOrder();
    SortIsSorted(symbols, StrLe);
    SameMultisetSameElements(symbols, sorted);
    assert AllSixDigits(sorted) by {
      forall i | 0 <= i < |sorted| ensures SixDigits(sorted[i]) {
        assert sorted[i] in symbols;
      }
    }
    if SortedBy(symbols, StrLe) {
      SortOfSorted(symbols, StrLe);
    }
    if MakeKey(digest, start, end, sorted) == MakeKey(digest, start, end, symbols) {
      KeyInjective(digest, start, end, sorted, start, end, symbols);
    }
  }

  /** A sorted list, such as the personal universe, is keyed alike by both: the baostock
      adapter's own sorting changes nothing. */
  lemma SortedSymbolsShareTheirKey(digest: string -> string, start: Date, end: Date, symbols: seq<string>)
    requires SortedBy(symbols, StrLe)
    ensures MakeKey(digest, start, end, SortBy(symbols, StrLe)) == MakeKey(digest, start, end, symbols)
  {
    SortOfSorted(symbols, StrLe);
  }

  /** Symbols with a dash in them do share keys: the six-digit condition matters. */
  lemma DashedSymbolsShareAKey(digest: string -> string, start: Date, end: Date)
    ensures MakeKey(digest, start, end, ["1-2"]) == MakeKey(digest, start, end, ["1", "2"])
  {
    assert Join('-', ["1", "2"]) == "1" + ['-'] + Join('-', ["2"]) == "1-2";
  }

  // ---------- what a key reads like ----------

  /** Symbols are joined in order, with the separator between any two. */
  lemma {:induction false} JoinSnoc(separator: char, symbols: seq<string>, last: string)
    ensures Join(separator, symbols + [last]) == if symbols == [] then last else Join(separator, symbols) + [separator] + last
  {
    if |symbols| <= 1 {
      assert symbols + [last] == if symbols == [] then [last] else [symbols[0], last];
      assert [last][1..] == [];
      if symbols != [] {
        assert [symbols[0], last][1..] == [last];
      }
    } else {
      JoinSnoc(separator, symbols[1..], last);
      assert (symbols + [last])[1..] == symbols[1..] + [last];
    }
  }

  lemma DateText()
    ensures IsoFormat(CalendarDate(2024, 1, 5)) == "2024-01-05"
    ensures IsoFormat(CalendarDate(987, 12, 31)) == "0987-12-31"
  {
  }

  /** The two forms of a key: symbols joined by dashes up to 95 characters, beyond that the
      digest of the symbols joined by commas. */
  lemma KeyForm(digest: string -> string, start: Date, end: Date, symbols: seq<string>)
    ensures MakeKey(digest, start, end, symbols)
            == "daily-bars-" + IsoFormat(start) + "-" + IsoFormat(end) + "-"
               + if |Join('-', symbols)| <= 95 then Join('-', symbols) else "symbols-" + digest(Join(',', symbols))
  {
    KeyIsPrefixAndTail(digest, start, end, symbols);
  }
}
