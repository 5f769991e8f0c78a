/** The symbols of the personal universe (personal_universe.py), which both daily-bars assets read. */
module PersonalUniverse {
  import opened Wrappers
  import opened Ordering
  import opened Sequences

  /** An entry of a YAML group: a text, or anything else. */
  datatype Entry = Text(symbol: string) | NotText

  datatype UniverseError = UnknownGroup | InvalidSymbol | NoSymbols

  /** `_SYMBOL_PATTERN`: six characters of the pattern's digit class. */
  predicate Matches(isDigit: char -> bool, e: Entry) {
    e.Text? && |e.symbol| == 6 && forall i :: 0 <= i < 6 ==> isDigit(e.symbol[i])
  }

  type Groups = map<string, seq<Entry>>

  function EntriesOf(groups: Groups): string -> seq<Entry> {
    (name: string) => if name in groups then groups[name] else []
  }

  /** Every entry of every enabled group, in order. */
  function Listed(groups: Groups, enabled: seq<string>): seq<Entry> {
    FlatMap(enabled, EntriesOf(groups))
  }

  function SymbolOf(): Entry -> seq<string> { (e: Entry) => if e.Text? then [e.symbol] else [] }

  predicate AnyInvalid(isDigit: char -> bool, entries: seq<Entry>) {
    exists i :: 0 <= i < |entries| && !Matches(isDigit, entries[i])
  }

  /** `load_personal_universe`, past the shape checks of the file. */
  function Symbols(isDigit: char -> bool, groups: Groups, enabled: seq<string>): Result<seq<string>, UniverseError> {
    if exists i :: 0 <= i < |enabled| && enabled[i] !in groups then Raised(UnknownGroup)
    else
      var entries := Listed(groups, enabled);
      if AnyInvalid(isDigit, entries) then Raised(InvalidSymbol)
      else if entries == [] then Raised(NoSymbols)
      else Done(Canonical(FlatMap(entries, SymbolOf())))
  }

  /** What the loop knows after the entries `done`. */
  ghost predicate Collected(isDigit: char -> bool, done: seq<Entry>, names: seq<string>, invalid: bool) {
    && (invalid <==> AnyInvalid(isDigit, done))
    && (!invalid ==> names == Dedup(FlatMap(done, SymbolOf())))
  }

  /** The inner loop: the entries of one group. */
  method CollectGroup(isDigit: char -> bool, entries: seq<Entry>, names: seq<string>, invalid: bool,
                      ghost done: seq<Entry>) returns (names': seq<string>, invalid': bool)
    requires Collected(isDigit, done, names, invalid)
    ensures Collected(isDigit, done + entries, names', invalid')
  {
    names', invalid' := names, invalid;
    assert done + entries[..0] == done;
    for j := 0 to |entries|
      invariant Collected(isDigit, done + entries[..j], names', invalid')
    {
      CollectOne(isDigit, done + entries[..j], names', invalid', entries[j]);
      assert done + entries[..j] + [entries[j]] == done + entries[..j + 1];
      if !Matches(isDigit, entries[j]) {
        invalid' := true;
      } else if entries[j].symbol !in names' {
        names' := names' + [entries[j].symbol];
      }
    }
    assert entries[..|entries|] == entries;
  }

  /** The nested loops of `_collect_symbols`: invalid entries are only reported at the end. */
  method CollectSymbols(isDigit: char -> bool, groups: Groups, enabled: seq<string>)
    returns (symbols: Result<seq<string>, UniverseError>)
    requires forall i :: 0 <= i < |enabled| ==> enabled[i] in groups
    ensures symbols == Symbols(isDigit, groups, enabled)
  {
    var names: seq<string> := [];
    var invalid := false;
    for i := 0 to |enabled|
      invariant Collected(isDigit, Listed(groups, enabled[..i]), names, invalid)
    {
      FlatMapSnoc(enabled, i, EntriesOf(groups));
      names, invalid := CollectGroup(isDigit, groups[enabled[i]], names, invalid, Listed(groups, enabled[..i]));
    }
    assert enabled[..|enabled|] == enabled;
    if invalid {
      return Raised(InvalidSymbol);
    }
    ListedMeansNamed(isDigit, Listed(groups, enabled), names);
    if names == [] {
      return Raised(NoSymbols);
    }
    symbols := Done(SortBy(names, StrLe));
  }

  lemma CollectOne(isDigit: char -> bool, done: seq<Entry>, names: seq<string>, invalid: bool, e: Entry)
    requires Collected(isDigit, done, names, invalid)
    ensures !Matches(isDigit, e) ==> Collected(isDigit, done + [e], names, true)
    ensures Matches(isDigit, e) ==>
      Collected(isDigit, done + [e], if e.symbol in names then names else names + [e.symbol], invalid)
  {
    var more := done + [e];
    assert more[|done|] == e && forall i :: 0 <= i < |done| ==> more[i] == done[i];
    assert AnyInvalid(isDigit, more) <==> AnyInvalid(isDigit, done) || !Matches(isDigit, e);
    if Matches(isDigit, e) {
      FlatMapSnoc(more, |done|, SymbolOf());
      assert more[..|done|] == done && more[..|done| + 1] == more;
      var texts := FlatMap(done, SymbolOf());
      assert (texts + [e.symbol])[..|texts|] == texts;
    }
  }

  lemma ListedMeansNamed(isDigit: char -> bool, done: seq<Entry>, names: seq<string>)
    requires Collected(isDigit, done, names, false)
    ensures names == [] <==> done == []
  {
    if done != [] {
      assert Matches(isDigit, done[0]);
      FlatMapMember(done, SymbolOf(), done[0].symbol);
      assert done[0] in done && done[0].symbol in SymbolOf()(done[0]);
      assert done[0].symbol in names;
    }
  }

  /** A universe is never empty, lists each symbol once and is sorted. */
  lemma UniverseIsSorted(isDigit: char -> bool, groups: Groups, enabled: seq<string>)
    requires Symbols(isDigit, groups, enabled).Done?
    ensures var symbols := Symbols(isDigit, groups, enabled).value;
            && symbols != [] && SortedBy(symbols, StrLe) && Distinct(symbols)
            && forall s :: s in symbols <==> exists name :: name in enabled && name in groups && Text(s) in groups[name]
  {
    var entries := Listed(groups, enabled);
    var texts := FlatMap(entries, SymbolOf());
    CanonicalIsStrict(texts);
    assert Matches(isDigit, entries[0]);
    assert entries[0].symbol in texts;
    forall s ensures s in texts <==> exists name :: name in enabled && name in groups && Text(s) in groups[name] {
      UniverseMembers(groups, enabled, s);
    }
  }

  lemma UniverseMembers(groups: Groups, enabled: seq<string>, s: string)
    ensures s in FlatMap(Listed(groups, enabled), SymbolOf())
            <==> exists name :: name in enabled && name in groups && Text(s) in groups[name]
  {
    FlatMapMember(Listed(groups, enabled), SymbolOf(), s);
    FlatMapMember(enabled, EntriesOf(groups), Text(s));
    if s in FlatMap(Listed(groups, enabled), SymbolOf()) {
      var e :| e in Listed(groups, enabled) && s in SymbolOf()(e);
      assert e == Text(s);
      var name :| name in enabled && Text(s) in EntriesOf(groups)(name);
      assert name in groups && Text(s) in groups[name];
    }
    if exists name :: name in enabled && name in groups && Text(s) in groups[name] {
      var name :| name in enabled && name in groups && Text(s) in groups[name];
      assert Text(s) in EntriesOf(groups)(name);
      assert s in SymbolOf()(Text(s));
    }
  }

  /** The entry is a text of six digit characters. */
  ghost predicate SixDigitText(isDigit: char -> bool, e: Entry) {
    e.Text? && |e.symbol| == 6 && forall c :: c in e.symbol ==> isDigit(c)
  }

  /** What an error says of the file. */
  ghost predicate Says(e: UniverseError, isDigit: char -> bool, groups: Groups, enabled: seq<string>) {
    match e
    case UnknownGroup => exists name :: name in enabled && name !in groups
    case InvalidSymbol =>
      exists name, e :: name in enabled && name in groups && e in groups[name] && !SixDigitText(isDigit, e)
    case NoSymbols => forall name :: name in enabled && name in groups ==> groups[name] == []
  }

  lemma MatchesSixDigits(isDigit: char -> bool, e: Entry)
    ensures Matches(isDigit, e) <==> SixDigitText(isDigit, e)
  {
    if e.Text? && |e.symbol| == 6 && Matches(isDigit, e) {
      forall c | c in e.symbol ensures isDigit(c) {
      }
    }
  }

  lemma ListedEntries(groups: Groups, enabled: seq<string>, e: Entry)
    ensures e in Listed(groups, enabled) <==> exists name :: name in enabled && name in groups && e in groups[name]
  {
    FlatMapMember(enabled, EntriesOf(groups), e);
    if e in Listed(groups, enabled) {
      var name :| name in enabled && e in EntriesOf(groups)(name);
      assert name in groups && e in groups[name];
    }
    if exists name :: name in enabled && name in groups && e in groups[name] {
      var name :| name in enabled && name in groups && e in groups[name];
      assert e in EntriesOf(groups)(name);
    }
  }

  lemma InvalidIsListed(isDigit: char -> bool, groups: Groups, enabled: seq<string>)
    ensures AnyInvalid(isDigit, Listed(groups, enabled)) <==> Says(InvalidSymbol, isDigit, groups, enabled)
  {
    var entries := Listed(groups, enabled);
    if AnyInvalid(isDigit, entries) {
      var i :| 0 <= i < |entries| && !Matches(isDigit, entries[i]);
      ListedEntries(groups, enabled, entries[i]);
      MatchesSixDigits(isDigit, entries[i]);
    }
    if Says(InvalidSymbol, isDigit, groups, enabled) {
      var name, e :| name in enabled && name in groups && e in groups[name] && !SixDigitText(isDigit, e);
      ListedEntries(groups, enabled, e);
      MatchesSixDigits(isDigit, e);
      var i :| 0 <= i < |entries| && entries[i] == e;
    }
  }

  lemma EmptyIsListed(isDigit: char -> bool, groups: Groups, enabled: seq<string>)
    ensures Listed(groups, enabled) == [] <==> Says(NoSymbols, isDigit, groups, enabled)
  {
    if Listed(groups, enabled) == [] {
      forall name | name in enabled && name in groups ensures groups[name] == [] {
        if groups[name] != [] {
          ListedEntries(groups, enabled, groups[name][0]);
        }
      }
    } else {
      var e := Listed(groups, enabled)[0];
      ListedEntries(groups, enabled, e);
    }
  }

  /** Exactly when the universe is refused with which error: an unknown group first, then an
      entry that is not six digits, then no symbol at all. */
  lemma UniverseErrors(isDigit: char -> bool, groups: Groups, enabled: seq<string>)
    ensures var r := Symbols(isDigit, groups, enabled);
            && (r == Raised(UnknownGroup) <==> Says(UnknownGroup, isDigit, groups, enabled))
            && (r == Raised(InvalidSymbol) <==>
                  !Says(UnknownGroup, isDigit, groups, enabled) && Says(InvalidSymbol, isDigit, groups, enabled))
            && (r == Raised(NoSymbols) <==>
                  !Says(UnknownGroup, isDigit, groups, enabled) && Says(NoSymbols, isDigit, groups, enabled))
  {
    InvalidIsListed(isDigit, groups, enabled);
    EmptyIsListed(isDigit, groups, enabled);
  }
}
