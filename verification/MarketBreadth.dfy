/**
 The two generations of the market-breadth input selector and their
 all-or-nothing publication. A bar history is the repository's view of one
 instrument: one row per trading date, ascending.
 */
module MarketBreadth {
  import opened Sequences
  import opened Wrappers

  /** A stored price: NULL, a NaN or infinite Decimal, or a number. */
  datatype Price = Missing | NotFinite | Finite(value: real)

  datatype Bar = Bar(tradeDate: int, close: Price, prevClose: Price, high: Price, low: Price, tradingStatus: string)

  const NORMAL := "normal"
  const SUSPENDED := "suspended"
  const UNKNOWN := "unknown"

  const LOOKBACK_DAYS := 60
  const V2_LOOKBACK_DAYS := 400
  const MIN_HISTORY: nat := 20
  const V2_MIN_HISTORY: nat := 250
  const MA60_PERIOD: nat := 60

  ghost predicate Ordered(history: seq<Bar>) {
    forall i, j :: 0 <= i < j < |history| ==> history[i].tradeDate < history[j].tradeDate
  }

  predicate Usable(p: Price) { p.Finite? && p.value > 0.0 }

  // ---------- windows ----------

  /** `list_latest_by_instrument_and_range` over the last `days` calendar days. */
  function Window(history: seq<Bar>, asOf: int, days: int): (w: seq<Bar>)
    ensures forall b :: b in w ==> b in history && asOf - days + 1 <= b.tradeDate <= asOf
  {
    if history == [] then []
    else
      var b := history[|history| - 1];
      Window(history[..|history| - 1], asOf, days)
      + (if asOf - days + 1 <= b.tradeDate <= asOf then [b] else [])
  }

  function NormalBars(bars: seq<Bar>): (r: seq<Bar>)
    ensures forall b :: b in r ==> b in bars && b.tradingStatus == NORMAL
  {
    if bars == [] then []
    else
      var b := bars[|bars| - 1];
      NormalBars(bars[..|bars| - 1]) + (if b.tradingStatus == NORMAL then [b] else [])
  }

  /** Python's `s[-n:]`. */
  function LastN<T>(s: seq<T>, n: nat): (r: seq<T>)
    ensures |r| <= n
  {
    if |s| <= n then s else s[|s| - n..]
  }

  ghost predicate IsSuffix<T>(s: seq<T>, t: seq<T>) {
    |s| <= |t| && t[|t| - |s|..] == s
  }

  // ---------- what a selector returns ----------

  datatype Input = Input(close: real, prevClose: real, ma20: real, observedDate: int, tradingStatus: string)

  datatype InputV2 = InputV2(base: Input, ma60: real, isNewHigh: bool, isNewLow: bool)

  function ResolveStatus(raw: string): string {
    if raw == NORMAL then NORMAL else if raw == SUSPENDED then SUSPENDED else UNKNOWN
  }

  function Sum(values: seq<real>): real {
    if values == [] then 0.0 else Sum(values[..|values| - 1]) + values[|values| - 1]
  }

  predicate AllCloses(bars: seq<Bar>) { forall b :: b in bars ==> Usable(b.close) }
  predicate AllHighs(bars: seq<Bar>) { forall b :: b in bars ==> Usable(b.high) }
  predicate AllLows(bars: seq<Bar>) { forall b :: b in bars ==> Usable(b.low) }

  function Closes(bars: seq<Bar>): (r: seq<real>)
    requires AllCloses(bars)
    ensures |r| == |bars| && forall i :: 0 <= i < |bars| ==> r[i] == bars[i].close.value
  {
    seq(|bars|, i requires 0 <= i < |bars| => assert bars[i] in bars; bars[i].close.value)
  }

  function Mean(bars: seq<Bar>): real
    requires bars != [] && AllCloses(bars)
  {
    Sum(Closes(bars)) / |bars| as real
  }

  /** The latest bar exists, lies on `asOf` and has both closes. */
  predicate Current(bars: seq<Bar>, asOf: int) {
    && bars != []
    && var latest := bars[|bars| - 1];
       latest.tradeDate == asOf && Usable(latest.close) && Usable(latest.prevClose)
  }

  /** v1: twenty usable closes behind a current bar. */
  function Select(bars: seq<Bar>, asOf: int): Option<Input> {
    var normal := NormalBars(bars);
    var recent := LastN(normal, MIN_HISTORY);
    if !Current(bars, asOf) || |normal| < MIN_HISTORY || !AllCloses(recent) then None
    else
      var latest := bars[|bars| - 1];
      Some(Input(latest.close.value, latest.prevClose.value, Mean(recent), asOf, ResolveStatus(latest.tradingStatus)))
  }

  /** v2: sixty usable closes and 250 usable highs and lows behind a current bar. */
  function SelectV2(bars: seq<Bar>, asOf: int): Option<InputV2> {
    var normal := NormalBars(bars);
    var recent := LastN(normal, V2_MIN_HISTORY);
    if || !Current(bars, asOf)
       || |normal| < V2_MIN_HISTORY
       || !AllCloses(LastN(recent, MIN_HISTORY)) || !AllCloses(LastN(recent, MA60_PERIOD))
       || !AllHighs(recent) || !AllLows(recent)
       || !Usable(bars[|bars| - 1].high) || !Usable(bars[|bars| - 1].low)
    then None
    else
      var latest := bars[|bars| - 1];
      Some(InputV2(
        Input(latest.close.value, latest.prevClose.value, Mean(LastN(recent, MIN_HISTORY)), asOf,
              ResolveStatus(latest.tradingStatus)),
        Mean(LastN(recent, MA60_PERIOD)),
        forall b :: b in recent ==> b.high.value <= latest.high.value,
        forall b :: b in recent ==> b.low.value >= latest.low.value))
  }

  // ---------- the selectors as the service writes them ----------

  /** Appends the closes in a loop that gives up on the first unusable one. */
  method CollectCloses(bars: seq<Bar>) returns (closes: Option<seq<real>>)
    ensures closes.Some? <==> AllCloses(bars)
    ensures closes.Some? ==> closes.value == Closes(bars)
  {
    var taken: seq<real> := [];
    for i := 0 to |bars|
      invariant |taken| == i
      invariant forall j :: 0 <= j < i ==> Usable(bars[j].close) && taken[j] == bars[j].close.value
    {
      var value := bars[i].close;
      if !Usable(value) {
        assert bars[i] in bars;
        return None;
      }
      taken := taken + [value.value];
    }
    closes := Some(taken);
  }

  lemma {:induction false} SumPositive(values: seq<real>)
    requires forall i :: 0 <= i < |values| ==> values[i] > 0.0
    ensures Sum(values) >= 0.0
    ensures values != [] ==> Sum(values) > 0.0
  {
    if values == [] {
    } else {
      SumPositive(values[..|values| - 1]);
    }
  }

  /** The average of the collected closes; a close that is not usable, or an average that is
      not positive, gives up. Usable closes always average to something positive. */
  method AverageClose(bars: seq<Bar>) returns (mean: Option<real>)
    requires bars != []
    ensures mean == if AllCloses(bars) then Some(Mean(bars)) else None
  {
    var closes := CollectCloses(bars);
    if closes.None? {
      return None;
    }
    var average := Sum(closes.value) / |closes.value| as real;
    SumPositive(closes.value);
    if average <= 0.0 {
      return None;
    }
    mean := Some(average);
  }

  method SelectBreadthInput(bars: seq<Bar>, asOf: int) returns (input: Option<Input>)
    ensures input == Select(bars, asOf)
  {
    if bars == [] {
      return None;
    }
    var latest := bars[|bars| - 1];
    if latest.tradeDate != asOf {
      return None;
    }
    var normal := NormalBars(bars);
    if |normal| < MIN_HISTORY {
      return None;
    }
    var ma20 := AverageClose(LastN(normal, MIN_HISTORY));
    if ma20.None? {
      return None;
    }
    if !Usable(latest.close) {
      return None;
    }
    if !Usable(latest.prevClose) {
      return None;
    }
    input := Some(Input(latest.close.value, latest.prevClose.value, ma20.value, asOf,
                        ResolveStatus(latest.tradingStatus)));
  }

  function Highs(bars: seq<Bar>): (r: seq<real>)
    requires AllHighs(bars)
    ensures |r| == |bars| && forall i :: 0 <= i < |bars| ==> r[i] == bars[i].high.value
  {
    seq(|bars|, i requires 0 <= i < |bars| => assert bars[i] in bars; bars[i].high.value)
  }

  function Lows(bars: seq<Bar>): (r: seq<real>)
    requires AllLows(bars)
    ensures |r| == |bars| && forall i :: 0 <= i < |bars| ==> r[i] == bars[i].low.value
  {
    seq(|bars|, i requires 0 <= i < |bars| => assert bars[i] in bars; bars[i].low.value)
  }

  function Max(values: seq<real>): (m: real)
    requires values != []
    ensures m in values && forall v :: v in values ==> v <= m
  {
    if |values| == 1 then values[0]
    else
      var rest := Max(values[1..]);
      assert values == [values[0]] + values[1..];
      if values[0] > rest then values[0] else rest
  }

  function Min(values: seq<real>): (m: real)
    requires values != []
    ensures m in values && forall v :: v in values ==> v >= m
  {
    if |values| == 1 then values[0]
    else
      var rest := Min(values[1..]);
      assert values == [values[0]] + values[1..];
      if values[0] < rest then values[0] else rest
  }

  method CollectHighs(bars: seq<Bar>) returns (highs: Option<seq<real>>)
    ensures highs.Some? <==> AllHighs(bars)
    ensures highs.Some? ==> highs.value == Highs(bars)
  {
    var taken: seq<real> := [];
    for i := 0 to |bars|
      invariant |taken| == i
      invariant forall j :: 0 <= j < i ==> Usable(bars[j].high) && taken[j] == bars[j].high.value
    {
      if !Usable(bars[i].high) {
        assert bars[i] in bars;
        return None;
      }
      taken := taken + [bars[i].high.value];
    }
    highs := Some(taken);
  }

  method CollectLows(bars: seq<Bar>) returns (lows: Option<seq<real>>)
    ensures lows.Some? <==> AllLows(bars)
    ensures lows.Some? ==> lows.value == Lows(bars)
  {
    var taken: seq<real> := [];
    for i := 0 to |bars|
      invariant |taken| == i
      invariant forall j :: 0 <= j < i ==> Usable(bars[j].low) && taken[j] == bars[j].low.value
    {
      if !Usable(bars[i].low) {
        assert bars[i] in bars;
        return None;
      }
      taken := taken + [bars[i].low.value];
    }
    lows := Some(taken);
  }

  /** Compares the latest high and low with the collected ones, unless one is unusable. */
  method CompareExtremes(bars: seq<Bar>, high: real, low: real) returns (flags: Option<(bool, bool)>)
    requires bars != []
    ensures flags.Some? <==> AllHighs(bars) && AllLows(bars)
    ensures flags.Some? ==>
      && (flags.value.0 <==> forall b :: b in bars ==> b.high.value <= high)
      && (flags.value.1 <==> forall b :: b in bars ==> b.low.value >= low)
  {
    var highs := CollectHighs(bars);
    if highs.None? {
      return None;
    }
    var lows := CollectLows(bars);
    if lows.None? {
      return None;
    }
    ExtremesByBar(bars, high, low);
    flags := Some((high >= Max(highs.value), low <= Min(lows.value)));
  }

  method SelectBreadthInputV2(bars: seq<Bar>, asOf: int) returns (input: Option<InputV2>)
    ensures input == SelectV2(bars, asOf)
  {
    if bars == [] {
      return None;
    }
    var latest := bars[|bars| - 1];
    if latest.tradeDate != asOf {
      return None;
    }
    var normal := NormalBars(bars);
    if |normal| < V2_MIN_HISTORY {
      return None;
    }
    var recent := LastN(normal, V2_MIN_HISTORY);
    var ma20 := AverageClose(LastN(recent, MIN_HISTORY));
    if ma20.None? {
      return None;
    }
    var ma60 := AverageClose(LastN(recent, MA60_PERIOD));
    if ma60.None? {
      return None;
    }
    if !Usable(latest.close) || !Usable(latest.prevClose) || !Usable(latest.high) || !Usable(latest.low) {
      return None;
    }
    var extremes := CompareExtremes(recent, latest.high.value, latest.low.value);
    if extremes.None? {
      return None;
    }
    input := Some(InputV2(
      Input(latest.close.value, latest.prevClose.value, ma20.value, asOf, ResolveStatus(latest.tradingStatus)),
      ma60.value, extremes.value.0, extremes.value.1));
  }

  lemma ExtremesByBar(bars: seq<Bar>, high: real, low: real)
    requires bars != [] && AllHighs(bars) && AllLows(bars)
    ensures high >= Max(Highs(bars)) <==> forall b :: b in bars ==> b.high.value <= high
    ensures low <= Min(Lows(bars)) <==> forall b :: b in bars ==> b.low.value >= low
  {
    var highs, lows := Highs(bars), Lows(bars);
    forall b | b in bars ensures b.high.value in highs && b.low.value in lows {
      var i :| 0 <= i < |bars| && bars[i] == b;
      assert highs[i] == b.high.value && lows[i] == b.low.value;
    }
    forall v | v in highs ensures exists b :: b in bars && b.high.value == v {
      var i :| 0 <= i < |highs| && highs[i] == v;
      assert bars[i] in bars;
    }
    forall v | v in lows ensures exists b :: b in bars && b.low.value == v {
      var i :| 0 <= i < |lows| && lows[i] == v;
      assert bars[i] in bars;
    }
  }

  // ---------- v1 and v2 agree ----------

  lemma {:induction false} WindowMembers(history: seq<Bar>, asOf: int, days: int, b: Bar)
    ensures b in Window(history, asOf, days) <==> b in history && asOf - days + 1 <= b.tradeDate <= asOf
  {
    if history == [] {
    } else {
      var init := history[..|history| - 1];
      WindowMembers(init, asOf, days, b);
      assert history == init + [history[|history| - 1]];
    }
  }

  lemma SuffixAppend<T>(s: seq<T>, t: seq<T>, x: T)
    requires IsSuffix(s, t)
    ensures IsSuffix(s + [x], t + [x])
  {
    assert (t + [x])[|t| - |s|..] == t[|t| - |s|..] + [x];
  }

  lemma EmptyIsSuffix<T>(t: seq<T>)
    ensures IsSuffix([], t)
  {
    assert t[|t|..] == [];
  }

  lemma WindowSnoc(init: seq<Bar>, b: Bar, asOf: int, days: int)
    ensures Window(init + [b], asOf, days)
            == Window(init, asOf, days) + (if asOf - days + 1 <= b.tradeDate <= asOf then [b] else [])
  {
    assert (init + [b])[..|init|] == init;
  }

  /** On an ordered history a shorter window is the tail of a longer one. */
  lemma {:induction false} ShorterWindowIsSuffix(history: seq<Bar>, asOf: int, short: int, long: int)
    requires Ordered(history) && short <= long
    ensures IsSuffix(Window(history, asOf, short), Window(history, asOf, long))
  {
    if history == [] {
    } else {
      var init, b := history[..|history| - 1], history[|history| - 1];
      ShorterWindowIsSuffix(init, asOf, short, long);
      assert history == init + [b];
      WindowSnoc(init, b, asOf, short);
      WindowSnoc(init, b, asOf, long);
      if b.tradeDate > asOf {
        assert Window(history, asOf, short) == Window(init, asOf, short);
        assert Window(history, asOf, long) == Window(init, asOf, long);
      } else if asOf - short + 1 <= b.tradeDate {
        SuffixAppend(Window(init, asOf, short), Window(init, asOf, long), b);
      } else {
        WindowOfOlderBars(history, asOf, short);
        EmptyIsSuffix(Window(history, asOf, long));
      }
    }
  }

  lemma {:induction false} WindowOfOlderBars(history: seq<Bar>, asOf: int, days: int)
    requires forall i :: 0 <= i < |history| ==> history[i].tradeDate < asOf - days + 1
    ensures Window(history, asOf, days) == []
  {
    if history == [] {
    } else {
      WindowOfOlderBars(history[..|history| - 1], asOf, days);
    }
  }

  lemma {:induction false} NormalBarsOfSuffix(s: seq<Bar>, t: seq<Bar>)
    requires IsSuffix(s, t)
    ensures IsSuffix(NormalBars(s), NormalBars(t))
  {
    if s == [] {
    } else {
      var s', t' := s[..|s| - 1], t[..|t| - 1];
      assert s[|s| - 1] == t[|t| - |s|..][|s| - 1] == t[|t| - 1];
      assert t'[|t'| - |s'|..] == s';
      NormalBarsOfSuffix(s', t');
      if t[|t| - 1].tradingStatus == NORMAL {
        SuffixAppend(NormalBars(s'), NormalBars(t'), t[|t| - 1]);
      }
    }
  }

  lemma LastNOfSuffix<T>(s: seq<T>, t: seq<T>, n: nat)
    requires IsSuffix(s, t) && |s| >= n
    ensures LastN(s, n) == LastN(t, n)
  {
    assert LastN(t, n) == t[|t| - n..];
    assert s[|s| - n..] == t[|t| - |s|..][|s| - n..];
  }

  lemma LastNTwice<T>(s: seq<T>, m: nat, n: nat)
    requires n <= m
    ensures LastN(LastN(s, m), n) == LastN(s, n)
  {
  }

  /** A current bar that the longer window ends with also ends the shorter one. */
  lemma LatestInBothWindows(history: seq<Bar>, asOf: int)
    requires Ordered(history)
    requires Current(Window(history, asOf, V2_LOOKBACK_DAYS), asOf)
    ensures var short, long := Window(history, asOf, LOOKBACK_DAYS), Window(history, asOf, V2_LOOKBACK_DAYS);
            short != [] && IsSuffix(short, long)
  {
    var long := Window(history, asOf, V2_LOOKBACK_DAYS);
    var latest := long[|long| - 1];
    assert latest in long;
    WindowMembers(history, asOf, LOOKBACK_DAYS, latest);
    ShorterWindowIsSuffix(history, asOf, LOOKBACK_DAYS, V2_LOOKBACK_DAYS);
  }

  /** A window that ends another ends with the same bar and, once it holds twenty normal
      bars, with the same twenty. */
  lemma SameTail(short: seq<Bar>, long: seq<Bar>)
    requires IsSuffix(short, long) && short != []
    ensures short[|short| - 1] == long[|long| - 1]
    ensures |NormalBars(short)| >= MIN_HISTORY ==>
      LastN(NormalBars(short), MIN_HISTORY) == LastN(LastN(NormalBars(long), V2_MIN_HISTORY), MIN_HISTORY)
  {
    assert short[|short| - 1] == long[|long| - |short|..][|short| - 1];
    NormalBarsOfSuffix(short, long);
    LastNTwice(NormalBars(long), V2_MIN_HISTORY, MIN_HISTORY);
    if |NormalBars(short)| >= MIN_HISTORY {
      LastNOfSuffix(NormalBars(short), NormalBars(long), MIN_HISTORY);
    }
  }

  /** The two selectors on two windows of which one ends the other. */
  lemma SelectorsAgree(short: seq<Bar>, long: seq<Bar>, asOf: int)
    requires IsSuffix(short, long) && short != [] && SelectV2(long, asOf).Some?
    ensures var v1 := Select(short, asOf);
            && (v1.Some? <==> |NormalBars(short)| >= MIN_HISTORY)
            && (v1.Some? ==> v1.value == SelectV2(long, asOf).value.base)
  {
    SameTail(short, long);
  }

  /** Whenever v2 accepts an instrument, v1 accepts it exactly when its own 60-day window
      holds twenty normal bars, and then both see the same close, previous close, ma20,
      date and status, although the two read different windows. */
  lemma V1AgreesWithV2(history: seq<Bar>, asOf: int)
    requires Ordered(history)
    ensures var v1 := Select(Window(history, asOf, LOOKBACK_DAYS), asOf);
            var v2 := SelectV2(Window(history, asOf, V2_LOOKBACK_DAYS), asOf);
            v2.Some? ==>
              && (v1.Some? <==> |NormalBars(Window(history, asOf, LOOKBACK_DAYS))| >= MIN_HISTORY)
              && (v1.Some? ==> v1.value == v2.value.base)
  {
    if SelectV2(Window(history, asOf, V2_LOOKBACK_DAYS), asOf).Some? {
      LatestInBothWindows(history, asOf);
      SelectorsAgree(Window(history, asOf, LOOKBACK_DAYS), Window(history, asOf, V2_LOOKBACK_DAYS), asOf);
    }
  }

  // ---------- what the v2 input depends on and means ----------

  lemma {:induction false} NormalBarsConcat(older: seq<Bar>, bars: seq<Bar>)
    ensures NormalBars(older + bars) == NormalBars(older) + NormalBars(bars)
  {
    if bars == [] {
      assert older + bars == older;
    } else {
      var init, last := bars[..|bars| - 1], bars[|bars| - 1];
      assert (older + bars)[..|older + bars| - 1] == older + init;
      NormalBarsConcat(older, init);
    }
  }

  lemma LastNOfConcat<T>(s: seq<T>, t: seq<T>, n: nat)
    requires |t| >= n
    ensures LastN(s + t, n) == LastN(t, n)
  {
    assert (s + t)[|s + t| - n..] == t[|t| - n..];
  }

  /** The selector reads the latest bar and the last 250 normal bars, nothing else. */
  lemma SelectReadsTail(bars: seq<Bar>, others: seq<Bar>, asOf: int)
    requires bars != [] && others != [] && bars[|bars| - 1] == others[|others| - 1]
    requires |NormalBars(bars)| >= V2_MIN_HISTORY && |NormalBars(others)| >= V2_MIN_HISTORY
    requires LastN(NormalBars(bars), V2_MIN_HISTORY) == LastN(NormalBars(others), V2_MIN_HISTORY)
    ensures SelectV2(bars, asOf) == SelectV2(others, asOf)
  {
  }

  /** Whatever older bars lie in the window before 250 normal ones, v2 selects the same input. */
  lemma OlderBarsDoNotMatter(older: seq<Bar>, bars: seq<Bar>, asOf: int)
    requires |NormalBars(bars)| >= V2_MIN_HISTORY
    ensures SelectV2(older + bars, asOf) == SelectV2(bars, asOf)
  {
    NormalBarsConcat(older, bars);
    LastNOfConcat(NormalBars(older), NormalBars(bars), V2_MIN_HISTORY);
    assert (older + bars)[|older + bars| - 1] == bars[|bars| - 1];
    SelectReadsTail(older + bars, bars, asOf);
  }

  lemma {:induction false} SumBounds(values: seq<real>, lo: real, hi: real)
    requires forall i :: 0 <= i < |values| ==> lo <= values[i] <= hi
    ensures lo * |values| as real <= Sum(values) <= hi * |values| as real
  {
    if values == [] {
    } else {
      SumBounds(values[..|values| - 1], lo, hi);
      var n := (|values| - 1) as real;
      assert lo * (n + 1.0) == lo * n + lo && hi * (n + 1.0) == hi * n + hi;
    }
  }

  /** An average lies between the least and the greatest value it averages. */
  lemma AverageIsBetweenExtremes(values: seq<real>)
    requires values != []
    ensures Min(values) <= Sum(values) / |values| as real <= Max(values)
  {
    var lo, hi := Min(values), Max(values);
    forall i | 0 <= i < |values| ensures lo <= values[i] <= hi {
      assert values[i] in values;
    }
    AverageBounds(values, lo, hi);
  }

  lemma AverageBounds(values: seq<real>, lo: real, hi: real)
    requires values != [] && forall i :: 0 <= i < |values| ==> lo <= values[i] <= hi
    ensures lo <= Sum(values) / |values| as real <= hi
  {
    SumBounds(values, lo, hi);
    QuotientBounds(Sum(values), lo, hi, |values| as real);
  }

  lemma QuotientBounds(sum: real, lo: real, hi: real, n: real)
    requires n > 0.0 && lo * n <= sum <= hi * n
    ensures lo <= sum / n <= hi
  {
    assert (lo * n) / n == lo && (hi * n) / n == hi;
    assert (sum - lo * n) / n >= 0.0 && (hi * n - sum) / n >= 0.0;
    assert sum / n - (lo * n) / n == (sum - lo * n) / n;
    assert (hi * n) / n - sum / n == (hi * n - sum) / n;
  }

  lemma {:induction false} LatestNormalIsKept(bars: seq<Bar>, n: nat)
    requires bars != [] && bars[|bars| - 1].tradingStatus == NORMAL && n > 0
    ensures bars[|bars| - 1] in LastN(NormalBars(bars), n)
  {
    var normal := NormalBars(bars);
    assert normal[|normal| - 1] == bars[|bars| - 1];
    var kept := LastN(normal, n);
    assert kept[|kept| - 1] == normal[|normal| - 1];
  }

  /** Both averages of every accepted input lie between the closes they average. */
  lemma V2Averages(bars: seq<Bar>, asOf: int)
    requires SelectV2(bars, asOf).Some?
    ensures var recent, input := LastN(NormalBars(bars), V2_MIN_HISTORY), SelectV2(bars, asOf).value;
            && Min(Closes(LastN(recent, MIN_HISTORY))) <= input.base.ma20 <= Max(Closes(LastN(recent, MIN_HISTORY)))
            && Min(Closes(LastN(recent, MA60_PERIOD))) <= input.ma60 <= Max(Closes(LastN(recent, MA60_PERIOD)))
  {
    var recent := LastN(NormalBars(bars), V2_MIN_HISTORY);
    AverageIsBetweenExtremes(Closes(LastN(recent, MIN_HISTORY)));
    AverageIsBetweenExtremes(Closes(LastN(recent, MA60_PERIOD)));
  }

  /** A new high is a high that reaches the window maximum, a new low a low that reaches the
      minimum. The bar of an instrument trading normally is itself in the window, so for it
      reaching means being equal; a suspended bar may lie beyond. */
  lemma V2Meaning(bars: seq<Bar>, asOf: int)
    requires SelectV2(bars, asOf).Some?
    ensures var recent := LastN(NormalBars(bars), V2_MIN_HISTORY);
            var latest, input := bars[|bars| - 1], SelectV2(bars, asOf).value;
            && |recent| == V2_MIN_HISTORY
            && (input.isNewHigh <==> latest.high.value >= Max(Highs(recent)))
            && (input.isNewLow <==> latest.low.value <= Min(Lows(recent)))
            && (latest.tradingStatus == NORMAL ==>
                  && (input.isNewHigh <==> latest.high.value == Max(Highs(recent)))
                  && (input.isNewLow <==> latest.low.value == Min(Lows(recent))))
  {
    var recent, latest := LastN(NormalBars(bars), V2_MIN_HISTORY), bars[|bars| - 1];
    ExtremesByBar(recent, latest.high.value, latest.low.value);
    if latest.tradingStatus == NORMAL {
      LatestNormalIsKept(bars, V2_MIN_HISTORY);
      ExtremesByBar(recent, Max(Highs(recent)), Min(Lows(recent)));
    }
  }

  // ---------- the inputs, said of the bars alone ----------

  function NormalTest(): Bar -> bool { (b: Bar) => b.tradingStatus == "normal" }

  function DatedTest(first: int, last: int): Bar -> bool { (b: Bar) => first <= b.tradeDate <= last }

  lemma {:induction false} NormalBarsAre(bars: seq<Bar>)
    ensures NormalBars(bars) == Filter(bars, NormalTest())
  {
    if bars == [] {
    } else {
      var init, last := bars[..|bars| - 1], bars[|bars| - 1];
      assert bars == init + [last];
      NormalBarsAre(init);
      FilterSnoc(init, last, NormalTest());
    }
  }

  lemma {:induction false} WindowIs(history: seq<Bar>, asOf: int, days: int)
    ensures Window(history, asOf, days) == Filter(history, DatedTest(asOf - days + 1, asOf))
  {
    if history == [] {
    } else {
      var init, last := history[..|history| - 1], history[|history| - 1];
      assert history == init + [last];
      WindowIs(init, asOf, days);
      FilterSnoc(init, last, DatedTest(asOf - days + 1, asOf));
    }
  }

  ghost predicate PositivePrice(p: Price) { p.Finite? && p.value > 0.0 }

  ghost predicate PositiveCloses(bars: seq<Bar>) {
    forall i :: 0 <= i < |bars| ==> PositivePrice(bars[i].close)
  }

  /** The closes added up, from the first bar on. */
  ghost function TotalClose(bars: seq<Bar>): real
    requires PositiveCloses(bars)
  {
    if bars == [] then 0.0 else bars[0].close.value + TotalClose(bars[1..])
  }

  lemma {:induction false} TotalCloseSnoc(bars: seq<Bar>, b: Bar)
    requires PositiveCloses(bars) && PositivePrice(b.close)
    ensures PositiveCloses(bars + [b]) && TotalClose(bars + [b]) == TotalClose(bars) + b.close.value
  {
    var all := bars + [b];
    if bars == [] {
      assert all[1..] == [];
    } else {
      assert all[1..] == bars[1..] + [b];
      TotalCloseSnoc(bars[1..], b);
    }
  }

  lemma {:induction false} SumIsTotal(bars: seq<Bar>)
    requires PositiveCloses(bars) && AllCloses(bars)
    ensures Sum(Closes(bars)) == TotalClose(bars)
  {
    if bars == [] {
    } else {
      var init, last := bars[..|bars| - 1], bars[|bars| - 1];
      assert bars == init + [last];
      assert Closes(bars)[..|bars| - 1] == Closes(init);
      SumIsTotal(init);
      TotalCloseSnoc(init, last);
    }
  }

  lemma PositiveIsUsable(bars: seq<Bar>)
    ensures PositiveCloses(bars) <==> AllCloses(bars)
  {
    if AllCloses(bars) {
      forall i | 0 <= i < |bars| ensures PositivePrice(bars[i].close) {
        assert bars[i] in bars;
      }
    }
  }

  lemma MeanIsTotal(bars: seq<Bar>)
    requires bars != [] && AllCloses(bars)
    ensures PositiveCloses(bars)
    ensures |bars| == 20 ==> Mean(bars) == TotalClose(bars) / 20.0
    ensures |bars| == 60 ==> Mean(bars) == TotalClose(bars) / 60.0
  {
    PositiveIsUsable(bars);
    SumIsTotal(bars);
  }

  /** The last `n` elements, which must be there. */
  function Tail<T>(s: seq<T>, n: nat): seq<T>
    requires n <= |s|
  {
    s[|s| - n..]
  }

  /** The latest bar lies on `asOf` and has a positive close and previous close. */
  ghost predicate LatestUsable(bars: seq<Bar>, asOf: int) {
    && bars != []
    && var latest := bars[|bars| - 1];
       latest.tradeDate == asOf && PositivePrice(latest.close) && PositivePrice(latest.prevClose)
  }

  /** The fields an input takes from the latest bar; only the two known statuses pass through. */
  ghost predicate FromLatest(input: Input, latest: Bar) {
    && PositivePrice(latest.close) && input.close == latest.close.value
    && PositivePrice(latest.prevClose) && input.prevClose == latest.prevClose.value
    && input.observedDate == latest.tradeDate
    && input.tradingStatus == (if latest.tradingStatus == "normal" || latest.tradingStatus == "suspended"
                               then latest.tradingStatus else "unknown")
  }

  /** The bars v1 averages. */
  lemma RecentTwenty(bars: seq<Bar>)
    requires |Filter(bars, NormalTest())| >= 20
    ensures LastN(NormalBars(bars), 20) == Tail(Filter(bars, NormalTest()), 20)
    ensures AllCloses(LastN(NormalBars(bars), 20)) <==> PositiveCloses(Tail(Filter(bars, NormalTest()), 20))
  {
    NormalBarsAre(bars);
    PositiveIsUsable(Tail(Filter(bars, NormalTest()), 20));
  }

  /** When v1 accepts an instrument. */
  lemma SelectAccepts(bars: seq<Bar>, asOf: int)
    ensures var normal := Filter(bars, NormalTest());
            Select(bars, asOf).Some? <==>
              LatestUsable(bars, asOf) && |normal| >= 20 && PositiveCloses(Tail(normal, 20))
  {
    NormalBarsAre(bars);
    if |Filter(bars, NormalTest())| >= 20 {
      RecentTwenty(bars);
    }
  }

  /** What every field of an accepted v1 input is. */
  lemma SelectFields(bars: seq<Bar>, asOf: int)
    requires Select(bars, asOf).Some?
    ensures var normal, input := Filter(bars, NormalTest()), Select(bars, asOf).value;
            && bars != [] && |normal| >= 20 && PositiveCloses(Tail(normal, 20))
            && FromLatest(input, bars[|bars| - 1])
            && input.ma20 == TotalClose(Tail(normal, 20)) / 20.0
  {
    SelectAccepts(bars, asOf);
    RecentTwenty(bars);
    LatestFields(bars, asOf);
    MeanOfTwenty(bars);
  }

  lemma LatestFields(bars: seq<Bar>, asOf: int)
    requires Select(bars, asOf).Some?
    ensures bars != [] && FromLatest(Select(bars, asOf).value, bars[|bars| - 1])
    ensures AllCloses(LastN(NormalBars(bars), 20)) && LastN(NormalBars(bars), 20) != []
    ensures Select(bars, asOf).value.ma20 == Mean(LastN(NormalBars(bars), 20))
  {
  }

  lemma MeanOfTwenty(bars: seq<Bar>)
    requires |Filter(bars, NormalTest())| >= 20 && AllCloses(LastN(NormalBars(bars), 20))
    ensures var recent := LastN(NormalBars(bars), 20);
            && recent != [] && PositiveCloses(Tail(Filter(bars, NormalTest()), 20))
            && Mean(recent) == TotalClose(Tail(Filter(bars, NormalTest()), 20)) / 20.0
  {
    RecentTwenty(bars);
    MeanIsTotal(Tail(Filter(bars, NormalTest()), 20));
  }

  ghost predicate PositiveExtremes(bars: seq<Bar>) {
    forall i :: 0 <= i < |bars| ==> PositivePrice(bars[i].high) && PositivePrice(bars[i].low)
  }

  lemma PositiveExtremesAre(bars: seq<Bar>)
    ensures PositiveExtremes(bars) <==> AllHighs(bars) && AllLows(bars)
  {
    if AllHighs(bars) && AllLows(bars) {
      forall i | 0 <= i < |bars| ensures PositivePrice(bars[i].high) && PositivePrice(bars[i].low) {
        assert bars[i] in bars;
      }
    }
  }

  /** The bars v2 averages and compares. */
  lemma RecentV2(bars: seq<Bar>)
    requires |Filter(bars, NormalTest())| >= 250
    ensures var normal, recent := Filter(bars, NormalTest()), LastN(NormalBars(bars), 250);
            && recent == Tail(normal, 250)
            && LastN(recent, 20) == Tail(normal, 20) && LastN(recent, 60) == Tail(normal, 60)
            && (AllCloses(LastN(recent, 60)) <==> PositiveCloses(Tail(normal, 60)))
            && (AllCloses(LastN(recent, 60)) ==> AllCloses(LastN(recent, 20)))
            && (AllHighs(recent) && AllLows(recent) <==> PositiveExtremes(Tail(normal, 250)))
  {
    var normal := Filter(bars, NormalTest());
    NormalBarsAre(bars);
    TailsOfRecent(normal);
    PositiveExtremesAre(Tail(normal, 250));
    PositiveIsUsable(Tail(normal, 60));
    if AllCloses(Tail(normal, 60)) {
      CloserTail(normal);
    }
  }

  /** When v2 accepts an instrument. */
  lemma SelectV2Accepts(bars: seq<Bar>, asOf: int)
    ensures var normal := Filter(bars, NormalTest());
            SelectV2(bars, asOf).Some? <==>
              && LatestUsable(bars, asOf)
              && PositivePrice(bars[|bars| - 1].high) && PositivePrice(bars[|bars| - 1].low)
              && |normal| >= 250 && PositiveCloses(Tail(normal, 60)) && PositiveExtremes(Tail(normal, 250))
  {
    NormalBarsAre(bars);
    if |Filter(bars, NormalTest())| >= 250 {
      RecentV2(bars);
    }
  }

  /** What the fields of an accepted v2 input are, the two flags aside. */
  lemma SelectV2Fields(bars: seq<Bar>, asOf: int)
    requires SelectV2(bars, asOf).Some?
    ensures var normal, input := Filter(bars, NormalTest()), SelectV2(bars, asOf).value;
            && bars != [] && |normal| >= 250 && PositiveCloses(Tail(normal, 60)) && PositiveCloses(Tail(normal, 20))
            && FromLatest(input.base, bars[|bars| - 1])
            && input.base.ma20 == TotalClose(Tail(normal, 20)) / 20.0
            && input.ma60 == TotalClose(Tail(normal, 60)) / 60.0
  {
    SelectV2Accepts(bars, asOf);
    RecentV2(bars);
    LatestFieldsV2(bars, asOf);
    MeansOfRecent(bars);
  }

  lemma LatestFieldsV2(bars: seq<Bar>, asOf: int)
    requires SelectV2(bars, asOf).Some?
    ensures var recent, input := LastN(NormalBars(bars), 250), SelectV2(bars, asOf).value;
            && bars != [] && FromLatest(input.base, bars[|bars| - 1])
            && LastN(recent, 20) != [] && AllCloses(LastN(recent, 20))
            && LastN(recent, 60) != [] && AllCloses(LastN(recent, 60))
            && input.base.ma20 == Mean(LastN(recent, 20)) && input.ma60 == Mean(LastN(recent, 60))
  {
  }

  lemma MeansOfRecent(bars: seq<Bar>)
    requires |Filter(bars, NormalTest())| >= 250 && AllCloses(LastN(LastN(NormalBars(bars), 250), 60))
    ensures var recent, normal := LastN(NormalBars(bars), 250), Filter(bars, NormalTest());
            && LastN(recent, 20) != [] && AllCloses(LastN(recent, 20)) && LastN(recent, 60) != []
            && PositiveCloses(Tail(normal, 20)) && Mean(LastN(recent, 20)) == TotalClose(Tail(normal, 20)) / 20.0
            && PositiveCloses(Tail(normal, 60)) && Mean(LastN(recent, 60)) == TotalClose(Tail(normal, 60)) / 60.0
  {
    RecentV2(bars);
    MeanIsTotal(Tail(Filter(bars, NormalTest()), 20));
    MeanIsTotal(Tail(Filter(bars, NormalTest()), 60));
  }

  lemma TailsOfRecent(normal: seq<Bar>)
    requires |normal| >= 250
    ensures LastN(normal, 250) == Tail(normal, 250)
    ensures LastN(LastN(normal, 250), 20) == Tail(normal, 20)
    ensures LastN(LastN(normal, 250), 60) == Tail(normal, 60)
  {
  }

  lemma CloserTail(normal: seq<Bar>)
    requires |normal| >= 60 && AllCloses(Tail(normal, 60))
    ensures AllCloses(Tail(normal, 20))
  {
    assert Tail(normal, 20) == Tail(normal, 60)[40..];
  }

  /** The two sequences agree but for one close, which the second has higher by `d`. */
  ghost predicate RaisedAt(bars: seq<Bar>, raised: seq<Bar>, i: nat, d: real) {
    && |raised| == |bars| && i < |bars| && PositiveCloses(bars) && PositiveCloses(raised)
    && raised[i].close.value == bars[i].close.value + d
    && forall j :: 0 <= j < |bars| && j != i ==> raised[j].close == bars[j].close
  }

  lemma {:induction false} SameTotal(bars: seq<Bar>, others: seq<Bar>)
    requires |others| == |bars| && PositiveCloses(bars) && PositiveCloses(others)
    requires forall j :: 0 <= j < |bars| ==> others[j].close == bars[j].close
    ensures TotalClose(others) == TotalClose(bars)
  {
    if bars == [] {
    } else {
      SameTotal(bars[1..], others[1..]);
    }
  }

  lemma {:induction false} TotalRaised(bars: seq<Bar>, raised: seq<Bar>, i: nat, d: real)
    requires RaisedAt(bars, raised, i, d)
    ensures TotalClose(raised) == TotalClose(bars) + d
  {
    if i == 0 {
      SameTotal(bars[1..], raised[1..]);
    } else {
      TotalRaised(bars[1..], raised[1..], i - 1, d);
    }
  }

  /** Every one of the averaged closes counts, and counts alike: raising any of v1's twenty by
      `d` raises its average by `d` / 20. */
  lemma RaisedClose(bars: seq<Bar>, raised: seq<Bar>, asOf: int, i: nat, d: real)
    requires Select(bars, asOf).Some? && Select(raised, asOf).Some?
    requires var normal, normal' := Filter(bars, NormalTest()), Filter(raised, NormalTest());
             |normal| >= 20 && |normal'| >= 20 && RaisedAt(Tail(normal, 20), Tail(normal', 20), i, d)
    ensures Select(raised, asOf).value.ma20 == Select(bars, asOf).value.ma20 + d / 20.0
  {
    SelectFields(bars, asOf);
    SelectFields(raised, asOf);
    TotalRaised(Tail(Filter(bars, NormalTest()), 20), Tail(Filter(raised, NormalTest()), 20), i, d);
  }

  /** Likewise for v2: any of the sixty closes counts one sixtieth in ma60, and the last twenty
      of them one twentieth in ma20. */
  lemma RaisedCloseV2(bars: seq<Bar>, raised: seq<Bar>, asOf: int, i: nat, d: real)
    requires SelectV2(bars, asOf).Some? && SelectV2(raised, asOf).Some?
    requires var normal, normal' := Filter(bars, NormalTest()), Filter(raised, NormalTest());
             |normal| >= 60 && |normal'| >= 60 && RaisedAt(Tail(normal, 60), Tail(normal', 60), i, d)
    ensures SelectV2(raised, asOf).value.ma60 == SelectV2(bars, asOf).value.ma60 + d / 60.0
    ensures SelectV2(raised, asOf).value.base.ma20
            == SelectV2(bars, asOf).value.base.ma20 + (if i >= 40 then d / 20.0 else 0.0)
  {
    SelectV2Fields(bars, asOf);
    SelectV2Fields(raised, asOf);
    var normal, normal' := Filter(bars, NormalTest()), Filter(raised, NormalTest());
    TotalRaised(Tail(normal, 60), Tail(normal', 60), i, d);
    RaisedTwenty(Tail(normal, 60), Tail(normal', 60), i, d);
    assert Tail(normal, 20) == Tail(normal, 60)[40..] && Tail(normal', 20) == Tail(normal', 60)[40..];
  }

  lemma RaisedTwenty(bars: seq<Bar>, raised: seq<Bar>, i: nat, d: real)
    requires |bars| == 60 && RaisedAt(bars, raised, i, d)
    ensures PositiveCloses(bars[40..]) && PositiveCloses(raised[40..])
    ensures TotalClose(raised[40..]) == TotalClose(bars[40..]) + (if i >= 40 then d else 0.0)
  {
    if i >= 40 {
      TotalRaised(bars[40..], raised[40..], i - 40, d);
    } else {
      SameTotal(bars[40..], raised[40..]);
    }
  }

  lemma {:induction false} EqualTotal(bars: seq<Bar>, c: real)
    requires PositiveCloses(bars) && forall i :: 0 <= i < |bars| ==> bars[i].close.value == c
    ensures TotalClose(bars) == c * |bars| as real
  {
    if bars == [] {
    } else {
      EqualTotal(bars[1..], c);
      assert c * |bars| as real == c * (|bars| - 1) as real + c;
    }
  }

  /** Twenty equal closes average to that close. */
  lemma EqualCloses(bars: seq<Bar>, asOf: int, c: real)
    requires Select(bars, asOf).Some?
    requires var normal := Filter(bars, NormalTest());
             |normal| >= 20 && forall i :: 0 <= i < 20 ==> Tail(normal, 20)[i].close == Finite(c)
    ensures Select(bars, asOf).value.ma20 == c
  {
    SelectFields(bars, asOf);
    EqualTotal(Tail(Filter(bars, NormalTest()), 20), c);
  }

  // ---------- publication ----------

  type Universe = map<int, seq<Bar>>

  function HistoryOf(u: Universe, id: int): seq<Bar> {
    if id in u then u[id] else []
  }

  function InputFor(u: Universe, id: int, asOf: int): Option<Input> {
    Select(Window(HistoryOf(u, id), asOf, LOOKBACK_DAYS), asOf)
  }

  function InputForV2(u: Universe, id: int, asOf: int): Option<InputV2> {
    SelectV2(Window(HistoryOf(u, id), asOf, V2_LOOKBACK_DAYS), asOf)
  }

  /** The calendar days each generation looks at: 60 and 400, the as-of date included. */
  lemma UniverseWindows(u: Universe, id: int, asOf: int)
    ensures InputFor(u, id, asOf)
            == Select(Filter(if id in u then u[id] else [], DatedTest(asOf - 59, asOf)), asOf)
    ensures InputForV2(u, id, asOf)
            == SelectV2(Filter(if id in u then u[id] else [], DatedTest(asOf - 399, asOf)), asOf)
  {
    WindowIs(HistoryOf(u, id), asOf, 60);
    WindowIs(HistoryOf(u, id), asOf, 400);
  }

  /** The inputs of a whole universe, in order, or nothing at all. */
  ghost predicate AllOrNothing<I>(ids: seq<int>, select: int -> Option<I>, inputs: seq<I>) {
    if forall i :: 0 <= i < |ids| ==> select(ids[i]).Some?
    then |inputs| == |ids| && forall i :: 0 <= i < |ids| ==> inputs[i] == select(ids[i]).value
    else inputs == []
  }

  /** `market_observation_snapshots`: `add` is idempotent on content. */
  class SnapshotTable<S(==)> {
    var rows: seq<S>

    constructor ()
      ensures rows == []
    {
      rows := [];
    }

    method Add(snapshot: S)
      modifies this
      ensures rows == if snapshot in old(rows) then old(rows) else old(rows) + [snapshot]
    {
      if snapshot !in rows {
        rows := rows + [snapshot];
      }
    }
  }

  datatype PublishResult<+S> = DateMismatch | Published(snapshot: S, instrumentCount: nat)

  /** The shared loop: append each available input, then drop them all if one is missing. */
  method Gather<I>(ids: seq<int>, select: int -> Option<I>) returns (inputs: seq<I>)
    ensures AllOrNothing(ids, select, inputs)
  {
    inputs := [];
    for i := 0 to |ids|
      invariant |inputs| <= i
      invariant |inputs| == i <==> forall j :: 0 <= j < i ==> select(ids[j]).Some?
      invariant |inputs| == i ==> forall j :: 0 <= j < i ==> inputs[j] == select(ids[j]).value
    {
      var input := select(ids[i]);
      if input.Some? {
        inputs := inputs + [input.value];
      }
    }
    if |ids| > 0 && |inputs| != |ids| {
      inputs := [];
    }
  }

  /** `calculate_and_publish_market_breadth`. */
  method Publish<S(==)>(table: SnapshotTable<S>, u: Universe, ids: seq<int>, snapshotDate: int, asOf: int,
                        build: seq<Input> -> S) returns (result: PublishResult<S>)
    modifies table
    ensures snapshotDate != asOf ==> result == DateMismatch && table.rows == old(table.rows)
    ensures snapshotDate == asOf ==>
      exists inputs :: && AllOrNothing(ids, id => InputFor(u, id, asOf), inputs)
                       && result == Published(build(inputs), |inputs|)
                       && table.rows == if build(inputs) in old(table.rows) then old(table.rows)
                                        else old(table.rows) + [build(inputs)]
  {
    if snapshotDate != asOf {
      return DateMismatch;
    }
    var inputs := Gather(ids, id => InputFor(u, id, asOf));
    var snapshot := build(inputs);
    table.Add(snapshot);
    result := Published(snapshot, |inputs|);
  }

  /** `calculate_and_publish_market_breadth_v2`. */
  method PublishV2<S(==)>(table: SnapshotTable<S>, u: Universe, ids: seq<int>, snapshotDate: int, asOf: int,
                          build: seq<InputV2> -> S) returns (result: PublishResult<S>)
    modifies table
    ensures snapshotDate != asOf ==> result == DateMismatch && table.rows == old(table.rows)
    ensures snapshotDate == asOf ==>
      exists inputs :: && AllOrNothing(ids, id => InputForV2(u, id, asOf), inputs)
                       && result == Published(build(inputs), |inputs|)
                       && table.rows == if build(inputs) in old(table.rows) then old(table.rows)
                                        else old(table.rows) + [build(inputs)]
  {
    if snapshotDate != asOf {
      return DateMismatch;
    }
    var inputs := Gather(ids, id => InputForV2(u, id, asOf));
    var snapshot := build(inputs);
    table.Add(snapshot);
    result := Published(snapshot, |inputs|);
  }

  lemma InputsAgree(u: Universe, id: int, asOf: int)
    requires id in u ==> Ordered(u[id])
    requires InputForV2(u, id, asOf).Some?
    ensures InputFor(u, id, asOf).Some? <==> |NormalBars(Window(HistoryOf(u, id), asOf, LOOKBACK_DAYS))| >= MIN_HISTORY
    ensures InputFor(u, id, asOf).Some? ==> InputFor(u, id, asOf).value == InputForV2(u, id, asOf).value.base
  {
    V1AgreesWithV2(HistoryOf(u, id), asOf);
  }

  /** A non-empty gathering is one input per instrument, each of them its own. */
  lemma GatheredAll<I>(ids: seq<int>, select: int -> Option<I>, inputs: seq<I>)
    requires AllOrNothing(ids, select, inputs) && inputs != []
    ensures |inputs| == |ids|
    ensures forall i :: 0 <= i < |ids| ==> select(ids[i]).Some? && inputs[i] == select(ids[i]).value
  {
  }

  /** When v2 publishes the whole universe, v1 publishes it too exactly when every 60-day
      window holds twenty normal bars, with the same inputs instrument by instrument;
      otherwise v1 publishes none of it. */
  lemma PublicationsAgree(u: Universe, ids: seq<int>, asOf: int, v1: seq<Input>, v2: seq<InputV2>)
    requires ids != [] && forall id :: id in u ==> Ordered(u[id])
    requires AllOrNothing(ids, id => InputFor(u, id, asOf), v1)
    requires AllOrNothing(ids, id => InputForV2(u, id, asOf), v2)
    requires v2 != []
    ensures |v2| == |ids|
    ensures |v1| == (if forall i :: 0 <= i < |ids| ==>
                          |NormalBars(Window(HistoryOf(u, ids[i]), asOf, LOOKBACK_DAYS))| >= MIN_HISTORY
                     then |ids| else 0)
    ensures v1 != [] ==> forall i :: 0 <= i < |ids| ==> v1[i] == v2[i].base
  {
    GatheredAll(ids, id => InputForV2(u, id, asOf), v2);
    forall i | 0 <= i < |ids|
      ensures InputFor(u, ids[i], asOf).Some?
              <==> |NormalBars(Window(HistoryOf(u, ids[i]), asOf, LOOKBACK_DAYS))| >= MIN_HISTORY
      ensures InputFor(u, ids[i], asOf).Some? ==> InputFor(u, ids[i], asOf).value == v2[i].base
    {
      InputsAgree(u, ids[i], asOf);
    }
  }
}
