/**
 `core.daily_bars`: rebuilding bars from a sidecar, and the revision rule of
 `upsert_many`. A row's `row_hash` is modelled by its business content, so two
 hashes agree exactly when the contents do.
 */
module DailyBarStore {
  import opened Wrappers
  import opened Evidence
  import opened Sequences
  import opened Sidecar
  import opened DecimalText

  datatype BarId = BarId(instrument: int, tradeDate: int)

  /** The business content a row hash covers; Decimals count as the numbers they denote. */
  datatype Content = Content(open: Option<real>, high: Option<real>, low: Option<real>, close: Option<real>,
                             prevClose: Option<real>, volume: Option<real>, amount: Option<real>,
                             tradingStatus: string)

  /** A stored row; its revision is its position in the history, counted from one. */
  datatype BarRow = BarRow(content: Content, sourceProvider: string, sourceBatch: nat, observedAt: int)

  datatype NewBar = NewBar(id: BarId, row: BarRow)

  type Bars = map<BarId, seq<BarRow>>

  // ---------- DailyBar.build ----------

  predicate Positive(x: Option<real>) { x.Some? && x.value > 0.0 }
  predicate PositiveOrNone(x: Option<real>) { x.Some? ==> x.value > 0.0 }
  predicate NonNegativeOrNone(x: Option<real>) { x.Some? ==> x.value >= 0.0 }

  /** What `DailyBar.__post_init__` accepts. */
  predicate Valid(c: Content) {
    if c.tradingStatus == "normal" then
      && Positive(c.open) && Positive(c.high) && Positive(c.low) && Positive(c.close)
      && PositiveOrNone(c.prevClose)
      && c.high.value >= c.open.value && c.high.value >= c.close.value && c.high.value >= c.low.value
      && c.low.value <= c.open.value && c.low.value <= c.close.value
      && NonNegativeOrNone(c.volume) && NonNegativeOrNone(c.amount)
    else
      && c.tradingStatus == "suspended"
      && c.open.None? && c.high.None? && c.low.None? && c.close.None?
      && c.prevClose.None? && c.volume.None? && c.amount.None?
  }

  function NumberOption(d: Option<Decimal>): Option<real> {
    if d.None? then None else Some(Value(d.value))
  }

  function ContentOf(v: BarValues, tradingStatus: string): Content {
    Content(NumberOption(v.open), NumberOption(v.high), NumberOption(v.low), NumberOption(v.close),
            NumberOption(v.prevClose), NumberOption(v.volume), NumberOption(v.amount), tradingStatus)
  }

  // ---------- sidecar to bars ----------

  type Instruments = map<(string, string), int>

  /** `_exchange_for_symbol`; None is its ValueError. */
  function ExchangeFor(symbol: string): Option<string> {
    if symbol == "" then None
    else if symbol[0] == '5' || symbol[0] == '6' then Some("SSE")
    else if symbol[0] == '1' || symbol[0] == '2' then Some("SZSE")
    else None
  }

  /** One sidecar entry: an error, nothing for an unknown instrument, or a bar. */
  datatype Rebuilt = Fails | Dropped | Bar(bar: NewBar)

  function RebuildValues(instruments: Instruments, symbol: string, tradeDate: int, values: Option<BarValues>,
                         tradingStatus: string, provider: string, batch: nat, observedAt: int): Rebuilt {
    match ExchangeFor(symbol)
    case None => Fails
    case Some(exchange) =>
      if (exchange, symbol) !in instruments then Dropped
      else if values.None? || !Valid(ContentOf(values.value, tradingStatus)) then Fails
      else Bar(NewBar(BarId(instruments[(exchange, symbol)], tradeDate),
                      BarRow(ContentOf(values.value, tradingStatus), provider, batch, observedAt)))
  }

  function Rebuild(instruments: Instruments, e: SidecarEntry): Rebuilt {
    match e
    case BarEntry(symbol, date, texts, status, provider, batch, observedAt) =>
      RebuildValues(instruments, symbol, date, ParseValues(texts), status, provider, batch, observedAt)
    case _ => Fails
  }

  /** One more entry of `_build_new_bars`. */
  function WithOne(news: Option<seq<NewBar>>, one: Rebuilt): Option<seq<NewBar>> {
    if news.None? || one.Fails? then None
    else if one.Dropped? then news
    else Some(news.value + [one.bar])
  }

  /** `_build_new_bars`; None is a ValueError of one of its entries. */
  function BuildNewBars(instruments: Instruments, sidecar: seq<SidecarEntry>): Option<seq<NewBar>> {
    if sidecar == [] then Some([])
    else
      WithOne(BuildNewBars(instruments, sidecar[..|sidecar| - 1]), Rebuild(instruments, sidecar[|sidecar| - 1]))
  }

  lemma BuildSnoc(instruments: Instruments, init: seq<SidecarEntry>, e: SidecarEntry)
    ensures BuildNewBars(instruments, init + [e]) == WithOne(BuildNewBars(instruments, init), Rebuild(instruments, e))
  {
    assert (init + [e])[..|init|] == init;
  }

  /** The loop of `_build_new_bars`. */
  method CollectNewBars(instruments: Instruments, sidecar: seq<SidecarEntry>) returns (bars: Option<seq<NewBar>>)
    ensures bars == BuildNewBars(instruments, sidecar)
  {
    var built: seq<NewBar> := [];
    for i := 0 to |sidecar|
      invariant BuildNewBars(instruments, sidecar[..i]) == Some(built)
    {
      assert sidecar[..i + 1][..i] == sidecar[..i];
      var one := Rebuild(instruments, sidecar[i]);
      assert BuildNewBars(instruments, sidecar[..i + 1]) == WithOne(Some(built), one);
      if one.Fails? {
        FailureSpreads(instruments, sidecar, i + 1);
        return None;
      }
      if one.Bar? {
        built := built + [one.bar];
      }
    }
    assert sidecar[..|sidecar|] == sidecar;
    bars := Some(built);
  }

  lemma {:induction false} FailureSpreads(instruments: Instruments, sidecar: seq<SidecarEntry>, n: nat)
    requires n <= |sidecar| && BuildNewBars(instruments, sidecar[..n]).None?
    ensures BuildNewBars(instruments, sidecar).None?
  {
    if n == |sidecar| {
      assert sidecar[..n] == sidecar;
    } else {
      var init := sidecar[..|sidecar| - 1];
      assert init[..n] == sidecar[..n];
      FailureSpreads(instruments, init, n);
    }
  }

  // ---------- what is rebuilt, said of the fetched bars alone ----------

  predicate StartsWith56(symbol: string) { symbol != "" && (symbol[0] == '5' || symbol[0] == '6') }
  predicate StartsWith12(symbol: string) { symbol != "" && (symbol[0] == '1' || symbol[0] == '2') }

  /** The instrument table knows the bar's symbol on the exchange its first digit stands for. */
  predicate Known(instruments: Instruments, b: FetchedBar) {
    && b.symbol.Some?
    && ( || (StartsWith56(b.symbol.value) && ("SSE", b.symbol.value) in instruments)
         || (StartsWith12(b.symbol.value) && ("SZSE", b.symbol.value) in instruments))
  }

  /** The row a known bar belongs to. */
  function IdOf(instruments: Instruments, b: FetchedBar): BarId
    requires Known(instruments, b)
  {
    BarId(instruments[(if StartsWith56(b.symbol.value) then "SSE" else "SZSE", b.symbol.value)], b.tradeDate)
  }

  /** The fetched numbers make a bar: prices positive and low <= open, close <= high when the
      instrument traded, no number at all when it was suspended. */
  predicate Sound(b: FetchedBar) {
    var v := b.values;
    if b.tradingStatus == "normal" then
      && v.open.Some? && v.high.Some? && v.low.Some? && v.close.Some?
      && (var open, high, low, close := Value(v.open.value), Value(v.high.value), Value(v.low.value), Value(v.close.value);
          0.0 < low && low <= open <= high && low <= close <= high)
      && (v.prevClose.Some? ==> Value(v.prevClose.value) > 0.0)
      && (v.volume.Some? ==> Value(v.volume.value) >= 0.0)
      && (v.amount.Some? ==> Value(v.amount.value) >= 0.0)
    else
      && b.tradingStatus == "suspended"
      && v.open.None? && v.high.None? && v.low.None? && v.close.None?
      && v.prevClose.None? && v.volume.None? && v.amount.None?
  }

  /** The bar makes the whole list fail: its symbol belongs to no exchange, or its instrument
      is known and its numbers make no bar. A bar of an unknown instrument never does. */
  predicate Refused(instruments: Instruments, b: FetchedBar) {
    && b.symbol.Some?
    && ((!StartsWith56(b.symbol.value) && !StartsWith12(b.symbol.value)) || (Known(instruments, b) && !Sound(b)))
  }

  predicate IsNumber(stored: Option<real>, fetched: Option<Decimal>) {
    if fetched.None? then stored.None? else stored == Some(Value(fetched.value))
  }

  /** Each stored number is the fetched one of its own name. */
  predicate HasNumbers(c: Content, b: FetchedBar) {
    && IsNumber(c.open, b.values.open) && IsNumber(c.high, b.values.high)
    && IsNumber(c.low, b.values.low) && IsNumber(c.close, b.values.close)
    && IsNumber(c.prevClose, b.values.prevClose)
    && IsNumber(c.volume, b.values.volume) && IsNumber(c.amount, b.values.amount)
    && c.tradingStatus == b.tradingStatus
  }

  /** The new bar is the fetched one, under the real instrument id and stamped with its source. */
  predicate Carries(bar: NewBar, b: FetchedBar, instruments: Instruments, provider: string, batch: nat, observedAt: int) {
    && Known(instruments, b) && bar.id == IdOf(instruments, b)
    && HasNumbers(bar.row.content, b)
    && bar.row.sourceProvider == provider && bar.row.sourceBatch == batch && bar.row.observedAt == observedAt
  }

  function KnownTest(instruments: Instruments): FetchedBar -> bool { b => Known(instruments, b) }

  ghost predicate SomeRefused(records: seq<FetchedBar>, instruments: Instruments) {
    exists k :: 0 <= k < |records| && Refused(instruments, records[k])
  }

  ghost predicate AllCarried(news: seq<NewBar>, kept: seq<FetchedBar>, instruments: Instruments, provider: string,
                             batch: nat, observedAt: int) {
    |news| == |kept| && forall i :: 0 <= i < |kept| ==> Carries(news[i], kept[i], instruments, provider, batch, observedAt)
  }

  /** The list is refused exactly when some bar is; otherwise it is the known bars in order. */
  ghost predicate RebuiltFrom(news: Option<seq<NewBar>>, records: seq<FetchedBar>, instruments: Instruments,
                              provider: string, batch: nat, observedAt: int) {
    && (news.None? <==> SomeRefused(records, instruments))
    && (news.Some? ==>
          AllCarried(news.value, Filter(records, KnownTest(instruments)), instruments, provider, batch, observedAt))
  }

  /** One sidecar entry, by the fetched bar it was built from. */
  lemma EntryRebuilt(instruments: Instruments, b: FetchedBar, provider: string, batch: nat, observedAt: int)
    requires b.symbol.Some?
    ensures var one := Rebuild(instruments, BuildEntry(b, b.symbol.value, provider, batch, observedAt));
            && (one.Fails? <==> Refused(instruments, b))
            && (one.Bar? <==> Known(instruments, b) && Sound(b))
            && (one.Bar? ==> Carries(one.bar, b, instruments, provider, batch, observedAt))
  {
    RebuildOfEntry(instruments, b, provider, batch, observedAt);
    ValuesRoundTrip(b.values);
    SoundMeansValid(NormalValues(b.values), b);
    ValuesRebuilt(instruments, NormalValues(b.values), b, provider, batch, observedAt);
  }

  lemma ValuesRebuilt(instruments: Instruments, v: BarValues, b: FetchedBar, provider: string, batch: nat, observedAt: int)
    requires b.symbol.Some? && (Valid(ContentOf(v, b.tradingStatus)) <==> Sound(b))
    requires HasNumbers(ContentOf(v, b.tradingStatus), b)
    ensures var one := RebuildValues(instruments, b.symbol.value, b.tradeDate, Some(v), b.tradingStatus,
                                     provider, batch, observedAt);
            && (one.Fails? <==> Refused(instruments, b))
            && (one.Bar? <==> Known(instruments, b) && Sound(b))
            && (one.Bar? ==> Carries(one.bar, b, instruments, provider, batch, observedAt))
  {
  }

  lemma RebuildOfEntry(instruments: Instruments, b: FetchedBar, provider: string, batch: nat, observedAt: int)
    requires b.symbol.Some?
    ensures Rebuild(instruments, BuildEntry(b, b.symbol.value, provider, batch, observedAt))
            == RebuildValues(instruments, b.symbol.value, b.tradeDate, Some(NormalValues(b.values)), b.tradingStatus,
                             provider, batch, observedAt)
  {
    ValuesRoundTrip(b.values);
  }

  lemma SoundMeansValid(v: BarValues, b: FetchedBar)
    requires SameNumbers(v, b.values)
    ensures Valid(ContentOf(v, b.tradingStatus)) <==> Sound(b)
    ensures HasNumbers(ContentOf(v, b.tradingStatus), b)
  {
  }

  /** What the consumer rebuilds from a stored sidecar is what the provider fetched. */
  lemma SidecarCarriesBars(instruments: Instruments, records: seq<FetchedBar>, provider: string, batch: nat, observedAt: int)
    requires BuildEntries(records, provider, batch, observedAt).Some?
    ensures RebuiltFrom(BuildNewBars(instruments, BuildEntries(records, provider, batch, observedAt).value),
                        records, instruments, provider, batch, observedAt)
  {
    var entries := BuildEntries(records, provider, batch, observedAt).value;
    assert entries[..|records|] == entries && records[..|records|] == records;
    PrefixCarriesBars(instruments, records, entries, |records|, provider, batch, observedAt);
  }

  /** When every fetched bar is known and sound, every one arrives, in order: of a symbol that
      starts with 5 or 6 the "SSE" instrument, of one that starts with 1 or 2 the "SZSE" one. */
  lemma EveryBarArrives(instruments: Instruments, records: seq<FetchedBar>, provider: string, batch: nat, observedAt: int)
    requires forall k :: 0 <= k < |records| ==> Known(instruments, records[k]) && Sound(records[k])
    ensures BuildEntries(records, provider, batch, observedAt).Some?
    ensures var news := BuildNewBars(instruments, BuildEntries(records, provider, batch, observedAt).value);
            news.Some? && AllCarried(news.value, records, instruments, provider, batch, observedAt)
  {
    assert forall k :: 0 <= k < |records| ==> Known(instruments, records[k]);
    SidecarCarriesBars(instruments, records, provider, batch, observedAt);
    FilterKeepsAll(records, KnownTest(instruments));
  }

  ghost predicate BuiltFrom(entries: seq<SidecarEntry>, records: seq<FetchedBar>, provider: string, batch: nat,
                            observedAt: int) {
    && |entries| == |records|
    && forall i :: 0 <= i < |records| ==>
         && records[i].symbol.Some?
         && entries[i] == BuildEntry(records[i], records[i].symbol.value, provider, batch, observedAt)
  }

  lemma {:induction false} PrefixCarriesBars(instruments: Instruments, records: seq<FetchedBar>, entries: seq<SidecarEntry>,
                                             n: nat, provider: string, batch: nat, observedAt: int)
    requires n <= |records| && BuiltFrom(entries, records, provider, batch, observedAt)
    ensures RebuiltFrom(BuildNewBars(instruments, entries[..n]), records[..n], instruments, provider, batch, observedAt)
  {
    if n == 0 {
    } else {
      var e, b := entries[n - 1], records[n - 1];
      assert entries[..n] == entries[..n - 1] + [e];
      assert records[..n] == records[..n - 1] + [b];
      assert e == BuildEntry(b, b.symbol.value, provider, batch, observedAt);
      PrefixCarriesBars(instruments, records, entries, n - 1, provider, batch, observedAt);
      SidecarStep(instruments, entries[..n - 1], records[..n - 1], b, provider, batch, observedAt);
    }
  }

  lemma SidecarStep(instruments: Instruments, entries: seq<SidecarEntry>, init: seq<FetchedBar>, b: FetchedBar,
                    provider: string, batch: nat, observedAt: int)
    requires RebuiltFrom(BuildNewBars(instruments, entries), init, instruments, provider, batch, observedAt)
    requires b.symbol.Some?
    ensures RebuiltFrom(BuildNewBars(instruments,
                                     entries + [BuildEntry(b, b.symbol.value, provider, batch, observedAt)]),
                        init + [b], instruments, provider, batch, observedAt)
  {
    var e := BuildEntry(b, b.symbol.value, provider, batch, observedAt);
    BuildSnoc(instruments, entries, e);
    EntryRebuilt(instruments, b, provider, batch, observedAt);
    RebuiltSnoc(BuildNewBars(instruments, entries), Rebuild(instruments, e), init, b, instruments, provider, batch,
                observedAt);
  }

  /** A text that does not parse fails a known instrument's entry, and so does an entry of
      another kind; the texts of an unknown instrument are never looked at. */
  lemma UnreadableEntry(instruments: Instruments, e: SidecarEntry)
    ensures !e.BarEntry? ==> Rebuild(instruments, e).Fails?
    ensures e.BarEntry? && StartsWith56(e.symbol) && ("SSE", e.symbol) in instruments && ParseValues(e.values).None? ==>
            Rebuild(instruments, e).Fails?
    ensures e.BarEntry? && StartsWith12(e.symbol) && ("SZSE", e.symbol) in instruments && ParseValues(e.values).None? ==>
            Rebuild(instruments, e).Fails?
    ensures e.BarEntry? && StartsWith56(e.symbol) && ("SSE", e.symbol) !in instruments ==> Rebuild(instruments, e).Dropped?
    ensures e.BarEntry? && StartsWith12(e.symbol) && ("SZSE", e.symbol) !in instruments ==> Rebuild(instruments, e).Dropped?
  {
  }

  lemma RebuiltSnoc(news: Option<seq<NewBar>>, one: Rebuilt, init: seq<FetchedBar>, b: FetchedBar,
                    instruments: Instruments, provider: string, batch: nat, observedAt: int)
    requires RebuiltFrom(news, init, instruments, provider, batch, observedAt)
    requires one.Fails? <==> Refused(instruments, b)
    requires one.Bar? <==> Known(instruments, b) && Sound(b)
    requires one.Bar? ==> Carries(one.bar, b, instruments, provider, batch, observedAt)
    ensures RebuiltFrom(WithOne(news, one), init + [b], instruments, provider, batch, observedAt)
  {
    SomeRefusedSnoc(init, b, instruments);
    FilterSnoc(init, b, KnownTest(instruments));
  }

  lemma SomeRefusedSnoc(init: seq<FetchedBar>, b: FetchedBar, instruments: Instruments)
    ensures SomeRefused(init + [b], instruments) <==> SomeRefused(init, instruments) || Refused(instruments, b)
  {
    var records := init + [b];
    assert records[|init|] == b && forall k :: 0 <= k < |init| ==> records[k] == init[k];
  }

  // ---------- upsert_many ----------

  function History(bars: Bars, id: BarId): seq<BarRow> {
    if id in bars then bars[id] else []
  }

  /** `get_latest`: the row of the highest revision. */
  function Latest(bars: Bars, id: BarId): Option<BarRow> {
    var h := History(bars, id);
    if h == [] then None else Some(h[|h| - 1])
  }

  predicate UpToDate(bars: Bars, b: NewBar) {
    Latest(bars, b.id).Some? && Latest(bars, b.id).value.content == b.row.content
  }

  datatype Upserted = Upserted(bars: Bars, written: nat)

  /** ADR-0006: equal content is skipped, different content becomes the next revision. */
  function UpsertMany(bars: Bars, news: seq<NewBar>): Upserted {
    if news == [] then Upserted(bars, 0)
    else
      var before := UpsertMany(bars, news[..|news| - 1]);
      var b := news[|news| - 1];
      if UpToDate(before.bars, b) then before
      else Upserted(before.bars[b.id := History(before.bars, b.id) + [b.row]], before.written + 1)
  }

  /** No two bars of the list give one instrument and day different contents. */
  ghost predicate Consistent(news: seq<NewBar>) {
    forall i, j :: 0 <= i < j < |news| && news[i].id == news[j].id ==> news[i].row.content == news[j].row.content
  }

  ghost predicate AllUpToDate(bars: Bars, news: seq<NewBar>) {
    forall i :: 0 <= i < |news| ==> UpToDate(bars, news[i])
  }

  /** Nothing is written exactly when every bar is already the latest revision. */
  lemma {:induction false} NothingWrittenIff(bars: Bars, news: seq<NewBar>)
    ensures UpsertMany(bars, news).written == 0 <==> AllUpToDate(bars, news)
    ensures UpsertMany(bars, news).written == 0 <==> UpsertMany(bars, news).bars == bars
    ensures RevisionCount(bars, UpsertMany(bars, news).bars)
  {
    if news == [] {
    } else {
      var init, b := news[..|news| - 1], news[|news| - 1];
      NothingWrittenIff(bars, init);
      AllUpToDateSnoc(bars, init, b);
      assert init + [b] == news;
      var before := UpsertMany(bars, init).bars;
      if !UpToDate(before, b) {
        AppendGrows(bars, before, b);
      }
    }
  }

  lemma AllUpToDateSnoc(bars: Bars, init: seq<NewBar>, b: NewBar)
    ensures AllUpToDate(bars, init + [b]) <==> AllUpToDate(bars, init) && UpToDate(bars, b)
  {
    var news := init + [b];
    assert forall i :: 0 <= i < |init| ==> news[i] == init[i];
    assert news[|init|] == b;
  }

  /** One more revision makes a history longer than it ever was. */
  lemma AppendGrows(bars: Bars, before: Bars, b: NewBar)
    requires RevisionCount(bars, before)
    ensures var after := before[b.id := History(before, b.id) + [b.row]];
            RevisionCount(bars, after) && after != bars
  {
    var after := before[b.id := History(before, b.id) + [b.row]];
    assert History(bars, b.id) <= History(before, b.id);
    assert |History(after, b.id)| > |History(bars, b.id)|;
    forall id ensures History(bars, id) <= History(after, id) {
      assert History(bars, id) <= History(before, id);
    }
  }

  /** Histories only grow at the end: revisions are never rewritten. */
  ghost predicate RevisionCount(bars: Bars, later: Bars) {
    forall id :: History(bars, id) <= History(later, id)
  }

  lemma UpToDateStays(bars: Bars, b: NewBar, other: NewBar)
    requires UpToDate(bars, other)
    requires b.id == other.id ==> b.row.content == other.row.content
    ensures UpToDate(bars[b.id := History(bars, b.id) + [b.row]], other)
  {
  }

  lemma {:induction false} UpsertLeavesUpToDate(bars: Bars, news: seq<NewBar>)
    requires Consistent(news)
    ensures AllUpToDate(UpsertMany(bars, news).bars, news)
  {
    if news == [] {
    } else {
      var init, b := news[..|news| - 1], news[|news| - 1];
      assert forall i :: 0 <= i < |init| ==> init[i] == news[i];
      UpsertLeavesUpToDate(bars, init);
      var before, after := UpsertMany(bars, init).bars, UpsertMany(bars, news).bars;
      forall i | 0 <= i < |news| ensures UpToDate(after, news[i]) {
        if i < |init| {
          assert UpToDate(before, init[i]);
          UpToDateStays(before, b, news[i]);
        }
      }
    }
  }

  /** After an upsert all of a list's bars are latest revisions iff it is self-consistent. */
  lemma LatestIffConsistent(stored: Bars, news: seq<NewBar>)
    ensures AllUpToDate(UpsertMany(stored, news).bars, news) <==> Consistent(news)
  {
    if Consistent(news) {
      UpsertLeavesUpToDate(stored, news);
    }
  }

  /** Upserting the same bars again writes nothing exactly when the list itself does not
      contradict itself about some instrument and day. */
  lemma UpsertIdempotentIff(bars: Bars, news: seq<NewBar>)
    ensures UpsertMany(UpsertMany(bars, news).bars, news).written == 0 <==> Consistent(news)
  {
    NothingWrittenIff(UpsertMany(bars, news).bars, news);
    LatestIffConsistent(bars, news);
  }

  /** One bar: nothing when the latest revision has its content, otherwise one more revision
      of its own day, at the end, and no other day touched. */
  lemma UpsertOne(bars: Bars, b: NewBar)
    ensures var u, h := UpsertMany(bars, [b]), History(bars, b.id);
            && (h != [] && h[|h| - 1].content == b.row.content ==> u.bars == bars && u.written == 0)
            && (h == [] || h[|h| - 1].content != b.row.content ==>
                  u.written == 1 && History(u.bars, b.id) == h + [b.row]
                  && forall id :: id != b.id ==> History(u.bars, id) == History(bars, id))
  {
    assert [b][..0] == [];
    assert UpsertMany(bars, [b][..0]) == Upserted(bars, 0);
  }

  /** Upserting two lists in turn is upserting them joined, and the counts add up. */
  lemma {:induction false} UpsertInTurn(bars: Bars, first: seq<NewBar>, second: seq<NewBar>)
    ensures UpsertMany(bars, first + second).bars == UpsertMany(UpsertMany(bars, first).bars, second).bars
    ensures UpsertMany(bars, first + second).written
            == UpsertMany(bars, first).written + UpsertMany(UpsertMany(bars, first).bars, second).written
  {
    if second == [] {
      assert first + second == first;
    } else {
      var init := second[..|second| - 1];
      assert (first + second)[..|first + second| - 1] == first + init;
      UpsertInTurn(bars, first, init);
    }
  }

  lemma UpsertSnoc(bars: Bars, news: seq<NewBar>, b: NewBar)
    ensures UpsertMany(bars, news + [b]).bars == UpsertMany(UpsertMany(bars, news).bars, [b]).bars
  {
    UpsertInTurn(bars, news, [b]);
  }

  // ---------- the table after an upsert, said of the fetched bars alone ----------

  /** Bar `k` is known and no later known bar is for its instrument and day. */
  ghost predicate LastOfItsDay(records: seq<FetchedBar>, instruments: Instruments, k: nat)
    requires k < |records|
  {
    && Known(instruments, records[k])
    && forall j :: k < j < |records| && Known(instruments, records[j]) ==>
         IdOf(instruments, records[j]) != IdOf(instruments, records[k])
  }

  /** No known bar of the list is for the instrument and day. */
  ghost predicate Untouched(records: seq<FetchedBar>, instruments: Instruments, id: BarId) {
    forall j :: 0 <= j < |records| && Known(instruments, records[j]) ==> IdOf(instruments, records[j]) != id
  }

  /** The stored day has the fetched numbers as its latest revision. */
  predicate Shows(bars: Bars, id: BarId, b: FetchedBar) {
    var h := History(bars, id);
    h != [] && HasNumbers(h[|h| - 1].content, b)
  }

  /** The day's history is unchanged if it showed the bar already, and otherwise has gained
      exactly one revision, at the end, with the fetched numbers and the stamp of the run. */
  ghost predicate GainsRevision(before: Bars, after: Bars, id: BarId, b: FetchedBar, provider: string, batch: nat,
                                observedAt: int) {
    var h, h' := History(before, id), History(after, id);
    if Shows(before, id, b) then h' == h
    else
      && |h'| == |h| + 1 && h'[..|h|] == h && HasNumbers(h'[|h|].content, b)
      && h'[|h|].sourceProvider == provider && h'[|h|].sourceBatch == batch && h'[|h|].observedAt == observedAt
  }

  /** Every day's last known bar is shown as the latest revision; a day fetched once gains at
      most that one revision; a day not fetched is untouched. */
  ghost predicate TableShows(before: Bars, after: Bars, records: seq<FetchedBar>, instruments: Instruments,
                             provider: string, batch: nat, observedAt: int) {
    && (forall k :: 0 <= k < |records| && LastOfItsDay(records, instruments, k) ==>
          Shows(after, IdOf(instruments, records[k]), records[k]))
    && (forall k :: 0 <= k < |records| && LastOfItsDay(records, instruments, k)
                    && Untouched(records[..k], instruments, IdOf(instruments, records[k])) ==>
          GainsRevision(before, after, IdOf(instruments, records[k]), records[k], provider, batch, observedAt))
    && (forall id :: Untouched(records, instruments, id) ==> History(after, id) == History(before, id))
  }

  lemma SameNumbersSameContent(c: Content, c': Content, b: FetchedBar)
    requires HasNumbers(c, b)
    ensures HasNumbers(c', b) <==> c == c'
  {
  }

  lemma UpsertOneShows(bars: Bars, bar: NewBar, b: FetchedBar, instruments: Instruments, provider: string, batch: nat,
                       observedAt: int)
    requires Carries(bar, b, instruments, provider, batch, observedAt)
    ensures var after := UpsertMany(bars, [bar]).bars;
            && Shows(after, bar.id, b)
            && GainsRevision(bars, after, bar.id, b, provider, batch, observedAt)
            && forall id :: id != bar.id ==> History(after, id) == History(bars, id)
  {
    UpsertOne(bars, bar);
    var h := History(bars, bar.id);
    if h != [] {
      SameNumbersSameContent(bar.row.content, h[|h| - 1].content, b);
    }
  }

  lemma LastOfInit(init: seq<FetchedBar>, b: FetchedBar, instruments: Instruments, k: nat)
    requires k < |init| && LastOfItsDay(init + [b], instruments, k)
    ensures LastOfItsDay(init, instruments, k) && (init + [b])[k] == init[k] && (init + [b])[..k] == init[..k]
    ensures Known(instruments, b) ==> IdOf(instruments, b) != IdOf(instruments, init[k])
  {
    var records := init + [b];
    assert records[|init|] == b && forall j :: 0 <= j < |init| ==> records[j] == init[j];
  }

  lemma SameHistory(before: Bars, middle: Bars, after: Bars, id: BarId, b: FetchedBar, provider: string, batch: nat,
                    observedAt: int)
    requires History(after, id) == History(middle, id)
    ensures Shows(after, id, b) <==> Shows(middle, id, b)
    ensures GainsRevision(before, after, id, b, provider, batch, observedAt)
            <==> GainsRevision(before, middle, id, b, provider, batch, observedAt)
  {
  }

  /** A day not touched so far gains its revision over the table of the start. */
  lemma FirstTouch(before: Bars, middle: Bars, after: Bars, id: BarId, b: FetchedBar, provider: string, batch: nat,
                   observedAt: int)
    requires History(middle, id) == History(before, id)
    requires GainsRevision(middle, after, id, b, provider, batch, observedAt)
    ensures GainsRevision(before, after, id, b, provider, batch, observedAt)
  {
  }

  lemma TableShowsSnoc(before: Bars, middle: Bars, init: seq<FetchedBar>, bar: NewBar, b: FetchedBar,
                       instruments: Instruments, provider: string, batch: nat, observedAt: int)
    requires TableShows(before, middle, init, instruments, provider, batch, observedAt)
    requires Carries(bar, b, instruments, provider, batch, observedAt)
    ensures TableShows(before, UpsertMany(middle, [bar]).bars, init + [b], instruments, provider, batch, observedAt)
  {
    var records, after := init + [b], UpsertMany(middle, [bar]).bars;
    UpsertOneShows(middle, bar, b, instruments, provider, batch, observedAt);
    forall k | 0 <= k < |records| && LastOfItsDay(records, instruments, k)
      ensures Shows(after, IdOf(instruments, records[k]), records[k])
      ensures Untouched(records[..k], instruments, IdOf(instruments, records[k])) ==>
              GainsRevision(before, after, IdOf(instruments, records[k]), records[k], provider, batch, observedAt)
    {
      if k < |init| {
        LastOfInit(init, b, instruments, k);
        SameHistory(before, middle, after, IdOf(instruments, init[k]), init[k], provider, batch, observedAt);
      } else {
        assert records[k] == b && records[..k] == init;
        if Untouched(init, instruments, bar.id) {
          FirstTouch(before, middle, after, bar.id, b, provider, batch, observedAt);
        }
      }
    }
    forall id | Untouched(records, instruments, id) ensures History(after, id) == History(before, id) {
      UntouchedParts(init, b, instruments, id);
    }
  }

  lemma UntouchedParts(init: seq<FetchedBar>, b: FetchedBar, instruments: Instruments, id: BarId)
    ensures Untouched(init + [b], instruments, id)
            <==> Untouched(init, instruments, id) && (Known(instruments, b) ==> IdOf(instruments, b) != id)
  {
    var records := init + [b];
    assert records[|init|] == b && forall k :: 0 <= k < |init| ==> records[k] == init[k];
  }

  lemma TableShowsUnknown(before: Bars, after: Bars, init: seq<FetchedBar>, b: FetchedBar,
                          instruments: Instruments, provider: string, batch: nat, observedAt: int)
    requires TableShows(before, after, init, instruments, provider, batch, observedAt) && !Known(instruments, b)
    ensures TableShows(before, after, init + [b], instruments, provider, batch, observedAt)
  {
    var records := init + [b];
    assert records[|init|] == b && forall k :: 0 <= k < |init| ==> records[k] == init[k];
    forall k | 0 <= k < |records| && LastOfItsDay(records, instruments, k)
      ensures k < |init| && LastOfItsDay(init, instruments, k) && records[..k] == init[..k]
    {
    }
    forall id | Untouched(records, instruments, id) ensures History(after, id) == History(before, id) {
      UntouchedParts(init, b, instruments, id);
    }
  }

  /** Upserting what is rebuilt from a sidecar leaves the table showing what was fetched. */
  lemma FetchedBarsShow(before: Bars, instruments: Instruments, records: seq<FetchedBar>, provider: string, batch: nat,
                        observedAt: int)
    requires BuildEntries(records, provider, batch, observedAt).Some?
    requires BuildNewBars(instruments, BuildEntries(records, provider, batch, observedAt).value).Some?
    ensures var news := BuildNewBars(instruments, BuildEntries(records, provider, batch, observedAt).value).value;
            TableShows(before, UpsertMany(before, news).bars, records, instruments, provider, batch, observedAt)
  {
    var entries := BuildEntries(records, provider, batch, observedAt).value;
    assert entries[..|records|] == entries && records[..|records|] == records;
    PrefixShows(before, instruments, records, entries, |records|, provider, batch, observedAt);
  }

  lemma {:induction false} PrefixShows(before: Bars, instruments: Instruments, records: seq<FetchedBar>,
                                       entries: seq<SidecarEntry>, n: nat, provider: string, batch: nat, observedAt: int)
    requires n <= |records| && BuiltFrom(entries, records, provider, batch, observedAt)
    requires BuildNewBars(instruments, entries[..n]).Some?
    ensures TableShows(before, UpsertMany(before, BuildNewBars(instruments, entries[..n]).value).bars, records[..n],
                       instruments, provider, batch, observedAt)
  {
    if n == 0 {
    } else {
      var e, b := entries[n - 1], records[n - 1];
      assert entries[..n] == entries[..n - 1] + [e];
      assert records[..n] == records[..n - 1] + [b];
      assert e == BuildEntry(b, b.symbol.value, provider, batch, observedAt);
      BuildSnoc(instruments, entries[..n - 1], e);
      PrefixShows(before, instruments, records, entries, n - 1, provider, batch, observedAt);
      ShowStep(before, instruments, BuildNewBars(instruments, entries[..n - 1]).value, records[..n - 1], b,
               provider, batch, observedAt);
    }
  }

  lemma ShowStep(before: Bars, instruments: Instruments, news: seq<NewBar>, init: seq<FetchedBar>, b: FetchedBar,
                 provider: string, batch: nat, observedAt: int)
    requires TableShows(before, UpsertMany(before, news).bars, init, instruments, provider, batch, observedAt)
    requires b.symbol.Some?
    requires WithOne(Some(news), Rebuild(instruments, BuildEntry(b, b.symbol.value, provider, batch, observedAt))).Some?
    ensures var one := Rebuild(instruments, BuildEntry(b, b.symbol.value, provider, batch, observedAt));
            TableShows(before, UpsertMany(before, WithOne(Some(news), one).value).bars, init + [b], instruments,
                       provider, batch, observedAt)
  {
    EntryRebuilt(instruments, b, provider, batch, observedAt);
    var one := Rebuild(instruments, BuildEntry(b, b.symbol.value, provider, batch, observedAt));
    var middle := UpsertMany(before, news).bars;
    if one.Bar? {
      UpsertSnoc(before, news, one.bar);
      TableShowsSnoc(before, middle, init, one.bar, b, instruments, provider, batch, observedAt);
    } else {
      TableShowsUnknown(before, middle, init, b, instruments, provider, batch, observedAt);
    }
  }

  /** The table `core.daily_bars` and the loop of `upsert_many`. */
  class Repository {
    var rows: Bars

    constructor ()
      ensures rows == map[]
    {
      rows := map[];
    }

    method Upsert(news: seq<NewBar>) returns (written: nat)
      modifies this
      ensures Upserted(rows, written) == UpsertMany(old(rows), news)
      ensures RevisionCount(old(rows), rows)
      ensures written == 0 <==> rows == old(rows)
    {
      written := 0;
      ghost var start := rows;
      for i := 0 to |news|
        invariant Upserted(rows, written) == UpsertMany(start, news[..i])
      {
        assert news[..i + 1][..i] == news[..i];
        var b := news[i];
        var latest := Latest(rows, b.id);
        if latest.None? || latest.value.content != b.row.content {
          rows := rows[b.id := History(rows, b.id) + [b.row]];
          written := written + 1;
        }
      }
      assert news[..|news|] == news;
      NothingWrittenIff(start, news);
    }
  }
}
