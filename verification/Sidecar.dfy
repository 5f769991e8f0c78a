/**
 The JSON sidecars of the daily-bars and profile writers. JSON text itself is
 treated as injective, so a sidecar is the list of its entries.
 */
module Sidecar {
  import opened Wrappers
  import opened Evidence
  import opened DecimalText

  /** The OHLCV part of a DailyBar. */
  datatype BarValues = BarValues(open: Option<Decimal>, high: Option<Decimal>, low: Option<Decimal>,
                                 close: Option<Decimal>, prevClose: Option<Decimal>,
                                 volume: Option<Decimal>, amount: Option<Decimal>)

  /** A bar as fetched; `symbol` is what the provider's reverse lookup answers. */
  datatype FetchedBar = FetchedBar(symbol: Option<string>, tradeDate: int, values: BarValues,
                                   tradingStatus: string, observedAt: int)

  function FormatValues(v: BarValues): BarTexts {
    BarTexts(FormatOption(v.open), FormatOption(v.high), FormatOption(v.low), FormatOption(v.close),
             FormatOption(v.prevClose), FormatOption(v.volume), FormatOption(v.amount))
  }

  /** Seven `_maybe_decimal` calls; None when one of them fails to parse. */
  function ParseValues(t: BarTexts): Option<BarValues> {
    match (MaybeDecimal(t.open), MaybeDecimal(t.high), MaybeDecimal(t.low), MaybeDecimal(t.close),
           MaybeDecimal(t.prevClose), MaybeDecimal(t.volume), MaybeDecimal(t.amount))
    case (Some(o), Some(h), Some(l), Some(c), Some(p), Some(v), Some(a)) =>
      Some(BarValues(o, h, l, c, p, v, a))
    case _ => None
  }

  function NormalValues(v: BarValues): BarValues {
    BarValues(NormalOption(v.open), NormalOption(v.high), NormalOption(v.low), NormalOption(v.close),
              NormalOption(v.prevClose), NormalOption(v.volume), NormalOption(v.amount))
  }

  predicate SameNumber(a: Option<Decimal>, b: Option<Decimal>) {
    (a.None? && b.None?) || (a.Some? && b.Some? && Value(a.value) == Value(b.value))
  }

  predicate SameNumbers(a: BarValues, b: BarValues) {
    && SameNumber(a.open, b.open) && SameNumber(a.high, b.high) && SameNumber(a.low, b.low)
    && SameNumber(a.close, b.close) && SameNumber(a.prevClose, b.prevClose)
    && SameNumber(a.volume, b.volume) && SameNumber(a.amount, b.amount)
  }

  /** The seven OHLCV values survive the sidecar as numbers. */
  lemma ValuesRoundTrip(v: BarValues)
    ensures ParseValues(FormatValues(v)) == Some(NormalValues(v))
    ensures SameNumbers(NormalValues(v), v)
  {
    OptionRoundTrip(v.open);
    OptionRoundTrip(v.high);
    OptionRoundTrip(v.low);
    OptionRoundTrip(v.close);
    OptionRoundTrip(v.prevClose);
    OptionRoundTrip(v.volume);
    OptionRoundTrip(v.amount);
  }

  function BuildEntry(bar: FetchedBar, symbol: string, providerKey: string, batch: nat, observedAt: int): SidecarEntry {
    BarEntry(symbol, bar.tradeDate, FormatValues(bar.values), bar.tradingStatus, providerKey, batch, observedAt)
  }

  /** `_build_sidecar_record` over the batch; None when a symbol cannot be resolved. */
  function BuildEntries(bars: seq<FetchedBar>, providerKey: string, batch: nat, observedAt: int)
    : (r: Option<seq<SidecarEntry>>)
    ensures r.Some? <==> forall i :: 0 <= i < |bars| ==> bars[i].symbol.Some?
    ensures r.Some? ==> |r.value| == |bars| && forall i :: 0 <= i < |bars| ==>
      r.value[i] == BuildEntry(bars[i], bars[i].symbol.value, providerKey, batch, observedAt)
  {
    if bars == [] then Some([])
    else
      var rest := BuildEntries(bars[1..], providerKey, batch, observedAt);
      if bars[0].symbol.None? || rest.None? then None
      else Some([BuildEntry(bars[0], bars[0].symbol.value, providerKey, batch, observedAt)] + rest.value)
  }

  /** Every record of a batch is stamped with the first record's observation time. */
  function ObservedAt(bars: seq<FetchedBar>, finishedAt: int): int {
    if bars == [] then finishedAt else bars[0].observedAt
  }

  // ---------- ETF profiles ----------

  datatype ProfileRecord = ProfileRecord(symbol: string, exchange: string, fundType: Option<string>,
                                         category: Option<string>, shares: Option<Decimal>)

  function BuildProfileEntry(r: ProfileRecord): SidecarEntry {
    ProfileEntry(r.symbol, r.exchange, r.fundType, r.category, FormatOption(r.shares))
  }

  /** `entry.get(name) or None`: an empty text reads back as None. */
  function NonEmptyText(text: Option<string>): Option<string> {
    if text == Some("") then None else text
  }

  /** `_sidecar_entry_to_profile_record`; None when the shares text does not parse. */
  function ReadProfileEntry(e: SidecarEntry): Option<ProfileRecord>
    requires e.ProfileEntry?
  {
    match MaybeDecimal(e.shares)
    case None => None
    case Some(shares) =>
      Some(ProfileRecord(e.symbol, e.exchange, NonEmptyText(e.fundType), NonEmptyText(e.category), shares))
  }

  predicate SameProfile(a: ProfileRecord, b: ProfileRecord) {
    && a.symbol == b.symbol && a.exchange == b.exchange
    && a.fundType == b.fundType && a.category == b.category && SameNumber(a.shares, b.shares)
  }

  /** A profile record always reads back, and reads back as itself exactly when neither
      text field is the empty string. A second round trip changes nothing further. */
  lemma ProfileRoundTrip(r: ProfileRecord)
    ensures ReadProfileEntry(BuildProfileEntry(r)).Some?
    ensures var back := ReadProfileEntry(BuildProfileEntry(r)).value;
            && (SameProfile(back, r) <==> r.fundType != Some("") && r.category != Some(""))
            && ReadProfileEntry(BuildProfileEntry(back)) == Some(back)
  {
    OptionRoundTrip(r.shares);
    OptionRoundTrip(NormalOption(r.shares));
    if r.shares.Some? {
      NormalTwice(r.shares.value);
    }
  }

  lemma NormalTwice(d: Decimal)
    ensures Normal(Normal(d)) == Normal(d)
  {}
}
