/** One day's ledger document: its metadata, the running daily summary and
    the ordered list of enriched hits, the pure specification of one summary
    update and of the summary of a whole day, and the in-memory document
    (`logs` in log_scanner_hit) that the append and the summary update mutate. */
module DailyLedger {
  import opened Common
  import opened Classifier

  // ---------------------------------------------------------------------------
  // Hits

  /** One enriched scanner hit: the fields of a `hit_entry` apart from the
      fixed `context` texts and the formatted timestamp strings, with
      trigger_description derived from primary_trigger. */
  datatype Hit = Hit(
    hitId: nat,
    timestamp: Clock,
    marketSession: Session,
    ticker: string,
    price: Option<real>,
    priceChangePct: Option<real>,
    priceCategory: PriceCategory,
    volume: Option<int>,
    relativeVolume: Option<real>,
    volumeCategory: VolumeCategory,
    momentumScore: Option<int>,
    primaryTrigger: string,
    breakoutDetected: bool,
    newsDetected: bool,
    signalStrength: int,
    riskLevel: RiskLevel)
  {
    /** The stored trigger_description, a fixed function of primary_trigger. */
    function Description(): string {
      TriggerDescription(primaryTrigger)
    }
  }

  /** How log_scanner_hit stores a number, without the rounding to two places:
      a falsy number is stored as None, any other unchanged. */
  function Stored(x: Option<real>): (r: Option<real>)
    ensures r.Some? <==> Truthy(x)
    ensures r.Some? ==> r == x
  {
    if Truthy(x) then x else None
  }

  /** Building `hit_entry`. Only calculate_signal_strength can raise, on a
      missing change or relative volume; then no hit is built. */
  function MakeHit(id: nat, ticker: string, data: TriggerData, now: Clock): (r: Option<Hit>)
    ensures r.None? <==> data.changePct.None? || data.relVolume.None?
    ensures r.Some? ==> r.value.hitId == id && r.value.ticker == Upper(ticker) && r.value.timestamp == now
    ensures r.Some? ==> 5 <= r.value.signalStrength <= 10
    ensures r.Some? ==> r.value.marketSession == MarketSession(now)
    ensures r.Some? ==> (r.value.price.None? <==> r.value.priceCategory == UnknownPrice)
    ensures r.Some? ==> (r.value.price.None? <==> r.value.riskLevel == UnknownRisk)
    ensures r.Some? ==> (r.value.relativeVolume.None? <==> r.value.volumeCategory == NoVolume)
    ensures r.Some? ==> r.value.primaryTrigger == data.triggerType
    ensures r.Some? ==> (r.value.Description() == UnknownTriggerText <==> ParseTrigger(data.triggerType).None?)
    // each computed field is its classifier applied to the posted data
    ensures r.Some? ==> r.value.signalStrength == SignalStrength(data).value
    ensures r.Some? ==> r.value.riskLevel == AssessRiskLevel(data.price, data.changePct, data.relVolume)
    ensures r.Some? ==> r.value.priceCategory == CategorizePrice(data.price)
    ensures r.Some? ==> r.value.volumeCategory == CategorizeVolumeSpike(data.relVolume)
    ensures r.Some? ==> r.value.price == Stored(data.price) && r.value.priceChangePct == Stored(data.changePct)
                        && r.value.relativeVolume == Stored(data.relVolume)
    ensures r.Some? ==> r.value.volume == data.volume && r.value.momentumScore == data.momentumScore
                        && r.value.breakoutDetected == data.breakoutDetected && r.value.newsDetected == data.newsDetected
  {
    match SignalStrength(data)
    case None => None
    case Some(strength) =>
      Some(Hit(
        hitId := id,
        timestamp := now,
        marketSession := MarketSession(now),
        ticker := Upper(ticker),
        price := Stored(data.price),
        priceChangePct := Stored(data.changePct),
        priceCategory := CategorizePrice(data.price),
        volume := data.volume,
        relativeVolume := Stored(data.relVolume),
        volumeCategory := CategorizeVolumeSpike(data.relVolume),
        momentumScore := data.momentumScore,
        primaryTrigger := data.triggerType,
        breakoutDetected := data.breakoutDetected,
        newsDetected := data.newsDetected,
        signalStrength := strength,
        riskLevel := AssessRiskLevel(data.price, data.changePct, data.relVolume)))
  }

  // ---------------------------------------------------------------------------
  // The daily summary

  datatype TriggerCounts = TriggerCounts(minuteBreakout: nat, breakingNews: nat, volumeSpike: nat, breakoutAndNews: nat) {
    function Get(k: TriggerKind): nat {
      match k
      case MinuteBreakout => minuteBreakout
      case BreakingNews => breakingNews
      case VolumeSpike => volumeSpike
      case BreakoutAndNews => breakoutAndNews
    }

    function Sum(): nat {
      minuteBreakout + breakingNews + volumeSpike + breakoutAndNews
    }
  }

  /** The four price-range buckets of the summary. */
  datatype PriceRange = Under5 | From5To10 | From10To15 | From15To20 {
    function Name(): string {
      match this
      case Under5 => "under_5"
      case From5To10 => "5_to_10"
      case From10To15 => "10_to_15"
      case From15To20 => "15_to_20"
    }
  }

  function PriceRangeOf(price: real): PriceRange {
    if price < 5.0 then Under5
    else if price < 10.0 then From5To10
    else if price < 15.0 then From10To15
    else From15To20
  }

  /** The category a price range corresponds to. */
  function RangeCategory(b: PriceRange): PriceCategory {
    match b
    case Under5 => PennyStock
    case From5To10 => LowPriced
    case From10To15 => MidPriced
    case From15To20 => HigherPriced
  }

  /** The summary's price histogram (its own if-chain) and categorize_price
      draw the same boundaries. */
  lemma PriceRangeAgreesWithCategory(price: real)
    requires price != 0.0
    ensures RangeCategory(PriceRangeOf(price)) == CategorizePrice(Some(price))
  {
  }

  datatype PriceRanges = PriceRanges(under5: nat, from5To10: nat, from10To15: nat, from15To20: nat) {
    function Get(b: PriceRange): nat {
      match b
      case Under5 => under5
      case From5To10 => from5To10
      case From10To15 => from10To15
      case From15To20 => from15To20
    }

    function Sum(): nat {
      under5 + from5To10 + from10To15 + from15To20
    }

    /** One more price in bucket b. */
    function Inc(b: PriceRange): PriceRanges {
      match b
      case Under5 => this.(under5 := under5 + 1)
      case From5To10 => this.(from5To10 := from5To10 + 1)
      case From10To15 => this.(from10To15 := from10To15 + 1)
      case From15To20 => this.(from15To20 := from15To20 + 1)
    }
  }

  datatype Metrics = Metrics(avgChangePct: real, maxChangePct: real, avgVolumeSpike: real, maxVolumeSpike: real)

  datatype Summary = Summary(
    totalHits: nat,
    uniqueTickers: seq<string>,
    triggerTypes: TriggerCounts,
    priceRanges: PriceRanges,
    performanceMetrics: Metrics)

  /** The summary a new document starts with: every counter and metric 0. */
  const ZeroSummary: Summary :=
    Summary(0, [], TriggerCounts(0, 0, 0, 0), PriceRanges(0, 0, 0, 0), Metrics(0.0, 0.0, 0.0, 0.0))

  // Each part of update_daily_summary is a helper without a contract, so
  // that the documents built from them stay cheap to reason about; the
  // lemmas after them state what each part does.

  /** update_daily_summary's ticker step: append the ticker unless already listed. */
  function AddTicker(tickers: seq<string>, ticker: string): seq<string> {
    if ticker in tickers then tickers else tickers + [ticker]
  }

  /** update_daily_summary's trigger step: a known trigger's bucket gains one. */
  function CountTrigger(t: TriggerCounts, trigger: string): TriggerCounts {
    match ParseTrigger(trigger)
    case Some(MinuteBreakout) => t.(minuteBreakout := t.minuteBreakout + 1)
    case Some(BreakingNews) => t.(breakingNews := t.breakingNews + 1)
    case Some(VolumeSpike) => t.(volumeSpike := t.volumeSpike + 1)
    case Some(BreakoutAndNews) => t.(breakoutAndNews := t.breakoutAndNews + 1)
    case None => t
  }

  /** update_daily_summary's price step: only a truthy price is counted, in its bucket. */
  function CountPrice(p: PriceRanges, price: Option<real>): PriceRanges {
    if Truthy(price) then p.Inc(PriceRangeOf(price.value)) else p
  }

  /** The change metrics for a present change: the average becomes the mean
      of the old average and the absolute change, and the maximum grows to
      cover the absolute change. */
  function BlendChange(m: Metrics, changePct: Option<real>): Metrics {
    if changePct.None? then m
    else
      var change := Abs(changePct.value);
      m.(avgChangePct := (m.avgChangePct + change) / 2.0, maxChangePct := Max(m.maxChangePct, change))
  }

  /** The volume metrics for a present relative volume, blended the same way
      (without abs). */
  function BlendVolume(m: Metrics, relVolume: Option<real>): Metrics {
    if relVolume.None? then m
    else
      var spike := relVolume.value;
      m.(avgVolumeSpike := (m.avgVolumeSpike + spike) / 2.0, maxVolumeSpike := Max(m.maxVolumeSpike, spike))
  }

  /** The ticker list only grows, gains exactly the new ticker, and stays
      duplicate-free. */
  lemma AddTickerFacts(tickers: seq<string>, ticker: string)
    ensures forall t :: t in AddTicker(tickers, ticker) <==> t in tickers || t == ticker
    ensures tickers <= AddTicker(tickers, ticker)
    ensures Distinct(tickers) ==> Distinct(AddTicker(tickers, ticker))
  {
  }

  /** Exactly the bucket named by the trigger gains one; an unknown trigger
      changes nothing. */
  lemma CountTriggerFacts(t: TriggerCounts, trigger: string)
    ensures forall k: TriggerKind :: CountTrigger(t, trigger).Get(k) == t.Get(k) + (if trigger == k.Name() then 1 else 0)
    ensures CountTrigger(t, trigger).Sum() == t.Sum() + (if ParseTrigger(trigger).Some? then 1 else 0)
  {
  }

  /** Exactly the price range of a truthy price gains one. */
  lemma CountPriceFacts(p: PriceRanges, price: Option<real>)
    ensures forall b: PriceRange :: CountPrice(p, price).Get(b) == p.Get(b) + (if Truthy(price) && PriceRangeOf(price.value) == b then 1 else 0)
    ensures CountPrice(p, price).Sum() == p.Sum() + (if Truthy(price) then 1 else 0)
  {
  }

  /** The change blend never lowers the maximum, makes it cover the new
      absolute change, keeps the average between 0 and the maximum, leaves
      the volume metrics alone, and does nothing for a None change. */
  lemma BlendChangeFacts(m: Metrics, changePct: Option<real>)
    ensures var r := BlendChange(m, changePct);
      && m.maxChangePct <= r.maxChangePct
      && (m.avgChangePct <= m.maxChangePct ==> r.avgChangePct <= r.maxChangePct)
      && (0.0 <= m.avgChangePct ==> 0.0 <= r.avgChangePct)
      && (changePct.Some? ==> Abs(changePct.value) <= r.maxChangePct)
      && (changePct.Some? ==> r.avgChangePct == (m.avgChangePct + Abs(changePct.value)) / 2.0)
      && r.avgVolumeSpike == m.avgVolumeSpike && r.maxVolumeSpike == m.maxVolumeSpike
      && (changePct.None? ==> r == m)
  {
  }

  /** The volume blend never lowers the maximum, makes it cover the new
      relative volume, keeps the average below the maximum, leaves the
      change metrics alone, and does nothing for a None relative volume. */
  lemma BlendVolumeFacts(m: Metrics, relVolume: Option<real>)
    ensures var r := BlendVolume(m, relVolume);
      && m.maxVolumeSpike <= r.maxVolumeSpike
      && (m.avgVolumeSpike <= m.maxVolumeSpike ==> r.avgVolumeSpike <= r.maxVolumeSpike)
      && (relVolume.Some? ==> relVolume.value <= r.maxVolumeSpike)
      && (relVolume.Some? ==> r.avgVolumeSpike == (m.avgVolumeSpike + relVolume.value) / 2.0)
      && r.avgChangePct == m.avgChangePct && r.maxChangePct == m.maxChangePct
      && (relVolume.None? ==> r == m)
  {
  }

  /** The two blends together, as update_daily_summary runs them: each
      maximum never drops and covers its new value, each average stays below
      its maximum, the change average stays non-negative, and a metric whose
      input is None is unchanged. */
  lemma BlendFacts(m: Metrics, changePct: Option<real>, relVolume: Option<real>)
    ensures var r := BlendVolume(BlendChange(m, changePct), relVolume);
      && m.maxChangePct <= r.maxChangePct && m.maxVolumeSpike <= r.maxVolumeSpike
      && (m.avgChangePct <= m.maxChangePct ==> r.avgChangePct <= r.maxChangePct)
      && (m.avgVolumeSpike <= m.maxVolumeSpike ==> r.avgVolumeSpike <= r.maxVolumeSpike)
      && (0.0 <= m.avgChangePct ==> 0.0 <= r.avgChangePct)
      && (changePct.Some? ==> Abs(changePct.value) <= r.maxChangePct)
      && (relVolume.Some? ==> relVolume.value <= r.maxVolumeSpike)
      && (changePct.None? ==> r.avgChangePct == m.avgChangePct && r.maxChangePct == m.maxChangePct)
      && (relVolume.None? ==> r.avgVolumeSpike == m.avgVolumeSpike && r.maxVolumeSpike == m.maxVolumeSpike)
      && (changePct.None? && relVolume.None? ==> r == m)
  {
    BlendChangeFacts(m, changePct);
    BlendVolumeFacts(BlendChange(m, changePct), relVolume);
  }

  /** What update_daily_summary does to the summary for one hit: total_hits
      gains one and each part of the summary moves as its helper states. */
  function SummaryStep(s: Summary, h: Hit): Summary
  {
    Summary(s.totalHits + 1,
            AddTicker(s.uniqueTickers, h.ticker),
            CountTrigger(s.triggerTypes, h.primaryTrigger),
            CountPrice(s.priceRanges, h.price),
            BlendVolume(BlendChange(s.performanceMetrics, h.priceChangePct), h.relativeVolume))
  }

  /** One update_daily_summary call: total_hits gains exactly one, the ticker
      list gains exactly the hit's ticker and stays duplicate-free, exactly
      the known trigger's bucket and the truthy price's bucket gain one, and
      the metrics keep avg <= max. */
  lemma SummaryStepFacts(s: Summary, h: Hit)
    ensures var r := SummaryStep(s, h);
      && r.totalHits == s.totalHits + 1
      && (forall t :: t in r.uniqueTickers <==> t in s.uniqueTickers || t == h.ticker)
      && (Distinct(s.uniqueTickers) ==> Distinct(r.uniqueTickers))
      && (forall k: TriggerKind :: r.triggerTypes.Get(k) == s.triggerTypes.Get(k) + (if h.primaryTrigger == k.Name() then 1 else 0))
      && (forall b: PriceRange :: r.priceRanges.Get(b) == s.priceRanges.Get(b) + (if Truthy(h.price) && PriceRangeOf(h.price.value) == b then 1 else 0))
      && (s.performanceMetrics.avgChangePct <= s.performanceMetrics.maxChangePct ==> r.performanceMetrics.avgChangePct <= r.performanceMetrics.maxChangePct)
      && (s.performanceMetrics.avgVolumeSpike <= s.performanceMetrics.maxVolumeSpike ==> r.performanceMetrics.avgVolumeSpike <= r.performanceMetrics.maxVolumeSpike)
  {
    AddTickerFacts(s.uniqueTickers, h.ticker);
    CountTriggerFacts(s.triggerTypes, h.primaryTrigger);
    CountPriceFacts(s.priceRanges, h.price);
    BlendFacts(s.performanceMetrics, h.priceChangePct, h.relativeVolume);
  }

  // ---------------------------------------------------------------------------
  // The summary of a whole day

  function Tickers(hits: seq<Hit>): (r: seq<string>)
    ensures |r| == |hits| && forall i :: 0 <= i < |hits| ==> r[i] == hits[i].ticker
  {
    seq(|hits|, i requires 0 <= i < |hits| => hits[i].ticker)
  }

  function TriggerNames(hits: seq<Hit>): (r: seq<string>)
    ensures |r| == |hits| && forall i :: 0 <= i < |hits| ==> r[i] == hits[i].primaryTrigger
  {
    seq(|hits|, i requires 0 <= i < |hits| => hits[i].primaryTrigger)
  }

  /** Hits whose trigger is none of the four known kinds. */
  function UnknownTriggerCount(hits: seq<Hit>): nat {
    if |hits| == 0 then 0
    else UnknownTriggerCount(hits[..|hits| - 1]) + (if ParseTrigger(hits[|hits| - 1].primaryTrigger).None? then 1 else 0)
  }

  /** Hits with a truthy stored price. */
  function PricedCount(hits: seq<Hit>): nat {
    if |hits| == 0 then 0
    else PricedCount(hits[..|hits| - 1]) + (if Truthy(hits[|hits| - 1].price) then 1 else 0)
  }

  /** The summary after update_daily_summary has run for each hit in turn,
      starting from the zeroed summary. */
  function Summarize(hits: seq<Hit>): Summary {
    if |hits| == 0 then ZeroSummary
    else SummaryStep(Summarize(hits[..|hits| - 1]), hits[|hits| - 1])
  }

  lemma SnocPrefix(hits: seq<Hit>, h: Hit)
    ensures (hits + [h])[..|hits|] == hits && (hits + [h])[|hits|] == h
    ensures Tickers(hits + [h]) == Tickers(hits) + [h.ticker]
    ensures TriggerNames(hits + [h]) == TriggerNames(hits) + [h.primaryTrigger]
  {
  }

  /** The projections distribute over concatenation, so two days' lists of
      hits project to the two projected lists, one after the other. */
  lemma TickersAppend(a: seq<Hit>, b: seq<Hit>)
    ensures Tickers(a + b) == Tickers(a) + Tickers(b)
    ensures TriggerNames(a + b) == TriggerNames(a) + TriggerNames(b)
  {
    assert forall i :: 0 <= i < |b| ==> (a + b)[|a| + i] == b[i];
  }

  /** Summarize(hits + [h]) is one more update_daily_summary call. */
  lemma SummarizeSnoc(hits: seq<Hit>, h: Hit)
    ensures Summarize(hits + [h]) == SummaryStep(Summarize(hits), h)
  {
    SnocPrefix(hits, h);
  }

  /** total_hits counts every hit of the day. */
  lemma {:induction false} SummarizeTotal(hits: seq<Hit>)
    ensures Summarize(hits).totalHits == |hits|
  {
    if |hits| > 0 {
      SummarizeTotal(hits[..|hits| - 1]);
    }
  }

  /** Each trigger bucket counts the hits of that kind. */
  lemma {:induction false} SummarizeTriggers(hits: seq<Hit>)
    ensures forall k: TriggerKind :: Summarize(hits).triggerTypes.Get(k) == multiset(TriggerNames(hits))[k.Name()]
  {
    if |hits| > 0 {
      var init, last := hits[..|hits| - 1], hits[|hits| - 1];
      assert hits == init + [last];
      SnocPrefix(init, last);
      SummarizeTriggers(init);
      CountTriggerFacts(Summarize(init).triggerTypes, last.primaryTrigger);
      assert multiset(TriggerNames(hits)) == multiset(TriggerNames(init)) + multiset{last.primaryTrigger};
    }
  }

  /** The four trigger buckets and the hits of unknown trigger together make
      up total_hits. */
  lemma {:induction false} SummarizeTriggerSum(hits: seq<Hit>)
    ensures Summarize(hits).triggerTypes.Sum() + UnknownTriggerCount(hits) == |hits|
  {
    if |hits| > 0 {
      SummarizeTriggerSum(hits[..|hits| - 1]);
      CountTriggerFacts(Summarize(hits[..|hits| - 1]).triggerTypes, hits[|hits| - 1].primaryTrigger);
    }
  }

  /** The price buckets together count the hits with a truthy price. */
  lemma {:induction false} SummarizePrices(hits: seq<Hit>)
    ensures Summarize(hits).priceRanges.Sum() == PricedCount(hits)
  {
    if |hits| > 0 {
      SummarizePrices(hits[..|hits| - 1]);
      CountPriceFacts(Summarize(hits[..|hits| - 1]).priceRanges, hits[|hits| - 1].price);
    }
  }

  /** The unique-ticker list of a day is duplicate-free and holds exactly the
      tickers of its hits. */
  lemma {:induction false} SummarizeTickers(hits: seq<Hit>)
    ensures Distinct(Summarize(hits).uniqueTickers)
    ensures Elems(Summarize(hits).uniqueTickers) == Elems(Tickers(hits))
    ensures |Summarize(hits).uniqueTickers| <= |hits|
  {
    if |hits| > 0 {
      var init, last := hits[..|hits| - 1], hits[|hits| - 1];
      assert hits == init + [last];
      SnocPrefix(init, last);
      SummarizeTickers(init);
      ElemsSnoc(Tickers(init), last.ticker);
    }
    DistinctElems(Summarize(hits).uniqueTickers);
    ElemsBound(Tickers(hits));
  }

  /** Performance metrics of a day: each average stays below its maximum, the
      change average is never negative, and the change maximum covers every
      hit's stored change. */
  lemma {:induction false} SummarizeMetrics(hits: seq<Hit>)
    ensures Summarize(hits).performanceMetrics.avgChangePct <= Summarize(hits).performanceMetrics.maxChangePct
    ensures Summarize(hits).performanceMetrics.avgVolumeSpike <= Summarize(hits).performanceMetrics.maxVolumeSpike
    ensures 0.0 <= Summarize(hits).performanceMetrics.avgChangePct
    ensures forall i :: 0 <= i < |hits| && hits[i].priceChangePct.Some? ==>
              Abs(hits[i].priceChangePct.value) <= Summarize(hits).performanceMetrics.maxChangePct
  {
    if |hits| > 0 {
      var init, last := hits[..|hits| - 1], hits[|hits| - 1];
      assert hits == init + [last];
      SummarizeMetrics(init);
      forall i | 0 <= i < |init| ensures hits[i] == init[i] { }
    }
  }

  /** The summary of a day, described by independent counts of its hits:
      total_hits is their number, each trigger bucket the number of hits of
      that kind, the price buckets the number of priced hits, and
      unique_tickers the distinct tickers, each once. */
  lemma SummarizeCounts(hits: seq<Hit>)
    ensures Summarize(hits).totalHits == |hits|
    ensures forall k: TriggerKind :: Summarize(hits).triggerTypes.Get(k) == multiset(TriggerNames(hits))[k.Name()]
    ensures Summarize(hits).priceRanges.Sum() == PricedCount(hits)
    ensures Distinct(Summarize(hits).uniqueTickers) && Elems(Summarize(hits).uniqueTickers) == Elems(Tickers(hits))
  {
    SummarizeTotal(hits);
    SummarizeTriggers(hits);
    SummarizePrices(hits);
    SummarizeTickers(hits);
  }

  // ---------------------------------------------------------------------------
  // Documents

  /** log_metadata. The version, purpose, scanner type and timezone are the
      same literals in every document the ledger writes. */
  datatype Metadata = Metadata(date: int, createdAt: Clock) {
    function LogVersion(): string { "2.0" }
    function Purpose(): string { "Stock scanner trigger logs for ChatGPT analysis" }
    function ScannerType(): string { "breakout_and_news_momentum" }
    function Timezone(): string { "UTC" }
  }

  datatype Document = Document(logMetadata: Metadata, dailySummary: Summary, scannerHits: seq<Hit>)

  function FreshMetadata(now: Clock): Metadata {
    Metadata(now.day, now)
  }

  /** The document log_scanner_hit starts when today has none. */
  function FreshDocument(now: Clock): Document {
    Document(FreshMetadata(now), ZeroSummary, [])
  }

  predicate SequentialIds(hits: seq<Hit>) {
    forall i :: 0 <= i < |hits| ==> hits[i].hitId == i + 1
  }

  /** A document that only appends have built: its hit ids are 1..n and its
      summary is the summary of its hits. */
  predicate WellFormed(doc: Document) {
    SequentialIds(doc.scannerHits) && doc.dailySummary == Summarize(doc.scannerHits)
  }

  /** The document after one successful append (hit appended, then summary
      updated). Appending the next id keeps a document well formed. */
  function Appended(doc: Document, hit: Hit): (r: Document)
    ensures r.logMetadata == doc.logMetadata
    ensures r.scannerHits == doc.scannerHits + [hit]
    ensures r.dailySummary.totalHits == doc.dailySummary.totalHits + 1
    ensures WellFormed(doc) && hit.hitId == |doc.scannerHits| + 1 ==> WellFormed(r)
  {
    var hits := doc.scannerHits + [hit];
    SnocPrefix(doc.scannerHits, hit);
    Document(doc.logMetadata, SummaryStep(doc.dailySummary, hit), hits)
  }

  lemma FreshDocumentWellFormed(now: Clock)
    ensures WellFormed(FreshDocument(now)) && FreshDocument(now).logMetadata.date == now.day
  {
  }

  /** What a well-formed document promises its readers. */
  lemma WellFormedSummary(doc: Document)
    requires WellFormed(doc)
    ensures doc.dailySummary.totalHits == |doc.scannerHits|
    ensures doc.dailySummary.triggerTypes.Sum() + UnknownTriggerCount(doc.scannerHits) == doc.dailySummary.totalHits
    ensures Distinct(doc.dailySummary.uniqueTickers)
    ensures |doc.dailySummary.uniqueTickers| <= doc.dailySummary.totalHits
    ensures doc.dailySummary.performanceMetrics.avgChangePct <= doc.dailySummary.performanceMetrics.maxChangePct
    ensures doc.dailySummary.performanceMetrics.avgVolumeSpike <= doc.dailySummary.performanceMetrics.maxVolumeSpike
  {
    SummarizeTotal(doc.scannerHits);
    SummarizeTriggerSum(doc.scannerHits);
    SummarizeTickers(doc.scannerHits);
    SummarizeMetrics(doc.scannerHits);
  }

  // ---------------------------------------------------------------------------
  // The in-memory document of log_scanner_hit

  /** The `logs` dictionary while log_scanner_hit works on it: loaded from
      today's file or freshly built, then mutated in place. */
  class DailyLog {
    var logMetadata: Metadata
    var dailySummary: Summary
    var scannerHits: seq<Hit>

    function Contents(): Document
      reads this
    {
      Document(logMetadata, dailySummary, scannerHits)
    }

    /** json.load of today's file. */
    constructor Load(doc: Document)
      ensures Contents() == doc
    {
      logMetadata := doc.logMetadata;
      dailySummary := doc.dailySummary;
      scannerHits := doc.scannerHits;
    }

    /** The document literal for a day without a file. */
    constructor Fresh(now: Clock)
      ensures Contents() == FreshDocument(now)
    {
      logMetadata := FreshMetadata(now);
      dailySummary := ZeroSummary;
      scannerHits := [];
    }

    /** log_scanner_hit's append of the new hit to the document's hit list. */
    method AppendHit(hit: Hit)
      modifies this
      ensures scannerHits == old(scannerHits) + [hit]
      ensures logMetadata == old(logMetadata) && dailySummary == old(dailySummary)
    {
      scannerHits := scannerHits + [hit];
    }

    /** update_daily_summary on the document: the counters, the ticker list,
        the two histograms and the running metrics, updated in place. */
    method UpdateDailySummary(hit: Hit)
      modifies this
      ensures dailySummary == SummaryStep(old(dailySummary), hit)
      ensures logMetadata == old(logMetadata) && scannerHits == old(scannerHits)
    {
      var totalHits := dailySummary.totalHits + 1;

      var tickers := dailySummary.uniqueTickers;
      if hit.ticker !in tickers {
        tickers := tickers + [hit.ticker];
      }

      var t := dailySummary.triggerTypes;
      match ParseTrigger(hit.primaryTrigger) {
        case Some(MinuteBreakout) => t := t.(minuteBreakout := t.minuteBreakout + 1);
        case Some(BreakingNews) => t := t.(breakingNews := t.breakingNews + 1);
        case Some(VolumeSpike) => t := t.(volumeSpike := t.volumeSpike + 1);
        case Some(BreakoutAndNews) => t := t.(breakoutAndNews := t.breakoutAndNews + 1);
        case None =>
      }
      assert t == CountTrigger(dailySummary.triggerTypes, hit.primaryTrigger);

      var p := dailySummary.priceRanges;
      if Truthy(hit.price) {
        if hit.price.value < 5.0 {
          p := p.(under5 := p.under5 + 1);
        } else if hit.price.value < 10.0 {
          p := p.(from5To10 := p.from5To10 + 1);
        } else if hit.price.value < 15.0 {
          p := p.(from10To15 := p.from10To15 + 1);
        } else {
          p := p.(from15To20 := p.from15To20 + 1);
        }
      }
      assert p == CountPrice(dailySummary.priceRanges, hit.price);

      var m := dailySummary.performanceMetrics;
      if hit.priceChangePct.Some? {
        var change := Abs(hit.priceChangePct.value);
        var currentAvg := m.avgChangePct;
        m := m.(avgChangePct := (currentAvg + change) / 2.0);
        m := m.(maxChangePct := Max(m.maxChangePct, change));
      }
      assert m == BlendChange(dailySummary.performanceMetrics, hit.priceChangePct);
      if hit.relativeVolume.Some? {
        var spike := hit.relativeVolume.value;
        var currentAvg := m.avgVolumeSpike;
        m := m.(avgVolumeSpike := (currentAvg + spike) / 2.0);
        m := m.(maxVolumeSpike := Max(m.maxVolumeSpike, spike));
      }

      dailySummary := Summary(totalHits, tickers, t, p, m);
    }
  }
}
