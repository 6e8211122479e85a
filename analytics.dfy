/** The batch analytics over a list of hits: calculate_comprehensive_stats
    (counts, the trigger histogram, and mean/min/max of the truthy prices,
    changes and relative volumes) and analyze_patterns (Counter histograms and
    the ten most frequent tickers). */
module Analytics {
  import opened Common
  import opened Classifier
  import opened DailyLedger

  // ---------------------------------------------------------------------------
  // Lists of numbers

  function Sum(xs: seq<real>): real {
    if |xs| == 0 then 0.0 else xs[0] + Sum(xs[1..])
  }

  /** min(xs), for the non-empty lists the source guards it with. */
  function MinOf(xs: seq<real>): (m: real)
    requires |xs| > 0
    ensures m in xs
    ensures forall x :: x in xs ==> m <= x
  {
    if |xs| == 1 then xs[0]
    else
      var rest := MinOf(xs[1..]);
      assert forall x :: x in xs ==> x == xs[0] || x in xs[1..];
      if xs[0] <= rest then xs[0] else rest
  }

  /** max(xs), for the non-empty lists the source guards it with. */
  function MaxOf(xs: seq<real>): (m: real)
    requires |xs| > 0
    ensures m in xs
    ensures forall x :: x in xs ==> x <= m
  {
    if |xs| == 1 then xs[0]
    else
      var rest := MaxOf(xs[1..]);
      assert forall x :: x in xs ==> x == xs[0] || x in xs[1..];
      if xs[0] >= rest then xs[0] else rest
  }

  /** A sum of n values between lo and hi lies between n * lo and n * hi. */
  lemma {:induction false} SumBounds(xs: seq<real>, lo: real, hi: real)
    requires forall i :: 0 <= i < |xs| ==> lo <= xs[i] <= hi
    ensures (|xs| as real) * lo <= Sum(xs) <= (|xs| as real) * hi
  {
    if |xs| > 0 {
      var rest := xs[1..];
      assert forall i :: 0 <= i < |rest| ==> rest[i] == xs[i + 1];
      SumBounds(rest, lo, hi);
      var n := |rest| as real;
      assert (n + 1.0) * lo == lo + n * lo;
      assert (n + 1.0) * hi == hi + n * hi;
    }
  }

  /** The average the statistics report: the sum over the count, and 0 for
      an empty list. */
  function Mean(xs: seq<real>): real {
    if |xs| == 0 then 0.0 else Sum(xs) / (|xs| as real)
  }

  lemma DivideBounds(a: real, n: real, lo: real, hi: real)
    requires n > 0.0 && n * lo <= a <= n * hi
    ensures lo <= a / n <= hi
  {
    assert a / n - lo == (a - n * lo) / n;
    assert hi - a / n == (n * hi - a) / n;
  }

  lemma RatioAtLeastOne(a: real, n: real)
    requires 0.0 < n <= a
    ensures 1.0 <= a / n
  {
    assert a / n - n / n == (a - n) / n;
  }

  /** The mean of values between lo and hi lies between lo and hi. */
  lemma MeanBounds(xs: seq<real>, lo: real, hi: real)
    requires |xs| > 0
    requires forall i :: 0 <= i < |xs| ==> lo <= xs[i] <= hi
    ensures lo <= Mean(xs) <= hi
  {
    SumBounds(xs, lo, hi);
    DivideBounds(Sum(xs), |xs| as real, lo, hi);
  }

  /** The mean of a non-empty list lies between its minimum and maximum. */
  lemma MeanBetweenExtremes(xs: seq<real>)
    requires |xs| > 0
    ensures MinOf(xs) <= Mean(xs) <= MaxOf(xs)
  {
    assert forall i :: 0 <= i < |xs| ==> xs[i] in xs;
    MeanBounds(xs, MinOf(xs), MaxOf(xs));
  }

  /** The list comprehension that keeps the truthy numbers in order: each
      non-zero value is kept as often as it occurs, None and 0 are dropped. */
  function TruthyValues(xs: seq<Option<real>>): (r: seq<real>)
    ensures |r| <= |xs|
    ensures forall v :: v in r ==> v != 0.0 && Some(v) in xs
    ensures forall i :: 0 <= i < |xs| && Truthy(xs[i]) ==> xs[i].value in r
    ensures forall v :: multiset(r)[v] == if v == 0.0 then 0 else multiset(xs)[Some(v)]
  {
    if |xs| == 0 then []
    else
      var rest := TruthyValues(xs[1..]);
      assert xs == [xs[0]] + xs[1..];
      assert forall i :: 1 <= i < |xs| ==> xs[i] == xs[1..][i - 1];
      assert forall v :: Some(v) in xs[1..] ==> Some(v) in xs;
      if Truthy(xs[0]) then [xs[0].value] + rest else rest
  }

  /** The list comprehension that keeps the values at or above a bound, in
      order: each such value is kept as often as it occurs, no other value
      is kept. Its length is the count the statistics report. */
  function AtLeast(xs: seq<real>, bound: real): (r: seq<real>)
    ensures forall v :: multiset(r)[v] == if v >= bound then multiset(xs)[v] else 0
    ensures |r| <= |xs|
  {
    if |xs| == 0 then []
    else
      var rest := AtLeast(xs[1..], bound);
      assert xs == [xs[0]] + xs[1..];
      if xs[0] >= bound then [xs[0]] + rest else rest
  }

  /** Every value is kept iff every value reaches the bound, and none is
      kept iff none does. */
  lemma {:induction false} AtLeastLength(xs: seq<real>, bound: real)
    ensures |AtLeast(xs, bound)| == |xs| <==> forall i :: 0 <= i < |xs| ==> xs[i] >= bound
    ensures |AtLeast(xs, bound)| == 0 <==> forall i :: 0 <= i < |xs| ==> xs[i] < bound
  {
    if |xs| > 0 {
      AtLeastLength(xs[1..], bound);
      assert forall i :: 1 <= i < |xs| ==> xs[i] == xs[1..][i - 1];
    }
  }

  // ---------------------------------------------------------------------------
  // calculate_comprehensive_stats

  /** Mean, minimum and maximum of a list; all 0 for an empty list. */
  datatype Spread = Spread(avg: real, min: real, max: real)

  function SpreadOf(xs: seq<real>): (r: Spread)
    ensures |xs| == 0 ==> r == Spread(0.0, 0.0, 0.0)
    ensures |xs| > 0 ==> r.avg == Mean(xs)
    ensures |xs| > 0 ==> r.min in xs && r.max in xs && r.min <= r.avg <= r.max
    ensures |xs| > 0 ==> forall x :: x in xs ==> r.min <= x <= r.max
  {
    if |xs| == 0 then Spread(0.0, 0.0, 0.0)
    else
      assert forall i :: 0 <= i < |xs| ==> xs[i] in xs;
      MeanBounds(xs, MinOf(xs), MaxOf(xs));
      Spread(Mean(xs), MinOf(xs), MaxOf(xs))
  }

  function Prices(hits: seq<Hit>): seq<Option<real>> {
    seq(|hits|, i requires 0 <= i < |hits| => hits[i].price)
  }

  function Changes(hits: seq<Hit>): seq<Option<real>> {
    seq(|hits|, i requires 0 <= i < |hits| => hits[i].priceChangePct)
  }

  function Volumes(hits: seq<Hit>): seq<Option<real>> {
    seq(|hits|, i requires 0 <= i < |hits| => hits[i].relativeVolume)
  }

  /** The dictionary calculate_comprehensive_stats returns; NoStats is `{}`.
      price and performance span avg/min/max, volume only avg/max. */
  datatype Stats =
    | NoStats
    | Stats(
        totalHits: nat,
        uniqueTickers: nat,
        hitFrequency: real,
        triggerDistribution: seq<Entry<string>>,
        priceStatistics: Spread,
        performanceStatistics: Spread,
        avgVolumeSpike: real,
        maxVolumeSpike: real,
        extremeSpikesCount: nat)

  method CalculateComprehensiveStats(hits: seq<Hit>) returns (r: Stats)
    ensures r.NoStats? <==> |hits| == 0
    ensures r.Stats? ==>
      && r.totalHits == |hits|
      && r.uniqueTickers == |Elems(Tickers(hits))|
      && 1 <= r.uniqueTickers <= r.totalHits
      && 1.0 <= r.hitFrequency == (r.totalHits as real) / (r.uniqueTickers as real)
    ensures r.Stats? ==>
      && r.triggerDistribution == Tally(TriggerNames(hits))
      && Total(r.triggerDistribution) == r.totalHits
      && forall t :: CountOf(r.triggerDistribution, t) == multiset(TriggerNames(hits))[t]
    ensures r.Stats? ==>
      && r.priceStatistics == SpreadOf(TruthyValues(Prices(hits)))
      && r.performanceStatistics == SpreadOf(TruthyValues(Changes(hits)))
      && r.avgVolumeSpike == SpreadOf(TruthyValues(Volumes(hits))).avg
      && r.maxVolumeSpike == SpreadOf(TruthyValues(Volumes(hits))).max
      && r.extremeSpikesCount == |AtLeast(TruthyValues(Volumes(hits)), 50.0)|
      && r.extremeSpikesCount <= |TruthyValues(Volumes(hits))|
  {
    if |hits| == 0 {
      return NoStats;
    }
    var tickers := Tickers(hits);
    var uniqueTickers := |Elems(tickers)|;
    ElemsBound(tickers);
    assert tickers[0] in Elems(tickers);
    assert {tickers[0]} <= Elems(tickers);

    var distribution := TriggerDistribution(TriggerNames(hits));
    var total := |hits| as real;
    var frequency := total / (uniqueTickers as real);
    RatioAtLeastOne(total, uniqueTickers as real);

    var volumes := SpreadOf(TruthyValues(Volumes(hits)));
    r := Stats(|hits|, uniqueTickers, frequency, distribution,
               SpreadOf(TruthyValues(Prices(hits))), SpreadOf(TruthyValues(Changes(hits))),
               volumes.avg, volumes.max, |AtLeast(TruthyValues(Volumes(hits)), 50.0)|);
  }

  /** The dict-increment loop building trigger_distribution. */
  method TriggerDistribution(triggerTypes: seq<string>) returns (distribution: seq<Entry<string>>)
    ensures distribution == Tally(triggerTypes)
  {
    distribution := [];
    var i := 0;
    while i < |triggerTypes|
      invariant 0 <= i <= |triggerTypes|
      invariant distribution == Tally(triggerTypes[..i])
    {
      assert triggerTypes[..i + 1][..i] == triggerTypes[..i];
      distribution := Bump(distribution, triggerTypes[i]);
      i := i + 1;
    }
    assert triggerTypes[..i] == triggerTypes;
  }

  /** The batch statistics agree with the incremental daily summary: the
      number of distinct tickers is the length of unique_tickers, and the
      count of each known trigger is its trigger_types bucket. */
  lemma StatsAgreeWithSummary(hits: seq<Hit>)
    ensures |Elems(Tickers(hits))| == |Summarize(hits).uniqueTickers|
    ensures forall k: TriggerKind :: CountOf(Tally(TriggerNames(hits)), k.Name()) == Summarize(hits).triggerTypes.Get(k)
  {
    SummarizeTickers(hits);
    DistinctElems(Summarize(hits).uniqueTickers);
    SummarizeTriggers(hits);
  }

  // ---------------------------------------------------------------------------
  // analyze_patterns

  function Sessions(hits: seq<Hit>): seq<Session> {
    seq(|hits|, i requires 0 <= i < |hits| => hits[i].marketSession)
  }

  function RiskLevels(hits: seq<Hit>): seq<RiskLevel> {
    seq(|hits|, i requires 0 <= i < |hits| => hits[i].riskLevel)
  }

  function Strengths(hits: seq<Hit>): seq<real> {
    seq(|hits|, i requires 0 <= i < |hits| => hits[i].signalStrength as real)
  }

  datatype Patterns = Patterns(
    topTickers: seq<Entry<string>>,
    sessionEffectiveness: seq<Entry<Session>>,
    riskDistribution: seq<Entry<RiskLevel>>,
    signalStrengthAvg: real,
    highConfidenceSignals: nat)

  /** top_tickers, the ten most common tickers: at most ten distinct
      tickers with their true counts, highest first, and no ticker left out
      occurs more often than one kept. Among tickers of equal frequency the
      ones kept, and their order, are those of the counting dict, which
      lists tickers in the order they are first seen (TallyFirstSeen). */
  function TopTickers(tickers: seq<string>): (top: seq<Entry<string>>)
    ensures |top| == MinNat(10, |Elems(tickers)|) && |top| <= 10
    ensures Descending(top)
    ensures forall i, j :: 0 <= i < j < |top| ==> top[i].key != top[j].key
    ensures forall e :: e in top ==> e.key in tickers && e.count == multiset(tickers)[e.key]
    ensures forall t, i :: t in tickers && (forall e :: e in top ==> e.key != t) && 0 <= i < |top|
              ==> multiset(tickers)[t] <= top[i].count
    ensures forall c :: WithCount(top, c) <= WithCount(Tally(tickers), c)
  {
    var top := MostCommon(Tally(tickers), 10);
    TopTickersAreCounted(tickers, top);
    TopTickersAreDistinct(tickers, top);
    top
  }

  lemma TopTickersAreDistinct(tickers: seq<string>, top: seq<Entry<string>>)
    requires top == MostCommon(Tally(tickers), 10)
    ensures forall i, j :: 0 <= i < j < |top| ==> top[i].key != top[j].key
  {
    DistinctKeysSub(Tally(tickers), top);
  }

  /** analyze_patterns: the top tickers, the session and risk histograms,
      the average signal strength and the count of strengths of 8 or more. */
  function AnalyzePatterns(hits: seq<Hit>): (r: Patterns)
    ensures r.topTickers == TopTickers(Tickers(hits))
    ensures |r.topTickers| <= 10
    ensures r.sessionEffectiveness == Tally(Sessions(hits)) && r.riskDistribution == Tally(RiskLevels(hits))
    ensures DistinctKeys(r.sessionEffectiveness) && DistinctKeys(r.riskDistribution)
    ensures forall s :: HasKey(r.sessionEffectiveness, s) <==> s in Sessions(hits)
    ensures forall k :: HasKey(r.riskDistribution, k) <==> k in RiskLevels(hits)
    ensures Total(r.sessionEffectiveness) == |hits| && Total(r.riskDistribution) == |hits|
    ensures forall s :: CountOf(r.sessionEffectiveness, s) == multiset(Sessions(hits))[s]
    ensures forall k :: CountOf(r.riskDistribution, k) == multiset(RiskLevels(hits))[k]
    ensures r.signalStrengthAvg == Mean(Strengths(hits))
    ensures r.highConfidenceSignals == |AtLeast(Strengths(hits), 8.0)| <= |hits|
    ensures |hits| == 0 ==> r.signalStrengthAvg == 0.0 && r.highConfidenceSignals == 0
  {
    Patterns(TopTickers(Tickers(hits)), Tally(Sessions(hits)), Tally(RiskLevels(hits)),
             Mean(Strengths(hits)), |AtLeast(Strengths(hits), 8.0)|)
  }

  lemma TopTickersAreCounted(tickers: seq<string>, top: seq<Entry<string>>)
    requires top == MostCommon(Tally(tickers), 10)
    ensures forall e :: e in top ==> e.key in tickers && e.count == multiset(tickers)[e.key]
    ensures forall t, i :: t in tickers && (forall e :: e in top ==> e.key != t) && 0 <= i < |top|
              ==> multiset(tickers)[t] <= top[i].count
  {
    forall e | e in top ensures e.key in tickers && e.count == multiset(tickers)[e.key] {
      TallyEntry(tickers, e);
    }
    forall t, i | t in tickers && (forall e :: e in top ==> e.key != t) && 0 <= i < |top|
      ensures multiset(tickers)[t] <= top[i].count
    {
      HasKeyEntry(Tally(tickers), t);
      var e := Entry(t, CountOf(Tally(tickers), t));
      assert e !in top;
    }
  }

  /** For hits built by log_scanner_hit (strength 5..10), the average signal
      strength of a non-empty list lies in [5, 10]. */
  lemma SignalAverageBounds(hits: seq<Hit>)
    requires |hits| > 0
    requires forall i :: 0 <= i < |hits| ==> 5 <= hits[i].signalStrength <= 10
    ensures 5.0 <= AnalyzePatterns(hits).signalStrengthAvg <= 10.0
  {
    var s := Strengths(hits);
    MeanBounds(s, 5.0, 10.0);
  }
}
