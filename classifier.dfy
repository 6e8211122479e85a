/** The pure classifiers that enrich a scanner hit: market session from the
    hour of day, price and volume-spike buckets, the fixed trigger
    descriptions, the additive signal-strength score and the risk rule chain.
    Prices, percentages and relative volumes are reals; a missing value is
    None, and, as in Python, 0 behaves like a missing value wherever the code
    tests truthiness. */
module Classifier {
  import opened Common

  const MicrosPerHour: int := 3_600_000_000
  const MicrosPerDay: int := 86_400_000_000

  /** Microseconds since local midnight. */
  type TimeOfDay = t: int | 0 <= t < 86_400_000_000

  /** A reading of datetime.now(): a day number (days since some epoch, so
      yesterday is day - 1) and the time of day. */
  datatype Clock = Clock(day: int, time: TimeOfDay)

  /** datetime.hour: the whole hours elapsed since midnight. */
  function Hour(now: Clock): (h: int)
    ensures 0 <= h < 24
    ensures h * MicrosPerHour <= now.time < (h + 1) * MicrosPerHour
  {
    now.time / MicrosPerHour
  }

  // ---------------------------------------------------------------------------
  // Market session

  datatype Session = PreMarket | RegularHours | AfterHours | Overnight {
    function Name(): string {
      match this
      case PreMarket => "pre_market"
      case RegularHours => "regular_hours"
      case AfterHours => "after_hours"
      case Overnight => "overnight"
    }
  }

  /** get_market_session: every hour of the day lands in exactly one session. */
  function MarketSession(now: Clock): (s: Session)
    ensures s == RegularHours <==> 9 <= Hour(now) < 16
    ensures s == PreMarket <==> 4 <= Hour(now) < 9
    ensures s == AfterHours <==> 16 <= Hour(now) <= 20
    ensures s == Overnight <==> Hour(now) < 4 || 20 < Hour(now)
  {
    var hour := Hour(now);
    if 9 <= hour < 16 then RegularHours
    else if 4 <= hour < 9 then PreMarket
    else if 16 <= hour <= 20 then AfterHours
    else Overnight
  }

  // ---------------------------------------------------------------------------
  // Price and volume buckets

  datatype PriceCategory = PennyStock | LowPriced | MidPriced | HigherPriced | UnknownPrice {
    function Name(): string {
      match this
      case PennyStock => "penny_stock"
      case LowPriced => "low_priced"
      case MidPriced => "mid_priced"
      case HigherPriced => "higher_priced"
      case UnknownPrice => "unknown"
    }
  }

  /** categorize_price: `unknown` exactly for a falsy price; otherwise half-open
      buckets [..5), [5,10), [10,15), [15,..), so 5, 10 and 15 go up. */
  function CategorizePrice(price: Option<real>): (c: PriceCategory)
    ensures c == UnknownPrice <==> !Truthy(price)
    ensures c == PennyStock <==> Truthy(price) && price.value < 5.0
    ensures c == LowPriced <==> Truthy(price) && 5.0 <= price.value < 10.0
    ensures c == MidPriced <==> Truthy(price) && 10.0 <= price.value < 15.0
    ensures c == HigherPriced <==> Truthy(price) && 15.0 <= price.value
  {
    if !Truthy(price) then UnknownPrice
    else if price.value < 5.0 then PennyStock
    else if price.value < 10.0 then LowPriced
    else if price.value < 15.0 then MidPriced
    else HigherPriced
  }

  datatype VolumeCategory = NormalVolume | ModerateSpike | HighSpike | MassiveSpike | ExtremeSpike | NoVolume {
    function Name(): string {
      match this
      case NormalVolume => "normal_volume"
      case ModerateSpike => "moderate_spike"
      case HighSpike => "high_spike"
      case MassiveSpike => "massive_spike"
      case ExtremeSpike => "extreme_spike"
      case NoVolume => "normal"
    }
  }

  /** categorize_volume_spike: `normal` exactly for a falsy relative volume;
      otherwise thresholds 5, 10, 20 and 50, each belonging to the higher bucket. */
  function CategorizeVolumeSpike(relVolume: Option<real>): (c: VolumeCategory)
    ensures c == NoVolume <==> !Truthy(relVolume)
    ensures c == NormalVolume <==> Truthy(relVolume) && relVolume.value < 5.0
    ensures c == ModerateSpike <==> Truthy(relVolume) && 5.0 <= relVolume.value < 10.0
    ensures c == HighSpike <==> Truthy(relVolume) && 10.0 <= relVolume.value < 20.0
    ensures c == MassiveSpike <==> Truthy(relVolume) && 20.0 <= relVolume.value < 50.0
    ensures c == ExtremeSpike <==> Truthy(relVolume) && 50.0 <= relVolume.value
  {
    if !Truthy(relVolume) then NoVolume
    else if relVolume.value >= 50.0 then ExtremeSpike
    else if relVolume.value >= 20.0 then MassiveSpike
    else if relVolume.value >= 10.0 then HighSpike
    else if relVolume.value >= 5.0 then ModerateSpike
    else NormalVolume
  }

  // ---------------------------------------------------------------------------
  // Trigger kinds and their descriptions

  /** The four trigger kinds the daily summary counts. Any other trigger
      string is recorded as given but counted nowhere. */
  datatype TriggerKind = MinuteBreakout | BreakingNews | VolumeSpike | BreakoutAndNews {
    function Name(): string {
      match this
      case MinuteBreakout => "minute_breakout"
      case BreakingNews => "breaking_news"
      case VolumeSpike => "volume_spike"
      case BreakoutAndNews => "breakout_and_news"
    }
  }

  /** Membership of a trigger string among the known kinds. */
  function ParseTrigger(s: string): (k: Option<TriggerKind>)
    ensures k.Some? ==> k.value.Name() == s
    ensures forall kind: TriggerKind :: kind.Name() == s ==> k == Some(kind)
  {
    if s == MinuteBreakout.Name() then Some(MinuteBreakout)
    else if s == BreakingNews.Name() then Some(BreakingNews)
    else if s == VolumeSpike.Name() then Some(VolumeSpike)
    else if s == BreakoutAndNews.Name() then Some(BreakoutAndNews)
    else None
  }

  const UnknownTriggerText: string := "Unknown trigger type"

  /** get_trigger_description: a fixed lookup with a fallback text. */
  function TriggerDescription(trigger: string): (d: string)
    ensures d == UnknownTriggerText <==> ParseTrigger(trigger).None?
  {
    var descriptions := map[
      MinuteBreakout.Name() := "5%+ price move within 1 minute timeframe",
      BreakingNews.Name() := "Recent news mention in last 2 hours",
      VolumeSpike.Name() := "10x+ volume explosion without news/breakout",
      BreakoutAndNews.Name() := "Both rapid price move AND breaking news"];
    if trigger in descriptions then descriptions[trigger] else UnknownTriggerText
  }

  /** Distinct known triggers have distinct descriptions, so a description
      names its trigger. */
  lemma DescriptionIdentifiesTrigger(a: string, b: string)
    requires ParseTrigger(a).Some? && TriggerDescription(a) == TriggerDescription(b)
    ensures a == b
  {
  }

  // ---------------------------------------------------------------------------
  // Signal strength

  /** The trigger fields the scanner posts; every key is present and any
      numeric one may be None (the /log-hit route fills them with data.get). */
  datatype TriggerData = TriggerData(
    triggerType: string,
    price: Option<real>,
    changePct: Option<real>,
    volume: Option<int>,
    relVolume: Option<real>,
    breakoutDetected: bool,
    newsDetected: bool,
    momentumScore: Option<int>)

  /** Points for the size of the move: +2 from 15%, +1 from 10%. */
  function MoveScore(changePct: real): (p: int)
    ensures 0 <= p <= 2
    ensures p == 2 <==> Abs(changePct) >= 15.0
    ensures p == 1 <==> 10.0 <= Abs(changePct) < 15.0
  {
    var move := Abs(changePct);
    if move >= 15.0 then 2 else if move >= 10.0 then 1 else 0
  }

  /** Points for the volume spike: +2 from 50x, +1 from 20x. */
  function VolumeScore(relVolume: real): (p: int)
    ensures 0 <= p <= 2
    ensures p == 2 <==> relVolume >= 50.0
    ensures p == 1 <==> 20.0 <= relVolume < 50.0
  {
    if relVolume >= 50.0 then 2 else if relVolume >= 20.0 then 1 else 0
  }

  function ClampScore(score: int): int {
    if score > 10 then 10 else if score < 1 then 1 else score
  }

  /** calculate_signal_strength. Taking the absolute value of, or comparing,
      a missing number raises, so a missing change or relative volume is an
      error (None here). Otherwise the score is base 5 plus the move and
      volume points plus 1 when both flags are set, which already lies in
      [5,10]: the clamp at the end never changes it. */
  function SignalStrength(data: TriggerData): (r: Option<int>)
    ensures r.None? <==> data.changePct.None? || data.relVolume.None?
    ensures r.Some? ==> 5 <= r.value <= 10
    ensures r.Some? ==> r.value == 5 + MoveScore(data.changePct.value) + VolumeScore(data.relVolume.value)
                                   + (if data.breakoutDetected && data.newsDetected then 1 else 0)
  {
    if data.changePct.None? || data.relVolume.None? then None
    else
      var score := 5 + MoveScore(data.changePct.value) + VolumeScore(data.relVolume.value);
      var score' := if data.breakoutDetected && data.newsDetected then score + 1 else score;
      Some(ClampScore(score'))
  }

  /** A larger move never lowers the signal strength. */
  lemma SignalStrengthMonotoneInMove(data: TriggerData, bigger: real)
    requires data.changePct.Some? && data.relVolume.Some?
    requires Abs(data.changePct.value) <= Abs(bigger)
    ensures SignalStrength(data).value <= SignalStrength(data.(changePct := Some(bigger))).value
  {
  }

  // ---------------------------------------------------------------------------
  // Risk level

  datatype RiskLevel = Low | Moderate | High | VeryHigh | UnknownRisk {
    function Name(): string {
      match this
      case Low => "low"
      case Moderate => "moderate"
      case High => "high"
      case VeryHigh => "very_high"
      case UnknownRisk => "unknown"
    }
  }

  /** assess_risk_level: the ordered rule chain, with a falsy change read as 0
      and a falsy relative volume read as 1. */
  function AssessRiskLevel(price: Option<real>, changePct: Option<real>, relVolume: Option<real>): (r: RiskLevel)
    ensures r == UnknownRisk <==> !Truthy(price)
    ensures r == VeryHigh <==> Truthy(price) && price.value < 5.0 && Abs(OrElse(changePct, 0.0)) > 20.0
    ensures r == High <==> Truthy(price) && !(price.value < 5.0 && Abs(OrElse(changePct, 0.0)) > 20.0)
                           && (price.value < 5.0 || Abs(OrElse(changePct, 0.0)) > 15.0)
    ensures r == Moderate <==> Truthy(price) && price.value >= 5.0 && Abs(OrElse(changePct, 0.0)) <= 15.0
                               && (Abs(OrElse(changePct, 0.0)) > 10.0 || OrElse(relVolume, 1.0) > 25.0)
    ensures r == Low <==> Truthy(price) && price.value >= 5.0 && Abs(OrElse(changePct, 0.0)) <= 10.0
                          && OrElse(relVolume, 1.0) <= 25.0
  {
    if !Truthy(price) then UnknownRisk
    else
      var move := Abs(OrElse(changePct, 0.0));
      if price.value < 5.0 && move > 20.0 then VeryHigh
      else if price.value < 5.0 || move > 15.0 then High
      else if move > 10.0 || OrElse(relVolume, 1.0) > 25.0 then Moderate
      else Low
  }

  function Severity(r: RiskLevel): int {
    match r
    case UnknownRisk => 0
    case Low => 1
    case Moderate => 2
    case High => 3
    case VeryHigh => 4
  }

  /** For a known price, a larger move never lowers the risk level. */
  lemma RiskMonotoneInMove(price: Option<real>, change: real, bigger: real, relVolume: Option<real>)
    requires Truthy(price) && Abs(change) <= Abs(bigger)
    ensures Severity(AssessRiskLevel(price, Some(change), relVolume))
         <= Severity(AssessRiskLevel(price, Some(bigger), relVolume))
  {
  }
}
