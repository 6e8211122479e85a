/** The momentum screener's pure predicates: the quick basic filter, the full
    momentum filter over a criteria dictionary with per-key defaults, the
    float and relative-volume defaulting, and catalyst detection by keyword
    search over news articles. */
module Screener {
  import opened Common

  /** The criteria dictionary: each key may be missing (None), and a missing
      key takes the default written next to its accessor. */
  datatype Criteria = Criteria(
    minPrice: Option<real>,
    maxPrice: Option<real>,
    minVolume: Option<int>,
    minChangePct: Option<real>,
    maxFloatMillions: Option<real>,
    minRelativeVolume: Option<real>,
    requireCatalyst: Option<bool>)
  {
    function MinPrice(): real { minPrice.GetOr(2.0) }
    function MaxPrice(): real { maxPrice.GetOr(20.0) }
    function MinVolume(): int { minVolume.GetOr(100000) }
    function MinChangePct(): real { minChangePct.GetOr(10.0) }
    function MaxFloatMillions(): real { maxFloatMillions.GetOr(20.0) }
    function MinRelativeVolume(): real { minRelativeVolume.GetOr(5.0) }
    function RequireCatalyst(): bool { requireCatalyst.GetOr(false) }
  }

  /** An empty criteria dictionary: every default applies. */
  const NoCriteria: Criteria := Criteria(None, None, None, None, None, None, None)

  /** _meets_basic_criteria: the price range is inclusive at both ends, the
      volume and change minimums are inclusive. */
  function MeetsBasicCriteria(price: real, volume: int, changePct: real, c: Criteria): (r: bool)
    ensures r <==> c.MinPrice() <= price <= c.MaxPrice() && volume >= c.MinVolume() && changePct >= c.MinChangePct()
  {
    if price < c.MinPrice() || price > c.MaxPrice() then false
    else if volume < c.MinVolume() then false
    else if changePct < c.MinChangePct() then false
    else true
  }

  /** _meets_momentum_criteria: the same change and price tests, a float
      ceiling, a relative-volume floor, and a catalyst only when required.
      The volume argument is not consulted. */
  function MeetsMomentumCriteria(price: real, volume: int, changePct: real, floatMillions: real,
                                 relativeVolume: real, hasCatalyst: bool, c: Criteria): (r: bool)
    ensures r <==> && changePct >= c.MinChangePct()
                   && c.MinPrice() <= price <= c.MaxPrice()
                   && floatMillions <= c.MaxFloatMillions()
                   && relativeVolume >= c.MinRelativeVolume()
                   && (c.RequireCatalyst() ==> hasCatalyst)
  {
    if changePct < c.MinChangePct() then false
    else if price < c.MinPrice() || price > c.MaxPrice() then false
    else if floatMillions > c.MaxFloatMillions() then false
    else if relativeVolume < c.MinRelativeVolume() then false
    else if c.RequireCatalyst() && !hasCatalyst then false
    else true
  }

  /** With no criteria given, the basic filter is $2-$20, 100k shares and a 10% gain. */
  lemma DefaultBasicCriteria(price: real, volume: int, changePct: real)
    ensures MeetsBasicCriteria(price, volume, changePct, NoCriteria)
        <==> 2.0 <= price <= 20.0 && volume >= 100000 && changePct >= 10.0
  {
  }

  /** A stock that passes the momentum filter passes the price and change
      tests of the basic filter under the same criteria, so only the volume
      test can tell them apart. */
  lemma MomentumImpliesBasicPriceAndChange(price: real, volume: int, changePct: real, floatMillions: real,
                                           relativeVolume: real, hasCatalyst: bool, c: Criteria)
    requires MeetsMomentumCriteria(price, volume, changePct, floatMillions, relativeVolume, hasCatalyst, c)
    ensures volume >= c.MinVolume() <==> MeetsBasicCriteria(price, volume, changePct, c)
  {
  }

  /** When a catalyst is not required (or the key is missing), whether one
      was found does not change the verdict. */
  lemma CatalystIrrelevantUnlessRequired(price: real, volume: int, changePct: real, floatMillions: real,
                                         relativeVolume: real, c: Criteria)
    requires !c.RequireCatalyst()
    ensures MeetsMomentumCriteria(price, volume, changePct, floatMillions, relativeVolume, true, c)
         == MeetsMomentumCriteria(price, volume, changePct, floatMillions, relativeVolume, false, c)
  {
  }

  // ---------------------------------------------------------------------------
  // Defaulting in screen_stocks

  /** Float in millions of shares; 999 when shares outstanding are unknown (0). */
  function FloatMillions(sharesOutstanding: int): (f: real)
    ensures sharesOutstanding > 0 ==> f * 1_000_000.0 == sharesOutstanding as real
    ensures sharesOutstanding <= 0 ==> f == 999.0
  {
    if sharesOutstanding > 0 then (sharesOutstanding as real) / 1_000_000.0 else 999.0
  }

  /** Volume over average volume; 0 when the average is not positive. */
  function RelativeVolume(volume: int, avgVolume: real): (r: real)
    ensures avgVolume > 0.0 ==> r * avgVolume == volume as real
    ensures avgVolume <= 0.0 ==> r == 0.0
  {
    if avgVolume > 0.0 then (volume as real) / avgVolume else 0.0
  }

  /** An unknown float always fails a float ceiling below 999, the default
      of 20 included. */
  lemma UnknownFloatRejected(price: real, volume: int, changePct: real, sharesOutstanding: int,
                             relativeVolume: real, hasCatalyst: bool, c: Criteria)
    requires sharesOutstanding <= 0 && c.MaxFloatMillions() < 999.0
    ensures !MeetsMomentumCriteria(price, volume, changePct, FloatMillions(sharesOutstanding),
                                   relativeVolume, hasCatalyst, c)
  {
  }

  /** A zero average volume always fails a positive relative-volume floor,
      the default of 5 included. */
  lemma ZeroAverageVolumeRejected(price: real, volume: int, changePct: real, floatMillions: real,
                                  avgVolume: real, hasCatalyst: bool, c: Criteria)
    requires avgVolume <= 0.0 && c.MinRelativeVolume() > 0.0
    ensures !MeetsMomentumCriteria(price, volume, changePct, floatMillions,
                                   RelativeVolume(volume, avgVolume), hasCatalyst, c)
  {
  }

  // ---------------------------------------------------------------------------
  // Catalyst detection

  /** A news item; a missing headline or summary reads as "". */
  datatype Article = Article(headline: Option<string>, summary: Option<string>)

  const CatalystKeywords: seq<string> := [
    "earnings", "fda", "approval", "acquisition", "merger", "partnership",
    "contract", "breakthrough", "clinical", "trial", "results", "guidance",
    "upgrade", "downgrade", "analyst", "buyout", "dividend", "split",
    "patent", "launch", "expansion", "revenue", "beat", "miss"]

  /** Does some keyword occur in the headline or in the summary? */
  function MentionsAny(headline: string, summary: string, keywords: seq<string>): (r: bool)
    ensures r <==> exists k :: 0 <= k < |keywords| && (Contains(headline, keywords[k]) || Contains(summary, keywords[k]))
  {
    if |keywords| == 0 then false
    else if Contains(headline, keywords[0]) || Contains(summary, keywords[0]) then true
    else
      var rest := MentionsAny(headline, summary, keywords[1..]);
      assert forall k :: 1 <= k < |keywords| ==> keywords[k] == keywords[1..][k - 1];
      rest
  }

  /** The inner loop for one article, on the lowercased texts. */
  predicate Mentions(a: Article, keywords: seq<string>) {
    MentionsAny(Lower(a.headline.GetOr("")), Lower(a.summary.GetOr("")), keywords)
  }

  /** The outer loop: the first article that mentions a keyword stops the scan. */
  function AnyMentions(news: seq<Article>, keywords: seq<string>): (r: bool)
    ensures r <==> exists i :: 0 <= i < |news| && Mentions(news[i], keywords)
  {
    if |news| == 0 then false
    else if Mentions(news[0], keywords) then true
    else
      var rest := AnyMentions(news[1..], keywords);
      assert forall i :: 1 <= i < |news| ==> news[i] == news[1..][i - 1];
      rest
  }

  predicate HasCatalyst(a: Article) {
    Mentions(a, CatalystKeywords)
  }

  /** _detect_catalyst: true exactly when some article mentions some keyword;
      no news means no catalyst. */
  function DetectCatalyst(news: seq<Article>): (r: bool)
    ensures r <==> exists i :: 0 <= i < |news| && HasCatalyst(news[i])
    ensures |news| == 0 ==> !r
  {
    AnyMentions(news, CatalystKeywords)
  }

  /** The verdict does not depend on the order of the articles. */
  lemma DetectCatalystOrderFree(a: seq<Article>, b: seq<Article>)
    requires multiset(a) == multiset(b)
    ensures DetectCatalyst(a) == DetectCatalyst(b)
  {
    if DetectCatalyst(a) {
      var i :| 0 <= i < |a| && HasCatalyst(a[i]);
      assert a[i] in multiset(b);
      var j :| 0 <= j < |b| && b[j] == a[i];
    }
    if DetectCatalyst(b) {
      var j :| 0 <= j < |b| && HasCatalyst(b[j]);
      assert b[j] in multiset(a);
      var i :| 0 <= i < |a| && a[i] == b[j];
    }
  }

  /** Adding articles can only turn a missing catalyst into a found one. */
  lemma DetectCatalystMonotone(news: seq<Article>, more: seq<Article>)
    requires DetectCatalyst(news)
    ensures DetectCatalyst(news + more)
  {
    var i :| 0 <= i < |news| && HasCatalyst(news[i]);
    assert (news + more)[i] == news[i];
  }

  /** One text of an article upper-cased (toUpper) or lower-cased; a missing
      text stays missing. Either way its lowercased form is unchanged. */
  function RecaseText(o: Option<string>, toUpper: bool): (r: Option<string>)
    ensures r.None? <==> o.None?
    ensures Lower(r.GetOr("")) == Lower(o.GetOr(""))
  {
    match o
    case None => None
    case Some(t) =>
      if toUpper then LowerUpper(t); Some(Upper(t))
      else LowerIdempotent(t); Some(Lower(t))
  }

  function Recase(a: Article, toUpper: bool): Article {
    Article(RecaseText(a.headline, toUpper), RecaseText(a.summary, toUpper))
  }

  /** The search ignores case: upper-casing, or lower-casing, every headline
      and summary leaves the verdict unchanged. */
  lemma DetectCatalystIgnoresCase(news: seq<Article>, toUpper: bool)
    ensures DetectCatalyst(seq(|news|, i requires 0 <= i < |news| => Recase(news[i], toUpper)))
         == DetectCatalyst(news)
  {
    var recased := seq(|news|, i requires 0 <= i < |news| => Recase(news[i], toUpper));
    forall i | 0 <= i < |news| ensures HasCatalyst(recased[i]) == HasCatalyst(news[i]) {
      assert recased[i] == Recase(news[i], toUpper);
    }
  }
}
