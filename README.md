# Scanner-hit ledger and momentum screener, modelled in Dafny

This project models the core of a stock-scanner backend. It has two parts.

The first part is the scanner-hit ledger in `StockStuff.py`:

- **Classifiers.** The market session, price and volume-spike buckets, trigger descriptions, signal strength and risk level of a hit.
- **The daily ledger document.** `log_scanner_hit` builds a hit, appends it to today's document and runs `update_daily_summary` on it.
- **Rollover.** `archive_daily_logs` moves yesterday's document into the archive, prunes archives older than 30 days and calls `create_permanent_backup`. That function copies the archive to the backup directory and upserts the day's row in `daily_summaries`.
- **Read side.** `get_daily_summary`, `calculate_comprehensive_stats` and `analyze_patterns`.

The second part is the screening predicates of `stock_screener.py`: the basic and momentum filters, the float and relative-volume defaulting, and catalyst detection.

Modules, one file each:

- `Common` (`common.dfy`): Option with Python truthiness, ASCII case mapping, substring search, and the insertion-ordered counting dictionary shared by the dict-increment loop and `collections.Counter` (including `most_common`).
- `Classifier` (`classifier.dfy`): the pure classifiers.
- `DailyLedger` (`ledger.dfy`): the hit, summary and document values, the pure specification of one summary update (`SummaryStep`) and of a whole day (`Summarize`), and the class `DailyLog`. `DailyLog` is `logs` as `log_scanner_hit` mutates it.
- `Store` (`store.dfy`): the disk as maps. These are the active directory, the archive directory, the backup directory, the `daily_summaries` table and the append-only hit table. It also holds the pure specification of each disk operation, and the class `Ledger`, which performs the same steps in place (the archive prune is a loop over the directory listing).
- `Analytics` (`analytics.dfy`): the read-side aggregations. The trigger-distribution loop is a method with a loop invariant.
- `Screener` (`screener.dfy`): the screening predicates.

Dates are integer day numbers and wall-clock readings are `Clock(day, microseconds-of-day)`. Prices, percentages and relative volumes are `real`. A missing value is `None`, and, as in Python, a value of 0 is falsy wherever the code tests truthiness.

The current time, `time.time()` for the backup name, whether a cloud backup URL is configured, and the Finnhub news list are all parameters.

Three places where the program's own comments promise more than its code does. The model follows the code:

- **Backup before prune.** The comment at `StockStuff.py:767` says the permanent backup is made "before cleanup". The prune loop at lines 753-765 runs first, and the backup at line 768 copies yesterday's archive only. The model proves the guarantee that does hold: on a disk built by these operations every archive already has a backup (`Store.RolloverKeepsConsistent`, `Store.PrunedArchivesAreBackedUp`).
- **Cloud backup.** Lines 770-772 call `upload_to_cloud_backup`, which `StockStuff.py` never defines. The resulting NameError is caught, so `archive_daily_logs` returns False whenever a cloud backup URL is configured, after all other work is done.
- **Signal strength range.** The docstring at line 647 gives the signal strength as 1-10. The code starts from 5 and only adds points, so it can only produce 5-10.

## Model

| member | source | states |
|---|---|---|
| Classifier.Hour | StockStuff.py:598 | the hour of a clock reading is the number of whole hours since midnight (hour h covers [h, h+1) hours of the day) and lies in 0..23 |
| Classifier.MarketSession | StockStuff.py:596-606 | every hour lands in exactly one session: [9,16) regular, [4,9) pre-market, [16,20] after-hours, the rest overnight (each an iff) |
| Classifier.CategorizePrice | StockStuff.py:608-619 | `unknown` iff the price is falsy; otherwise half-open buckets below 5, [5,10), [10,15), from 15, so 5, 10 and 15 go to the higher bucket (each an iff) |
| Classifier.CategorizeVolumeSpike | StockStuff.py:621-634 | `normal` iff the relative volume is falsy; otherwise thresholds 5, 10, 20 and 50 each open the higher bucket (each an iff) |
| Classifier.ParseTrigger | StockStuff.py:636-644 | recognises exactly the four known trigger names, and the recognised kind carries the given name |
| Classifier.TriggerDescription | StockStuff.py:636-644 | the fallback text is returned iff the trigger is none of the four known kinds |
| Classifier.DescriptionIdentifiesTrigger | StockStuff.py:638-643 | two triggers with the same description are the same trigger, when the first is known (the lookup is injective) |
| Classifier.MoveScore | StockStuff.py:653-657 | 2 points iff abs(change) >= 15, 1 point iff 10 <= abs(change) < 15, otherwise 0 |
| Classifier.VolumeScore | StockStuff.py:659-663 | 2 points iff rel_volume >= 50, 1 point iff 20 <= rel_volume < 50, otherwise 0 |
| Classifier.SignalStrength | StockStuff.py:646-669 | an error iff the change or the relative volume is missing; otherwise the score is 5 + move points + volume points + 1 when both flags are set, and lies in [5,10], so the clamp never changes it |
| Classifier.SignalStrengthMonotoneInMove | StockStuff.py:650-657 | a larger absolute move never lowers the signal strength |
| Classifier.AssessRiskLevel | StockStuff.py:671-684 | each level holds iff its condition in the rule chain holds: `unknown` iff the price is falsy, `very_high` iff price < 5 and abs(change or 0) > 20, down to `low` iff price >= 5, abs(change) <= 10 and (rel_volume or 1) <= 25 |
| Classifier.RiskMonotoneInMove | StockStuff.py:676-684 | for a known price, a larger absolute move never lowers the risk level |
| DailyLedger.Stored | StockStuff.py:557-561 | a value is stored iff it is truthy, and it is stored unchanged |
| DailyLedger.MakeHit | StockStuff.py:544-579 | no hit iff the change or the relative volume is missing (the signal-strength error); otherwise the hit has the given id, the upper-cased ticker, the clock's session and the given trigger; its signal strength is `SignalStrength` of the data, its risk level is `AssessRiskLevel` of it, its price and volume categories are `CategorizePrice` and `CategorizeVolumeSpike` of the data, its price, change and relative volume are the `Stored` values, and volume, momentum score, breakout and news are copied from the data |
| DailyLedger.PriceRangeAgreesWithCategory | StockStuff.py:706-714 | the summary's price histogram and `categorize_price` draw the same boundaries |
| DailyLedger.AddTickerFacts | StockStuff.py:695-697 | `AddTicker`: the ticker list gains exactly the new ticker, only grows, and stays duplicate-free |
| DailyLedger.CountTriggerFacts | StockStuff.py:699-702 | `CountTrigger`: exactly the bucket named by the trigger gains one; an unknown trigger changes no bucket, so the bucket sum gains one iff the trigger is known |
| DailyLedger.CountPriceFacts | StockStuff.py:704-714 | `CountPrice`: exactly the bucket of a truthy price gains one; a falsy price changes nothing |
| DailyLedger.BlendFacts | StockStuff.py:716-733 | the maxima never decrease and cover the new value; avg <= max is preserved for both metrics; avg_change_pct >= 0 is preserved; a metric whose input is None is unchanged |
| DailyLedger.BlendChangeFacts | StockStuff.py:720-726 | `BlendChange`: max_change_pct never drops and covers the new absolute change, the new average is the mean of the old average and the absolute change, avg <= max and avg >= 0 are preserved, the volume metrics are unchanged, and a None change changes nothing |
| DailyLedger.BlendVolumeFacts | StockStuff.py:728-733 | `BlendVolume`: max_volume_spike never drops and covers the new relative volume, the new average is the mean of the old average and the relative volume, avg <= max is preserved, the change metrics are unchanged, and a None relative volume changes nothing |
| DailyLedger.SummaryStepFacts | StockStuff.py:686-733 | `SummaryStep`, one `update_daily_summary` call: total_hits gains exactly one; the ticker list gains exactly the hit's ticker and stays duplicate-free; each trigger bucket gains one iff it is the hit's trigger; each price bucket gains one iff the hit's truthy price falls in it; avg <= max is preserved for both metrics |
| DailyLedger.TickersAppend | StockStuff.py:1122-1126 | the ticker and trigger lists of a + b are those of a followed by those of b |
| DailyLedger.SummarizeCounts | StockStuff.py:686-733 | `Summarize`, the summary after every hit of the day: total_hits is the number of hits, each trigger bucket the multiplicity of that trigger, the price buckets sum to the priced hits, and unique_tickers holds each of the day's tickers exactly once |
| DailyLedger.SnocPrefix | StockStuff.py:581 | appending a hit extends the ticker and trigger lists by its own entries |
| DailyLedger.SummarizeSnoc | StockStuff.py:581-582 | the summary of hits + [h] is one more `update_daily_summary` step on the summary of hits |
| DailyLedger.SummarizeTotal | StockStuff.py:693 | total_hits counts every hit of the day |
| DailyLedger.SummarizeTriggers | StockStuff.py:699-702 | each trigger bucket equals the number of the day's hits of that kind |
| DailyLedger.SummarizeTriggerSum | StockStuff.py:699-702 | the four trigger buckets plus the hits of unknown trigger make up total_hits |
| DailyLedger.SummarizePrices | StockStuff.py:704-714 | the price buckets together count the hits with a truthy price |
| DailyLedger.SummarizeTickers | StockStuff.py:695-697 | unique_tickers is duplicate-free, holds exactly the day's tickers, and is no longer than the day |
| DailyLedger.SummarizeMetrics | StockStuff.py:716-733 | from zeroed metrics: each avg stays <= its max, avg_change_pct >= 0, and max_change_pct covers every hit's absolute change |
| DailyLedger.Appended | StockStuff.py:581-582 | appending keeps the metadata, adds the hit at the end and one to total_hits, and appending the next id keeps a document well formed (ids 1..n, summary = summary of its hits) |
| DailyLedger.FreshDocumentWellFormed | StockStuff.py:504-540 | `FreshDocument`: the document built for a day without one is well formed (no hits, zeroed summary) and carries that day's date |
| DailyLedger.WellFormedSummary | StockStuff.py:686-733 | a well-formed document has total_hits == number of hits == trigger buckets + unknown triggers, a duplicate-free unique-ticker list no longer than total_hits, and avg <= max for both metrics |
| DailyLedger.DailyLog.Load | StockStuff.py:501-503 | the in-memory document is the loaded one |
| DailyLedger.DailyLog.Fresh | StockStuff.py:504-540 | the in-memory document is the fresh one for the day |
| DailyLedger.DailyLog.AppendHit | StockStuff.py:581 | the hit is appended; metadata and summary are unchanged |
| DailyLedger.DailyLog.UpdateDailySummary | StockStuff.py:686-733 | the summary is updated in place to `SummaryStep` of the old summary; metadata and hits are unchanged |
| Store.TodayDocumentWellFormed | StockStuff.py:500-540 | `TodayDocument`: on a consistent disk, the document `log_scanner_hit` works on is well formed and dated today, and has no hits when today had no file |
| Store.NextHit | StockStuff.py:550-551 | the hit gets the next id in today's document, and there is none iff the change or the relative volume is missing |
| Store.WithHit | StockStuff.py:581-589 | today's document becomes the appended one (fresh if absent); other days are untouched; the hit table gains the row; archive, backups and summaries are unchanged; a consistent disk stays consistent |
| Store.WithHitKeepsConsistent | StockStuff.py:500-540 | appending the next id to today's document (loaded or fresh) keeps every stored document well formed under its own date |
| Store.Logged | StockStuff.py:493-594 | the call fails iff the change or the relative volume is missing, and then nothing is written; on success the disk is `WithHit` of the next hit; consistency is preserved |
| Store.FirstHitOfDay | StockStuff.py:504-551 | the first hit of a day opens a fresh document whose only hit has id 1 and whose total is 1 |
| Store.ExpiredByDays | StockStuff.py:754-763 | an archive is pruned iff its date is more than 30 days back, or exactly 30 days back outside midnight sharp |
| Store.ExpiredMonotone | StockStuff.py:754-763 | `Expired` is downward closed: an archive older than an expired one has expired too, and an expired archive is dated before yesterday |
| Store.Prune | StockStuff.py:754-765 | exactly the dated archives that have not expired remain, unchanged, and yesterday's archive is never pruned |
| Store.SaveSummary | StockStuff.py:851-869 | an upsert keyed by date: the row stores total_hits, the length of unique_tickers, and the trigger, price-range and metric blocks of the summary; other rows are unchanged |
| Store.Backup | StockStuff.py:825-846 | nothing changes without an archive for the date; otherwise the backup directory gains a copy under (date, stamp), the summary row is upserted, and nothing else changes |
| Store.Rollover | StockStuff.py:735-768 | yesterday leaves the active directory and arrives verbatim in the archive; nothing expired remains and nothing else is lost or altered; names that are not dated logs stay; a backup and an upsert happen iff yesterday is archived; the hit table is unchanged |
| Store.RolloverKeepsConsistent | StockStuff.py:735-768 | rollover keeps every document well formed under its date, and every archive, the newly moved one included, has a backup |
| Store.PrunedArchivesAreBackedUp | StockStuff.py:754-768 | every archive the rollover deletes survives in the backup directory |
| Store.RolloverAgain | StockStuff.py:735-768 | a second rollover at the same moment changes neither directory nor the summary table; it adds one backup copy (under the new stamp) when yesterday is archived |
| Store.GetDailySummary | StockStuff.py:915-941 | no date means today; the active document wins over the archive, and the archive is used otherwise; the details are missing iff neither exists, and then the report is zeroed |
| Store.ReportOfWellFormed | StockStuff.py:936-941 | `ReportOf` a well-formed document reports the given date, has details, lists the document's hits, and its total is their number, its unique_tickers their distinct tickers (<= total), and its ids run 1..n |
| Store.ReportIsConsistent | StockStuff.py:936-941 | on a consistent disk a report's total equals its number of hits, unique tickers <= total, and ids run 1..n |
| Store.TodayReport | StockStuff.py:918-941 | today's report shows today's document, unless today only exists in the archive |
| Store.WithHitThenRead | StockStuff.py:581-589 | after a successful append, today's report ends with the new hit and its total increases by one and equals the number of hits |
| Store.RolloverKeepsYesterdaysReport | StockStuff.py:921-941 | rollover does not change what is reported for yesterday |
| Store.Ledger.constructor | StockStuff.py:12-13 | an empty ledger (plus any foreign names in the archive directory) is consistent |
| Store.Ledger.LogScannerHit | StockStuff.py:493-594 | returns whether `Logged` succeeds; the new state is `Logged`'s disk, or the old state on failure; consistency is preserved |
| Store.Ledger.LoadToday | StockStuff.py:500-540 | the in-memory document is today's stored one, or the fresh one |
| Store.Ledger.WriteHit | StockStuff.py:580-589 | after the append and summary update, the state is `WithHit` of the old state |
| Store.Ledger.PruneArchive | StockStuff.py:754-765 | the listing loop leaves the archive equal to `Prune` of the old one; the rest of the state is unchanged |
| Store.Ledger.SaveDailySummaryToDb | StockStuff.py:851-869 | the summaries table becomes `SaveSummary` of the old one |
| Store.Ledger.CreatePermanentBackup | StockStuff.py:825-846 | the state becomes `Backup` of the old state |
| Store.Ledger.ArchiveDailyLogs | StockStuff.py:735-777 | the state becomes `Rollover` of the old one; the result is True iff no cloud backup is configured; consistency is preserved |
| Analytics.MinOf | StockStuff.py:1143 | `min` of a non-empty list is an element and bounds every element from below |
| Analytics.MaxOf | StockStuff.py:1144 | `max` of a non-empty list is an element and bounds every element from above |
| Analytics.SumBounds | StockStuff.py:1142 | a sum of n values in [lo, hi] lies in [n*lo, n*hi] |
| Analytics.DivideBounds | StockStuff.py:1142 | dividing a value in [n*lo, n*hi] by n > 0 gives a value in [lo, hi] |
| Analytics.RatioAtLeastOne | StockStuff.py:1139 | a total at least as large as a positive divisor gives a ratio >= 1 |
| Analytics.MeanBetweenExtremes | StockStuff.py:1142-1144 | `Mean` of a non-empty list lies between its `min` and its `max` |
| Analytics.MeanBounds | StockStuff.py:1142 | the mean of a non-empty list of values in [lo, hi] lies in [lo, hi] |
| Analytics.TruthyValues | StockStuff.py:1132-1134 | the comprehension keeps exactly the truthy values: each kept value is non-zero and present, each truthy entry is kept, and every non-zero value is kept exactly as often as it occurs, 0 never |
| Analytics.AtLeast | StockStuff.py:1154 | the list comprehension that keeps the values at or above a bound: each such value is kept exactly as often as it occurs, and no other value is kept |
| Analytics.AtLeastLength | StockStuff.py:1154 | every value is kept iff every value reaches the bound, and none is kept iff none does |
| Analytics.SpreadOf | StockStuff.py:1140-1155 | all zeros for an empty list; otherwise avg is `Mean` (sum over count), min and max are elements, min <= avg <= max, and every element lies between min and max |
| Analytics.CalculateComprehensiveStats | StockStuff.py:1115-1156 | `{}` iff there are no hits; otherwise total_hits is the number of hits, 1 <= unique_tickers <= total_hits, hit_frequency = total/unique >= 1, the trigger distribution is the tally of the triggers with sum total_hits, the price and performance spreads are those of the truthy values, and extreme_spikes_count is the length of `AtLeast` 50 of the truthy volumes, so at most their number |
| Analytics.TriggerDistribution | StockStuff.py:1127-1129 | the dict-increment loop builds exactly the left-to-right tally of the trigger list |
| Analytics.StatsAgreeWithSummary | StockStuff.py:1120-1129 | the stats' unique-ticker count and known-trigger counts agree with the day's summary |
| Analytics.TopTickers | StockStuff.py:1163-1164 | `dict(Counter(tickers).most_common(10))`: at most 10 entries, as many as the distinct tickers allow, with distinct keys, in descending count order, each with its true count, and no omitted ticker more frequent than a listed one; among tickers of equal frequency the kept ones are a prefix of the counting dict's, in its order (first-seen order) |
| Analytics.TopTickersAreDistinct | StockStuff.py:1164 | the keys of `most_common(10)` are distinct, so the `dict` of it loses no entry |
| Analytics.AnalyzePatterns | StockStuff.py:1158-1184 | top_tickers is `TopTickers` of the hits' tickers (at most 10); the session and risk distributions are `Tally` of the hits' sessions and risk levels: distinct keys, exactly the values that occur, each with its multiplicity, in first-seen order; signal_strength_avg is `Mean` of the strengths; high_confidence_signals is the length of `AtLeast` 8 of the strengths, at most the number of hits; empty input gives average 0 and no high-confidence signals |
| Analytics.TopTickersAreCounted | StockStuff.py:1164 | `most_common(10)` entries carry true counts and no omitted ticker outranks a listed one |
| Analytics.SignalAverageBounds | StockStuff.py:1175-1176 | with strengths in [5,10], the average strength lies in [5,10] |
| Common.ElemsSnoc | StockStuff.py:1123 | the distinct elements of s + [x] are those of s plus x |
| Common.ElemsBound | StockStuff.py:1123 | `len(set(xs)) <= len(xs)` |
| Common.DistinctElems | StockStuff.py:695-697 | a duplicate-free list has as many distinct elements as entries |
| Common.Choose | StockStuff.py:757 | the directory listing yields some name in the set |
| Common.Lower | stock_screener.py:257-258 | `str.lower()` keeps the length, leaves no upper-case ASCII letter, and keeps every other character |
| Common.Upper | StockStuff.py:556 | `str.upper()` keeps the length, leaves no lower-case ASCII letter, and keeps every other character |
| Common.LowerUpper | stock_screener.py:257-258 | lower-casing an upper-cased text gives the lower-cased text |
| Common.LowerIdempotent | stock_screener.py:257-258 | lower-casing twice is lower-casing once |
| Common.Contains | stock_screener.py:262 | `needle in hay` iff the needle occurs at some position of hay |
| Common.ContainsShift | stock_screener.py:262 | occurrences in hay other than at 0 are exactly the occurrences in hay[1..], shifted by one |
| Common.Bump | StockStuff.py:1129 | `d[k] = d.get(k, 0) + 1`: k's count gains one, no other count changes, every key keeps its position, an absent k is appended at the end with count 1, every entry of another key is unchanged, the keys stay distinct, and the total gains one |
| Common.Tally | StockStuff.py:1127-1129 | the counting dict of a list: each key's count is its multiplicity, the keys are the list's distinct elements, and the total is its length |
| Common.TallyFirstSeen | StockStuff.py:1127-1129 | the dict lists its keys in the order the list first mentions them |
| Common.HasKeyIn | StockStuff.py:1164 | a key with an entry is present |
| Common.DistinctKeysCount | StockStuff.py:1164 | with distinct keys, an entry's count is the key's count |
| Common.HasKeyEntry | StockStuff.py:1164 | a present key has an entry holding its count |
| Common.TallyEntry | StockStuff.py:1164 | every entry of a tally holds a key of the list and its multiplicity |
| Common.InsertDesc | StockStuff.py:1164 | insertion into a descending list keeps it descending and adds exactly the entry |
| Common.InsertDescStable | StockStuff.py:1164 | in a descending list the entry goes after every entry of its own count, so each equal-count sublist gains it at the end |
| Common.SortDesc | StockStuff.py:1164 | the descending sort is a permutation, is descending, and is stable: the entries of each count keep their order |
| Common.MostCommon | StockStuff.py:1164 | `most_common(n)` returns min(n, len) entries of the dict, a sub-multiset of its entries, descending, with no omitted entry above a listed one; for each count the kept entries of that count are a prefix of the dict's, so ties go to the earlier-inserted entry |
| Common.DistinctKeysOnce | StockStuff.py:1164 | in a dict with distinct keys each entry occurs at most once |
| Common.TwoPositions | StockStuff.py:1164 | an element at two positions occurs at least twice |
| Common.DistinctKeysSub | StockStuff.py:1164 | a sub-multiset of a dict with distinct keys has distinct keys |
| Common.MostCommonTop | StockStuff.py:1164 | a prefix of a stable descending permutation keeps a prefix of each equal-count sublist, is a sub-multiset of the dict, holds only its entries, and every omitted entry is at most every kept one |
| Screener.MeetsBasicCriteria | stock_screener.py:203-217 | true iff min_price <= price <= max_price, volume >= min_volume and change_pct >= min_change_pct, with missing keys read as 2.0, 20.0, 100000 and 10.0 |
| Screener.MeetsMomentumCriteria | stock_screener.py:219-242 | true iff change >= min_change_pct, min_price <= price <= max_price, float <= max_float_millions, relative volume >= min_relative_volume, and a catalyst is present whenever require_catalyst holds; the volume is not consulted |
| Screener.DefaultBasicCriteria | stock_screener.py:205-214 | with no criteria, the basic filter is $2-$20 inclusive, at least 100000 shares and at least a 10% gain |
| Screener.MomentumImpliesBasicPriceAndChange | stock_screener.py:206-242 | when the momentum filter passes, the basic filter passes iff the volume minimum is met (its price and change tests already hold) |
| Screener.CatalystIrrelevantUnlessRequired | stock_screener.py:238-240 | when require_catalyst is false or missing, the momentum verdict does not depend on has_catalyst |
| Screener.FloatMillions | stock_screener.py:164 | positive shares give shares / 1e6; unknown (non-positive) shares give 999 |
| Screener.RelativeVolume | stock_screener.py:168 | a positive average gives volume / average; otherwise 0 |
| Screener.UnknownFloatRejected | stock_screener.py:164-232 | an unknown float fails any float ceiling below 999, the default 20 included |
| Screener.ZeroAverageVolumeRejected | stock_screener.py:168-236 | a zero average volume fails any positive relative-volume floor, the default 5 included |
| Screener.MentionsAny | stock_screener.py:262-264 | the keyword loop finds a match iff some keyword occurs in the headline or the summary |
| Screener.AnyMentions | stock_screener.py:258-265 | the article loop finds a match iff some article mentions some keyword |
| Screener.DetectCatalyst | stock_screener.py:244-265 | no news gives False; otherwise True iff some article's lowercased headline or summary contains one of the 24 keywords |
| Screener.DetectCatalystOrderFree | stock_screener.py:244-265 | reordering the articles does not change the verdict |
| Screener.DetectCatalystMonotone | stock_screener.py:244-265 | more articles can only turn a missing catalyst into a found one |
| Screener.RecaseText | stock_screener.py:257-258 | upper- or lower-casing a headline or summary keeps it missing or present and leaves its lower-cased form unchanged |
| Screener.DetectCatalystIgnoresCase | stock_screener.py:244-265 | upper-casing, or lower-casing, every headline and summary leaves the verdict unchanged |

## Left out

- Flask routes and request parsing are not modelled. The trigger data is taken as `/log-hit` assembles it: every key present, any numeric one possibly None.
- The Polygon and Finnhub clients, `screen_stocks`' loop and `time.sleep` are not modelled. The values they produce (shares outstanding, average volume, news) are parameters.
- `MarketSession`, `Hour`: the clock is local time of day as a number; there is no timezone handling and no date arithmetic beyond day numbers.
- `DailyLedger.Stored`: `round(x, 2)` is left out; stored values are unrounded. In the program a truthy value smaller than 0.005 in size rounds to 0.0. That 0.0 is then skipped by the price histogram and the analytics comprehensions, which test truthiness, but still blended into the metrics as 0, which test only for None. The model keeps such a value truthy and unrounded.
- `Analytics.CalculateComprehensiveStats`, `Analytics.AnalyzePatterns`: the `round(..., 2)` of hit_frequency, the three averages and signal_strength_avg (`StockStuff.py` lines 1139, 1142, 1147, 1152 and 1182) is left out; the model reports the exact quotients.
- The `timestamp` and `time_readable` strings and `created_at`'s ISO text are left out; a hit and the metadata keep the `Clock` itself.
- The fixed `context` texts of a hit and the `criteria` texts of the metadata are left out. The trigger description is derived from the primary trigger with `TriggerDescription`. The version, purpose, scanner type and timezone are fixed literals of `Metadata`; neither is stored as a field.
- JSON load and dump failures, permission errors, and the other I/O exceptions that make `log_scanner_hit`, `archive_daily_logs` and `create_permanent_backup` return False or print an error are left out. The only error path modelled is the one the inputs can cause: a missing change or relative volume makes `calculate_signal_strength` raise.
- The legacy document format in `get_daily_summary` and its error dictionary are left out: every stored document has a `daily_summary`.
- `save_hit_to_database` is modelled as an append to `hitRows`. The SQL engine, `init_database`, `query_historical_data` and `/database-stats` are not modelled.
- `upload_to_cloud_backup` is not defined in `StockStuff.py`. Its call can only raise NameError, so `ArchiveDailyLogs` returns False exactly when a cloud backup URL is configured.
- Archive names that do not parse as `scanner_hits_<date>.json` are kept in `archiveOther` and never touched. Unparseable dates inside well-formed names are treated the same way. `strptime` also accepts non-canonical dates such as `2020-1-1`, and the prune loop deletes such a file once it is old enough. Non-canonical but parseable names are not modelled: the model files them under `archiveOther` and keeps them.
- `Store.WithHitThenRead`, `Store.TodayReport`: require that today is not only in the archive; a document for today that has already been archived is read from the archive while new hits go to a fresh active file.
- `Screener.DetectCatalyst`: a headline or summary that is present but JSON `null` reads as None, whose `.lower()` raises, so `screen_stocks` skips the ticker. The model's `Article` cannot tell a null text from a missing one and reads both as "".
- `Screener.MeetsBasicCriteria`, `Screener.MeetsMomentumCriteria`: a criteria key present with the value None (a TypeError in Python) is not modelled; a key is either missing or holds a number.
- `Common.Lower`, `Common.Upper`: only ASCII letters change case; Unicode case mapping is left out.
- `extract_symbols_from_text`, `display_results`, `generate_html_report` and `main` are not modelled.
- `export_analysis` collects hits over several days before calling the analytics; that collection is a route and is not modelled.
- `Store.Rollover`, `Store.Ledger.ArchiveDailyLogs`: one clock reading stands for the three `datetime.now()` calls of `archive_daily_logs` (at `StockStuff.py` lines 738, 739 and 754: today's date, yesterday's date, and the prune cutoff). Around midnight those calls can fall on different days; the model does not capture that.
- Concurrent appends and crash consistency between the JSON files and the database are not modelled; the model is sequential.
