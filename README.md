# Shitcoin momentum scanner — verified model of the scoring core

This project models the momentum scanner's scoring and ranking pipeline and the
sequential logic around it:

- **Scorer** (`Scoring`): the linear and log normalisers, the stablecoin and blue-chip
  filters, the newly-listed heuristic and `score_coin`, with its sentinel
  `FILTERED_OUT = -1.0`.
- **Ranker** (`Ranker`): `rank_coins` as a method over coin records. It builds the
  trending-id set and the min/max ranges over the non-stablecoins. It writes
  `trend_score` on every surviving record in place, sorts the survivors stably by
  descending score (`Sorting`), and writes the dense ranks 1..n.
- **Constants** (`Config`): the weights, the bonus, the blue-chip cutoff and the
  stablecoin deny-lists.
- **Market data** (`MarketData`): the list logic that runs after CoinGecko answers.
  This covers sparkline downsampling, the volume/market-cap ratio, the page-gathering
  loop against an abstract page source, gainers and losers, the trending cap and the
  simple-price table.
- **Desktop app state** (`App`): the per-coin score history, capped at 30 samples,
  with its velocity and latest-score queries and the poller's score attachment. Also
  the `get_signal` label and the watchlist alerts, which fire once per
  (kind, coin, threshold) key.
- **Command-line scan** (`Scan`): merging browser-scraped ids into the trending list,
  then ranking and taking the top N.
- **Page scraper** (`Browser`): `_extract_trending_ids` as a left-to-right scanner with
  the non-overlapping semantics of `re.finditer`.

Modelling choices:

- Prices, percentages and scores are `real`.
- `math.log1p` is a parameter. `IsLog1p` requires of it only that it is 0 at 0 and
  strictly increasing on (-1, +inf).
- The clock is a parameter: `now`, in microseconds for `_is_newly_listed` and in
  seconds for `record_scores`.
- An ATL date is already parsed into `AtlDate`: missing, unparseable, or an instant.
- HTTP requests are functions passed in: page number to rows, ids to the raw
  `/simple/price` table.
- Python dictionaries that the code mutates are objects. `CoinRecord` has constant
  market data and the two mutable keys the ranker writes. `ScoreStore` holds
  `_score_history`, and `BagPanel` holds `_price_cache` and `_fired`.

Where the specification and the code disagree, the model follows the code:

- The specification calls both normalisers total. `_normalize_log` raises
  `ValueError` when `hi <= -1`, so `NormalizeLog` requires `Log1pDefined`.
  `Ranker.CorpusRangesScorable` proves that the ranges `rank_coins` computes always
  meet it.
- The specification says trending lifts a score by at least 0.19, and a recent ATL
  by at least 0.05. The code adds those amounts before the final clamp. After the
  clamp the score becomes `min(1, s + gap)`, which `Scoring.TrendingRaisesScore` and
  `Scoring.NewlyListedRaisesScore` state.
- The specification lists a `newly_listed` field among the annotated fields. No code
  writes it: `score_coin` only uses the test internally, and the ranker writes only
  `trend_score` and `rank`.

## Model

| member | source | states |
|---|---|---|
| Text.LowerIsLowerText | analysis.py:48-49 | a lower-cased string has no upper-case ASCII letter |
| Text.LowerOfLowerText | analysis.py:48-49 | lower-casing a string with no upper-case letter changes nothing |
| Text.LowerIdempotent | analysis.py:111 | lower-casing twice is lower-casing once |
| Config.WeightsSumToOne | config.py:17-25 | the five weights sum to exactly 1.00 |
| Config.WeightsStrictlyOrdered | config.py:19-23 | 24h > vol/mcap > trending > 7d > rank > 0 |
| Config.BonusExceedsWeightBudget | config.py:26-27 | weights plus the flat bonus total 1.05, so a pre-clamp score can exceed 1 |
| Config.StablecoinIdIsLowerText | config.py:36-43 | every deny-listed id has no upper-case letter |
| Config.StablecoinIdsAreLowerCase | config.py:36-43 | every deny-listed id is its own lower-case form, so the lower-cased membership test can match it |
| Config.StablecoinSymbolsAreLowerCase | config.py:44-48 | likewise for every deny-listed symbol |
| Scoring.Normalize | analysis.py:25-29 | result in [0,1]; exactly 0.5 when hi <= lo; 0 at value <= lo and 1 at value >= hi otherwise |
| Scoring.NormalizeMonotone | analysis.py:25-29 | non-decreasing in value for fixed bounds |
| Scoring.NormalizeLog | analysis.py:32-44 | result in [0,1]; 0 when value <= 0 or hi <= lo; 0.5 when log1p(hi) <= log1p(max(0,lo)); 0 and 1 at the ends of the range otherwise |
| Scoring.NormalizeLogMonotone | analysis.py:32-44 | non-decreasing in value for fixed bounds |
| Scoring.IsNewlyListed | analysis.py:53-66 | true exactly for a parsed ATL date less than 181 whole days (floor of the elapsed time) before now |
| Scoring.NewlyListedExamples | analysis.py:53-66 | an ATL 30 or 180 days ago is new; 181 days or two years ago is not; a missing or unparseable date is not |
| Scoring.Term24h | analysis.py:97-102 | the 24h term lies in [0, 0.30] |
| Scoring.TermVmr | analysis.py:104-108 | the vol/mcap term lies in [0, 0.25] |
| Scoring.TermTrending | analysis.py:110-115 | the trending term lies in [0, 0.20] |
| Scoring.Term7d | analysis.py:117-122 | the 7d term lies in [0, 0.15] |
| Scoring.TermRank | analysis.py:124-131 | the rank term lies in [0, 0.10] |
| Scoring.TermNewlyListed | analysis.py:133-135 | the bonus term lies in [0, 0.05] and equals 0.05 exactly when the coin is newly listed |
| Scoring.RawScore | analysis.py:95-135 | the pre-clamp sum lies in [0, 1.05] |
| Scoring.ScoreCoin | analysis.py:69-137 | FILTERED_OUT exactly for stablecoins and, when excluding, blue chips; every other score lies in [0,1] |
| Scoring.IsStablecoin | analysis.py:47-50 | no ensures; a lowered id or symbol on a deny-list, stated by ListedStablecoinIsFiltered |
| Scoring.IsBlueChip | analysis.py:91-93 | no ensures; a present rank at or above the cutoff 20, stated by BlueChipFilteredOnlyWhenExcluded |
| Scoring.IsFiltered | analysis.py:87-94 | no ensures; the two hard filters, stated by ScoreCoin |
| Scoring.ListedStablecoinIsFiltered | analysis.py:47-50 | a coin whose id or symbol is on a deny-list scores FILTERED_OUT whatever its other fields |
| Scoring.BlueChipFilteredOnlyWhenExcluded | analysis.py:91-93 | a rank <= 20 filters the coin exactly when blue chips are excluded; an absent rank never filters |
| Scoring.MissingDataScore | analysis.py:98-131 | a non-stablecoin with no data, off the trending list and not new scores exactly 0.26 |
| Scoring.TrendingRaisesScore | analysis.py:110-115 | trending adds exactly 0.19 before the clamp, so the score becomes min(1, s + 0.19) |
| Scoring.NewlyListedRaisesScore | analysis.py:133-137 | a recent ATL adds exactly 0.05 before the clamp, so the score becomes min(1, s + 0.05) |
| Scoring.RawScoreReachesMaximum | analysis.py:95-137 | a coin at the top of every range that is trending and new reaches the pre-clamp 1.05 |
| Ranker.TrendIdSet | analysis.py:150-157 | holds exactly the non-empty lower-cased ids (the `id`, failing that the `coin_id`) of the entries; every member is non-empty and lower-case |
| Ranker.NestedEntryCounts | analysis.py:153-157 | a nested entry `{"item": {"id": cid, "coin_id": cid}}` puts a lower-case cid in the set |
| Ranker.CollectTrendIds | analysis.py:150-157 | the loop builds exactly TrendIdSet |
| Ranker.NonStable | analysis.py:160 | exactly the non-stablecoins, blue chips included |
| Ranker.VmrsOf | analysis.py:162 | every non-stable coin's ratio, and nothing else |
| Ranker.Pct24hsOf | analysis.py:163 | the present 24h changes, None skipped |
| Ranker.Pct7dsOf | analysis.py:164 | the present 7d changes, None skipped |
| Ranker.MinOf | analysis.py:166-168 | Python's min: an element at most every element |
| Ranker.MaxOf | analysis.py:166-168 | Python's max: an element at least every element |
| Ranker.RangeOf | analysis.py:166-168 | min and max of a non-empty list, the defaults for an empty one |
| Ranker.ComputeRanges | analysis.py:159-168 | each range spans its list over the non-stablecoins, with defaults (0,1), (-50,200), (-50,400) |
| Ranker.RangesCoverNonStablecoins | analysis.py:159-168 | every non-stablecoin lies inside the ranges; the vmr bounds are attained by non-stablecoins |
| Ranker.AllStablecoinRanges | analysis.py:160-168 | a corpus of stablecoins gets the default ranges |
| Ranker.CorpusRangesScorable | analysis.py:166-183 | with the corpus ranges, log1p is never asked for a value outside its domain |
| Ranker.ScoresWith | analysis.py:170-183 | one score per coin, each the coin's score_coin |
| Ranker.CorpusScores | analysis.py:149-183 | one score per coin against the corpus' trending ids and ranges |
| Ranker.Unfiltered | analysis.py:184-187 | the ascending positions of exactly the scores that are not FILTERED_OUT |
| Ranker.OrderedSurvivors | analysis.py:189 | the survivors' positions in the stable descending order of their scores |
| Ranker.SurvivorsAllPresent | analysis.py:184-189 | no surviving position is lost by the sort |
| Ranker.SurvivorsSortedStably | analysis.py:189 | scores descend along the order; equal scores keep input order |
| Ranker.RankPositions | analysis.py:184-189 | exactly the unfiltered positions, each once, by descending score, ties in input order |
| Ranker.AnnotateScores | analysis.py:171-187 | writes trend_score on exactly the unfiltered records, collects them in input order, touches no rank |
| Ranker.WriteScore | analysis.py:186 | writes trend_score on one record; every other record's trend_score and every rank are unchanged |
| Ranker.AssignRanks | analysis.py:190-191 | rank is k+1 at position k; trend_score untouched |
| Ranker.OrderedScoredMatchesPositions | analysis.py:189 | sorting the collected survivors picks the records at RankPositions |
| Ranker.PickDistinct | analysis.py:184-191 | distinct positions of distinct records give distinct records, none of them unpicked |
| Ranker.RankScored | analysis.py:184-193 | output is the records at RankPositions, each with its score and rank k+1; filtered records keep their old trend_score and rank |
| Ranker.RankCoins | analysis.py:140-193 | rank_coins: the records at RankPositions of CorpusScores, scored and densely ranked; filtered records untouched |
| Sorting.Insert | analysis.py:189 | insertion keeps the order strictly sorted and adds exactly one position |
| Sorting.OrderOfPrefix | analysis.py:189 | the sorted order of the first n positions holds each of them once |
| Sorting.StableOrder | analysis.py:189 | every position exactly once; keys ordered; equal keys in input order |
| Sorting.InOrderTail | analysis.py:189 | dropping the head of a sorted order leaves it sorted |
| Sorting.InsertSplits | analysis.py:189 | stable insertion puts the new position at one split point and keeps the rest in place |
| Sorting.PickAppend | market_data.py:105-107 | picking along two concatenated position lists picks the two parts in turn |
| Sorting.PickSplitMultiset | market_data.py:105-107 | picking with one position spliced in adds exactly that element to the multiset |
| Sorting.PrefixMultiset | market_data.py:105-107 | a prefix one longer adds exactly its last element to the multiset |
| Sorting.PickPrefixMultiset | market_data.py:105-107 | the sorted first n elements are a permutation of those n elements |
| Sorting.SortedByMembers | market_data.py:105-107 | sorted() is a permutation of its input: the same elements, each as often as in the input |
| Sorting.SortedByOrder | market_data.py:105-107 | sorted() output is in key order, descending when reversed |
| MarketData.SampleIndex | market_data.py:45-46 | the sample index floor(i·len/n) lies inside the series |
| MarketData.SampleIndexIncreasing | market_data.py:45-46 | sample indices strictly increase when the series is longer than n |
| MarketData.SampledIsSubsequence | market_data.py:45-46 | the sampled points of a long series lie in it in order, starting with its first price |
| MarketData.Downsample | market_data.py:39-46 | `_downsample` never returns more points than the series has; its shape is stated by DownsampleShape |
| MarketData.DownsampleShape | market_data.py:39-46 | [] for []; unchanged when len <= n; exactly n points starting with prices[0] otherwise; always an in-order subsequence |
| MarketData.Present | market_data.py:136 | the non-None prices, nothing else |
| MarketData.VolMcapRatio | market_data.py:141-144 | vol/mcap when mcap > 0, else 0, with missing values read as 0; non-negative for non-negative volume |
| MarketData.SparklineOf | market_data.py:134-139 | at most 48 prices, all from the source series; empty when there is no price list |
| MarketData.Annotate | market_data.py:132-144 | keeps every market field, replaces the sparkline and adds the ratio |
| MarketData.FullPagesReachLimit | market_data.py:121-128 | when every page is full, paging gathers at least top_n rows |
| MarketData.ShortPageStops | market_data.py:126-127 | a page shorter than 250 is the last one read |
| MarketData.FetchLimit | market_data.py:117 | `top_n or 500`: 500 for None or 0, top_n otherwise |
| MarketData.FetchPages | market_data.py:117-128 | the paging loop gathers exactly PagesFrom |
| MarketData.AnnotateAll | market_data.py:132-144 | one new distinct record per row, its data the row's annotation, no score or rank |
| MarketData.GetAllMarketData | market_data.py:111-146 | the first top_n gathered rows, annotated, as new distinct records |
| MarketData.MarketDataBounds | market_data.py:117-139 | at most top_n coins, each sparkline at most 48 points |
| MarketData.Take | market_data.py:130 | `xs[:n]` for a non-negative bound: a prefix of length min(len, n); a bound <= 0 reaches it only with an empty list there, since `all_coins` is empty whenever top_n <= 0 |
| MarketData.LastN | market_data.py:107 | `xs[-n:]` for n > 0: the suffix of length min(len, n) |
| MarketData.WithPct | market_data.py:104 | exactly the rows with a 24h change |
| MarketData.GainersLosers | market_data.py:104-107 | as many losers as gainers, at most 15 of each; their contents are stated by GainersAreTop and LosersAreSorted |
| MarketData.GainersAreTop | market_data.py:104-106 | exactly min(15, number of coins with a 24h change) gainers, all with a 24h change, descending, none beaten by a coin left out; they are a prefix of the stably sorted list, so no coin appears more often than in the input |
| MarketData.TakeSubMultiset | market_data.py:106 | `xs[:n]` holds each element at most as often as xs |
| MarketData.HeadIsTop | market_data.py:106 | in a descending list nothing after the first n beats anything in them |
| MarketData.HeadIsOrdered | market_data.py:106 | `by_24h[:15]` of a descending list is drawn from it and is itself descending |
| MarketData.HeadBeatsRest | market_data.py:106 | every element after the first n of a descending list is at most every element among them |
| MarketData.LosersAreSorted | market_data.py:107 | exactly min(15, number of coins with a 24h change) losers, all with a 24h change, ascending; a reordering of `by_24h[-15:]`, so no coin appears more often than in the input |
| MarketData.LastNSubMultiset | market_data.py:107 | `xs[-n:]` holds each element at most as often as xs |
| MarketData.TailIsBottom | market_data.py:107 | in a descending list nothing before the last n is below anything in them |
| MarketData.LastNFrom | market_data.py:107 | `xs[-n:]` is drawn from xs |
| MarketData.LosersAreBottom | market_data.py:104-107 | no coin left out of the losers has a smaller 24h change than a loser |
| MarketData.TrendingPage | market_data.py:63-67 | the first 20 entries of the response, [] when `coins` is absent |
| MarketData.QuoteOf | market_data.py:88-97 | price and change copied, missing volume and cap read as 0, ratio vol/mcap or 0 |
| MarketData.FetchSimplePrices | market_data.py:70-98 | {} for no ids; otherwise one quote per id in the response |
| App.Entries | app.py:290-292 | each coin's id and trend_score, in order |
| App.Pending | app.py:290-294 | the pairs record_scores appends; none has an empty id |
| App.SamplesForSpec | app.py:288-296 | every sample of one call carries its `now`; a coin gets samples exactly when some pair names it |
| App.Window | app.py:297-298 | no ensures; the trim `hist[-30:]`, stated by WindowIsNewest and WindowAfterAppend |
| App.Push | app.py:295-298 | no ensures; one `setdefault(...).append` and trim, stated by RecordStep |
| App.Record | app.py:289-298 | no ensures; the history after one record_scores call, stated by RecordIsWindow and RecordKeepsUnmentioned |
| App.WindowIsNewest | app.py:297-298 | the trim keeps the newest min(len, 30) samples, dropping the oldest |
| App.WindowAfterAppend | app.py:295-298 | trimming after each append equals trimming once at the end |
| App.OtherCoinStep | app.py:291-296 | a pair for another coin adds no sample for this one |
| App.RecordStep | app.py:295-298 | one more pair keeps each history the window of the old history and the samples so far |
| App.RecordIsWindow | app.py:287-298 | a coin's history becomes the last 30 of its old history followed by this call's samples; it is present exactly when it was or got samples |
| App.RecordKeepsUnmentioned | app.py:287-298 | a coin no pair names keeps its history, or stays absent |
| App.RecordStaysBounded | app.py:297-298 | every history stays at most 30 samples long |
| App.RecordedEndsWithNow | app.py:288-298 | a recorded coin's history is non-empty, at most 30 long, and ends with this call's last sample for it, stamped `now` |
| App.PendingSnoc | app.py:290-294 | one more coin adds at most its own pair |
| App.RecordSnoc | app.py:295-298 | recording one more pair is one more append and trim |
| App.ScoreStore.RecordScores | app.py:287-298 | the history becomes Record of the old history, the pending pairs and `now` |
| App.ScoreStore.RecordEntry | app.py:290-298 | one coin: skipped without an id or a score, otherwise one append and trim |
| App.ScoreStore.Append | app.py:295-298 | one append and trim on one coin |
| App.RoundHalfEven | app.py:303 | the nearest integer, ties to even |
| App.RoundHalfEvenUnique | app.py:303 | that integer is the only one with that property |
| App.Round4 | app.py:303 | `round(x, 4)` lies within 0.00005 of x |
| App.Round4Sign | app.py:303 | the rounded value is non-negative exactly when x >= -0.00005 |
| App.Velocity | app.py:300-303 | present exactly with two or more samples; within 0.00005 of last minus first |
| App.Latest | app.py:305-308 | None exactly for an empty or unknown history |
| App.LatestAfterRecord | app.py:287-308 | right after recording, the latest score is this call's last score for the coin |
| App.AttachScores | app.py:436-439 | same coins; each quote gains the latest score and the velocity |
| App.GetSignal | app.py:239-253 | NO DATA exactly for a None score; each label implies its threshold conditions, and each label's conditions force it unless a label earlier in the priority order applies |
| App.RisingIsNotFalling | app.py:242-243 | rising and falling partition velocities; an unknown velocity is rising |
| App.UnknownVelocityCountsAsRising | app.py:242-253 | an unknown velocity classifies as a zero one and is never FADING |
| App.StrongScoreWins | app.py:245-246 | score >= 0.78 with a rounded velocity >= 0 is STRONG MOMENTUM whatever the volume |
| App.StrongMomentumMonotone | app.py:245-246 | a higher score keeps STRONG MOMENTUM |
| App.AlertScore | app.py:768 | the alert score is the cached score or the latest recorded score |
| App.PriceKeys | app.py:771-772 | an entry raises at most one price key |
| App.ScoreKeys | app.py:778-779 | an entry raises at most one score key |
| App.EntryAlerts | app.py:766-781 | no ensures; the keys one entry raises, price before score, stated by EntryKeys, OneKey and the two AlertRaised lemmas |
| App.Candidates | app.py:763-781 | no ensures; every raised key over the watchlist, stated by the OnlyBelow and AlertRaised lemmas |
| App.EntryKeys | app.py:766-781 | each key an entry raises names its coin and an armed threshold above the price or the alert score |
| App.PriceAlertOnlyBelow | app.py:771-772 | a price alert is raised only for an armed threshold above the cached price |
| App.ScoreAlertOnlyBelow | app.py:778-779 | a score alert is raised only for an armed threshold above the alert score |
| App.PriceAlertRaised | app.py:771-772 | every entry whose armed price threshold lies above its cached price raises that price alert |
| App.ScoreAlertRaised | app.py:778-779 | every entry whose armed score threshold lies above its alert score raises that score alert |
| App.FreshKeysSpec | app.py:773-781 | the notified keys are exactly the raised keys not fired before, each once |
| App.KeySetHas | app.py:774 | the fired set grows by exactly the raised keys |
| App.KeySetAppend | app.py:765-781 | keys raised by two batches are the union of each batch's |
| App.OneKey | app.py:773-781 | a single key notifies unless it fired before, and joins the fired set |
| App.EntryFresh | app.py:771-783 | the price key never blocks the score key, so an entry notifies what its two checks notify on their own |
| App.AllFiredNotifyNothing | app.py:773 | keys that all fired before notify nothing |
| App.FiresOnce | app.py:763-783 | after a pass, the same raised keys notify nothing again |
| App.FreshKeysSnoc | app.py:773-774 | one more key notifies unless it fired before or was raised earlier |
| App.FreshKeysAppend | app.py:765-783 | checking entries one after another notifies what checking them together does |
| App.BagPanel.CheckAlerts | app.py:763-783 | notifies FreshKeys of the raised keys against the old fired set; the fired set grows by the raised keys; cache unchanged |
| App.BagPanel.CheckEntry | app.py:766-783 | the price check then the score check for one entry, with the same notify-once result |
| App.BagPanel.FireAny | app.py:771-783 | one alert check: its raised key notifies unless it fired before, and joins the fired set |
| App.BagPanel.Fire | app.py:773-776 | the key joins the fired set and notifies exactly when it was not fired |
| App.BagPanel.UpdatePrices | app.py:676-680 | the cache is merged with the new quotes, then alerts are checked |
| Scan.BrowserEntry | main.py:71 | the appended entry is nested with id and coin_id both cid |
| Scan.AnyMatchesSnoc | main.py:66-70 | one more entry matches exactly when it or an earlier one does |
| Scan.MergeOneKeepsMergeOf | main.py:65-71 | one turn of the merge loop keeps the merge invariant |
| Scan.AppendKeepsCoverage | main.py:65-71 | an append keeps every processed id matched or appended |
| Scan.MergeTrending | main.py:64-71 | API list kept as a prefix; each appended entry is a distinct unmatched scraped id; every scraped id is matched or appended |
| Scan.BrowserEntryIsTrending | main.py:71 | an appended lower-case id is matched by its own entry and is that entry's trending id |
| Scan.ScrapedIdsAreTrending | main.py:64-80 | every non-empty lower-case scraped id reaches rank_coins' trending set (proviso in Left out) |
| Scan.ScrapedPageIdsAreTrending | main.py:64-80 | the same for ids scraped from a page |
| Scan.TopLength | main.py:81 | `ranked[:top_n]` length, negative bounds counting from the end |
| Scan.MarketCoins | main.py:43-46 | at most `fetch` coins |
| Scan.RunScan | main.py:37-81 | the first top_n of the ranking over some merge of the scraped ids, each with its score and rank k+1 |
| Browser.RunEnd | browser_automation.py:11 | the greedy id run ends within the page |
| Browser.ExtractTrendingIds | browser_automation.py:8-13 | the scanner collects exactly ScanFrom(html, 0) |
| Browser.RunIsIds | browser_automation.py:11 | the run after a match is made of id characters |
| Browser.IdAtIsLowerId | browser_automation.py:11-12 | one match's id is non-empty, lower-case, over [a-z0-9_-] |
| Browser.IdsAreLowerIds | browser_automation.py:8-13 | every returned id is non-empty, lower-case, over [a-z0-9_-] |
| Browser.IdsComeFromLinks | browser_automation.py:11-12 | every returned id is the lower-cased maximal run after a prefix match |
| Browser.NoLinkNoIds | browser_automation.py:8-13 | a page without the prefix yields no ids |
| Browser.EmptyPageNoIds | browser_automation.py:8-13 | the empty page of a failed scrape yields no ids |
| Browser.FirstLinkCollected | browser_automation.py:11-12 | the first match at or after a position is always collected |
| Browser.RunEndAt | browser_automation.py:11 | a run of id characters ended by a non-id character or the page end ends there |
| Browser.MixedCaseLink | browser_automation.py:11-12 | "/EN/Coins/Pepe-2" yields exactly {"pepe-2"} |
| Browser.OverlappingLinkSkipped | browser_automation.py:11 | "/en/coins/en/coins/btc" yields only {"en"}: matches never overlap |

## Left out

- The Qt interface is left out: widgets, tables, tray notifications, sparkline painting and the text of notices. `BagPanel._notify` is modelled as appending the key to the notices a pass returns.
- Threads and `_score_lock` are left out; every operation runs sequentially.
- HTTP is left out: `_get`, retries, rate limits, timeouts and raised errors. Pages and the simple-price table come from functions passed in, and a failed trending fetch or scrape is an empty input.
- Playwright scraping is left out (`scrape_with_browser`, `gather_trend_ids_from_browsers`, `get_trend_ids_sync`). The scraped ids are an input set.
- AI commentary, the explainer text, settings and `.env` handling are left out.
- Watchlist file I/O is left out; the watchlist is a parameter listing (id, position) pairs in file order.
- Number formatting (`fmt_*`, `format_coin`) is left out.
- The request behind `fetch_gainers_losers` (the first 100 coins by market cap) is left out; its rows are an input.
- Floating point is not modelled: arithmetic is exact on `real`. `int(i * step)` becomes the exact floor of i·len/n, and `round(x, 4)` is exact round-half-even.
- `str.lower` and the `re.I` matching cover ASCII only. Python also folds non-ASCII letters, and `re.I` lets a few non-ASCII letters (such as the Kelvin sign) match `[a-z]`.
- JSON values of the wrong type are not modelled. Ids and symbols are strings, with "" for absent or None. For example, a numeric `coin_id` would make the merge's `.lower()` raise.
- Scan.MatchesId reads a trending entry through `Fields()`. For an entry whose `item` is an empty dict, the source's `(t.get("item") or t)` reads the entry's own keys instead.
- Scoring.IsNewlyListed takes one `now` for the whole ranking. The source reads the clock once per coin.
- Ranker.RankCoins requires the market records to be distinct objects, as `get_all_market_data` returns them. The source would write twice to an aliased dictionary.
- Ranker.RankCoins scores every coin before it writes any `trend_score`. The source interleaves the two, but scoring never reads `trend_score`.
- App.AlertKey keys the fired set by (kind, id, threshold) rather than by the formatted string `price_{cid}_{threshold}`. Distinct thresholds that format alike are kept apart. Conversely, one threshold written as `1` and later as `1.0` gives two strings in the source, so the app notifies again where the model treats the key as already fired.
- Scan.MergeTrending picks scraped ids in an unspecified order, as set iteration does. Scan.RunScan therefore promises its result for some merge order.
- Scan.RunScan passes the merged list where the source passes `trending_merged or None`. Both give the same trending set.
- Scan.ScrapedIdsAreTrending requires that no API entry matches a scraped id only through a `coin_id` that differs from the entry's trending id. Such an entry blocks the append without putting the id in the trending set.
- Scoring.NormalizeLog requires `Log1pDefined`. The source raises `ValueError` there instead, and that case is never reached from `rank_coins`.
- MarketData.Downsample requires `n != 0` for a non-empty series. The source divides by zero there.
- MarketData.LastN returns [] for n = 0, where Python's `xs[-0:]` is the whole list. The only bound the source uses is 15.
