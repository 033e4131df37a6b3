/** The coin scorer: linear and log-scaled normalisers, the eligibility filter, the
    newly-listed heuristic and the weighted momentum score of one coin. */
module Scoring {
  import opened Optional
  import opened Text
  import opened Config
  import opened Records

  /** The score of a coin excluded from ranking; no real score is negative. */
  const FilteredOut: real := -1.0

  // Multipliers score_coin applies to a weight when the signal is missing or weak.
  const MissingChangeFactor: real := 0.4
  const OnTrendingFactor: real := 1.0
  const OffTrendingFactor: real := 0.05
  const UnknownRankFactor: real := 0.7

  /** The market-cap rank that earns the full rank weight. */
  const RankCeiling: int := 500

  /** An all-time low at most this many whole days ago marks a coin as newly listed. */
  const NewListingDays: int := 180
  const DayMicros: int := 86_400_000_000

  function Min(a: real, b: real): real { if a <= b then a else b }
  function Max(a: real, b: real): real { if a >= b then a else b }

  lemma DivBounds(a: real, b: real)
    requires b > 0.0
    ensures a <= 0.0 ==> a / b <= 0.0
    ensures a >= b ==> a / b >= 1.0
  {
    assert a / b * b == a;
  }

  lemma DivMonotone(a: real, a': real, b: real)
    requires b > 0.0 && a <= a'
    ensures a / b <= a' / b
  {
    assert a' / b - a / b == (a' - a) / b;
    DivBounds(a - a', b);
  }

  /** Linear normalisation of `value` against the range [lo, hi], clamped to [0, 1];
      a degenerate range gives the neutral 0.5. */
  function Normalize(value: real, lo: real, hi: real): (r: real)
    ensures 0.0 <= r <= 1.0
    ensures hi <= lo ==> r == 0.5
    ensures lo < hi && value <= lo ==> r == 0.0
    ensures lo < hi && hi <= value ==> r == 1.0
  {
    if hi <= lo then 0.5
    else
      DivBounds(value - lo, hi - lo);
      Max(0.0, Min(1.0, (value - lo) / (hi - lo)))
  }

  lemma NormalizeMonotone(v: real, v': real, lo: real, hi: real)
    requires v <= v'
    ensures Normalize(v, lo, hi) <= Normalize(v', lo, hi)
  {
    if lo < hi {
      DivMonotone(v - lo, v' - lo, hi - lo);
    }
  }

  /** What the normaliser requires of `math.log1p`: 0 at 0, strictly increasing on its
      domain (-1, +inf). */
  ghost predicate IsLog1p(log1p: real -> real) {
    && log1p(0.0) == 0.0
    && forall x, y :: -1.0 < x < y ==> log1p(x) < log1p(y)
  }

  /** The log normaliser reaches `log1p(hi)` only when value > 0 and lo < hi; there hi
      must lie in the domain of log1p, or Python raises ValueError. */
  predicate Log1pDefined(value: real, lo: real, hi: real) {
    value <= 0.0 || hi <= lo || hi > -1.0
  }

  /** Log-scaled normalisation: `log1p` of value, max(0, lo) and hi, then the linear
      formula, clamped. No signal (value <= 0) or an empty range gives 0, not 0.5. */
  function NormalizeLog(log1p: real -> real, value: real, lo: real, hi: real): (r: real)
    requires IsLog1p(log1p) && Log1pDefined(value, lo, hi)
    ensures 0.0 <= r <= 1.0
    ensures hi <= lo || value <= 0.0 ==> r == 0.0
    ensures lo < hi && 0.0 < value && hi <= Max(0.0, lo) ==> r == 0.5
    ensures lo < hi && 0.0 < value && Max(0.0, lo) < hi && value <= Max(0.0, lo) ==> r == 0.0
    ensures lo < hi && 0.0 < value && Max(0.0, lo) < hi && hi <= value ==> r == 1.0
  {
    if hi <= lo || value <= 0.0 then 0.0
    else
      var lv := log1p(value);
      var ll := log1p(Max(0.0, lo));
      var lh := log1p(hi);
      if lh <= ll then 0.5
      else
        DivBounds(lv - ll, lh - ll);
        Max(0.0, Min(1.0, (lv - ll) / (lh - ll)))
  }

  lemma NormalizeLogMonotone(log1p: real -> real, v: real, v': real, lo: real, hi: real)
    requires IsLog1p(log1p) && Log1pDefined(v, lo, hi) && Log1pDefined(v', lo, hi)
    requires v <= v'
    ensures NormalizeLog(log1p, v, lo, hi) <= NormalizeLog(log1p, v', lo, hi)
  {
    if lo < hi && 0.0 < v {
      var ll := log1p(Max(0.0, lo));
      var lh := log1p(hi);
      if ll < lh {
        assert log1p(v) <= log1p(v');
        DivMonotone(log1p(v) - ll, log1p(v') - ll, lh - ll);
      }
    }
  }

  /** `_is_stablecoin`: the lower-cased id or symbol is on a deny-list. */
  predicate IsStablecoin(c: Coin) {
    Lower(c.id) in StablecoinIds || Lower(c.symbol) in StablecoinSymbols
  }

  /** A known market-cap rank at or above the cutoff; an absent rank never is one. */
  predicate IsBlueChip(c: Coin) {
    c.marketCapRank.Some? && c.marketCapRank.value <= BlueChipRankCutoff
  }

  /** The hard filters of score_coin. */
  predicate IsFiltered(c: Coin, excludeBlueChips: bool) {
    IsStablecoin(c) || (excludeBlueChips && IsBlueChip(c))
  }

  /** `_is_newly_listed` with "now" passed in: the all-time low lies at most 180 whole
      days (`timedelta.days`, a floor) before now. */
  function IsNewlyListed(atl: AtlDate, now: int): (r: bool)
    ensures r <==> atl.At? && now - atl.micros < (NewListingDays + 1) * DayMicros
  {
    match atl
    case At(t) => (now - t) / DayMicros <= NewListingDays
    case _ => false
  }

  /** The data-derived bounds the normalisers use. */
  datatype Ranges = Ranges(
    vmrLo: real, vmrHi: real,
    pct24hLo: real, pct24hHi: real,
    pct7dLo: real, pct7dHi: real)

  /** score_coin's default arguments, also the fall-backs of an empty corpus. */
  const DefaultRanges: Ranges := Ranges(0.0, 1.0, -50.0, 200.0, -50.0, 400.0)

  /** The log normaliser can be evaluated for this coin, or the coin never reaches it. */
  predicate ScorableWith(c: Coin, rg: Ranges, excludeBlueChips: bool) {
    IsFiltered(c, excludeBlueChips) || Log1pDefined(c.vmr, rg.vmrLo, rg.vmrHi)
  }

  function Term24h(c: Coin, rg: Ranges): (t: real)
    ensures 0.0 <= t <= WeightPriceChange24h
  {
    match c.pct24h
    case Some(p) => WeightPriceChange24h * Normalize(p, rg.pct24hLo, rg.pct24hHi)
    case None => WeightPriceChange24h * MissingChangeFactor
  }

  function TermVmr(log1p: real -> real, c: Coin, rg: Ranges): (t: real)
    requires IsLog1p(log1p) && Log1pDefined(c.vmr, rg.vmrLo, rg.vmrHi)
    ensures 0.0 <= t <= WeightVolMcapRatio
  {
    WeightVolMcapRatio * NormalizeLog(log1p, c.vmr, rg.vmrLo, rg.vmrHi)
  }

  function TermTrending(c: Coin, trendIds: set<string>): (t: real)
    ensures 0.0 <= t <= WeightTrending
  {
    if Lower(c.id) in trendIds then WeightTrending * OnTrendingFactor
    else WeightTrending * OffTrendingFactor
  }

  function Term7d(c: Coin, rg: Ranges): (t: real)
    ensures 0.0 <= t <= WeightPriceChange7d
  {
    match c.pct7d
    case Some(p) => WeightPriceChange7d * Normalize(p, rg.pct7dLo, rg.pct7dHi)
    case None => WeightPriceChange7d * MissingChangeFactor
  }

  /** Rewards smaller caps: the rank normalised from the cutoff in force up to 500. */
  function TermRank(c: Coin, excludeBlueChips: bool): (t: real)
    ensures 0.0 <= t <= WeightMarketCapRank
  {
    match c.marketCapRank
    case Some(rank) =>
      var cutoff := if excludeBlueChips then BlueChipRankCutoff else 1;
      WeightMarketCapRank * Normalize(rank as real, cutoff as real, RankCeiling as real)
    case None => WeightMarketCapRank * UnknownRankFactor
  }

  function TermNewlyListed(c: Coin, now: int): (t: real)
    ensures 0.0 <= t <= NewlyListedBonus
    ensures t == NewlyListedBonus <==> IsNewlyListed(c.atlDate, now)
  {
    if IsNewlyListed(c.atlDate, now) then NewlyListedBonus else 0.0
  }

  /** The score before the final clamp: five weighted signals and the flat bonus. It is
      never negative, and reaches above 1 only through the bonus. */
  function RawScore(log1p: real -> real, c: Coin, trendIds: set<string>, rg: Ranges,
                    excludeBlueChips: bool, now: int): (raw: real)
    requires IsLog1p(log1p) && Log1pDefined(c.vmr, rg.vmrLo, rg.vmrHi)
    ensures 0.0 <= raw <= WeightSum() + NewlyListedBonus
  {
    Term24h(c, rg) + TermVmr(log1p, c, rg) + TermTrending(c, trendIds)
      + Term7d(c, rg) + TermRank(c, excludeBlueChips) + TermNewlyListed(c, now)
  }

  /** `score_coin`: FilteredOut exactly for stablecoins and, when excluding them, blue
      chips; otherwise the raw score clamped into [0, 1]. */
  function ScoreCoin(log1p: real -> real, c: Coin, trendIds: set<string>, rg: Ranges,
                     excludeBlueChips: bool, now: int): (s: real)
    requires IsLog1p(log1p) && ScorableWith(c, rg, excludeBlueChips)
    ensures s == FilteredOut <==> IsFiltered(c, excludeBlueChips)
    ensures s != FilteredOut ==> 0.0 <= s <= 1.0
  {
    if IsStablecoin(c) then FilteredOut
    else if excludeBlueChips && c.marketCapRank.Some? && c.marketCapRank.value <= BlueChipRankCutoff
    then FilteredOut
    else Min(1.0, Max(0.0, RawScore(log1p, c, trendIds, rg, excludeBlueChips, now)))
  }

  /** A coin whose exact id or symbol is on a deny-list is filtered whatever its other
      fields, because the lists hold only lower-case entries. */
  lemma ListedStablecoinIsFiltered(log1p: real -> real, c: Coin, trendIds: set<string>,
                                   rg: Ranges, excludeBlueChips: bool, now: int)
    requires IsLog1p(log1p)
    requires c.id in StablecoinIds || c.symbol in StablecoinSymbols
    ensures ScorableWith(c, rg, excludeBlueChips)
    ensures ScoreCoin(log1p, c, trendIds, rg, excludeBlueChips, now) == FilteredOut
  {
    StablecoinIdsAreLowerCase();
    StablecoinSymbolsAreLowerCase();
  }

  /** A blue chip is scored normally unless blue chips are excluded; a coin without a
      rank is never excluded as one. */
  lemma BlueChipFilteredOnlyWhenExcluded(log1p: real -> real, c: Coin, trendIds: set<string>,
                                         rg: Ranges, excludeBlueChips: bool, now: int)
    requires IsLog1p(log1p) && ScorableWith(c, rg, excludeBlueChips) && !IsStablecoin(c)
    ensures c.marketCapRank.None? ==>
              ScoreCoin(log1p, c, trendIds, rg, excludeBlueChips, now) != FilteredOut
    ensures IsBlueChip(c) ==>
              (ScoreCoin(log1p, c, trendIds, rg, excludeBlueChips, now) == FilteredOut
               <==> excludeBlueChips)
  {
  }

  /** A non-stablecoin with no 24h, 7d, volume or rank data, off the trending list and
      not newly listed scores 0.30*0.4 + 0 + 0.20*0.05 + 0.15*0.4 + 0.10*0.7 = 0.26. */
  lemma MissingDataScore(log1p: real -> real, c: Coin, trendIds: set<string>, rg: Ranges,
                         excludeBlueChips: bool, now: int)
    requires IsLog1p(log1p) && !IsStablecoin(c)
    requires c.pct24h.None? && c.pct7d.None? && c.marketCapRank.None? && c.vmr == 0.0
    requires Lower(c.id) !in trendIds && !IsNewlyListed(c.atlDate, now)
    ensures ScorableWith(c, rg, excludeBlueChips)
    ensures ScoreCoin(log1p, c, trendIds, rg, excludeBlueChips, now) == 0.26
  {
  }

  /** Being on the trending list adds exactly 0.20 * (1.0 - 0.05) = 0.19 before the
      clamp, so after it the score rises by 0.19 or up to 1. */
  lemma TrendingRaisesScore(log1p: real -> real, c: Coin, trendIds: set<string>, rg: Ranges,
                            excludeBlueChips: bool, now: int)
    requires IsLog1p(log1p) && ScorableWith(c, rg, excludeBlueChips)
    requires !IsFiltered(c, excludeBlueChips) && Lower(c.id) !in trendIds
    ensures RawScore(log1p, c, trendIds + {Lower(c.id)}, rg, excludeBlueChips, now)
            == RawScore(log1p, c, trendIds, rg, excludeBlueChips, now) + 0.19
    ensures ScoreCoin(log1p, c, trendIds + {Lower(c.id)}, rg, excludeBlueChips, now)
            == Min(1.0, ScoreCoin(log1p, c, trendIds, rg, excludeBlueChips, now) + 0.19)
  {
  }

  /** A recent all-time low adds exactly the 0.05 bonus before the clamp. */
  lemma NewlyListedRaisesScore(log1p: real -> real, c: Coin, trendIds: set<string>, rg: Ranges,
                               excludeBlueChips: bool, recent: AtlDate, longAgo: AtlDate, now: int)
    requires IsLog1p(log1p) && ScorableWith(c, rg, excludeBlueChips)
    requires !IsFiltered(c, excludeBlueChips)
    requires IsNewlyListed(recent, now) && !IsNewlyListed(longAgo, now)
    ensures RawScore(log1p, c.(atlDate := recent), trendIds, rg, excludeBlueChips, now)
            == RawScore(log1p, c.(atlDate := longAgo), trendIds, rg, excludeBlueChips, now) + NewlyListedBonus
    ensures ScoreCoin(log1p, c.(atlDate := recent), trendIds, rg, excludeBlueChips, now)
            == Min(1.0, ScoreCoin(log1p, c.(atlDate := longAgo), trendIds, rg, excludeBlueChips, now)
                        + NewlyListedBonus)
  {
    var a, b := c.(atlDate := recent), c.(atlDate := longAgo);
    assert Term24h(a, rg) == Term24h(b, rg) && Term7d(a, rg) == Term7d(b, rg);
    assert TermVmr(log1p, a, rg) == TermVmr(log1p, b, rg);
    assert TermTrending(a, trendIds) == TermTrending(b, trendIds);
    assert TermRank(a, excludeBlueChips) == TermRank(b, excludeBlueChips);
    assert TermNewlyListed(a, now) == TermNewlyListed(b, now) + NewlyListedBonus;
  }

  /** An all-time low 30 days ago counts as newly listed; one two years ago does not. */
  lemma NewlyListedExamples(now: int)
    ensures IsNewlyListed(At(now - 30 * DayMicros), now)
    ensures IsNewlyListed(At(now - 180 * DayMicros), now)
    ensures !IsNewlyListed(At(now - 181 * DayMicros), now)
    ensures !IsNewlyListed(At(now - 730 * DayMicros), now)
    ensures !IsNewlyListed(NoDate, now) && !IsNewlyListed(Unparseable, now)
  {
  }

  /** The bonus lifts the pre-clamp score to 1.05 for a coin at the top of every range. */
  lemma RawScoreReachesMaximum(log1p: real -> real, c: Coin, trendIds: set<string>, rg: Ranges,
                               now: int)
    requires IsLog1p(log1p)
    requires rg.pct24hLo < rg.pct24hHi && rg.pct7dLo < rg.pct7dHi && 0.0 <= rg.vmrLo < rg.vmrHi
    requires c.pct24h == Some(rg.pct24hHi) && c.pct7d == Some(rg.pct7dHi) && c.vmr == rg.vmrHi
    requires c.marketCapRank == Some(RankCeiling) && Lower(c.id) in trendIds
    requires IsNewlyListed(c.atlDate, now)
    ensures Log1pDefined(c.vmr, rg.vmrLo, rg.vmrHi)
    ensures RawScore(log1p, c, trendIds, rg, true, now) == 1.05
  {
  }
}
