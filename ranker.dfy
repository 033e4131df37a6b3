/** The ranker of analysis.py: builds the trending-id set and the corpus ranges, scores
    every coin, writes `trend_score` on the survivors, sorts them stably by descending
    score and writes the dense ranks 1..n. */
module Ranker {
  import opened Optional
  import opened Text
  import opened Records
  import opened Scoring
  import opened Sorting

  // ---------------------------------------------------------------- trending ids

  /** The id a trending entry contributes: its `id`, failing that its `coin_id`,
      lower-cased; "" contributes nothing. */
  function TrendId(t: TrendEntry): string {
    var f := t.Fields();
    Lower(if f.id != "" then f.id else f.coinId)
  }

  /** The set rank_coins builds from the trending list: every id in it is non-empty and
      lower-case, and it holds exactly the non-empty ids the entries contribute. */
  function TrendIdSet(trending: seq<TrendEntry>): (ids: set<string>)
    ensures forall s :: s in ids ==> s != "" && IsLowerText(s)
    ensures forall t :: t in trending && TrendId(t) != "" ==> TrendId(t) in ids
    ensures forall s :: s in ids ==> exists t :: t in trending && TrendId(t) == s
  {
    var ids := set t | t in trending && TrendId(t) != "" :: TrendId(t);
    assert forall s :: s in ids ==> IsLowerText(s) by {
      forall s | s in ids ensures IsLowerText(s) {
        var t :| t in trending && TrendId(t) == s;
        var f := t.Fields();
        LowerIsLowerText(if f.id != "" then f.id else f.coinId);
      }
    }
    ids
  }

  /** An entry of the nested shape `{"item": {"id": cid, "coin_id": cid}}` puts cid in the
      trending set when cid is a non-empty lower-case id. */
  lemma NestedEntryCounts(trending: seq<TrendEntry>, cid: string)
    requires Nested(TrendFields(cid, cid)) in trending
    requires cid != "" && IsLowerText(cid)
    ensures cid in TrendIdSet(trending)
  {
    LowerOfLowerText(cid);
    assert TrendId(Nested(TrendFields(cid, cid))) == cid;
  }

  // ---------------------------------------------------------------- corpus ranges

  /** The coins that are not stablecoins, in input order. Blue chips stay in. */
  function NonStable(coins: seq<Coin>): (r: seq<Coin>)
    ensures forall c :: c in r <==> c in coins && !IsStablecoin(c)
  {
    if coins == [] then []
    else (if IsStablecoin(coins[0]) then [] else [coins[0]]) + NonStable(coins[1..])
  }

  /** Every coin's vol/mcap ratio. */
  function VmrsOf(cs: seq<Coin>): (r: seq<real>)
    ensures forall c :: c in cs ==> c.vmr in r
    ensures forall x :: x in r ==> exists c :: c in cs && c.vmr == x
  {
    if cs == [] then [] else [cs[0].vmr] + VmrsOf(cs[1..])
  }

  /** The 24h changes that are present; None values are skipped. */
  function Pct24hsOf(cs: seq<Coin>): (r: seq<real>)
    ensures forall c :: c in cs && c.pct24h.Some? ==> c.pct24h.value in r
    ensures forall x :: x in r ==> exists c :: c in cs && c.pct24h == Some(x)
  {
    if cs == [] then []
    else (if cs[0].pct24h.Some? then [cs[0].pct24h.value] else []) + Pct24hsOf(cs[1..])
  }

  /** The 7d changes that are present; None values are skipped. */
  function Pct7dsOf(cs: seq<Coin>): (r: seq<real>)
    ensures forall c :: c in cs && c.pct7d.Some? ==> c.pct7d.value in r
    ensures forall x :: x in r ==> exists c :: c in cs && c.pct7d == Some(x)
  {
    if cs == [] then []
    else (if cs[0].pct7d.Some? then [cs[0].pct7d.value] else []) + Pct7dsOf(cs[1..])
  }

  /** Python's `min`. */
  function MinOf(xs: seq<real>): (m: real)
    requires xs != []
    ensures m in xs && forall x :: x in xs ==> m <= x
  {
    if |xs| == 1 then xs[0]
    else
      var rest := MinOf(xs[1..]);
      assert xs == [xs[0]] + xs[1..];
      if xs[0] <= rest then xs[0] else rest
  }

  /** Python's `max`. */
  function MaxOf(xs: seq<real>): (m: real)
    requires xs != []
    ensures m in xs && forall x :: x in xs ==> x <= m
  {
    if |xs| == 1 then xs[0]
    else
      var rest := MaxOf(xs[1..]);
      assert xs == [xs[0]] + xs[1..];
      if xs[0] >= rest then xs[0] else rest
  }

  /** (lo, hi) are the defaults of an empty list, and otherwise its minimum and maximum. */
  ghost predicate Spans(lo: real, hi: real, xs: seq<real>, defaultLo: real, defaultHi: real) {
    && (xs == [] ==> lo == defaultLo && hi == defaultHi)
    && (xs != [] ==> lo in xs && hi in xs && forall x :: x in xs ==> lo <= x <= hi)
  }

  function RangeOf(xs: seq<real>, defaultLo: real, defaultHi: real): (r: (real, real))
    ensures Spans(r.0, r.1, xs, defaultLo, defaultHi)
  {
    if xs == [] then (defaultLo, defaultHi) else (MinOf(xs), MaxOf(xs))
  }

  /** The ranges of one ranking pass: min and max over the non-stablecoins only (blue
      chips included), None changes skipped, defaults (0,1), (-50,200), (-50,400). */
  function ComputeRanges(coins: seq<Coin>): (rg: Ranges)
    ensures Spans(rg.vmrLo, rg.vmrHi, VmrsOf(NonStable(coins)), 0.0, 1.0)
    ensures Spans(rg.pct24hLo, rg.pct24hHi, Pct24hsOf(NonStable(coins)), -50.0, 200.0)
    ensures Spans(rg.pct7dLo, rg.pct7dHi, Pct7dsOf(NonStable(coins)), -50.0, 400.0)
  {
    var ns := NonStable(coins);
    var vmr := RangeOf(VmrsOf(ns), 0.0, 1.0);
    var p24 := RangeOf(Pct24hsOf(ns), -50.0, 200.0);
    var p7 := RangeOf(Pct7dsOf(ns), -50.0, 400.0);
    Ranges(vmr.0, vmr.1, p24.0, p24.1, p7.0, p7.1)
  }

  /** Every non-stablecoin of the corpus lies inside the computed ranges, and each bound
      is attained by some non-stablecoin; a corpus of stablecoins gets the defaults. */
  lemma RangesCoverNonStablecoins(coins: seq<Coin>, c: Coin)
    requires c in coins && !IsStablecoin(c)
    ensures var rg := ComputeRanges(coins);
            && rg.vmrLo <= c.vmr <= rg.vmrHi
            && (c.pct24h.Some? ==> rg.pct24hLo <= c.pct24h.value <= rg.pct24hHi)
            && (c.pct7d.Some? ==> rg.pct7dLo <= c.pct7d.value <= rg.pct7dHi)
            && (exists d :: d in coins && !IsStablecoin(d) && d.vmr == rg.vmrLo)
            && (exists d :: d in coins && !IsStablecoin(d) && d.vmr == rg.vmrHi)
  {
    var ns := NonStable(coins);
    assert c in ns;
    var rg := ComputeRanges(coins);
    assert rg.vmrLo in VmrsOf(ns) && rg.vmrHi in VmrsOf(ns);
  }

  lemma {:induction false} AllStablecoinRanges(coins: seq<Coin>)
    requires forall c :: c in coins ==> IsStablecoin(c)
    ensures NonStable(coins) == []
    ensures ComputeRanges(coins) == DefaultRanges
  {
    if coins != [] {
      AllStablecoinRanges(coins[1..]);
    }
  }

  /** With the corpus ranges, every coin of the corpus can be scored: a non-stablecoin
      with a positive ratio makes vmrHi positive, inside the domain of log1p. */
  lemma CorpusRangesScorable(coins: seq<Coin>, excludeBlueChips: bool)
    ensures forall c :: c in coins ==> ScorableWith(c, ComputeRanges(coins), excludeBlueChips)
  {
    forall c | c in coins ensures ScorableWith(c, ComputeRanges(coins), excludeBlueChips) {
      if !IsStablecoin(c) {
        RangesCoverNonStablecoins(coins, c);
      }
    }
  }

  // ---------------------------------------------------------------- ranking

  /** Every coin's score against the given trending ids and ranges, in input order. */
  function ScoresWith(log1p: real -> real, coins: seq<Coin>, trendIds: set<string>, rg: Ranges,
                      excludeBlueChips: bool, now: int): (scores: seq<real>)
    requires IsLog1p(log1p)
    requires forall c | c in coins :: ScorableWith(c, rg, excludeBlueChips)
    ensures |scores| == |coins|
    ensures forall i :: 0 <= i < |coins| ==>
              scores[i] == ScoreCoin(log1p, coins[i], trendIds, rg, excludeBlueChips, now)
  {
    seq(|coins|, i requires 0 <= i < |coins| => ScoreCoin(log1p, coins[i], trendIds, rg, excludeBlueChips, now))
  }

  /** The score of every coin of the corpus, in input order. */
  function CorpusScores(log1p: real -> real, coins: seq<Coin>, trending: seq<TrendEntry>,
                        excludeBlueChips: bool, now: int): (scores: seq<real>)
    requires IsLog1p(log1p)
    ensures |scores| == |coins|
    ensures forall i :: 0 <= i < |coins| ==>
              scores[i] == ScoreCoin(log1p, coins[i], TrendIdSet(trending), ComputeRanges(coins),
                                     excludeBlueChips, now)
  {
    CorpusRangesScorable(coins, excludeBlueChips);
    ScoresWith(log1p, coins, TrendIdSet(trending), ComputeRanges(coins), excludeBlueChips, now)
  }

  /** The positions whose score is not FilteredOut, ascending. */
  function Unfiltered(scores: seq<real>): (idx: seq<nat>)
    ensures forall k :: 0 <= k < |idx| ==> idx[k] < |scores| && scores[idx[k]] != FilteredOut
    ensures forall i :: 0 <= i < |scores| && scores[i] != FilteredOut ==> i in idx
    ensures forall a, b :: 0 <= a < b < |idx| ==> idx[a] < idx[b]
  {
    if scores == [] then []
    else
      var n := |scores| - 1;
      Unfiltered(scores[..n]) + (if scores[n] != FilteredOut then [n] else [])
  }

  lemma UnfilteredStep(scores: seq<real>, i: nat)
    requires i < |scores|
    ensures Unfiltered(scores[..i + 1])
            == Unfiltered(scores[..i]) + (if scores[i] != FilteredOut then [i] else [])
  {
    assert scores[..i + 1][..i] == scores[..i];
  }

  /** The stable descending order of the surviving positions, as input positions. */
  function OrderedSurvivors(scores: seq<real>): (pos: seq<nat>)
    ensures var surv := Unfiltered(scores);
            var order := StableOrder(Pick(scores, surv), true);
            |pos| == |order| && forall k :: 0 <= k < |pos| ==> pos[k] == surv[order[k]]
  {
    var surv := Unfiltered(scores);
    Pick(surv, StableOrder(Pick(scores, surv), true))
  }

  lemma SurvivorsAllPresent(scores: seq<real>)
    ensures var pos := OrderedSurvivors(scores);
            forall i :: 0 <= i < |scores| && scores[i] != FilteredOut ==> i in pos
  {
    var surv := Unfiltered(scores);
    var order := StableOrder(Pick(scores, surv), true);
    var pos := OrderedSurvivors(scores);
    forall i | 0 <= i < |scores| && scores[i] != FilteredOut ensures i in pos {
      var j :| 0 <= j < |surv| && surv[j] == i;
      assert j in order;
      var k :| 0 <= k < |order| && order[k] == j;
      assert pos[k] == i;
    }
  }

  lemma SurvivorsSortedStably(scores: seq<real>)
    ensures var pos := OrderedSurvivors(scores);
            && (forall k :: 0 <= k < |pos| ==> pos[k] < |scores| && scores[pos[k]] != FilteredOut)
            && (forall a, b :: 0 <= a < b < |pos| ==> scores[pos[a]] >= scores[pos[b]])
            && (forall a, b :: 0 <= a < b < |pos| && scores[pos[a]] == scores[pos[b]] ==> pos[a] < pos[b])
  {
    var surv := Unfiltered(scores);
    var keys := Pick(scores, surv);
    var order := StableOrder(keys, true);
    var pos := OrderedSurvivors(scores);
    forall a, b | 0 <= a < b < |pos| ensures scores[pos[a]] >= scores[pos[b]] {
      assert keys[order[a]] >= keys[order[b]];
    }
    forall a, b | 0 <= a < b < |pos| && scores[pos[a]] == scores[pos[b]] ensures pos[a] < pos[b] {
      assert keys[order[a]] == keys[order[b]];
      assert order[a] < order[b];
    }
  }

  /** The input positions in rank_coins' output order: exactly the unfiltered ones, by
      descending score, equal scores in input order (Python's sort is stable). */
  function RankPositions(scores: seq<real>): (pos: seq<nat>)
    ensures forall k :: 0 <= k < |pos| ==> pos[k] < |scores| && scores[pos[k]] != FilteredOut
    ensures forall i :: 0 <= i < |scores| && scores[i] != FilteredOut ==> i in pos
    ensures forall a, b :: 0 <= a < b < |pos| ==> scores[pos[a]] >= scores[pos[b]]
    ensures forall a, b :: 0 <= a < b < |pos| && scores[pos[a]] == scores[pos[b]] ==> pos[a] < pos[b]
    ensures Distinct(pos)
  {
    SurvivorsAllPresent(scores);
    SurvivorsSortedStably(scores);
    OrderedSurvivors(scores)
  }

  /** The trending-id loop of rank_coins. */
  method CollectTrendIds(trending: seq<TrendEntry>) returns (trendIds: set<string>)
    ensures trendIds == TrendIdSet(trending)
  {
    trendIds := {};
    for t := 0 to |trending|
      invariant trendIds == TrendIdSet(trending[..t])
    {
      var tid := TrendId(trending[t]);
      if tid != "" {
        trendIds := trendIds + {tid};
      }
      assert trending[..t + 1] == trending[..t] + [trending[t]];
    }
    assert trending[..|trending|] == trending;
  }

  /** The write-back half of rank_coins' scoring loop: given each coin's score, writes
      `trend_score` on each coin not filtered out and collects those coins, with their
      scores, in input order. */
  method AnnotateScores(market: seq<CoinRecord>, scores: seq<real>)
    returns (scored: seq<CoinRecord>, keys: seq<real>)
    requires Distinct(market) && |scores| == |market|
    modifies market
    ensures scored == Pick(market, Unfiltered(scores)) && keys == Pick(scores, Unfiltered(scores))
    ensures forall j :: 0 <= j < |market| ==>
              market[j].trendScore == (if scores[j] != FilteredOut then Some(scores[j]) else old(market[j].trendScore))
    ensures forall j :: 0 <= j < |market| ==> market[j].rank == old(market[j].rank)
  {
    scored, keys := [], [];
    ghost var surv: seq<nat> := [];
    for i := 0 to |market|
      invariant surv == Unfiltered(scores[..i])
      invariant scored == Pick(market, surv) && keys == Pick(scores, surv)
      invariant forall j :: 0 <= j < |market| ==>
                  market[j].trendScore == (if j < i && scores[j] != FilteredOut then Some(scores[j])
                                           else old(market[j].trendScore))
      invariant forall j :: 0 <= j < |market| ==> market[j].rank == old(market[j].rank)
    {
      var s := scores[i];
      UnfilteredStep(scores, i);
      if s != FilteredOut {
        WriteScore(market, i, s);
        PickSnoc(market, surv, i);
        PickSnoc(scores, surv, i);
        scored, keys, surv := scored + [market[i]], keys + [s], surv + [i];
      }
    }
    assert scores[..|market|] == scores;
  }

  /** `c["trend_score"] = s` on the i-th record, which no other position aliases. */
  method WriteScore(market: seq<CoinRecord>, i: nat, s: real)
    requires Distinct(market) && i < |market|
    modifies market[i]
    ensures forall j :: 0 <= j < |market| ==>
              market[j].trendScore == (if j == i then Some(s) else old(market[j].trendScore))
    ensures forall j :: 0 <= j < |market| ==> market[j].rank == old(market[j].rank)
  {
    market[i].trendScore := Some(s);
  }

  /** The rank loop of rank_coins: `rank` = 1, 2, ... in list order. */
  method AssignRanks(ranked: seq<CoinRecord>)
    requires Distinct(ranked)
    modifies ranked
    ensures forall k :: 0 <= k < |ranked| ==> ranked[k].rank == Some(k + 1)
    ensures forall k :: 0 <= k < |ranked| ==> ranked[k].trendScore == old(ranked[k].trendScore)
  {
    for k := 0 to |ranked|
      invariant forall j :: 0 <= j < k ==> ranked[j].rank == Some(j + 1)
      invariant forall j :: 0 <= j < |ranked| ==> ranked[j].trendScore == old(ranked[j].trendScore)
    {
      ranked[k].rank := Some(k + 1);
    }
  }

  /** Ordering the survivors by score picks exactly the records at the rank positions. */
  lemma OrderedScoredMatchesPositions(scores: seq<real>, market: seq<CoinRecord>,
                                      scored: seq<CoinRecord>, keys: seq<real>)
    requires |scores| == |market|
    requires scored == Pick(market, Unfiltered(scores)) && keys == Pick(scores, Unfiltered(scores))
    ensures Pick(scored, StableOrder(keys, true)) == Pick(market, RankPositions(scores))
  {
    var ranked := Pick(scored, StableOrder(keys, true));
    var pos := RankPositions(scores);
    assert forall k :: 0 <= k < |ranked| ==> ranked[k] == market[pos[k]];
  }

  /** Picking distinct positions of a list of distinct records gives distinct records,
      none of them from a position that was not picked. */
  lemma PickDistinct(market: seq<CoinRecord>, pos: seq<nat>)
    requires Distinct(market) && Distinct(pos)
    requires forall k :: 0 <= k < |pos| ==> pos[k] < |market|
    ensures Distinct(Pick(market, pos))
    ensures forall i :: 0 <= i < |market| && i !in pos ==> market[i] !in Pick(market, pos)
  {
    var ranked := Pick(market, pos);
    forall a, b | 0 <= a < b < |ranked| ensures ranked[a] != ranked[b] {
      assert pos[a] != pos[b];
    }
    forall i | 0 <= i < |market| && i !in pos ensures market[i] !in ranked {
      forall k | 0 <= k < |ranked| ensures ranked[k] != market[i] {
        assert pos[k] != i;
      }
    }
  }

  /** The ordering half of rank_coins: writes `trend_score` on every coin whose score is
      not FilteredOut, sorts those coins by descending score (stably) and writes `rank`
      1, 2, ... on them; filtered coins are left untouched. */
  method RankScored(market: seq<CoinRecord>, scores: seq<real>) returns (ranked: seq<CoinRecord>)
    requires Distinct(market) && |scores| == |market|
    modifies market
    ensures var pos := RankPositions(scores);
            && |ranked| == |pos|
            && (forall k :: 0 <= k < |ranked| ==> ranked[k] == market[pos[k]])
            && (forall k :: 0 <= k < |ranked| ==>
                  ranked[k].trendScore == Some(scores[pos[k]]) && ranked[k].rank == Some(k + 1))
            && (forall i :: 0 <= i < |market| && scores[i] == FilteredOut ==>
                  market[i].trendScore == old(market[i].trendScore) && market[i].rank == old(market[i].rank))
  {
    var scored, keys := AnnotateScores(market, scores);
    OrderedScoredMatchesPositions(scores, market, scored, keys);
    PickDistinct(market, RankPositions(scores));
    ranked := Pick(scored, StableOrder(keys, true));
    AssignRanks(ranked);
  }

  /** `rank_coins`. Scores every coin against the corpus' trending ids and ranges, then
      writes `trend_score` and `rank` as RankScored describes; the market fields are
      never written (they are constant). */
  method RankCoins(log1p: real -> real, market: seq<CoinRecord>, trending: seq<TrendEntry>,
                   excludeBlueChips: bool, now: int) returns (ranked: seq<CoinRecord>)
    requires IsLog1p(log1p)
    requires Distinct(market)
    modifies market
    ensures var scores := CorpusScores(log1p, DataOf(market), trending, excludeBlueChips, now);
            var pos := RankPositions(scores);
            && |ranked| == |pos|
            && (forall k :: 0 <= k < |ranked| ==> ranked[k] == market[pos[k]])
            && (forall k :: 0 <= k < |ranked| ==>
                  ranked[k].trendScore == Some(scores[pos[k]]) && ranked[k].rank == Some(k + 1))
            && (forall i :: 0 <= i < |market| && scores[i] == FilteredOut ==>
                  market[i].trendScore == old(market[i].trendScore) && market[i].rank == old(market[i].rank))
  {
    var trendIds := CollectTrendIds(trending);
    var coins := DataOf(market);
    var rg := ComputeRanges(coins);
    CorpusRangesScorable(coins, excludeBlueChips);
    var scores := ScoresWith(log1p, coins, trendIds, rg, excludeBlueChips, now);
    assert scores == CorpusScores(log1p, coins, trending, excludeBlueChips, now);
    ranked := RankScored(market, scores);
  }
}
