/** The command-line scan: fetch the market, merge the browser-scraped trending ids into
    the API trending list, rank, and keep the top N. */
module Scan {
  import opened Optional
  import opened Text
  import opened Records
  import opened Scoring
  import opened Ranker
  import MarketData
  import Browser

  // ---------------------------------------------------------------- trending merge

  /** `(t.get("item") or t).get("id", "").lower() == cid or` the same on `coin_id`. */
  predicate MatchesId(t: TrendEntry, cid: string) {
    Lower(t.Fields().id) == cid || Lower(t.Fields().coinId) == cid
  }

  /** The `any(...)` over the entries merged so far. */
  predicate AnyMatches(entries: seq<TrendEntry>, cid: string) {
    exists i :: 0 <= i < |entries| && MatchesId(entries[i], cid)
  }

  /** One more entry matches `cid` exactly when it or an earlier one does. */
  lemma AnyMatchesSnoc(entries: seq<TrendEntry>, t: TrendEntry, cid: string)
    ensures AnyMatches(entries + [t], cid) <==> AnyMatches(entries, cid) || MatchesId(t, cid)
  {
    if AnyMatches(entries, cid) {
      var i :| 0 <= i < |entries| && MatchesId(entries[i], cid);
      assert (entries + [t])[i] == entries[i];
    }
    if MatchesId(t, cid) {
      assert (entries + [t])[|entries|] == t;
    }
  }

  /** The entry appended for a scraped id: `{"item": {"id": cid, "coin_id": cid}}`. */
  function BrowserEntry(cid: string): (t: TrendEntry)
    ensures t.Nested? && t.Fields() == TrendFields(cid, cid)
  {
    Nested(TrendFields(cid, cid))
  }

  /** What the merge loop guarantees once the ids in `done` are processed: the API list
      is kept as a prefix; every appended entry is the nested entry of a distinct processed
      id that nothing before it matched; at most one entry per processed id; and every
      processed id is matched or was appended. */
  ghost predicate MergeOf(api: seq<TrendEntry>, done: set<string>, merged: seq<TrendEntry>) {
    && |api| <= |merged| && merged[..|api|] == api
    && |merged| - |api| <= |done|
    && (forall k :: |api| <= k < |merged| ==>
          merged[k] == BrowserEntry(merged[k].Fields().id) && merged[k].Fields().id in done
          && !AnyMatches(merged[..k], merged[k].Fields().id))
    && (forall k, k' :: |api| <= k < k' < |merged| ==> merged[k].Fields().id != merged[k'].Fields().id)
    && (forall cid :: cid in done ==> AnyMatches(merged, cid) || BrowserEntry(cid) in merged[|api|..])
  }

  /** One turn of the merge loop: append the scraped id's entry unless an entry so far
      matches it. */
  function MergeOne(merged: seq<TrendEntry>, cid: string): seq<TrendEntry> {
    if AnyMatches(merged, cid) then merged else merged + [BrowserEntry(cid)]
  }

  /** Each turn keeps MergeOf with one more processed id. */
  lemma MergeOneKeepsMergeOf(api: seq<TrendEntry>, done: set<string>, merged: seq<TrendEntry>, cid: string)
    requires MergeOf(api, done, merged) && cid !in done
    ensures MergeOf(api, done + {cid}, MergeOne(merged, cid))
  {
    if !AnyMatches(merged, cid) {
      var next := merged + [BrowserEntry(cid)];
      assert next[..|api|] == merged[..|api|];
      AppendKeepsCoverage(api, done, merged, cid);
      forall k | |api| <= k < |next|
        ensures !AnyMatches(next[..k], next[k].Fields().id)
      {
        if k < |merged| {
          assert next[..k] == merged[..k];
        } else {
          assert next[..k] == merged;
        }
      }
    }
  }

  /** After an append, every processed id is still matched or appended. */
  lemma AppendKeepsCoverage(api: seq<TrendEntry>, done: set<string>, merged: seq<TrendEntry>, cid: string)
    requires |api| <= |merged|
    requires forall c :: c in done ==> AnyMatches(merged, c) || BrowserEntry(c) in merged[|api|..]
    ensures var next := merged + [BrowserEntry(cid)];
            forall c :: c in done + {cid} ==> AnyMatches(next, c) || BrowserEntry(c) in next[|api|..]
  {
    var next := merged + [BrowserEntry(cid)];
    assert next[|api|..] == merged[|api|..] + [BrowserEntry(cid)];
    forall c | c in done + {cid}
      ensures AnyMatches(next, c) || BrowserEntry(c) in next[|api|..]
    {
      AnyMatchesSnoc(merged, BrowserEntry(cid), c);
    }
  }

  /** `trending_merged = list(trending)` followed by the loop over the scraped ids; the
      set's iteration order is left open. */
  method MergeTrending(api: seq<TrendEntry>, browserIds: set<string>) returns (merged: seq<TrendEntry>)
    ensures MergeOf(api, browserIds, merged)
  {
    merged := api;
    var todo := browserIds;
    ghost var done: set<string> := {};
    assert merged[..|api|] == api;
    while todo != {}
      invariant done + todo == browserIds && done !! todo
      invariant MergeOf(api, done, merged)
      decreases |todo|
    {
      var cid :| cid in todo;
      MergeOneKeepsMergeOf(api, done, merged, cid);
      if !AnyMatches(merged, cid) {
        merged := merged + [BrowserEntry(cid)];
      }
      todo := todo - {cid};
      done := done + {cid};
    }
  }

  /** An appended entry contributes its id to rank_coins' trending set when the id is
      lower-case, and a lower-case id is matched by its own entry. */
  lemma BrowserEntryIsTrending(cid: string)
    requires cid != "" && IsLowerText(cid)
    ensures TrendId(BrowserEntry(cid)) == cid
    ensures MatchesId(BrowserEntry(cid), cid)
  {
    LowerOfLowerText(cid);
  }

  /** Every non-empty lower-case scraped id reaches rank_coins' trending set, provided no
      API entry matches it only through a `coin_id` that differs from its trending id. */
  lemma {:induction false} ScrapedIdsAreTrending(api: seq<TrendEntry>, browserIds: set<string>,
                                                 merged: seq<TrendEntry>, cid: string)
    requires MergeOf(api, browserIds, merged)
    requires cid in browserIds && cid != "" && IsLowerText(cid)
    requires forall t :: t in api && MatchesId(t, cid) ==> TrendId(t) == cid
    ensures cid in TrendIdSet(merged)
  {
    BrowserEntryIsTrending(cid);
    if BrowserEntry(cid) in merged[|api|..] {
      var j :| 0 <= j < |merged[|api|..]| && merged[|api|..][j] == BrowserEntry(cid);
      assert merged[|api| + j] == BrowserEntry(cid);
    }
    assert AnyMatches(merged, cid);
    var i :| 0 <= i < |merged| && MatchesId(merged[i], cid);
    if i < |api| {
      assert merged[i] == merged[..|api|][i];
      assert merged[i] in api;
    } else {
      var c := merged[i].Fields().id;
      assert merged[i] == BrowserEntry(c);
      LowerIsLowerText(c);
      assert Lower(c) == cid;
      assert TrendId(merged[i]) == cid;
    }
    assert merged[i] in merged;
  }

  /** The ids scraped from a page are non-empty and lower-case, so each reaches the
      trending set under the same proviso on the API entries. */
  lemma ScrapedPageIdsAreTrending(api: seq<TrendEntry>, html: string, merged: seq<TrendEntry>, cid: string)
    requires MergeOf(api, Browser.ScanFrom(html, 0), merged)
    requires cid in Browser.ScanFrom(html, 0)
    requires forall t :: t in api && MatchesId(t, cid) ==> TrendId(t) == cid
    ensures cid in TrendIdSet(merged)
  {
    Browser.IdsAreLowerIds(html, 0);
    ScrapedIdsAreTrending(api, Browser.ScanFrom(html, 0), merged, cid);
  }

  // ---------------------------------------------------------------- run_scan

  /** `ranked[:top_n]`: Python slicing, where a negative bound counts from the end. */
  function TopLength(len: nat, topN: int): (n: nat)
    ensures n <= len
    ensures topN >= 0 ==> n == if topN <= len then topN else len
    ensures topN < 0 ==> n == if len + topN >= 0 then len + topN else 0
  {
    if topN >= 0 then (if topN <= len then topN else len)
    else if len + topN >= 0 then len + topN else 0
  }

  /** The market coins a fetch of `limit` coins annotates. */
  function MarketCoins(fetchPage: int -> seq<MarketData.MarketRow>, limit: int): (cs: seq<Coin>)
    ensures limit >= 0 ==> |cs| <= limit
  {
    var rows := MarketData.Take(MarketData.PagesFrom(fetchPage, 1, 0, limit), limit);
    seq(|rows|, k requires 0 <= k < |rows| => MarketData.Annotate(rows[k]))
  }

  /** `run_scan(top_n, fetch, use_browser, exclude_blue_chips)` with the market pages,
      the API trending list (empty when its fetch failed) and the scraped ids (empty when
      scraping failed) given as inputs, and `now` standing for the clock. The result is the
      first `top_n` of rank_coins' output over some merge order of the scraped ids. */
  method RunScan(log1p: real -> real, fetchPage: int -> seq<MarketData.MarketRow>, fetch: Option<int>,
                 topN: int, api: seq<TrendEntry>, useBrowser: bool, browserIds: set<string>,
                 excludeBlueChips: bool, now: int) returns (result: seq<CoinRecord>)
    requires IsLog1p(log1p)
    ensures exists merged :: MergeOf(api, if useBrowser then browserIds else {}, merged)
              && ScanResult(log1p, MarketCoins(fetchPage, MarketData.FetchLimit(fetch)), merged,
                            excludeBlueChips, now, topN, result)
  {
    var limit := MarketData.FetchLimit(fetch);
    var market := MarketData.GetAllMarketData(fetchPage, Some(limit));
    assert MarketData.FetchLimit(Some(limit)) == limit;
    assert DataOf(market) == MarketCoins(fetchPage, limit);
    var scraped := if useBrowser then browserIds else {};
    var merged := MergeTrending(api, scraped);
    var ranked := RankCoins(log1p, market, merged, excludeBlueChips, now);
    result := ranked[..TopLength(|ranked|, topN)];
    assert ScanResult(log1p, DataOf(market), merged, excludeBlueChips, now, topN, result);
  }

  /** `result` is the top `topN` of the ranking of `coins` against `merged`: the
      surviving coins in rank order, each carrying its score and its 1-based rank. */
  ghost predicate ScanResult(log1p: real -> real, coins: seq<Coin>, merged: seq<TrendEntry>,
                             excludeBlueChips: bool, now: int, topN: int, result: seq<CoinRecord>)
    requires IsLog1p(log1p)
    reads result
  {
    var scores := CorpusScores(log1p, coins, merged, excludeBlueChips, now);
    var pos := RankPositions(scores);
    && |result| == TopLength(|pos|, topN)
    && forall k :: 0 <= k < |result| ==>
         pos[k] < |coins| && result[k].data == coins[pos[k]]
         && result[k].trendScore == Some(scores[pos[k]]) && result[k].rank == Some(k + 1)
  }
}
