/** The list logic that runs after a CoinGecko response arrives: sparkline downsampling,
    the volume/market-cap ratio, page accumulation, gainers and losers, the trending
    page cap and the simple-price table. Every HTTP request is a parameter. */
module MarketData {
  import opened Optional
  import opened Records
  import opened Sorting
  import Config

  /** Rows per `/coins/markets` page the scan asks for. */
  const PageSize: int := 250
  /** Points kept in a downsampled sparkline. */
  const SparklinePoints: int := 48
  /** Entries kept from `/search/trending`. */
  const TrendingLimit: int := 20
  /** Gainers (and losers) kept. */
  const MoversCount: nat := 15

  // ------------------------------------------------------------ downsampling

  lemma MulMonotone(n: int, x: int, y: int)
    requires n >= 0 && x <= y
    ensures n * x <= n * y
  {
    assert n * y - n * x == n * (y - x);
  }

  lemma MulCancel(n: int, x: int, y: int)
    requires n > 0 && n * x < n * y
    ensures x < y
  {
    if x >= y {
      MulMonotone(n, y, x);
    }
  }

  /** A gap of one divisor moves a quotient by at least one. */
  lemma DivGap(a: int, b: int, n: int)
    requires n > 0 && 0 <= a && a + n <= b
    ensures a / n < b / n
  {
    var q, p := a / n, b / n;
    assert n * q <= a;
    assert b < n * p + n;
    MulCancel(n, q, p);
  }

  /** `int(i * step)` with `step = len / n`, taken exactly (i * len / n, floored). */
  function SampleIndex(i: nat, len: nat, n: int): (k: nat)
    requires 0 < n && i < n && 0 < len
    ensures k < len
  {
    MulMonotone(len, i + 1, n);
    var k := i * len / n;
    assert n * k <= i * len;
    assert len * (i + 1) == i * len + len;
    MulCancel(n, k, len);
    k
  }

  /** `_downsample(prices, n)`. Python divides by zero when `n` is 0 and the series is
      non-empty; a negative `n` keeps nothing of a non-empty series. */
  function Downsample(prices: seq<real>, n: int): (r: seq<real>)
    requires n != 0 || prices == []
    ensures |r| <= |prices|
  {
    if prices == [] then []
    else if |prices| <= n then prices
    else if n < 0 then []
    else seq(n, i requires 0 <= i < n => prices[SampleIndex(i, |prices|, n)])
  }

  /** `r` keeps some of `xs`'s elements, in their original order. */
  ghost predicate Subsequence(r: seq<real>, xs: seq<real>) {
    exists idx: seq<nat> ::
      && |idx| == |r|
      && (forall k :: 0 <= k < |idx| ==> idx[k] < |xs| && r[k] == xs[idx[k]])
      && (forall a, b :: 0 <= a < b < |idx| ==> idx[a] < idx[b])
  }

  /** The sample positions strictly increase when the series is longer than `n`. */
  lemma SampleIndexIncreasing(a: nat, b: nat, len: nat, n: int)
    requires 0 < n < len && a < b < n
    ensures SampleIndex(a, len, n) < SampleIndex(b, len, n)
  {
    assert a * len + n <= b * len by {
      MulMonotone(len, 1, b - a);
      assert b * len == a * len + len * (b - a);
    }
    DivGap(a * len, b * len, n);
  }

  /** A series is a subsequence of itself. */
  lemma SubsequenceOfSelf(xs: seq<real>)
    ensures Subsequence(xs, xs)
  {
    var idx := seq(|xs|, k requires 0 <= k < |xs| => k);
    assert forall k :: 0 <= k < |idx| ==> idx[k] < |xs| && xs[k] == xs[idx[k]];
  }

  /** The sampled points of a long series lie in it in order, starting with its first. */
  lemma SampledIsSubsequence(prices: seq<real>, n: int)
    requires 0 < n < |prices|
    ensures Downsample(prices, n)[0] == prices[0]
    ensures Subsequence(Downsample(prices, n), prices)
  {
    var r := Downsample(prices, n);
    var idx := seq(n, i requires 0 <= i < n => SampleIndex(i, |prices|, n));
    forall a, b | 0 <= a < b < |idx| ensures idx[a] < idx[b] {
      SampleIndexIncreasing(a, b, |prices|, n);
    }
    assert idx[0] == 0;
    assert forall k :: 0 <= k < |idx| ==> idx[k] < |prices| && r[k] == prices[idx[k]];
  }

  /** The downsampled series: empty for an empty series, the series itself when it is
      short enough, and otherwise exactly `n` points, the first being the first price,
      taken from the series in order. */
  lemma DownsampleShape(prices: seq<real>, n: int)
    requires n != 0 || prices == []
    ensures prices == [] ==> Downsample(prices, n) == []
    ensures |prices| <= n ==> Downsample(prices, n) == prices
    ensures 0 < n < |prices| ==>
              |Downsample(prices, n)| == n && Downsample(prices, n)[0] == prices[0]
    ensures n > 0 ==> |Downsample(prices, n)| <= n
    ensures Subsequence(Downsample(prices, n), prices)
  {
    if prices == [] || |prices| <= n {
      SubsequenceOfSelf(prices);
    } else if n < 0 {
      var idx: seq<nat> := [];
      assert |idx| == |Downsample(prices, n)|;
    } else {
      SampledIsSubsequence(prices, n);
    }
  }

  /** The non-None prices of a sparkline, in order. */
  function Present(prices: seq<Option<real>>): (r: seq<real>)
    ensures |r| <= |prices|
    ensures forall x :: x in r <==> Some(x) in prices
  {
    if prices == [] then []
    else
      (if prices[0].Some? then [prices[0].value] else []) + Present(prices[1..])
  }

  // ------------------------------------------------------------ volume / market cap

  /** `(vol / mcap) if mcap > 0 else 0.0` with `vol = x or 0` and `mcap = y or 0`. */
  function VolMcapRatio(vol: Option<real>, mcap: Option<real>): (r: real)
    ensures mcap.GetOr(0.0) > 0.0 ==> r * mcap.value == vol.GetOr(0.0)
    ensures mcap.GetOr(0.0) <= 0.0 ==> r == 0.0
    ensures vol.GetOr(0.0) >= 0.0 ==> r >= 0.0
  {
    var v, m := vol.GetOr(0.0), mcap.GetOr(0.0);
    if m > 0.0 then v / m else 0.0
  }

  // ------------------------------------------------------------ market rows

  /** One row of `/coins/markets` as fetched. `sparklineIn7d` is None when the key is
      absent, None or an empty object, or when its `price` is not a list. */
  datatype MarketRow = MarketRow(
    id: string,
    symbol: string,
    pct24h: Option<real>,
    pct7d: Option<real>,
    totalVolume: Option<real>,
    marketCap: Option<real>,
    marketCapRank: Option<int>,
    atlDate: AtlDate,
    sparklineIn7d: Option<seq<Option<real>>>)

  /** The `sparkline` get_all_market_data stores: the non-None prices, downsampled to
      SparklinePoints, or empty when there is no price list. */
  function SparklineOf(sp: Option<seq<Option<real>>>): (r: seq<real>)
    ensures |r| <= SparklinePoints
    ensures sp.None? ==> r == []
    ensures sp.Some? ==> forall x :: x in r ==> Some(x) in sp.value
  {
    if sp.None? then []
    else
      DownsampleShape(Present(sp.value), SparklinePoints);
      Downsample(Present(sp.value), SparklinePoints)
  }

  /** The per-coin annotation of get_all_market_data: `sparkline_in_7d` is replaced by a
      downsampled `sparkline`, and `vol_mcap_ratio` is added. */
  function Annotate(row: MarketRow): (c: Coin)
    ensures c.id == row.id && c.symbol == row.symbol && c.pct24h == row.pct24h
            && c.pct7d == row.pct7d && c.totalVolume == row.totalVolume
            && c.marketCap == row.marketCap && c.marketCapRank == row.marketCapRank
            && c.atlDate == row.atlDate
    ensures c.sparkline == SparklineOf(row.sparklineIn7d)
    ensures c.vmr == VolMcapRatio(row.totalVolume, row.marketCap)
  {
    Coin(row.id, row.symbol, row.pct24h, row.pct7d, row.totalVolume, row.marketCap,
         row.marketCapRank, row.atlDate, SparklineOf(row.sparklineIn7d),
         VolMcapRatio(row.totalVolume, row.marketCap))
  }

  /** The rows get_all_market_data gathers, starting at `page` with `have` rows already
      gathered: it fetches while fewer than `limit` rows are held, and stops after an
      empty page or a page shorter than PageSize. */
  function PagesFrom(fetch: int -> seq<MarketRow>, page: int, have: nat, limit: int): seq<MarketRow>
    decreases limit - have
  {
    if have >= limit then []
    else
      var chunk := fetch(page);
      if chunk == [] then []
      else if |chunk| < PageSize then chunk
      else chunk + PagesFrom(fetch, page + 1, have + |chunk|, limit)
  }

  /** When every page is full, paging gathers at least `limit` rows. */
  lemma {:induction false} FullPagesReachLimit(fetch: int -> seq<MarketRow>, page: int, have: nat, limit: int)
    requires forall p :: |fetch(p)| >= PageSize
    ensures have + |PagesFrom(fetch, page, have, limit)| >= limit
    decreases limit - have
  {
    if have < limit {
      FullPagesReachLimit(fetch, page + 1, have + |fetch(page)|, limit);
    }
  }

  /** A short first page is the last one read. */
  lemma ShortPageStops(fetch: int -> seq<MarketRow>, page: int, have: nat, limit: int)
    requires have < limit && |fetch(page)| < PageSize
    ensures PagesFrom(fetch, page, have, limit) == fetch(page)
  {
  }

  /** `xs[:n]` for a bound that is non-negative or leaves `xs` empty. */
  function Take<T>(xs: seq<T>, n: int): (r: seq<T>)
    ensures n <= 0 ==> r == []
    ensures n >= 0 ==> |r| == if |xs| <= n then |xs| else n
    ensures r == xs[..|r|]
  {
    if n <= 0 then [] else if |xs| <= n then xs else xs[..n]
  }

  /** `top_n or COINGECKO_TOP_N`. */
  function FetchLimit(topN: Option<int>): (limit: int)
    ensures topN.None? ==> limit == Config.CoinGeckoTopN
    ensures topN.Some? && topN.value != 0 ==> limit == topN.value
    ensures limit != 0
  {
    if topN.None? || topN.value == 0 then Config.CoinGeckoTopN else topN.value
  }

  /** The paging loop of get_all_market_data. */
  method FetchPages(fetch: int -> seq<MarketRow>, limit: int) returns (rows: seq<MarketRow>)
    ensures rows == PagesFrom(fetch, 1, 0, limit)
  {
    rows := [];
    var page := 1;
    while |rows| < limit
      invariant rows + PagesFrom(fetch, page, |rows|, limit) == PagesFrom(fetch, 1, 0, limit)
      decreases limit - |rows|
    {
      var chunk := fetch(page);
      if chunk == [] {
        break;
      }
      rows := rows + chunk;
      if |chunk| < PageSize {
        break;
      }
      page := page + 1;
    }
  }

  /** The annotation loop of get_all_market_data: one new coin record per row. */
  method AnnotateAll(rows: seq<MarketRow>) returns (coins: seq<CoinRecord>)
    ensures |coins| == |rows| && forall k :: 0 <= k < |rows| ==> coins[k].data == Annotate(rows[k])
    ensures forall k :: 0 <= k < |coins| ==> fresh(coins[k])
    ensures forall k :: 0 <= k < |coins| ==> coins[k].trendScore == None && coins[k].rank == None
    ensures Distinct(coins)
  {
    coins := [];
    for i := 0 to |rows|
      invariant |coins| == i
      invariant forall k :: 0 <= k < i ==> coins[k].data == Annotate(rows[k])
      invariant forall k :: 0 <= k < i ==> fresh(coins[k])
      invariant forall k :: 0 <= k < i ==> coins[k].trendScore == None && coins[k].rank == None
      invariant Distinct(coins)
    {
      var c := new CoinRecord(Annotate(rows[i]));
      coins := coins + [c];
    }
  }

  /** `get_all_market_data(top_n)` against the page source `fetch` (page number to
      rows): gathers pages, keeps the first `top_n` rows, and annotates each one into a
      new coin record. */
  method GetAllMarketData(fetch: int -> seq<MarketRow>, topN: Option<int>) returns (coins: seq<CoinRecord>)
    ensures var rows := Take(PagesFrom(fetch, 1, 0, FetchLimit(topN)), FetchLimit(topN));
            |coins| == |rows| && forall k :: 0 <= k < |rows| ==> coins[k].data == Annotate(rows[k])
    ensures forall k :: 0 <= k < |coins| ==> fresh(coins[k])
    ensures forall k :: 0 <= k < |coins| ==> coins[k].trendScore == None && coins[k].rank == None
    ensures Distinct(coins)
  {
    var limit := FetchLimit(topN);
    var all := FetchPages(fetch, limit);
    coins := AnnotateAll(Take(all, limit));
  }

  /** Every coin get_all_market_data returns is within the limit and carries a
      sparkline of at most SparklinePoints prices. */
  lemma MarketDataBounds(fetch: int -> seq<MarketRow>, topN: Option<int>)
    ensures var rows := Take(PagesFrom(fetch, 1, 0, FetchLimit(topN)), FetchLimit(topN));
            && (FetchLimit(topN) > 0 ==> |rows| <= FetchLimit(topN))
            && (forall k :: 0 <= k < |rows| ==> |Annotate(rows[k]).sparkline| <= SparklinePoints)
  {
  }

  // ------------------------------------------------------------ gainers and losers

  function Pct24h(m: MarketRow): real {
    m.pct24h.GetOr(0.0)
  }

  /** `[m for m in markets if m.get("price_change_percentage_24h") is not None]`. */
  function WithPct(markets: seq<MarketRow>): (r: seq<MarketRow>)
    ensures forall m :: m in r <==> m in markets && m.pct24h.Some?
    ensures |r| <= |markets|
  {
    if markets == [] then []
    else (if markets[0].pct24h.Some? then [markets[0]] else []) + WithPct(markets[1..])
  }

  /** `xs[-n:]` for `n > 0`: the last `n` elements, or all of them. (Python's `xs[-0:]` is
      the whole list; the only bound used here is 15.) */
  function LastN<T>(xs: seq<T>, n: nat): (r: seq<T>)
    ensures |r| == if |xs| <= n then |xs| else n
    ensures r == xs[|xs| - |r|..]
  {
    if |xs| <= n then xs else xs[|xs| - n..]
  }

  /** The selection of fetch_gainers_losers over the fetched first page. */
  function GainersLosers(markets: seq<MarketRow>): (r: (seq<MarketRow>, seq<MarketRow>))
    ensures |r.0| == |r.1| <= MoversCount
  {
    var by24h := SortedBy(WithPct(markets), Pct24h, true);
    (Take(by24h, MoversCount), SortedBy(LastN(by24h, MoversCount), Pct24h, false))
  }

  /** Gainers: the fifteen coins that report a 24h change, or all of them when fewer do,
      best first, and no coin left out of them has a larger change than any coin in them.
      They are a prefix of the stably sorted list, so each coin appears at most as often as
      in the input. */
  lemma GainersAreTop(markets: seq<MarketRow>)
    ensures var gainers := GainersLosers(markets).0;
            && |gainers| == (if |WithPct(markets)| <= MoversCount then |WithPct(markets)| else MoversCount)
            && (forall g :: g in gainers ==> g in markets && g.pct24h.Some?)
            && (forall a, b :: 0 <= a < b < |gainers| ==> Pct24h(gainers[a]) >= Pct24h(gainers[b]))
            && (forall g, m :: g in gainers && m in markets && m.pct24h.Some? && m !in gainers ==>
                  Pct24h(m) <= Pct24h(g))
    ensures var gainers := GainersLosers(markets).0;
            gainers == SortedBy(WithPct(markets), Pct24h, true)[..|gainers|]
    ensures multiset(GainersLosers(markets).0) <= multiset(WithPct(markets))
  {
    var by24h := SortedBy(WithPct(markets), Pct24h, true);
    SortedByMembers(WithPct(markets), Pct24h, true);
    SortedByOrder(WithPct(markets), Pct24h, true);
    HeadIsOrdered(by24h, MoversCount);
    HeadBeatsRest(by24h, MoversCount);
    TakeSubMultiset(by24h, MoversCount);
  }

  /** The first `n` of a list hold each element at most as often as the list. */
  lemma TakeSubMultiset<T>(s: seq<T>, n: int)
    ensures multiset(Take(s, n)) <= multiset(s)
  {
    var head := Take(s, n);
    assert s == head + s[|head|..];
  }

  /** The first `n` of a list sorted best first come from it and are sorted best first. */
  lemma HeadIsOrdered(s: seq<MarketRow>, n: nat)
    requires Ordered(s, Pct24h, true)
    ensures forall g :: g in Take(s, n) ==> g in s
    ensures Ordered(Take(s, n), Pct24h, true)
  {
    var head := Take(s, n);
    forall g | g in head ensures g in s {
      var a :| 0 <= a < |head| && head[a] == g;
      assert s[a] == g;
    }
    forall a, b | 0 <= a < b < |head| ensures Pct24h(head[a]) >= Pct24h(head[b]) {
      assert head[a] == s[a] && head[b] == s[b];
    }
  }

  /** In a list sorted best first, every element after its first `n` is at most every
      element among them. */
  lemma HeadBeatsRest(s: seq<MarketRow>, n: nat)
    requires Ordered(s, Pct24h, true)
    ensures forall g, m :: g in Take(s, n) && m in s && m !in Take(s, n) ==> Pct24h(m) <= Pct24h(g)
  {
    forall g, m | g in Take(s, n) && m in s && m !in Take(s, n) ensures Pct24h(m) <= Pct24h(g) {
      HeadIsTop(s, n, g, m);
    }
  }

  /** In a list sorted best first, nothing after its first `n` is above anything in them. */
  lemma HeadIsTop(s: seq<MarketRow>, n: nat, g: MarketRow, m: MarketRow)
    requires Ordered(s, Pct24h, true)
    requires g in Take(s, n) && m in s && m !in Take(s, n)
    ensures Pct24h(m) <= Pct24h(g)
  {
    var head := Take(s, n);
    var a :| 0 <= a < |head| && head[a] == g;
    assert s[a] == g;
    var b :| 0 <= b < |s| && s[b] == m;
    assert b >= |head|;
  }

  /** Losers: the fifteen coins that report a 24h change, or all of them when fewer do,
      worst first: a reordering of the last fifteen of the list sorted best first, so each
      coin appears at most as often as in the input. */
  lemma LosersAreSorted(markets: seq<MarketRow>)
    ensures var losers := GainersLosers(markets).1;
            && |losers| == (if |WithPct(markets)| <= MoversCount then |WithPct(markets)| else MoversCount)
            && (forall l :: l in losers ==> l in markets && l.pct24h.Some?)
            && (forall a, b :: 0 <= a < b < |losers| ==> Pct24h(losers[a]) <= Pct24h(losers[b]))
    ensures multiset(GainersLosers(markets).1)
            == multiset(LastN(SortedBy(WithPct(markets), Pct24h, true), MoversCount))
    ensures multiset(GainersLosers(markets).1) <= multiset(WithPct(markets))
  {
    var by24h := SortedBy(WithPct(markets), Pct24h, true);
    SortedByMembers(WithPct(markets), Pct24h, true);
    var tail := LastN(by24h, MoversCount);
    SortedByMembers(tail, Pct24h, false);
    SortedByOrder(tail, Pct24h, false);
    LastNFrom(by24h, MoversCount);
    LastNSubMultiset(by24h, MoversCount);
  }

  /** The last `n` of a list hold each element at most as often as the list. */
  lemma LastNSubMultiset<T>(s: seq<T>, n: nat)
    ensures multiset(LastN(s, n)) <= multiset(s)
  {
    var tail := LastN(s, n);
    assert s == s[..|s| - |tail|] + tail;
  }

  /** The last `n` of a list come from it. */
  lemma LastNFrom<T>(s: seq<T>, n: nat)
    ensures forall x :: x in LastN(s, n) ==> x in s
  {
    var tail := LastN(s, n);
    forall x | x in tail ensures x in s {
      var a :| 0 <= a < |tail| && tail[a] == x;
      assert s[|s| - |tail| + a] == x;
    }
  }

  /** In a list sorted best first, nothing before its last `n` is below anything in them. */
  lemma TailIsBottom(s: seq<MarketRow>, n: nat, l: MarketRow, m: MarketRow)
    requires Ordered(s, Pct24h, true)
    requires l in LastN(s, n) && m in s && m !in LastN(s, n)
    ensures Pct24h(m) >= Pct24h(l)
  {
    var tail := LastN(s, n);
    var start := |s| - |tail|;
    var a :| 0 <= a < |tail| && tail[a] == l;
    assert s[start + a] == l;
    var b :| 0 <= b < |s| && s[b] == m;
    assert b < start;
  }

  /** No coin that reports a 24h change but is left out of the losers has a smaller
      change than any loser. */
  lemma LosersAreBottom(markets: seq<MarketRow>)
    ensures var losers := GainersLosers(markets).1;
            forall l, m :: l in losers && m in markets && m.pct24h.Some? && m !in losers ==>
              Pct24h(m) >= Pct24h(l)
  {
    var by24h := SortedBy(WithPct(markets), Pct24h, true);
    var losers := SortedBy(LastN(by24h, MoversCount), Pct24h, false);
    SortedByMembers(WithPct(markets), Pct24h, true);
    SortedByOrder(WithPct(markets), Pct24h, true);
    SortedByMembers(LastN(by24h, MoversCount), Pct24h, false);
    forall l, m | l in losers && m in markets && m.pct24h.Some? && m !in losers
      ensures Pct24h(m) >= Pct24h(l)
    {
      assert m in by24h;
      TailIsBottom(by24h, MoversCount, l, m);
    }
  }

  // ------------------------------------------------------------ trending and prices

  /** `data.get("coins", [])[:20]` over the `/search/trending` response. */
  function TrendingPage(coins: Option<seq<TrendEntry>>): (r: seq<TrendEntry>)
    ensures coins.None? ==> r == []
    ensures coins.Some? ==> |r| == (if |coins.value| <= TrendingLimit then |coins.value| else TrendingLimit)
                            && r == coins.value[..|r|]
  {
    if coins.None? then [] else Take(coins.value, TrendingLimit)
  }

  /** One entry of the `/simple/price` response; absent keys are None. */
  datatype SimpleRaw = SimpleRaw(usd: Option<real>, usd24hChange: Option<real>,
                                 usdMarketCap: Option<real>, usd24hVol: Option<real>)

  /** A watchlist quote: the fetch_simple_prices fields, plus the score fields the poller
      attaches (None until it does). */
  datatype Quote = Quote(currentPrice: Option<real>, pct24h: Option<real>, marketCap: real,
                         totalVolume: real, vmr: real, trendScore: Option<real>,
                         scoreVelocity: Option<real>)

  /** The per-coin entry fetch_simple_prices builds from one raw entry. */
  function QuoteOf(raw: SimpleRaw): (q: Quote)
    ensures q.currentPrice == raw.usd && q.pct24h == raw.usd24hChange
    ensures q.marketCap == raw.usdMarketCap.GetOr(0.0) && q.totalVolume == raw.usd24hVol.GetOr(0.0)
    ensures q.marketCap > 0.0 ==> q.vmr * q.marketCap == q.totalVolume
    ensures q.marketCap <= 0.0 ==> q.vmr == 0.0
    ensures q.trendScore.None? && q.scoreVelocity.None?
  {
    Quote(raw.usd, raw.usd24hChange, raw.usdMarketCap.GetOr(0.0), raw.usd24hVol.GetOr(0.0),
          VolMcapRatio(raw.usd24hVol, raw.usdMarketCap), None, None)
  }

  /** `fetch_simple_prices(ids)` against the request `fetch`: no request and an empty
      table for no ids, otherwise one quote per coin the response holds. */
  method FetchSimplePrices(ids: seq<string>, fetch: seq<string> -> map<string, SimpleRaw>)
    returns (result: map<string, Quote>)
    ensures ids == [] ==> result == map[]
    ensures ids != [] ==> result.Keys == fetch(ids).Keys
    ensures ids != [] ==> forall cid :: cid in result ==> result[cid] == QuoteOf(fetch(ids)[cid])
  {
    if ids == [] {
      return map[];
    }
    var raw := fetch(ids);
    result := map[];
    var todo := raw.Keys;
    while todo != {}
      invariant todo <= raw.Keys
      invariant result.Keys == raw.Keys - todo
      invariant forall cid :: cid in result ==> result[cid] == QuoteOf(raw[cid])
      decreases |todo|
    {
      var cid :| cid in todo;
      result := result[cid := QuoteOf(raw[cid])];
      todo := todo - {cid};
    }
  }
}
