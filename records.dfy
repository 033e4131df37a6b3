/** The records that flow through a scan: coin dictionaries and trending-list entries. */
module Records {
  import opened Optional

  /** A coin's `atl_date`: missing or empty, present but not an ISO-8601 timestamp with a
      time zone (parsing or the subtraction from an aware "now" fails), or an instant in
      microseconds since the epoch. */
  datatype AtlDate = NoDate | Unparseable | At(micros: int)

  /** The fields of a market coin the scanner reads. An absent or None `id`/`symbol` is "". */
  datatype Coin = Coin(
    id: string,
    symbol: string,
    pct24h: Option<real>,
    pct7d: Option<real>,
    totalVolume: Option<real>,
    marketCap: Option<real>,
    marketCapRank: Option<int>,
    atlDate: AtlDate,
    sparkline: seq<real>,
    vmr: real)

  /** A coin dictionary as the ranker sees it: the market fields, which the ranker never
      writes, and the two keys it writes in place, `trend_score` and `rank`. */
  class CoinRecord {
    const data: Coin
    var trendScore: Option<real>
    var rank: Option<int>

    constructor (data: Coin)
      ensures this.data == data && trendScore == None && rank == None
    {
      this.data := data;
      trendScore := None;
      rank := None;
    }
  }

  function DataOf(records: seq<CoinRecord>): (coins: seq<Coin>)
    ensures |coins| == |records|
    ensures forall i :: 0 <= i < |records| ==> coins[i] == records[i].data
  {
    seq(|records|, i requires 0 <= i < |records| => records[i].data)
  }

  predicate Distinct<T(==)>(s: seq<T>) {
    forall i, j :: 0 <= i < j < |s| ==> s[i] != s[j]
  }

  /** The `id` and `coin_id` of a trending entry; "" when absent, None or empty. */
  datatype TrendFields = TrendFields(id: string, coinId: string)

  /** The two shapes of a trending entry: `{"item": {...}}` (the item a dict) or a flat
      record whose own keys are read. */
  datatype TrendEntry = Nested(item: TrendFields) | Flat(fields: TrendFields) {
    function Fields(): TrendFields {
      match this
      case Nested(f) => f
      case Flat(f) => f
    }
  }
}
