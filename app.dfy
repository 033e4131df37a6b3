/** The desktop app's non-visual state: the per-coin score history, the momentum signal
    label, and the watchlist alerts that fire once per (kind, coin, threshold). */
module App {
  import opened Optional
  import opened Records
  import opened MarketData

  // ---------------------------------------------------------------- score history

  /** One recorded `(ts, score)` pair. */
  datatype Sample = Sample(time: real, score: real)

  /** `_MAX_HIST`: samples kept per coin. */
  const MaxHistory: nat := 30

  /** `_score_history.get(cid, [])`. */
  function HistoryOf(h: map<string, seq<Sample>>, cid: string): seq<Sample> {
    if cid in h then h[cid] else []
  }

  /** Every history holds at most MaxHistory samples. */
  ghost predicate Bounded(h: map<string, seq<Sample>>) {
    forall cid :: cid in h ==> |h[cid]| <= MaxHistory
  }

  /** Each coin's id and `trend_score`, as record_scores reads them. */
  function Entries(coins: seq<CoinRecord>): (es: seq<(string, Option<real>)>)
    reads coins
    ensures |es| == |coins|
    ensures forall k :: 0 <= k < |coins| ==> es[k] == (coins[k].data.id, coins[k].trendScore)
  {
    if coins == [] then [] else [(coins[0].data.id, coins[0].trendScore)] + Entries(coins[1..])
  }

  /** The `(id, score)` pairs record_scores appends, in order: coins with an empty id or
      no `trend_score` are skipped. */
  function Pending(es: seq<(string, Option<real>)>): (ps: seq<(string, real)>)
    ensures forall k :: 0 <= k < |ps| ==> ps[k].0 != ""
  {
    if es == [] then []
    else
      var e := es[|es| - 1];
      Pending(es[..|es| - 1]) + (if e.0 != "" && e.1.Some? then [(e.0, e.1.value)] else [])
  }

  /** The trim `hist[-_MAX_HIST:]`, applied when a history grew past MaxHistory. */
  function Window(xs: seq<Sample>): seq<Sample> {
    if |xs| > MaxHistory then xs[|xs| - MaxHistory..] else xs
  }

  /** One append: `setdefault(cid, []).append(sample)`, then the trim. */
  function Push(h: map<string, seq<Sample>>, cid: string, s: Sample): map<string, seq<Sample>> {
    h[cid := Window(HistoryOf(h, cid) + [s])]
  }

  /** The history after appending every pending pair, all stamped `now`. */
  function Record(h: map<string, seq<Sample>>, ps: seq<(string, real)>, now: real): map<string, seq<Sample>> {
    if ps == [] then h
    else
      var p := ps[|ps| - 1];
      Push(Record(h, ps[..|ps| - 1], now), p.0, Sample(now, p.1))
  }

  /** The samples one call appends for `cid`, in order. */
  function SamplesFor(ps: seq<(string, real)>, cid: string, now: real): seq<Sample> {
    if ps == [] then []
    else
      var p := ps[|ps| - 1];
      SamplesFor(ps[..|ps| - 1], cid, now) + (if p.0 == cid then [Sample(now, p.1)] else [])
  }

  /** Every sample of one call carries its `now`, and a coin gets samples exactly when
      some pending pair names it. */
  lemma {:induction false} SamplesForSpec(ps: seq<(string, real)>, cid: string, now: real)
    ensures forall k :: 0 <= k < |SamplesFor(ps, cid, now)| ==> SamplesFor(ps, cid, now)[k].time == now
    ensures SamplesFor(ps, cid, now) == [] <==> forall k :: 0 <= k < |ps| ==> ps[k].0 != cid
  {
    if ps != [] {
      var init := ps[..|ps| - 1];
      SamplesForSpec(init, cid, now);
      assert forall k :: 0 <= k < |init| ==> init[k] == ps[k];
    }
  }

  /** The trim keeps the newest MaxHistory samples in order, dropping the oldest first. */
  lemma WindowIsNewest(xs: seq<Sample>)
    ensures |Window(xs)| == if |xs| <= MaxHistory then |xs| else MaxHistory
    ensures Window(xs) == xs[|xs| - |Window(xs)|..]
  {
  }

  /** Trimming after every append keeps the same window as trimming once at the end. */
  lemma WindowAfterAppend(xs: seq<Sample>, y: Sample)
    ensures Window(Window(xs) + [y]) == Window(xs + [y])
  {
    if |xs| > MaxHistory {
      assert xs[|xs| - MaxHistory..] + [y] == (xs + [y])[|xs| - MaxHistory..];
    }
  }

  /** A pair for another coin adds no sample for `cid`. */
  lemma OtherCoinStep(ps: seq<(string, real)>, now: real, cid: string)
    requires ps != [] && ps[|ps| - 1].0 != cid
    ensures SamplesFor(ps, cid, now) == SamplesFor(ps[..|ps| - 1], cid, now)
  {
    assert SamplesFor(ps[..|ps| - 1], cid, now) + [] == SamplesFor(ps[..|ps| - 1], cid, now);
  }

  /** One more pending pair keeps a coin's history the window of its previous history
      followed by its samples so far. */
  lemma RecordStep(h: map<string, seq<Sample>>, ps: seq<(string, real)>, now: real, cid: string,
                   r0: map<string, seq<Sample>>)
    requires ps != []
    requires cid in r0 <==> cid in h || SamplesFor(ps[..|ps| - 1], cid, now) != []
    requires HistoryOf(r0, cid) == Window(HistoryOf(h, cid) + SamplesFor(ps[..|ps| - 1], cid, now))
    ensures var p := ps[|ps| - 1];
            var r := Push(r0, p.0, Sample(now, p.1));
            && (cid in r <==> cid in h || SamplesFor(ps, cid, now) != [])
            && HistoryOf(r, cid) == Window(HistoryOf(h, cid) + SamplesFor(ps, cid, now))
  {
    var init, p := ps[..|ps| - 1], ps[|ps| - 1];
    var s := Sample(now, p.1);
    var prior := HistoryOf(h, cid) + SamplesFor(init, cid, now);
    if p.0 == cid {
      assert SamplesFor(ps, cid, now) == SamplesFor(init, cid, now) + [s];
      WindowAfterAppend(prior, s);
      assert prior + [s] == HistoryOf(h, cid) + SamplesFor(ps, cid, now);
    } else {
      OtherCoinStep(ps, now, cid);
      assert HistoryOf(Push(r0, p.0, s), cid) == HistoryOf(r0, cid);
    }
  }

  /** A coin's history after record_scores is the last MaxHistory of its previous
      history followed by everything this call appended for it; a coin the call does not
      mention keeps its history, or stays absent. */
  lemma {:induction false} RecordIsWindow(h: map<string, seq<Sample>>, ps: seq<(string, real)>,
                                          now: real, cid: string)
    requires |HistoryOf(h, cid)| <= MaxHistory
    ensures var r := Record(h, ps, now);
            && (cid in r <==> cid in h || SamplesFor(ps, cid, now) != [])
            && HistoryOf(r, cid) == Window(HistoryOf(h, cid) + SamplesFor(ps, cid, now))
  {
    if ps == [] {
      assert HistoryOf(h, cid) + [] == HistoryOf(h, cid);
    } else {
      RecordIsWindow(h, ps[..|ps| - 1], now, cid);
      RecordStep(h, ps, now, cid, Record(h, ps[..|ps| - 1], now));
    }
  }

  /** record_scores keeps every history within MaxHistory samples. */
  lemma {:induction false} RecordStaysBounded(h: map<string, seq<Sample>>, ps: seq<(string, real)>, now: real)
    requires Bounded(h)
    ensures Bounded(Record(h, ps, now))
  {
    if ps != [] {
      RecordStaysBounded(h, ps[..|ps| - 1], now);
    }
  }

  /** A coin the call does not mention keeps its history, or stays absent. */
  lemma {:induction false} RecordKeepsUnmentioned(h: map<string, seq<Sample>>, ps: seq<(string, real)>,
                                                  now: real, cid: string)
    requires forall k :: 0 <= k < |ps| ==> ps[k].0 != cid
    ensures cid in Record(h, ps, now) <==> cid in h
    ensures cid in h ==> Record(h, ps, now)[cid] == h[cid]
  {
    if ps != [] {
      RecordKeepsUnmentioned(h, ps[..|ps| - 1], now, cid);
    }
  }

  /** A coin recorded in this call ends its history with `(now, score)` for the last
      score recorded for it; every sample of this call carries the same `now`. */
  lemma RecordedEndsWithNow(h: map<string, seq<Sample>>, ps: seq<(string, real)>, now: real, cid: string)
    requires Bounded(h)
    requires SamplesFor(ps, cid, now) != []
    ensures var r := Record(h, ps, now);
            var s := SamplesFor(ps, cid, now);
            && cid in r && 0 < |r[cid]| <= MaxHistory
            && r[cid][|r[cid]| - 1] == s[|s| - 1]
            && r[cid][|r[cid]| - 1].time == now
  {
    RecordIsWindow(h, ps, now, cid);
    RecordStaysBounded(h, ps, now);
    SamplesForSpec(ps, cid, now);
  }

  /** Pending grows by at most one pair per coin. */
  lemma PendingSnoc(es: seq<(string, Option<real>)>, i: nat)
    requires i < |es|
    ensures Pending(es[..i + 1])
              == Pending(es[..i]) + (if es[i].0 != "" && es[i].1.Some? then [(es[i].0, es[i].1.value)] else [])
  {
    assert es[..i + 1][..i] == es[..i];
  }

  /** Recording one more pair is one more push. */
  lemma RecordSnoc(h: map<string, seq<Sample>>, ps: seq<(string, real)>, p: (string, real), now: real)
    ensures Record(h, ps + [p], now) == Push(Record(h, ps, now), p.0, Sample(now, p.1))
  {
    assert (ps + [p])[..|ps|] == ps;
  }

  /** `_score_history` with record_scores. */
  class ScoreStore {
    var history: map<string, seq<Sample>>

    constructor ()
      ensures history == map[]
    {
      history := map[];
    }

    /** `record_scores(coins)` at time `now`. */
    method RecordScores(coins: seq<CoinRecord>, now: real)
      modifies this
      ensures history == Record(old(history), Pending(Entries(coins)), now)
    {
      ghost var es := Entries(coins);
      for i := 0 to |coins|
        invariant history == Record(old(history), Pending(es[..i]), now)
      {
        PendingSnoc(es, i);
        var c := coins[i];
        assert es[i] == (c.data.id, c.trendScore);
        RecordEntry(c.data.id, c.trendScore, now, old(history), Pending(es[..i]));
      }
      assert es[..|coins|] == es;
    }

    /** One coin of record_scores: skipped without an id or a score, appended otherwise. */
    method RecordEntry(cid: string, score: Option<real>, now: real,
                       ghost h0: map<string, seq<Sample>>, ghost ps: seq<(string, real)>)
      modifies this
      requires history == Record(h0, ps, now)
      ensures history == Record(h0, ps + (if cid != "" && score.Some? then [(cid, score.value)] else []), now)
    {
      if cid != "" && score.Some? {
        RecordSnoc(h0, ps, (cid, score.value), now);
        Append(cid, Sample(now, score.value));
      } else {
        assert ps + [] == ps;
      }
    }

    /** One turn of record_scores: append the sample to the coin's history, then trim
        it to the newest MaxHistory samples. */
    method Append(cid: string, s: Sample)
      modifies this
      ensures history == Push(old(history), cid, s)
    {
      var hist := HistoryOf(history, cid) + [s];
      if |hist| > MaxHistory {
        hist := hist[|hist| - MaxHistory..];
      }
      history := history[cid := hist];
    }
  }

  // ---------------------------------------------------------------- velocity and latest

  /** Python's `round(y)` on an exact value: the nearest integer, ties to the even one. */
  function RoundHalfEven(y: real): (k: int)
    ensures -0.5 <= k as real - y <= 0.5
    ensures (k as real - y == 0.5 || k as real - y == -0.5) ==> k % 2 == 0
  {
    var f := y.Floor;
    var d := y - f as real;
    if d < 0.5 then f
    else if d > 0.5 then f + 1
    else if f % 2 == 0 then f
    else f + 1
  }

  /** The nearest integer (ties to even) is unique, so RoundHalfEven is the rounding. */
  lemma RoundHalfEvenUnique(y: real, k: int)
    requires -0.5 <= k as real - y <= 0.5
    requires (k as real - y == 0.5 || k as real - y == -0.5) ==> k % 2 == 0
    ensures k == RoundHalfEven(y)
  {
  }

  /** `round(x, 4)`, taken exactly on reals. */
  function Round4(x: real): (r: real)
    ensures -0.00005 <= r - x <= 0.00005
  {
    RoundHalfEven(x * 10000.0) as real / 10000.0
  }

  /** A rounded velocity is non-negative exactly when the drop is at most half a unit in
      the fourth place. */
  lemma Round4Sign(x: real)
    ensures Round4(x) >= 0.0 <==> x >= -0.00005
  {
  }

  /** `score_velocity(cid)`: last minus first score, rounded to four places, once there
      are two samples. */
  function Velocity(h: map<string, seq<Sample>>, cid: string): (v: Option<real>)
    ensures v.Some? <==> |HistoryOf(h, cid)| >= 2
    ensures v.Some? ==>
              var hist := HistoryOf(h, cid);
              -0.00005 <= v.value - (hist[|hist| - 1].score - hist[0].score) <= 0.00005
  {
    var hist := HistoryOf(h, cid);
    if |hist| >= 2 then Some(Round4(hist[|hist| - 1].score - hist[0].score)) else None
  }

  /** `latest_score(cid)`: the last recorded score, None for an empty or unknown history. */
  function Latest(h: map<string, seq<Sample>>, cid: string): (s: Option<real>)
    ensures s.None? <==> HistoryOf(h, cid) == []
  {
    var hist := HistoryOf(h, cid);
    if hist == [] then None else Some(hist[|hist| - 1].score)
  }

  /** Right after record_scores, a recorded coin's latest score is the last score this
      call recorded for it. */
  lemma LatestAfterRecord(h: map<string, seq<Sample>>, ps: seq<(string, real)>, now: real, cid: string)
    requires Bounded(h)
    requires SamplesFor(ps, cid, now) != []
    ensures var s := SamplesFor(ps, cid, now);
            Latest(Record(h, ps, now), cid) == Some(s[|s| - 1].score)
  {
    RecordedEndsWithNow(h, ps, now, cid);
  }

  /** The poller's attachment of `trend_score` and `score_velocity` to fresh quotes. */
  function AttachScores(quotes: map<string, Quote>, h: map<string, seq<Sample>>): (r: map<string, Quote>)
    ensures r.Keys == quotes.Keys
    ensures forall cid :: cid in r ==>
              r[cid] == quotes[cid].(trendScore := Latest(h, cid), scoreVelocity := Velocity(h, cid))
  {
    map cid | cid in quotes :: quotes[cid].(trendScore := Latest(h, cid), scoreVelocity := Velocity(h, cid))
  }

  // ---------------------------------------------------------------- signal

  datatype Signal = NoData | StrongMomentum | VolSpike | Fading | Accumulation | LowSignal

  /** `velocity is None or velocity >= 0`. */
  predicate Rising(velocity: Option<real>) {
    velocity.None? || velocity.value >= 0.0
  }

  /** `velocity is not None and velocity < 0`. */
  predicate Falling(velocity: Option<real>) {
    velocity.Some? && velocity.value < 0.0
  }

  /** `vmr is not None and vmr > 0.25`. */
  predicate HighVolume(vmr: Option<real>) {
    vmr.Some? && vmr.value > 0.25
  }

  /** `get_signal(score, velocity, vmr)`: the first matching label, in priority order. */
  function GetSignal(score: Option<real>, velocity: Option<real>, vmr: Option<real>): (r: Signal)
    ensures r == NoData <==> score.None?
    ensures r == StrongMomentum ==> score.value >= 0.78 && Rising(velocity)
    ensures r == VolSpike ==> score.value >= 0.62 && HighVolume(vmr)
    ensures r == Fading ==> score.value < 0.32 && Falling(velocity)
    ensures r == Accumulation ==> 0.45 <= score.value < 0.62 && HighVolume(vmr)
    ensures r == LowSignal ==> score.Some? && (!HighVolume(vmr) || score.value < 0.45)
    ensures score.Some? && score.value >= 0.78 && Rising(velocity) ==> r == StrongMomentum
    ensures score.Some? && score.value >= 0.62 && HighVolume(vmr) ==> r == StrongMomentum || r == VolSpike
    ensures score.Some? && score.value < 0.32 && Falling(velocity) ==> r == Fading
    ensures score.Some? && score.value >= 0.45 && HighVolume(vmr) ==> r != Fading && r != LowSignal
  {
    if score.None? then NoData
    else
      var s := score.value;
      if s >= 0.78 && Rising(velocity) then StrongMomentum
      else if s >= 0.62 && HighVolume(vmr) then VolSpike
      else if s < 0.32 && Falling(velocity) then Fading
      else if HighVolume(vmr) && s >= 0.45 then Accumulation
      else LowSignal
  }

  /** Rising and falling split every velocity, and an unknown velocity is rising. */
  lemma RisingIsNotFalling(velocity: Option<real>)
    ensures Rising(velocity) <==> !Falling(velocity)
    ensures velocity.None? ==> Rising(velocity)
  {
  }

  /** An unknown velocity classifies exactly like a zero one, so it is never FADING. */
  lemma UnknownVelocityCountsAsRising(score: Option<real>, vmr: Option<real>)
    ensures GetSignal(score, None, vmr) == GetSignal(score, Some(0.0), vmr)
    ensures GetSignal(score, None, vmr) != Fading
  {
  }

  /** A strong score with a non-negative rounded velocity is STRONG MOMENTUM whatever the
      volume: a drop of at most half a unit in the fourth place still counts as rising. */
  lemma StrongScoreWins(score: real, drift: real, vmr: Option<real>)
    requires score >= 0.78 && drift >= -0.00005
    ensures GetSignal(Some(score), Some(Round4(drift)), vmr) == StrongMomentum
  {
    Round4Sign(drift);
  }

  /** Raising the score while velocity and volume stay put never loses STRONG MOMENTUM. */
  lemma StrongMomentumMonotone(s1: real, s2: real, velocity: Option<real>, vmr: Option<real>)
    requires s1 <= s2
    requires GetSignal(Some(s1), velocity, vmr) == StrongMomentum
    ensures GetSignal(Some(s2), velocity, vmr) == StrongMomentum
  {
  }

  // ---------------------------------------------------------------- alerts

  /** A watchlist position's alert thresholds; absent and None are None. */
  datatype Position = Position(alertPrice: Option<real>, alertScore: Option<real>)

  /** The de-duplication keys `price_{cid}_{threshold}` and `score_{cid}_{threshold}`. */
  datatype AlertKey = PriceAlert(cid: string, threshold: real) | ScoreAlert(cid: string, threshold: real)

  /** `pos.get(...)` is truthy: present, not None and not zero. */
  predicate Armed(threshold: Option<real>) {
    threshold.Some? && threshold.value != 0.0
  }

  /** `px.get("current_price")` with `px = price_cache.get(cid, {})`. */
  function CachedPrice(cache: map<string, Quote>, cid: string): Option<real> {
    if cid in cache then cache[cid].currentPrice else None
  }

  /** `px.get("trend_score") or latest_score(cid)`: a cached score of 0 or None falls
      back to the history. */
  function AlertScore(cache: map<string, Quote>, h: map<string, seq<Sample>>, cid: string): (s: Option<real>)
    ensures s.Some? ==> (cid in cache && cache[cid].trendScore == s) || Latest(h, cid) == s
  {
    var cached := if cid in cache then cache[cid].trendScore else None;
    if cached.Some? && cached.value != 0.0 then cached else Latest(h, cid)
  }

  /** The price alert an entry raises: its armed threshold lies above the price. */
  function PriceKeys(cid: string, pos: Position, price: Option<real>): (ks: seq<AlertKey>)
    ensures ks == [] || (|ks| == 1 && ks[0].PriceAlert?)
  {
    if Armed(pos.alertPrice) && price.Some? && price.value < pos.alertPrice.value
    then [PriceAlert(cid, pos.alertPrice.value)] else []
  }

  /** The score alert an entry raises: its armed threshold lies above the score. */
  function ScoreKeys(cid: string, pos: Position, score: Option<real>): (ks: seq<AlertKey>)
    ensures ks == [] || (|ks| == 1 && ks[0].ScoreAlert?)
  {
    if Armed(pos.alertScore) && score.Some? && score.value < pos.alertScore.value
    then [ScoreAlert(cid, pos.alertScore.value)] else []
  }

  /** The alerts one watchlist entry raises given its price and alert score, price
      before score. */
  function EntryAlerts(cid: string, pos: Position, price: Option<real>, score: Option<real>): seq<AlertKey> {
    PriceKeys(cid, pos, price) + ScoreKeys(cid, pos, score)
  }

  /** Every alert condition that holds over the watchlist, in watchlist order. */
  function Candidates(watchlist: seq<(string, Position)>, cache: map<string, Quote>,
                      h: map<string, seq<Sample>>): seq<AlertKey>
  {
    if watchlist == [] then []
    else
      var e := watchlist[|watchlist| - 1];
      Candidates(watchlist[..|watchlist| - 1], cache, h)
        + EntryAlerts(e.0, e.1, CachedPrice(cache, e.0), AlertScore(cache, h, e.0))
  }

  /** Each key an entry raises names the entry's coin and an armed threshold that the
      price or the alert score lies below. */
  lemma EntryKeys(cid: string, pos: Position, price: Option<real>, score: Option<real>, k: AlertKey)
    requires k in EntryAlerts(cid, pos, price, score)
    ensures k.cid == cid
    ensures k.PriceAlert? ==> pos.alertPrice == Some(k.threshold) && k.threshold != 0.0
                              && price.Some? && price.value < k.threshold
    ensures k.ScoreAlert? ==> pos.alertScore == Some(k.threshold) && k.threshold != 0.0
                              && score.Some? && score.value < k.threshold
  {
    var pk, sk := PriceKeys(cid, pos, price), ScoreKeys(cid, pos, score);
    assert k in pk || k in sk;
  }

  /** A price alert is raised only for an armed threshold that the cached price is below. */
  lemma {:induction false} PriceAlertOnlyBelow(watchlist: seq<(string, Position)>, cache: map<string, Quote>,
                                               h: map<string, seq<Sample>>, cid: string, t: real)
    requires PriceAlert(cid, t) in Candidates(watchlist, cache, h)
    ensures exists i :: 0 <= i < |watchlist| && watchlist[i].0 == cid && watchlist[i].1.alertPrice == Some(t)
    ensures t != 0.0 && CachedPrice(cache, cid).Some? && CachedPrice(cache, cid).value < t
  {
    var n := |watchlist|;
    var e := watchlist[n - 1];
    if PriceAlert(cid, t) in EntryAlerts(e.0, e.1, CachedPrice(cache, e.0), AlertScore(cache, h, e.0)) {
      EntryKeys(e.0, e.1, CachedPrice(cache, e.0), AlertScore(cache, h, e.0), PriceAlert(cid, t));
      assert watchlist[n - 1].0 == cid;
    } else {
      PriceAlertOnlyBelow(watchlist[..n - 1], cache, h, cid, t);
      var i :| 0 <= i < n - 1 && watchlist[..n - 1][i].0 == cid && watchlist[..n - 1][i].1.alertPrice == Some(t);
      assert watchlist[i] == watchlist[..n - 1][i];
    }
  }

  /** A score alert is raised only for an armed threshold that the alert score is below. */
  lemma {:induction false} ScoreAlertOnlyBelow(watchlist: seq<(string, Position)>, cache: map<string, Quote>,
                                               h: map<string, seq<Sample>>, cid: string, t: real)
    requires ScoreAlert(cid, t) in Candidates(watchlist, cache, h)
    ensures exists i :: 0 <= i < |watchlist| && watchlist[i].0 == cid && watchlist[i].1.alertScore == Some(t)
    ensures t != 0.0 && AlertScore(cache, h, cid).Some? && AlertScore(cache, h, cid).value < t
  {
    var n := |watchlist|;
    var e := watchlist[n - 1];
    if ScoreAlert(cid, t) in EntryAlerts(e.0, e.1, CachedPrice(cache, e.0), AlertScore(cache, h, e.0)) {
      EntryKeys(e.0, e.1, CachedPrice(cache, e.0), AlertScore(cache, h, e.0), ScoreAlert(cid, t));
      assert watchlist[n - 1].0 == cid;
    } else {
      ScoreAlertOnlyBelow(watchlist[..n - 1], cache, h, cid, t);
      var i :| 0 <= i < n - 1 && watchlist[..n - 1][i].0 == cid && watchlist[..n - 1][i].1.alertScore == Some(t);
      assert watchlist[i] == watchlist[..n - 1][i];
    }
  }

  /** Conversely, every watchlist entry whose armed price threshold lies above its cached
      price raises that price alert. */
  lemma {:induction false} PriceAlertRaised(watchlist: seq<(string, Position)>, cache: map<string, Quote>,
                                            h: map<string, seq<Sample>>, i: nat)
    requires i < |watchlist| && Armed(watchlist[i].1.alertPrice)
    requires CachedPrice(cache, watchlist[i].0).Some?
    requires CachedPrice(cache, watchlist[i].0).value < watchlist[i].1.alertPrice.value
    ensures PriceAlert(watchlist[i].0, watchlist[i].1.alertPrice.value) in Candidates(watchlist, cache, h)
  {
    var n := |watchlist|;
    var e := watchlist[n - 1];
    var entry := EntryAlerts(e.0, e.1, CachedPrice(cache, e.0), AlertScore(cache, h, e.0));
    if i == n - 1 {
      assert PriceKeys(e.0, e.1, CachedPrice(cache, e.0))[0] in entry;
    } else {
      assert watchlist[..n - 1][i] == watchlist[i];
      PriceAlertRaised(watchlist[..n - 1], cache, h, i);
    }
  }

  /** Every watchlist entry whose armed score threshold lies above its alert score raises
      that score alert. */
  lemma {:induction false} ScoreAlertRaised(watchlist: seq<(string, Position)>, cache: map<string, Quote>,
                                            h: map<string, seq<Sample>>, i: nat)
    requires i < |watchlist| && Armed(watchlist[i].1.alertScore)
    requires AlertScore(cache, h, watchlist[i].0).Some?
    requires AlertScore(cache, h, watchlist[i].0).value < watchlist[i].1.alertScore.value
    ensures ScoreAlert(watchlist[i].0, watchlist[i].1.alertScore.value) in Candidates(watchlist, cache, h)
  {
    var n := |watchlist|;
    var e := watchlist[n - 1];
    var entry := EntryAlerts(e.0, e.1, CachedPrice(cache, e.0), AlertScore(cache, h, e.0));
    if i == n - 1 {
      assert ScoreKeys(e.0, e.1, AlertScore(cache, h, e.0))[0] in entry;
    } else {
      assert watchlist[..n - 1][i] == watchlist[i];
      ScoreAlertRaised(watchlist[..n - 1], cache, h, i);
    }
  }

  /** The keys that notify: each candidate not already fired and not raised earlier in
      the same pass. */
  function FreshKeys(ks: seq<AlertKey>, fired: set<AlertKey>): seq<AlertKey> {
    if ks == [] then []
    else
      var init, k := ks[..|ks| - 1], ks[|ks| - 1];
      FreshKeys(init, fired) + (if k in fired || k in init then [] else [k])
  }

  /** Exactly the candidates not fired before notify, and each of them once. */
  lemma {:induction false} FreshKeysSpec(ks: seq<AlertKey>, fired: set<AlertKey>)
    ensures forall k :: k in FreshKeys(ks, fired) <==> k in ks && k !in fired
    ensures Distinct(FreshKeys(ks, fired))
  {
    if ks != [] {
      var init, k := ks[..|ks| - 1], ks[|ks| - 1];
      FreshKeysSpec(init, fired);
      assert ks == init + [k];
    }
  }

  /** The set of keys in a candidate list. */
  function KeySet(ks: seq<AlertKey>): set<AlertKey> {
    if ks == [] then {} else KeySet(ks[..|ks| - 1]) + {ks[|ks| - 1]}
  }

  /** KeySet holds exactly the listed keys. */
  lemma {:induction false} KeySetHas(ks: seq<AlertKey>, k: AlertKey)
    ensures k in KeySet(ks) <==> k in ks
  {
    if ks != [] {
      var init := ks[..|ks| - 1];
      KeySetHas(init, k);
      assert ks == init + [ks[|ks| - 1]];
    }
  }

  /** The keys of two lists together. */
  lemma {:induction false} KeySetAppend(a: seq<AlertKey>, b: seq<AlertKey>)
    ensures KeySet(a + b) == KeySet(a) + KeySet(b)
  {
    if b == [] {
      assert a + b == a;
    } else {
      var init := b[..|b| - 1];
      KeySetAppend(a, init);
      assert (a + b)[..|a + b| - 1] == a + init;
    }
  }

  /** Candidates that have all fired before notify nothing. */
  lemma {:induction false} AllFiredNotifyNothing(ks: seq<AlertKey>, fired: set<AlertKey>)
    requires forall k :: k in ks ==> k in fired
    ensures FreshKeys(ks, fired) == []
  {
    if ks != [] {
      var init := ks[..|ks| - 1];
      assert forall k :: k in init ==> k in ks;
      AllFiredNotifyNothing(init, fired);
    }
  }

  /** Once a pass has fired its keys, the same candidates notify nothing again. */
  lemma FiresOnce(ks: seq<AlertKey>, fired: set<AlertKey>)
    ensures FreshKeys(ks, fired + KeySet(ks)) == []
  {
    forall k | k in ks
      ensures k in fired + KeySet(ks)
    {
      KeySetHas(ks, k);
    }
    AllFiredNotifyNothing(ks, fired + KeySet(ks));
  }

  /** One more candidate: it notifies unless it was fired before or raised earlier. */
  lemma FreshKeysSnoc(ks: seq<AlertKey>, k: AlertKey, fired: set<AlertKey>)
    ensures FreshKeys(ks + [k], fired) == FreshKeys(ks, fired) + (if k in fired || k in ks then [] else [k])
  {
    assert (ks + [k])[..|ks|] == ks;
  }

  /** Checking two batches in turn, the second against the keys the first raised,
      notifies what checking them together does. */
  lemma {:induction false} FreshKeysAppend(a: seq<AlertKey>, b: seq<AlertKey>, fired: set<AlertKey>)
    ensures FreshKeys(a + b, fired) == FreshKeys(a, fired) + FreshKeys(b, fired + KeySet(a))
  {
    if b == [] {
      assert a + b == a;
    } else {
      var init, k := b[..|b| - 1], b[|b| - 1];
      FreshKeysAppend(a, init, fired);
      assert b == init + [k];
      assert a + b == (a + init) + [k];
      var later := fired + KeySet(a);
      FreshKeysSnoc(a + init, k, fired);
      FreshKeysSnoc(init, k, later);
      KeySetHas(a, k);
      var p, q := FreshKeys(a, fired), FreshKeys(init, later);
      var tail := if k in later || k in init then [] else [k];
      assert FreshKeys(a + b, fired) == (p + q) + tail;
      assert FreshKeys(b, later) == q + tail;
      assert (p + q) + tail == p + (q + tail);
    }
  }

  /** A list of at most one key notifies it unless it fired before. */
  lemma OneKey(ks: seq<AlertKey>, before: set<AlertKey>)
    requires |ks| <= 1
    ensures FreshKeys(ks, before) == if ks == [] || ks[0] in before then [] else ks
    ensures KeySet(ks) == if ks == [] then {} else {ks[0]}
  {
    if ks != [] {
      assert ks[..0] == [];
    }
  }

  /** An entry's price key cannot block its score key, so the entry notifies what its
      two checks notify on their own. */
  lemma EntryFresh(cid: string, pos: Position, price: Option<real>, score: Option<real>, before: set<AlertKey>)
    ensures var pk, sk := PriceKeys(cid, pos, price), ScoreKeys(cid, pos, score);
            && FreshKeys(EntryAlerts(cid, pos, price, score), before) == FreshKeys(pk, before) + FreshKeys(sk, before)
            && KeySet(EntryAlerts(cid, pos, price, score)) == KeySet(pk) + KeySet(sk)
  {
    var pk, sk := PriceKeys(cid, pos, price), ScoreKeys(cid, pos, score);
    FreshKeysAppend(pk, sk, before);
    KeySetAppend(pk, sk);
    OneKey(pk, before);
    OneKey(sk, before);
    OneKey(sk, before + KeySet(pk));
    if sk != [] {
      assert sk[0] in before + KeySet(pk) <==> sk[0] in before;
    }
  }

  /** `BagPanel`'s alert state: the latest quotes and the keys already notified. */
  class BagPanel {
    var priceCache: map<string, Quote>
    var fired: set<AlertKey>

    constructor ()
      ensures priceCache == map[] && fired == {}
    {
      priceCache := map[];
      fired := {};
    }

    /** `_check_alerts()` over the watchlist entries in order: each raised key not yet
        fired is added to `fired` and notified. */
    method CheckAlerts(watchlist: seq<(string, Position)>, store: ScoreStore) returns (notices: seq<AlertKey>)
      modifies this
      ensures priceCache == old(priceCache)
      ensures notices == FreshKeys(Candidates(watchlist, priceCache, store.history), old(fired))
      ensures fired == old(fired) + KeySet(Candidates(watchlist, priceCache, store.history))
    {
      notices := [];
      for i := 0 to |watchlist|
        invariant priceCache == old(priceCache)
        invariant notices == FreshKeys(Candidates(watchlist[..i], priceCache, store.history), old(fired))
        invariant fired == old(fired) + KeySet(Candidates(watchlist[..i], priceCache, store.history))
      {
        assert watchlist[..i + 1][..i] == watchlist[..i];
        ghost var done := Candidates(watchlist[..i], priceCache, store.history);
        var cid, pos := watchlist[i].0, watchlist[i].1;
        var price := CachedPrice(priceCache, cid);
        var score := AlertScore(priceCache, store.history, cid);
        var batch := CheckEntry(cid, pos, price, score);
        FreshKeysAppend(done, EntryAlerts(cid, pos, price, score), old(fired));
        KeySetAppend(done, EntryAlerts(cid, pos, price, score));
        notices := notices + batch;
      }
      assert watchlist[..|watchlist|] == watchlist;
    }

    /** The two checks of `_check_alerts` for one watchlist entry: the price alert, then
        the score alert, each notifying only when its key has not fired. */
    method CheckEntry(cid: string, pos: Position, price: Option<real>, score: Option<real>)
      returns (batch: seq<AlertKey>)
      modifies this
      ensures priceCache == old(priceCache)
      ensures batch == FreshKeys(EntryAlerts(cid, pos, price, score), old(fired))
      ensures fired == old(fired) + KeySet(EntryAlerts(cid, pos, price, score))
    {
      var pk, sk := PriceKeys(cid, pos, price), ScoreKeys(cid, pos, score);
      FreshKeysAppend(pk, sk, fired);
      KeySetAppend(pk, sk);
      batch := FireAny(pk, []);
      batch := FireAny(sk, batch);
    }

    /** The check for one alert kind: its key, when raised, goes through Fire. */
    method FireAny(ks: seq<AlertKey>, notices: seq<AlertKey>) returns (out: seq<AlertKey>)
      modifies this
      requires |ks| <= 1
      ensures priceCache == old(priceCache)
      ensures out == notices + FreshKeys(ks, old(fired))
      ensures fired == old(fired) + KeySet(ks)
    {
      OneKey(ks, fired);
      out := notices;
      if ks != [] {
        out := Fire(ks[0], notices);
      }
    }

    /** `if key not in self._fired: self._fired.add(key); self._notify(...)`. */
    method Fire(key: AlertKey, notices: seq<AlertKey>) returns (out: seq<AlertKey>)
      modifies this
      ensures priceCache == old(priceCache)
      ensures fired == old(fired) + {key}
      ensures out == notices + (if key in old(fired) then [] else [key])
    {
      out := notices;
      if key !in fired {
        fired := fired + {key};
        out := out + [key];
      }
    }

    /** `update_prices(data)`: merge the new quotes into the cache, then check alerts. */
    method UpdatePrices(data: map<string, Quote>, watchlist: seq<(string, Position)>, store: ScoreStore)
      returns (notices: seq<AlertKey>)
      modifies this
      ensures priceCache == old(priceCache) + data
      ensures notices == FreshKeys(Candidates(watchlist, priceCache, store.history), old(fired))
      ensures fired == old(fired) + KeySet(Candidates(watchlist, priceCache, store.history))
    {
      priceCache := priceCache + data;
      notices := CheckAlerts(watchlist, store);
    }
  }
}
