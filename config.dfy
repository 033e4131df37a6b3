/** The tuning constants of the momentum scorer and the stablecoin deny-lists. */
module Config {
  import opened Text

  // Scoring weights; the five are meant to sum to 1.00.
  const WeightPriceChange24h: real := 0.30
  const WeightVolMcapRatio: real := 0.25
  const WeightTrending: real := 0.20
  const WeightPriceChange7d: real := 0.15
  const WeightMarketCapRank: real := 0.10

  /** Flat additive bonus for a coin whose all-time low is recent, on top of the weights. */
  const NewlyListedBonus: real := 0.05

  /** Coins ranked at or above this market-cap rank are blue chips. */
  const BlueChipRankCutoff: int := 20

  /** How many coins a scan fetches by default. */
  const CoinGeckoTopN: int := 500

  const StablecoinIds: set<string> := {
    "tether", "usd-coin", "binance-usd", "dai", "true-usd", "pax-dollar",
    "frax", "usdd", "neutrino", "gemini-dollar", "liquity-usd", "fei-usd",
    "flex-usd", "celo-dollar", "terrausd", "terra-usd", "usdp", "nusd",
    "usdk", "usdx", "dola-usd", "bean", "euro-coin", "first-digital-usd",
    "paypal-usd", "usde", "ethena-usde", "mountain-protocol-usdm",
    "usual-usd", "resolv-usr", "sky-usds"
  }

  const StablecoinSymbols: set<string> := {
    "usdt", "usdc", "busd", "dai", "tusd", "usdp", "usdd", "frax",
    "lusd", "susd", "gusd", "cusd", "eurc", "pyusd", "fdusd", "usde",
    "usds", "usdm", "usr", "usd+", "usd0", "crvusd", "mkusd"
  }

  function WeightSum(): real {
    WeightPriceChange24h + WeightVolMcapRatio + WeightTrending
      + WeightPriceChange7d + WeightMarketCapRank
  }

  lemma WeightsSumToOne()
    ensures WeightSum() == 1.0
  {
  }

  lemma WeightsStrictlyOrdered()
    ensures WeightPriceChange24h > WeightVolMcapRatio > WeightTrending
            > WeightPriceChange7d > WeightMarketCapRank > 0.0
  {
  }

  /** The bonus sits on top of the weights, so a pre-clamp score can reach 1.05. */
  lemma BonusExceedsWeightBudget()
    ensures WeightSum() + NewlyListedBonus == 1.05
  {
  }

  lemma StablecoinIdIsLowerText(s: string)
    requires s in StablecoinIds
    ensures IsLowerText(s)
  {
    // Splitting on the length keeps each case of the list small for the solver.
    if |s| <= 5 {
    } else if |s| <= 8 {
    } else if |s| <= 11 {
    } else {
    }
  }

  /** Every deny-listed id is already lower-case, so matching a lower-cased id against
      the list finds each entry however the coin spells it. */
  lemma StablecoinIdsAreLowerCase()
    ensures forall s :: s in StablecoinIds ==> Lower(s) == s
  {
    forall s | s in StablecoinIds ensures Lower(s) == s {
      StablecoinIdIsLowerText(s);
      LowerOfLowerText(s);
    }
  }

  /** Likewise for the deny-listed symbols. */
  lemma StablecoinSymbolsAreLowerCase()
    ensures forall s :: s in StablecoinSymbols ==> Lower(s) == s
  {
    forall s | s in StablecoinSymbols ensures Lower(s) == s {
      LowerOfLowerText(s);
    }
  }
}
