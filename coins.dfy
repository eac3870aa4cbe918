/** One row of the market list as the CoinGecko `coins/markets` endpoint returns it. */
module Coins {
  import opened Wrappers

  /** A coin record. `priceChange24h` is `price_change_percentage_24h`, which the API sends as
      `null` when it has no value. Prices are JavaScript numbers, modelled as reals. */
  datatype Coin = Coin(
    id: string,
    name: string,
    symbol: string,
    image: string,
    currentPrice: real,
    marketCap: real,
    marketCapRank: int,
    priceChange24h: Option<real>)
}
