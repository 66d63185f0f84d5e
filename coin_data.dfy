/**
 * The typed records the dashboard works on once the JSON file is loaded
 * and coerced, and the fixed default date range of the page.
 */
module CoinData {
  import opened JsValues

  /** A coin identifier such as "bitcoin"; also the key of every join. */
  type Coin = string

  /** A date as milliseconds since the epoch (`Date.getTime()`). */
  type Millis = int

  /** One daily observation of one coin, after `prepareData`'s coercions. */
  datatype Record = Record(date: Millis, priceUsd: real, marketCap: real, vol24h: real)

  /** The `[dates[0], dates[1]]` pair held by the slider and passed to the charts. */
  datatype DateRange = DateRange(start: Millis, end: Millis)

  /** One entry of `donutData`: a coin and its last retained record, if any. */
  datatype Snapshot = Snapshot(coin: Coin, data: Option<Record>)

  /** 12/5/2013 and 31/10/2017 at midnight UTC, the slider's bounds and default values. */
  const DefaultStart: Millis := 1368316800000
  const DefaultEnd: Millis := 1509408000000
  const Defaults: DateRange := DateRange(DefaultStart, DefaultEnd)

  /** The y variables the variable select offers. */
  const PriceUsd: string := "price_usd"
  const MarketCap: string := "market_cap"
  const Volume24h: string := "24h_vol"
}
