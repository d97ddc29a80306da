/**
 * The exchange's records as the backend reads them: a 24-hour ticker and
 * the instrument metadata of `exchangeInfo`. Numeric strings are kept as
 * the value `parseFloat` gives them.
 */
module Market {
  import opened Text

  /** The quote asset every ranked, priced or searched pair is quoted in. */
  const Quote: string := "USDT"

  /** One element of `/api/v3/ticker/24hr`. */
  datatype Ticker = Ticker(
    symbol: string,
    lastPrice: real,
    highPrice: real,
    lowPrice: real,
    volume: real,
    priceChangePercent: real)

  /** One element of `exchangeInfo.symbols`. */
  datatype SymbolMeta = SymbolMeta(symbol: string, baseAsset: string, quoteAsset: string)

  /** `c.symbol.endsWith('USDT')` on a ticker. */
  predicate IsUsdtTicker(t: Ticker)
  {
    EndsWith(t.symbol, Quote)
  }

  /** `s.symbol.endsWith('USDT')` on an instrument. */
  predicate IsUsdtPair(m: SymbolMeta)
  {
    EndsWith(m.symbol, Quote)
  }

  /** `pair.replace('USDT', '')`: the pair with its first "USDT" removed. */
  function StripQuote(pair: string): string
  {
    ReplaceFirst(pair, Quote, "")
  }
}
