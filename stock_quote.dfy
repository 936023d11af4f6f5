/** `StockQuote`: the domain record a quote lookup produces. Prices are `real` rather than IEEE doubles. */
module StockQuotes {

  datatype StockQuote = StockQuote(
    ticker: string,
    currentPrice: real,
    openingPrice: real,
    closingPrice: real,
    high: real,
    low: real)
}
