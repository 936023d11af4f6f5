/**
 * `StockQuoteQueryHandler.Handle` (the `Queries/Quote` handler): turns the quote lookup's
 * `ApiResponse<StockQuote>` into the quote or a thrown exception. The lookup itself is
 * the `response` parameter.
 */
module QuoteQuery {
  import opened Wrappers
  import opened HttpStatus
  import opened Tickers
  import opened ApiResponses
  import opened Exceptions
  import opened StockQuotes
  import opened Text

  datatype StockQuoteQuery = StockQuoteQuery(symbol: TickerSymbol)

  const CommandType := "quote"
  const FailureFallback := "The data could not be retrieved"
  const NoDataFallback := "No stock quote data available."

  /**
   * `Handle`, as written: `Ok` is a returned quote, `Err` a thrown exception; the handler never
   * returns null. The exceptions come from the generators as written, so a not-found carries
   * the log text in `UserFriendlyMessage`.
   */
  function HandleStockQuoteQuery(request: StockQuoteQuery, response: ApiResponse<StockQuote>): (r: Result<StockQuote, AppException>)
    ensures r.Ok? <==> response.isSuccess && response.data.Some?
    ensures r.Ok? ==> r.value == response.data.value
    ensures !response.isSuccess && response.statusCode != OK ==>
      r == Err(GenerateNon200StatusCodeException(response.statusCode, CommandType, Some(request.symbol.value), response.message))
    ensures !response.isSuccess && response.statusCode == OK ==>
      r == Err(GenerateDataNotFoundException(CommandType, Some(request.symbol.value), response.message.GetOr(FailureFallback)))
    ensures response.isSuccess && response.data.None? ==>
      r == Err(GenerateDataNotFoundException(CommandType, Some(request.symbol.value), response.message.GetOr(NoDataFallback)))
  {
    if !response.isSuccess then
      if response.statusCode != OK then
        Err(GenerateNon200StatusCodeException(response.statusCode, CommandType, Some(request.symbol.value), response.message))
      else
        Err(GenerateDataNotFoundException(CommandType, Some(request.symbol.value), response.message.GetOr(FailureFallback)))
    else if response.data.None? then
      Err(GenerateDataNotFoundException(CommandType, Some(request.symbol.value), response.message.GetOr(NoDataFallback)))
    else
      Ok(response.data.value)
  }

  /** The same decisions with the corrected generators, which put each text where the bot reads it. */
  function IntendedHandleStockQuoteQuery(request: StockQuoteQuery, response: ApiResponse<StockQuote>): (r: Result<StockQuote, AppException>)
    ensures r.Ok? <==> response.isSuccess && response.data.Some?
    ensures r.Ok? ==> r.value == response.data.value
    ensures !response.isSuccess && response.statusCode != OK ==>
      r == Err(IntendedNon200StatusCodeException(response.statusCode, CommandType, Some(request.symbol.value), response.message))
    ensures !response.isSuccess && response.statusCode == OK ==>
      r == Err(IntendedDataNotFoundException(CommandType, Some(request.symbol.value), response.message.GetOr(FailureFallback)))
    ensures response.isSuccess && response.data.None? ==>
      r == Err(IntendedDataNotFoundException(CommandType, Some(request.symbol.value), response.message.GetOr(NoDataFallback)))
  {
    if !response.isSuccess then
      if response.statusCode != OK then
        Err(IntendedNon200StatusCodeException(response.statusCode, CommandType, Some(request.symbol.value), response.message))
      else
        Err(IntendedDataNotFoundException(CommandType, Some(request.symbol.value), response.message.GetOr(FailureFallback)))
    else if response.data.None? then
      Err(IntendedDataNotFoundException(CommandType, Some(request.symbol.value), response.message.GetOr(NoDataFallback)))
    else
      Ok(response.data.value)
  }

  /**
   * The handler as written and the corrected one agree on every response, except that a
   * not-found exception has its technical and chat texts swapped.
   */
  lemma HandlerSwapsOnlyNotFoundTexts(request: StockQuoteQuery, response: ApiResponse<StockQuote>)
    ensures var w := HandleStockQuoteQuery(request, response);
      var i := IntendedHandleStockQuoteQuery(request, response);
      && (w.Ok? <==> i.Ok?)
      && (w.Ok? ==> w == i)
      && (w.Err? ==>
            && w.error.kind == i.error.kind && w.error.inner == i.error.inner
            && (w.error.kind == ExternalService ==> w == i)
            && (w.error.kind == StockDataNotFound ==>
                  w.error.message == i.error.userFriendlyMessage && w.error.userFriendlyMessage == i.error.message))
  {
    if !response.isSuccess && response.statusCode != OK {
      AsWrittenSwapsNotFoundTexts(response.statusCode, CommandType, Some(request.symbol.value), response.message, None);
    }
  }

  /**
   * Which exception is thrown: a not-found for a failure with status OK and for a success
   * without data; for any other failure a not-found only on a 404 for a non-blank symbol.
   */
  lemma ThrownKinds(request: StockQuoteQuery, response: ApiResponse<StockQuote>)
    requires HandleStockQuoteQuery(request, response).Err?
    ensures var e := HandleStockQuoteQuery(request, response).error;
      && (response.statusCode == OK || response.isSuccess ==> e.kind == StockDataNotFound)
      && (!response.isSuccess && response.statusCode != OK ==>
            (e.kind == StockDataNotFound <==> response.statusCode == NotFound && !IsNullOrWhiteSpace(Some(request.symbol.value))))
  {
  }

  /** Every `Success(quote)` response, whatever its status, yields that quote. */
  lemma SuccessYieldsQuote(request: StockQuoteQuery, quote: StockQuote, statusCode: int, message: Option<string>)
    ensures HandleStockQuoteQuery(request, Success(quote, statusCode, message)) == Ok(quote)
  {
  }

  /**
   * The handler test's scenario, as written: a failed lookup with status OK for the symbol
   * "fake" (held as "FAKE") throws a `StockDataNotFoundException` whose chat text is the log
   * text and does not contain the "Sorry" text the test expects.
   */
  lemma FailureWithOkOmitsSymbolText(request: StockQuoteQuery)
    requires request.symbol.value == "FAKE"
    ensures var r := HandleStockQuoteQuery(request, Failure("Technical error", OK));
      && r.Err? && r.error.kind == StockDataNotFound
      && r.error.userFriendlyMessage == DataNotFoundLogMessage(CommandType, Some("FAKE"), "Technical error")
      && !Contains(r.error.userFriendlyMessage, "Sorry, I couldn't find any data for 'FAKE'")
  {
    DataNotFoundFriendlyTextMisplaced();
  }

  /**
   * With the corrected generators, a failed lookup with status OK throws a
   * `StockDataNotFoundException` whose chat text names the symbol, for any symbol and message.
   */
  lemma IntendedFailureNamesSymbol(request: StockQuoteQuery, message: string)
    ensures var r := IntendedHandleStockQuoteQuery(request, Failure(message, OK));
      && r.Err? && r.error.kind == StockDataNotFound
      && Contains(r.error.userFriendlyMessage, "Sorry, I couldn't find any data for '" + request.symbol.value + "'")
  {
    IntendedNamesIdentifier(CommandType, request.symbol.value, message);
  }
}
