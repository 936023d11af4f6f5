# stocki price monitoring, mapping and subscriptions in Dafny

This project models the sequential logic of the stocki Discord bot:

- **The price tracker.** `PriceChecker` keeps a map from symbol to baseline price. It
  walks each batch of trades and moves a baseline when a trade is at least 5% away from it.
  `FinnhubWSManager` seeds that map from the stored subscriptions at start-up. It builds
  the subscribe and unsubscribe frames and decides which incoming frames reach the checker.
- **The mapping and validation layer.** This covers the Finnhub quote and news mappers,
  the AlphaVantage overview mapper and the news-summary truncation. It also covers the
  `TickerSymbol` validator, the `ApiResponse` factories, the status-to-exception table of
  `ExceptionGenerator` and the quote query handler that chooses among those exceptions.
- **The subscription table.** The repository's queries and updates run over a sequence of
  `(DiscordId, Ticker, IsActive)` rows that have unique `(DiscordId, Ticker)` pairs. The
  subscribe and unsubscribe command handlers change that table.

One module per source file:

| file | module | source |
|---|---|---|
| `price_checker.dfy` | `PriceCheck` | `PriceChecker.cs` |
| `finnhub_ws_manager.dfy` | `FinnhubWS` | `FinnhubWSManager.cs` |
| `json_text.dfy` | `JsonText` | the string escaping Json.NET applies when it serializes the subscription frame |
| `finnhub_mapping.dfy` | `FinnhubMapping` | `FinnhubMappingHelper.cs` |
| `alphavantage_mapping.dfy` | `AlphaVantageMapping` | `AlphaVantageMappingHelper.cs` |
| `news_article.dfy` | `NewsArticles` | `StockNewsArticle.cs` |
| `ticker_symbol.dfy` | `Tickers` | `TickerSymbol.cs` |
| `exception_generator.dfy` | `Exceptions` | `ExceptionGenerator.cs` and the two exception classes |
| `quote_query_handler.dfy` | `QuoteQuery` | `Queries/Quote/StockQuoteQueryHandler.cs` |
| `api_response.dfy` | `ApiResponses` | `ApiResponse.cs` |
| `stock_quote.dfy` | `StockQuotes` | `StockQuote.cs` |
| `subscription_repository.dfy` | `Subscriptions` | `StockPriceSubscriptionRepository.cs` and the table's unique index |
| `price_subscribe_handler.dfy` | `PriceSubscribe` | `PriceSubscribeCommandHandler.cs` |
| `price_unsubscribe_handler.dfy` | `PriceUnsubscribe` | `PriceUnsubscribeCommandHandler.cs` |
| `http_status.dfy`, `text.dfy`, `wrappers.dfy` | `HttpStatus`, `Text`, `Wrappers` | status codes, ASCII string helpers, `Option`/`Result` |

The mutable parts keep their shape as classes with `modifies` clauses:
- `PriceChecker` holds `stockPrices: map<string, real>`, which models the `ConcurrentDictionary`.
- `FinnhubWSManager` holds the checker and a log of the frames it sent.
- `StockPriceSubscriptionRepository` holds the table as a `seq`.
- `MapStockNews` is a method with the source's `while` loop.

Each method is proved against a pure function. The properties are lemmas about those functions:
- `CheckPrice` against `CheckBatch`.
- `RecieveMessagesAsync` against `ReceiveFrom`.
- The seeding `foreach` against `FirstInvalid`, `SeedPrices` and `SubscribeTexts`.

A null reference becomes `Option`, and a thrown exception becomes the `Err` side of a
`Result`. Library parsers (`double`, `decimal`, `long` and `int` `TryParse`) are function
parameters of type `string -> Option<_>`. `DateTime.TryParseExact(..., "yyyy-MM-dd")` is
written out, with the Gregorian calendar rules.

Behaviours of the code worth knowing, all of which the model keeps:
- **Unseen symbol.** A trade for a symbol that has no baseline is ignored; it is not seeded.
- **Zero baseline.** The zero is replaced only in a local variable. So the moved-test compares
  the price with itself, and a stored zero stays zero for good (`ZeroBaselineNeverChanges`).
- **No per-batch cap.** Every breaching trade in a batch moves the baseline, including later
  trades for the same symbol (`EveryBreachInABatchUpdates`).
- **No alert.** A breach only moves the baseline. No alert is published (the source has a TODO there).
- **Unsubscribe.** Unsubscribing does not remove the symbol's baseline.
- **Missing `data` array.** A frame that parses but has no `data` array makes
  `.Data.Count()` throw. That ends the receive loop (`Faulted`); the frame is not skipped.
- **Invalid stored ticker.** A stored ticker that `new TickerSymbol` rejects throws during
  seeding, right after its subscribe frame was sent. This ends `ConnectAndListenAsync`
  before any frame is received (`SeedingAborted`).

## Model

| member | source | states |
|---|---|---|
| PriceCheck.HasStockMovedXPercent | src/Stocki.PriceMonitoringService/Services/PriceChecker.cs:54-64 | with old price 0, moved iff the new price is non-zero; otherwise moved iff abs(new - old) * 100 >= 5 * abs(old), that is, iff the percentage change computed by division is at least 5 in absolute value |
| PriceCheck.ChangeAgainstThreshold | src/Stocki.PriceMonitoringService/Services/PriceChecker.cs:58-63 | for a non-zero old price, abs((d / o) * 100) >= 5 iff abs(d) * 100 >= 5 * abs(o): the division-free form is exact |
| PriceCheck.ThresholdIsInclusive | src/Stocki.PriceMonitoringService/Services/PriceChecker.cs:59 | exactly 5% up or down counts as moved; 4.99% does not |
| PriceCheck.CompareAndSwap | src/Stocki.PriceMonitoringService/Services/PriceChecker.cs:38 | `TryUpdate` writes the new value only when the key holds the comparison value; the key set never changes |
| PriceCheck.CheckTrade | src/Stocki.PriceMonitoringService/Services/PriceChecker.cs:26-49 | a trade for an unknown symbol changes nothing; a zero baseline is left as is; a non-zero baseline becomes the trade's price iff the move is at least 5%, otherwise the map is unchanged; keys are never added or removed |
| PriceCheck.CheckBatch | src/Stocki.PriceMonitoringService/Services/PriceChecker.cs:24-51 | a batch never adds or removes a symbol |
| PriceCheck.CheckBatchAppend | src/Stocki.PriceMonitoringService/Services/PriceChecker.cs:24-51 | trades run in array order: checking `first + second` is checking `first`, then `second` on the result |
| PriceCheck.ZeroBaselineNeverChanges | src/Stocki.PriceMonitoringService/Services/PriceChecker.cs:33-38 | a stored baseline of 0 is still 0 after any batch |
| PriceCheck.OtherSymbolsUntouched | src/Stocki.PriceMonitoringService/Services/PriceChecker.cs:24-38 | a baseline changes only through trades for its own symbol |
| PriceCheck.BaselineComesFromTrades | src/Stocki.PriceMonitoringService/Services/PriceChecker.cs:35-38 | after a batch, a baseline is its old value or the price of some trade for that symbol |
| PriceCheck.EveryBreachInABatchUpdates | src/Stocki.PriceMonitoringService/Services/PriceChecker.cs:24-38 | 100 then trades at 106 and 112 in one batch ends at 112: the second trade is compared with the value the first wrote, and there is no per-batch cap |
| PriceCheck.SmallMovesAccumulateNothing | src/Stocki.PriceMonitoringService/Services/PriceChecker.cs:41-49 | 100 then trades at 103 and 104 stays at 100: the baseline is the last moved price, not the last trade |
| PriceCheck.PriceChecker.TryUpdate | src/Stocki.PriceMonitoringService/Services/PriceChecker.cs:38 | sequential compare-and-swap on the dictionary field: succeeds iff the key holds the comparison value |
| PriceCheck.PriceChecker.TryAdd | src/Stocki.PriceMonitoringService/Services/FinnhubWSManager.cs:65-68 | insert-if-absent: adds iff the key is missing and never overwrites |
| PriceCheck.PriceChecker.CheckPrice | src/Stocki.PriceMonitoringService/Services/PriceChecker.cs:21-52 | the `foreach` loop leaves the dictionary equal to `CheckBatch` of the old dictionary and the trades |
| FinnhubWS.BuildSubscriptionMessage | src/Stocki.PriceMonitoringService/Services/FinnhubWSManager.cs:190-227 | the frame's type is "subscribe" or "unsubscribe", and the symbol is passed through unchanged |
| FinnhubWS.SubscriptionRoundTrip | src/Stocki.PriceMonitoringService/Services/FinnhubWSManager.cs:200 | the serialized `{"type":…,"symbol":…}` text parses back to the same message, for any symbol text |
| FinnhubWS.SerializeInjective | src/Stocki.PriceMonitoringService/Services/FinnhubWSManager.cs:200 | two different messages are never serialized to the same text |
| FinnhubWS.ClassifyFrame | src/Stocki.PriceMonitoringService/Services/FinnhubWSManager.cs:131-175 | binary frames and text shorter than 25 characters or not parsing are skipped; a close frame acknowledges and stops; a parsed message without a `data` array faults; an empty array is skipped; otherwise its trades go to the checker |
| FinnhubWS.ReceiveKeepsSymbols | src/Stocki.PriceMonitoringService/Services/FinnhubWSManager.cs:124-176 | receiving never adds or removes a symbol from the tracker |
| FinnhubWS.SkippedFrameIrrelevant | src/Stocki.PriceMonitoringService/Services/FinnhubWSManager.cs:136-160 | a skipped frame anywhere in the stream changes neither the final prices nor how the loop ends |
| FinnhubWS.CloseEndsReceiving | src/Stocki.PriceMonitoringService/Services/FinnhubWSManager.cs:163-175 | frames after a close frame are never read |
| FinnhubWS.TradeFramesAllChecked | src/Stocki.PriceMonitoringService/Services/FinnhubWSManager.cs:161 | a stream of trade frames hands each batch to `CheckPrice` exactly once, in order, and ends at end of stream |
| FinnhubWS.FinnhubWSManager.SendMessage | src/Stocki.PriceMonitoringService/Services/FinnhubWSManager.cs:188-246 | the call always returns normally and appends exactly one serialized frame to the sent log |
| FinnhubWS.FinnhubWSManager.ReceiveMessages | src/Stocki.PriceMonitoringService/Services/FinnhubWSManager.cs:119-186 | the `while` loop leaves the prices and stop reason `ReceiveFrom` gives; it sends only the close acknowledgement, and only when the server closed |
| FinnhubWS.FirstInvalidIsFirst | src/Stocki.PriceMonitoringService/Services/FinnhubWSManager.cs:55-60 | seeding stops at the first stored ticker `new TickerSymbol` rejects, and every ticker before it is valid |
| FinnhubWS.SubscribeTextsAt | src/Stocki.PriceMonitoringService/Services/FinnhubWSManager.cs:54-57 | the i-th subscribe frame sent during seeding is for the i-th active subscription, in repository order |
| FinnhubWS.SeedNeverOverwrites | src/Stocki.PriceMonitoringService/Services/FinnhubWSManager.cs:63-69 | seeding never changes a baseline that is already present |
| FinnhubWS.SeedAddsOnlyQuotedTickers | src/Stocki.PriceMonitoringService/Services/FinnhubWSManager.cs:59-69 | a new baseline is keyed by the ticker of a quote that returned data for one of the subscriptions |
| FinnhubWS.StoredTickerAbortsOnlyWhenEmpty | src/Stocki.PriceMonitoringService/Services/FinnhubWSManager.cs:60 | over a table whose tickers respect the 5-character column limit, seeding stops early iff some active row has an empty ticker |
| FinnhubWS.FinnhubWSManager.SeedSubscription | src/Stocki.PriceMonitoringService/Services/FinnhubWSManager.cs:56-69 | one iteration: the subscribe frame is sent first; an invalid ticker then throws; otherwise the quote's price is `TryAdd`ed when it has data |
| FinnhubWS.FinnhubWSManager.SeedSubscriptions | src/Stocki.PriceMonitoringService/Services/FinnhubWSManager.cs:55-70 | the `foreach` sends one subscribe frame per subscription up to and including the first invalid ticker; it seeds the baselines of the valid ones before it and reports whether it stopped early |
| FinnhubWS.FinnhubWSManager.ConnectAndListen | src/Stocki.PriceMonitoringService/Services/FinnhubWSManager.cs:54-83 | seeds from the active rows, then receives from the seeded map; if seeding throws, no frame is read |
| JsonText.Hex4RoundTrip | src/Stocki.PriceMonitoringService/Services/FinnhubWSManager.cs:200 | a `\uXXXX` escape reads back as the code it spells |
| JsonText.ReadEscapedChar | src/Stocki.PriceMonitoringService/Services/FinnhubWSManager.cs:200 | every escaped character reads back as itself and consumes exactly its spelling |
| JsonText.ReadEscapedString | src/Stocki.PriceMonitoringService/Services/FinnhubWSManager.cs:200 | an escaped string followed by the closing quote reads back as the string and the rest of the input |
| FinnhubMapping.TryParseDouble | src/Stocki.Infrastructure/Clients/Finnhub/FinnhubMappingHelper.cs:17 | a null field never parses; a present one is whatever the parser gives |
| FinnhubMapping.MapStockQuote | src/Stocki.Infrastructure/Clients/Finnhub/FinnhubMappingHelper.cs:9-57 | null when the difference percentage is null or empty; a quote iff it is present and open, previous close, current, high and low all parse; the ticker is the `symbol` argument and c, o, pc, h, l map to current, opening, closing, high, low |
| FinnhubMapping.QuoteIgnoresChangeFields | src/Stocki.Infrastructure/Clients/Finnhub/FinnhubMappingHelper.cs:9-57 | the difference and timestamp fields, and the value of a non-empty difference percentage, never change the result |
| FinnhubMapping.MapStockNews | src/Stocki.Infrastructure/Clients/Finnhub/FinnhubMappingHelper.cs:59-113 | items are taken in order until four articles are built; four articles iff the list has at least 4 entries and each of the first 4 has a timestamp, headline, source, summary and url and a timestamp that converts, and then article k is built from entry k; null iff the first item that stops the loop lacks one of those fields; the date exception iff the first item that stops it has a timestamp outside years 1 to 9999; otherwise (a shorter list of good entries) the indexer throws |
| NewsArticles.TruncateSummary | src/Stocki.Domain/Models/StockNewsArticle.cs:27 | a summary of at most 200 characters is kept; a longer one becomes its first 100 characters and "...", so the result is never over 200 |
| NewsArticles.TruncateIdempotent | src/Stocki.Domain/Models/StockNewsArticle.cs:27 | truncating a stored summary again changes nothing |
| NewsArticles.ConvertTimestampToDatetime | src/Stocki.Domain/Models/StockNewsArticle.cs:31-39 | a numeric timestamp is that many seconds after the Unix epoch, and `AddSeconds` throws iff that instant is outside years 1 to 9999; anything else gives the clock's value |
| NewsArticles.NumericTimestampIgnoresClock | src/Stocki.Domain/Models/StockNewsArticle.cs:33-35 | for a numeric timestamp the clock is never read |
| NewsArticles.OutOfRangeTimestampsThrow | src/Stocki.Domain/Models/StockNewsArticle.cs:35 | a millisecond timestamp such as 1e12 (after year 9999) and -1e11 (before year 1) throw rather than give a date |
| NewsArticles.NewStockNewsArticle | src/Stocki.Domain/Models/StockNewsArticle.cs:14-29 | throws iff the timestamp conversion throws; otherwise headline, image url, source and url are copied, the summary is truncated to at most 200 characters and the date comes from the timestamp |
| AlphaVantageMapping.ParseDecimalSafe | src/Stocki.Infrastructure/Clients/AlphaVantage/AlphaVantageMappingHelper.cs:34-56 | null for null, blank or any-case "None"; otherwise exactly the parser's result |
| AlphaVantageMapping.ParseLongSafe | src/Stocki.Infrastructure/Clients/AlphaVantage/AlphaVantageMappingHelper.cs:59-81 | null for null, blank or any-case "None"; otherwise exactly the parser's result |
| AlphaVantageMapping.ParseIntSafe | src/Stocki.Infrastructure/Clients/AlphaVantage/AlphaVantageMappingHelper.cs:84-106 | null for null, blank or "-"; otherwise exactly the parser's result, with no "None" check |
| AlphaVantageMapping.ParseDateTimeSafe | src/Stocki.Infrastructure/Clients/AlphaVantage/AlphaVantageMappingHelper.cs:109-133 | null for null, blank or any-case "None"; otherwise the exact `yyyy-MM-dd` parse |
| AlphaVantageMapping.FormatThenParse | src/Stocki.Infrastructure/Clients/AlphaVantage/AlphaVantageMappingHelper.cs:115-121 | every calendar date from year 1 to 9999 is read back from its `yyyy-MM-dd` rendering |
| AlphaVantageMapping.ParseThenFormat | src/Stocki.Infrastructure/Clients/AlphaVantage/AlphaVantageMappingHelper.cs:115-121 | the parser accepts only the exact rendering of the date it returns: no padding, no other layout |
| AlphaVantageMapping.PaddedDateRejected | src/Stocki.Infrastructure/Clients/AlphaVantage/AlphaVantageMappingHelper.cs:115-121 | a date text with a leading or trailing blank is null |
| AlphaVantageMapping.LeapDay | src/Stocki.Infrastructure/Clients/AlphaVantage/AlphaVantageMappingHelper.cs:115-121 | 2024-02-29 parses, while 2023-02-29 and 1900-02-29 do not |
| AlphaVantageMapping.MapOverview | src/Stocki.Infrastructure/Clients/AlphaVantage/AlphaVantageMappingHelper.cs:11-205 | null iff the DTO is null or its symbol is blank; otherwise the text fields are copied, the symbol is the DTO's, and every numeric or date field is its own safe parse |
| AlphaVantageMapping.SymbolArgumentOnlyLogged | src/Stocki.Infrastructure/Clients/AlphaVantage/AlphaVantageMappingHelper.cs:11-24 | the `symbol` argument never changes the result |
| AlphaVantageMapping.NoneSentinelIsNull | src/Stocki.Infrastructure/Clients/AlphaVantage/AlphaVantageMappingHelper.cs:28-29 | "None" in any letter case nulls decimal, long and date fields whatever the parsers do |
| AlphaVantageMapping.RatingNoneReachesParser | src/Stocki.Infrastructure/Clients/AlphaVantage/AlphaVantageMappingHelper.cs:84-106 | an analyst-rating "None" goes to the int parser; "-" is null |
| AlphaVantageMapping.BadFieldNullsOnlyItself | src/Stocki.Infrastructure/Clients/AlphaVantage/AlphaVantageMappingHelper.cs:145-204 | a "None" ratio, a "-" rating and a badly laid out date null those three fields only; the mapping still succeeds and every other field is unchanged |
| Tickers.NewTickerSymbol | src/Stocki.Domain/ValueObjects/TickerSymbol.cs:7-16 | succeeds iff the length is 1 to 5, otherwise the `ArgumentException` text; the value has the input's length, equals it up to case and holds no lower-case ASCII letter |
| Tickers.RewrapIsIdentity | src/Stocki.Domain/ValueObjects/TickerSymbol.cs:15 | wrapping a symbol's value again gives the same symbol |
| Tickers.CaseInsensitive | src/Stocki.Domain/ValueObjects/TickerSymbol.cs:15 | two inputs give the same symbol iff they differ only in letter case |
| ApiResponses.Success | src/Stocki.Shared/Models/ApiResponse.cs:41-48 | `Success(data)`: successful, holds the data, status OK unless given, message as given |
| ApiResponses.SuccessWithoutData | src/Stocki.Shared/Models/ApiResponse.cs:56-62 | `Success()`: successful with no data; status and message as given |
| ApiResponses.Failure | src/Stocki.Shared/Models/ApiResponse.cs:70-76 | `Failure(msg)`: not successful, no data, the message, status 500 unless given |
| ApiResponses.FactoryResponses | src/Stocki.Shared/Models/ApiResponse.cs:11-32 | the responses the three factories build are exactly those where data implies success and failure carries a message |
| Exceptions.GenerateNon200StatusCodeException | src/Stocki.Application/Utilities/ExceptionGenerator.cs:8-84 | as written: a not-found exception iff the status is 404 with a non-blank identifier, otherwise an external-service exception with its branch's text; the inner exception passes through; for the not-found case the two texts are swapped |
| Exceptions.GenerateDataNotFoundException | src/Stocki.Application/Utilities/ExceptionGenerator.cs:86-101 | as written: always a not-found exception, with the "Sorry" text in `Message` and the log text in `UserFriendlyMessage` |
| Exceptions.IntendedNon200StatusCodeException | src/Stocki.Application/Utilities/ExceptionGenerator.cs:8-84 | the same decision table with each text where the callers read it; the log names "unknown" for a null identifier and "N/A" for a null API message |
| Exceptions.IntendedDataNotFoundException | src/Stocki.Application/Utilities/ExceptionGenerator.cs:86-101 | always a not-found exception; the chat text is the "Sorry" text and the log names "unknown" for a null identifier |
| Exceptions.SharedTexts | src/Stocki.Application/Utilities/ExceptionGenerator.cs:21-82 | 401 and 403 share one text, and 502, 503 and 504 share another; 429 gets the too-many-requests text; every unlisted status gets the default text |
| Exceptions.BlankIdentifierIsExternal | src/Stocki.Application/Utilities/ExceptionGenerator.cs:28-44 | a 404 with a blank identifier is an external-service error with the could-not-be-found text |
| Exceptions.AsWrittenSwapsNotFoundTexts | src/Stocki.Application/Utilities/ExceptionGenerator.cs:28-35 | the as-written and intended generators agree everywhere except that the not-found case swaps the two texts |
| Exceptions.DataNotFoundFriendlyTextMisplaced | src/Stocki.Application/Utilities/ExceptionGenerator.cs:96-100 | as written, the chat text of the quote handler's "FAKE" not-found does not name the symbol, and the technical message does |
| Exceptions.IntendedNamesIdentifier | src/Stocki.Application/Utilities/ExceptionGenerator.cs:96-100 | with the intended construction the chat text names the identifier |
| QuoteQuery.HandleStockQuoteQuery | src/Stocki.Application/Queries/Quote/StockQuoteQueryHandler.cs:22-78 | returns the quote iff the response is successful with data, and that quote is the response's data; a non-OK failure throws what the as-written `GenerateNon200StatusCodeException` builds for "quote" and the symbol; an OK failure throws what the as-written `GenerateDataNotFoundException` builds from the message or "The data could not be retrieved"; success without data throws the same with the message or "No stock quote data available." |
| QuoteQuery.IntendedHandleStockQuoteQuery | src/Stocki.Application/Queries/Quote/StockQuoteQueryHandler.cs:22-78 | the same decisions, with the exceptions built by the corrected generators |
| QuoteQuery.HandlerSwapsOnlyNotFoundTexts | src/Stocki.Application/Queries/Quote/StockQuoteQueryHandler.cs:31-76 | for every response, the handler as written and the corrected one return the same quote or throw the same kind of exception with the same inner exception; an external-service exception is identical, and a not-found one has its technical and chat texts swapped |
| QuoteQuery.ThrownKinds | src/Stocki.Application/Queries/Quote/StockQuoteQueryHandler.cs:31-68 | an OK failure or a success without data always throws not-found; any other failure throws not-found iff the status is 404 and the symbol is not blank |
| QuoteQuery.SuccessYieldsQuote | src/Stocki.Application/Queries/Quote/StockQuoteQueryHandler.cs:69-76 | every `Success(quote)`, whatever its status, yields that quote |
| QuoteQuery.FailureWithOkOmitsSymbolText | tests/Stocki.Tests/Application.Tests/Queries/Quote/StockQuoteQueryHandlerTests.cs:40-62 | as written, the test's OK failure "Technical error" for "FAKE" throws not-found whose chat text is the log text, which lacks the "Sorry, I couldn't find any data for 'FAKE'" the test expects |
| QuoteQuery.IntendedFailureNamesSymbol | tests/Stocki.Tests/Application.Tests/Queries/Quote/StockQuoteQueryHandlerTests.cs:40-62 | with the corrected generators, an OK failure with any message throws not-found whose chat text contains "Sorry, I couldn't find any data for '<symbol>'" |
| Subscriptions.NewSubscription | src/Stocki.Domain/Models/StockPriceSubscription.cs:7-13 | a new subscription holds the id and ticker and starts active |
| Subscriptions.FirstMatch | src/Stocki.Infrastructure/Persistance/Repositories/StockPriceSubscriptionRepository.cs:99-101 | `FirstOrDefault`: the first row for the pair, or none when no row matches |
| Subscriptions.MatchIsUnique | src/Stocki.Infrastructure/Persistance/StockiDbContext.cs:22 | under the unique index the row for a pair is the only one |
| Subscriptions.AddKeepsInvariant | src/Stocki.Infrastructure/Persistance/Repositories/StockPriceSubscriptionRepository.cs:23-38 | an accepted add keeps pairs unique and tickers within 5 characters, and the new row is the pair's row |
| Subscriptions.SetActiveKeepsInvariant | src/Stocki.Infrastructure/Persistance/Repositories/StockPriceSubscriptionRepository.cs:104 | flipping `IsActive` keeps the invariant, changes only that row's flag and adds or deletes nothing |
| Subscriptions.Where | src/Stocki.Infrastructure/Persistance/Repositories/StockPriceSubscriptionRepository.cs:87-88 | a row is in the result iff it is in the table and the predicate holds |
| Subscriptions.GetStockPriceSubscription | src/Stocki.Infrastructure/Persistance/Repositories/StockPriceSubscriptionRepository.cs:59-69 | a row of the table for that id and symbol value, active or not, or none when there is no such row |
| Subscriptions.GetAllSubscriptionsForUser | src/Stocki.Infrastructure/Persistance/Repositories/StockPriceSubscriptionRepository.cs:71-81 | exactly that user's active rows |
| Subscriptions.GetAllSubscriptions | src/Stocki.Infrastructure/Persistance/Repositories/StockPriceSubscriptionRepository.cs:83-91 | exactly the active rows |
| Subscriptions.Distinct | src/Stocki.Infrastructure/Persistance/Repositories/StockPriceSubscriptionRepository.cs:119 | no duplicates and the same members |
| Subscriptions.GetAllUsersSubscribedToAStock | src/Stocki.Infrastructure/Persistance/Repositories/StockPriceSubscriptionRepository.cs:111-122 | each id appears at most once, and an id appears iff it has an active row for the symbol |
| Subscriptions.DeactivatedUserNotListed | src/Stocki.Infrastructure/Persistance/Repositories/StockPriceSubscriptionRepository.cs:111-122 | after a row is deactivated its user is no longer listed for that ticker |
| Subscriptions.ActivatedUserListed | src/Stocki.Infrastructure/Persistance/Repositories/StockPriceSubscriptionRepository.cs:111-122 | after a row is reactivated its user is listed for that ticker |
| Subscriptions.OtherListingsUnaffected | src/Stocki.Infrastructure/Persistance/Repositories/StockPriceSubscriptionRepository.cs:111-122 | flipping one row changes no listing for any other (user, ticker) pair |
| Subscriptions.StockPriceSubscriptionRepository.AddSubscription | src/Stocki.Infrastructure/Persistance/Repositories/StockPriceSubscriptionRepository.cs:23-38 | true and exactly one row appended iff the pair is new and the ticker fits 5 characters; otherwise false and the table unchanged |
| Subscriptions.StockPriceSubscriptionRepository.ReSubscribe | src/Stocki.Infrastructure/Persistance/Repositories/StockPriceSubscriptionRepository.cs:41-57 | true iff the pair's row exists and is inactive, and then that row becomes active; otherwise false and nothing changes |
| Subscriptions.StockPriceSubscriptionRepository.Unsubscribe | src/Stocki.Infrastructure/Persistance/Repositories/StockPriceSubscriptionRepository.cs:93-109 | the pair's row, if any, becomes inactive; the result is true iff it was active, and false when there is no row |
| PriceSubscribe.HandlePriceSubscribe | src/Stocki.Application/Commands/PriceSubscribe/PriceSubscribeCommandHandler.cs:27-61 | a quote without data, or a user the subscribed check reports, gives false and no change; otherwise it tries to add a new active row for the id and the upper-cased symbol, returns whether the table accepted it and changes nothing else; an inactive row is never reactivated |
| PriceSubscribe.FirstSubscriptionAccepted | src/Stocki.Application/Commands/PriceSubscribe/PriceSubscribeCommandHandler.cs:55-60 | for a pair with no row, the add is accepted, keeps the invariant and the user's active list then holds the new row |
| PriceUnsubscribe.HandlePriceUnsubscribe | src/Stocki.Application/Commands/PriceUnsubscribe/PriceUnsubscribeCommandHandler.cs:31-74 | true iff the quote has data and the user's row for the symbol exists and is active; then that row becomes inactive; otherwise nothing changes; a notification with the symbol and id is published iff the result is true |
| PriceUnsubscribe.UnsubscribeStopsOnlyThatListing | src/Stocki.Application/Commands/PriceUnsubscribe/PriceUnsubscribeCommandHandler.cs:52-63 | after unsubscribing, the user is no longer listed for the symbol, and every other listing is as before |

## Left out

- Logging everywhere: it has no effect on results.
- The websocket transport: connecting, `ReceiveAsync`, `SendAsync`, `CloseAsync`, disposal, the cancellation token sources and `StopAsync`. Incoming traffic is a sequence of frames, one text frame per message. Outgoing traffic is a log of sent frames.
- The 4 KB receive buffer and UTF-8 decoding: a text frame is modelled as the decoded text.
- The final `CloseAsync` in `finally` and a failing `ConnectAsync`: these are transport.
- Cancellation: an `OperationCanceledException` is not modelled.
- FinnhubWS.FinnhubWSManager.SendMessage: a failed send is swallowed in the source. The model always records the frame, because it has no socket that could fail.
- JSON parsing of incoming frames is an abstract parser parameter.
- Tickers.NewTickerSymbol, NewsArticles.TruncateSummary: lengths and the 100-character cut count Unicode scalar values, while .NET's `Length` and `Substring` count UTF-16 code units. A character outside the Basic Multilingual Plane counts twice in .NET, so a 3-emoji ticker, which .NET rejects as 6 long, is accepted here, and a summary of 150 emoji, which .NET cuts, is kept. A cut through a surrogate pair cannot be expressed with Dafny `char`s.
- NewsArticles.ConvertTimestampToDatetime: the seconds are kept exact, while .NET rounds them to 100-nanosecond ticks; this only matters within one tick of the ends of the range.
- The subscription frame's serializer is written out with Json.NET's default escaping. Dafny `char`s are Unicode scalar values, not UTF-16 code units, so lone surrogates cannot occur.
- FinnhubWS.ClassifyFrame: a null trade symbol would make the dictionary lookup throw and end the loop. The model's trades always have a symbol.
- Prices are `real`. IEEE-754 rounding, NaN and infinities are not modelled.
- Number parsing is an abstract parser parameter, so culture rules and the ranges of `long` and `int` are not modelled.
- `ToUpper` is upper-casing of ASCII letters only; culture-specific casing is not modelled.
- `DateTime.Now` in `ConvertTimestampToDatetime` is a parameter, and `MapStockNews` takes a clock that gives the time read for each article. A `DateTime` is the real number of seconds since the Unix epoch.
- The `ConcurrentDictionary` is used sequentially: `TryUpdate` and `TryAdd` run as single steps, and there is no concurrency.
- Alert publishing: the source never publishes an alert, so the model publishes none.
- The HTTP clients and their cache: each quote lookup is an `ApiResponse<StockQuote>` passed in.
- `IsUserSubscribedToStockPriceNotifications` has no body in the repository. It is a function parameter of the subscribe handler.
- EF Core change tracking: `SaveChangesAsync` row counts are modelled only as far as results depend on them. An add returns whether the row was inserted, and `UnsubscribeAsync` returns whether the row was active. The unique `(DiscordId, Ticker)` index and the 5-character ticker column are the table's invariant, and an add that would break them returns false.
- The `Id`, `CreatedDate` and `LastNotificationDate` columns of a subscription: no modelled operation reads them.
- HttpStatus.StatusName: a status code with two .NET enum names (300-303, 307 and 422) is printed with one fixed name of the two; .NET does not promise which of the two `ToString()` gives.
- The process-level restart loop, the Discord front end, the notification service and the pass-through query handlers: these are hosting and I/O.

## Findings

| source | as written | input that shows it | evidently intended | confidence | as-written member | corrected member |
|---|---|---|---|---|---|---|
| src/Stocki.Application/Utilities/ExceptionGenerator.cs:96-100 | passes the "Sorry…" text and the log text to `StockDataNotFoundException(message, userFriendlyMessage, inner)` in that order, so the chat text lands in `Message` and the log text in `UserFriendlyMessage` | `GenerateDataNotFoundException("quote", "FAKE", "Technical error")`: its `UserFriendlyMessage` is "Data not found during quote for FAKE. …", which lacks "Sorry, I couldn't find any data for 'FAKE'" (the quote handler test at tests/Stocki.Tests/Application.Tests/Queries/Quote/StockQuoteQueryHandlerTests.cs:59-61 expects it there) | the "Sorry…" text in `UserFriendlyMessage` and the log text in `Message` | high (not executed) | QuoteQuery.FailureWithOkOmitsSymbolText | QuoteQuery.IntendedFailureNamesSymbol |
| src/Stocki.Application/Utilities/ExceptionGenerator.cs:31-35 | the 404 branch passes the two texts to `StockDataNotFoundException` in the order that suits `ExternalServiceException(userFriendlyMessage, message, inner)`, so they are swapped | `GenerateNon200StatusCodeException(404, "quote", "AAPL", None)`: `UserFriendlyMessage` is the log text | the "Sorry…" text in `UserFriendlyMessage`, as every other branch does | high (not executed) | Exceptions.AsWrittenSwapsNotFoundTexts | Exceptions.IntendedNon200StatusCodeException |
