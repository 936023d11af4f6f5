/**
 * `PriceUnsubscribeCommandHandler.Handle`: checks the ticker with a quote lookup (the
 * `validTickerCheck` parameter), deactivates the user's active row and, when that wrote
 * to the table, publishes a `PriceUnsubscribedNotification` (returned here).
 */
module PriceUnsubscribe {
  import opened Wrappers
  import opened Tickers
  import opened ApiResponses
  import opened StockQuotes
  import opened Subscriptions

  datatype PriceUnsubscribeCommand = PriceUnsubscribeCommand(symbol: TickerSymbol, discordId: DiscordId)

  datatype PriceUnsubscribedNotification = PriceUnsubscribedNotification(symbol: string, discordId: DiscordId)

  /** Whether the handler calls `UnsubscribeAsync`: the quote has data and the user's row is active. */
  predicate ReachesUnsubscribe(table: seq<StockPriceSubscription>, request: PriceUnsubscribeCommand,
                               validTickerCheck: ApiResponse<StockQuote>) {
    var existing := GetStockPriceSubscription(table, request.discordId, request.symbol);
    validTickerCheck.data.Some? && existing.Some? && existing.value.isActive
  }

  method HandlePriceUnsubscribe(repo: StockPriceSubscriptionRepository, request: PriceUnsubscribeCommand,
                                validTickerCheck: ApiResponse<StockQuote>)
    returns (unsubscribed: bool, published: Option<PriceUnsubscribedNotification>)
    requires repo.Valid()
    modifies repo
    ensures repo.Valid()
    ensures published.Some? <==> unsubscribed
    ensures published.Some? ==> published.value == PriceUnsubscribedNotification(request.symbol.value, request.discordId)
    ensures unsubscribed <==> ReachesUnsubscribe(old(repo.table), request, validTickerCheck)
    ensures !unsubscribed ==> repo.table == old(repo.table)
    ensures unsubscribed ==>
      var m := FirstMatch(old(repo.table), request.discordId, request.symbol.value);
      m.Some? && repo.table == SetActive(old(repo.table), m.value, false)
  {
    published := None;
    if validTickerCheck.data.None? {
      return false, None;
    }
    var existing := GetStockPriceSubscription(repo.table, request.discordId, request.symbol);
    if existing.Some? && existing.value.isActive {
      unsubscribed := repo.Unsubscribe(request.discordId, request.symbol.value);
      if unsubscribed {
        published := Some(PriceUnsubscribedNotification(request.symbol.value, request.discordId));
      }
      return;
    }
    return false, None;
  }

  /** After a successful unsubscribe the user no longer receives alerts for the ticker, and nobody else's listing moves. */
  lemma UnsubscribeStopsOnlyThatListing(table: seq<StockPriceSubscription>, request: PriceUnsubscribeCommand,
                                        other: DiscordId, symbol: string)
    requires TableInvariant(table)
    requires FirstMatch(table, request.discordId, request.symbol.value).Some?
    requires other != request.discordId || symbol != request.symbol.value
    ensures var after := SetActive(table, FirstMatch(table, request.discordId, request.symbol.value).value, false);
      && request.discordId !in GetAllUsersSubscribedToAStock(after, request.symbol.value)
      && (other in GetAllUsersSubscribedToAStock(after, symbol) <==> other in GetAllUsersSubscribedToAStock(table, symbol))
  {
    var k := FirstMatch(table, request.discordId, request.symbol.value).value;
    DeactivatedUserNotListed(table, k);
    OtherListingsUnaffected(table, k, false, other, symbol);
  }
}
