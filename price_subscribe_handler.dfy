/**
 * `PriceSubscribeCommandHandler.Handle`: checks the ticker with a quote lookup (the
 * `validTickerCheck` parameter) and the already-subscribed check (the `isSubscribed`
 * parameter, whose implementation is not part of this model), then inserts a new active row.
 */
module PriceSubscribe {
  import opened Wrappers
  import opened Tickers
  import opened ApiResponses
  import opened StockQuotes
  import opened Subscriptions

  datatype PriceSubscribeCommand = PriceSubscribeCommand(symbol: TickerSymbol, discordId: DiscordId)

  /** `IsUserSubscribedToStockPriceNotifications(discordId, symbol)` over the current table. */
  type SubscribedCheck = (seq<StockPriceSubscription>, DiscordId, TickerSymbol) -> bool

  /** Whether the handler reaches the insert: the quote has data and the user is not already subscribed. */
  predicate ReachesInsert(table: seq<StockPriceSubscription>, request: PriceSubscribeCommand,
                          validTickerCheck: ApiResponse<StockQuote>, isSubscribed: SubscribedCheck) {
    validTickerCheck.data.Some? && !isSubscribed(table, request.discordId, request.symbol)
  }

  method HandlePriceSubscribe(repo: StockPriceSubscriptionRepository, request: PriceSubscribeCommand,
                              validTickerCheck: ApiResponse<StockQuote>, isSubscribed: SubscribedCheck)
    returns (subscribed: bool)
    requires repo.Valid()
    modifies repo
    ensures repo.Valid()
    ensures !ReachesInsert(old(repo.table), request, validTickerCheck, isSubscribed) ==>
      !subscribed && repo.table == old(repo.table)
    ensures ReachesInsert(old(repo.table), request, validTickerCheck, isSubscribed) ==>
      var sps := NewSubscription(request.discordId, request.symbol.value);
      && subscribed == AddAccepted(old(repo.table), sps)
      && repo.table == if subscribed then old(repo.table) + [sps] else old(repo.table)
  {
    if validTickerCheck.data.None? {
      return false;
    }
    if isSubscribed(repo.table, request.discordId, request.symbol) {
      return false;
    }
    var sps := NewSubscription(request.discordId, request.symbol.value);
    subscribed := repo.AddSubscription(sps);
  }

  /**
   * A first subscription to a valid ticker is accepted: the new row is the user's active,
   * upper-cased ticker and it is the only row for that pair.
   */
  lemma FirstSubscriptionAccepted(table: seq<StockPriceSubscription>, discordId: DiscordId, ticker: string)
    requires TableInvariant(table) && IsValidTicker(ticker)
    requires forall s :: s in table ==> !Matches(s, discordId, NewTickerSymbol(ticker).value.value)
    ensures var sps := NewSubscription(discordId, NewTickerSymbol(ticker).value.value);
      && AddAccepted(table, sps)
      && TableInvariant(table + [sps])
      && sps in GetAllSubscriptionsForUser(table + [sps], discordId)
  {
    var sps := NewSubscription(discordId, NewTickerSymbol(ticker).value.value);
    assert sps in table + [sps];
    AddKeepsInvariant(table, sps);
  }
}
