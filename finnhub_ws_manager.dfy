/**
 * `FinnhubWSManager`: subscribes to trades for every active subscription, seeds the price
 * checker's baselines from quote lookups, then reads websocket frames and hands trade
 * messages to `CheckPrice`. The socket is abstracted: incoming frames are a sequence, the
 * messages handed to `SendAsync` are the `sent` log, the quote lookup is a function, and
 * `JsonConvert.DeserializeObject` is the `parse` parameter (`None` for a `JsonException`).
 */
module FinnhubWS {
  import opened Wrappers
  import opened Tickers
  import opened ApiResponses
  import opened StockQuotes
  import opened Subscriptions
  import opened PriceCheck
  import opened JsonText

  /** `FinnhubWebsocketSubscriptionMessage` (JSON "type" and "symbol"). */
  datatype SubscriptionMessage = SubscriptionMessage(messageType: string, symbol: string)

  /** The message `SendMessageAsync` builds: the symbol unchanged and the type from the flag. */
  function BuildSubscriptionMessage(symbol: string, isSubscribe: bool): (m: SubscriptionMessage)
    ensures m.symbol == symbol
    ensures m.messageType == if isSubscribe then "subscribe" else "unsubscribe"
  {
    SubscriptionMessage(if isSubscribe then "subscribe" else "unsubscribe", symbol)
  }

  const TypePrefix := "{\"type\":\""
  /** What follows the closing quote of the type value. */
  const SymbolSeparator := ",\"symbol\":\""

  /**
   * `JsonConvert.SerializeObject(message)`: `{"type":…,"symbol":…}` with the properties in
   * declaration order, no spaces, and each value written as a JSON string literal.
   */
  function SerializeSubscription(m: SubscriptionMessage): string {
    TypePrefix + EscapeString(m.messageType) + "\"" + SymbolSeparator + EscapeString(m.symbol) + "\"}"
  }

  /** Reads a subscription message in the serialized layout; the reference for the writer. */
  function ParseSubscription(s: string): Option<SubscriptionMessage> {
    if |s| < |TypePrefix| || s[..|TypePrefix|] != TypePrefix then None
    else match ReadString(s[|TypePrefix|..])
      case None => None
      case Some((messageType, rest)) =>
        if |rest| < |SymbolSeparator| || rest[..|SymbolSeparator|] != SymbolSeparator then None
        else match ReadString(rest[|SymbolSeparator|..])
          case None => None
          case Some((symbol, tail)) =>
            if tail == "}" then Some(SubscriptionMessage(messageType, symbol)) else None
  }

  /** The reader splits a text laid out as prefix, type literal, separator and symbol literal. */
  lemma ParseLayout(s: string, typePart: string, messageType: string, symbolPart: string, symbol: string)
    requires s == TypePrefix + typePart
    requires ReadString(typePart) == Some((messageType, SymbolSeparator + symbolPart))
    requires ReadString(symbolPart) == Some((symbol, "}"))
    ensures ParseSubscription(s) == Some(SubscriptionMessage(messageType, symbol))
  {
    assert s[..|TypePrefix|] == TypePrefix && s[|TypePrefix|..] == typePart;
    var rest := SymbolSeparator + symbolPart;
    assert rest[..|SymbolSeparator|] == SymbolSeparator && rest[|SymbolSeparator|..] == symbolPart;
  }

  /** The serialized message reads back to the message, whatever characters the symbol holds. */
  lemma {:induction false} SubscriptionRoundTrip(m: SubscriptionMessage)
    ensures ParseSubscription(SerializeSubscription(m)) == Some(m)
  {
    var symbolPart := EscapeString(m.symbol) + "\"" + "}";
    var afterType := SymbolSeparator + symbolPart;
    var typePart := EscapeString(m.messageType) + "\"" + afterType;
    assert SerializeSubscription(m) == TypePrefix + typePart;
    ReadEscapedString(m.messageType, afterType);
    ReadEscapedString(m.symbol, "}");
    ParseLayout(SerializeSubscription(m), typePart, m.messageType, symbolPart, m.symbol);
  }

  /** Different messages never share a wire text; in particular the symbol is never altered. */
  lemma SerializeInjective(m1: SubscriptionMessage, m2: SubscriptionMessage)
    requires SerializeSubscription(m1) == SerializeSubscription(m2)
    ensures m1 == m2
  {
    SubscriptionRoundTrip(m1);
    SubscriptionRoundTrip(m2);
  }

  /** What the manager hands to the socket: a text message, or the acknowledgement of a server close. */
  datatype Outgoing = SendText(text: string) | CloseAck

  /** The text frame `SendMessageAsync` sends. */
  function SubscriptionText(symbol: string, isSubscribe: bool): Outgoing {
    SendText(SerializeSubscription(BuildSubscriptionMessage(symbol, isSubscribe)))
  }

  datatype Frame = TextFrame(text: string) | BinaryFrame | CloseFrame

  type MessageParser = string -> Option<PriceMessage>

  /** Text frames shorter than this are not trade messages. */
  const MinTradeMessageLength: nat := 25

  /** What one iteration of the receive loop does with a frame. */
  datatype FrameAction = Skip | Dispatch(trades: seq<Trade>) | AckCloseAndStop | Fault

  /**
   * Binary frames, short texts, texts that do not parse and messages with no trades are
   * skipped; a message with no "data" array makes `Count()` throw, which ends the loop;
   * a close frame is acknowledged and ends the loop; anything else goes to `CheckPrice`.
   */
  function ClassifyFrame(f: Frame, parse: MessageParser): (a: FrameAction)
    ensures f.BinaryFrame? ==> a == Skip
    ensures f.CloseFrame? ==> a == AckCloseAndStop
    ensures f.TextFrame? && |f.text| < MinTradeMessageLength ==> a == Skip
    ensures f.TextFrame? && |f.text| >= MinTradeMessageLength && parse(f.text).None? ==> a == Skip
    ensures a.Fault? <==> f.TextFrame? && |f.text| >= MinTradeMessageLength && parse(f.text).Some? && parse(f.text).value.data.None?
    ensures a.Dispatch? <==>
      f.TextFrame? && |f.text| >= MinTradeMessageLength && parse(f.text).Some?
      && parse(f.text).value.data.Some? && |parse(f.text).value.data.value| > 0
    ensures a.Dispatch? ==> a.trades == parse(f.text).value.data.value
  {
    match f
    case TextFrame(text) =>
      if |text| < MinTradeMessageLength then Skip
      else if parse(text).None? then Skip
      else if parse(text).value.data.None? then Fault
      else if |parse(text).value.data.value| == 0 then Skip
      else Dispatch(parse(text).value.data.value)
    case CloseFrame => AckCloseAndStop
    case BinaryFrame => Skip
  }

  /** Why the receive loop ended: the socket stopped delivering frames, the server closed, or an exception. */
  datatype StopReason = EndOfStream | ServerClose | Faulted

  datatype ReceiveResult = ReceiveResult(prices: map<string, real>, stop: StopReason)

  /** The receive loop over the remaining frames, from the baselines `prices`. */
  function ReceiveFrom(prices: map<string, real>, frames: seq<Frame>, parse: MessageParser): (r: ReceiveResult)
    decreases |frames|
  {
    if frames == [] then ReceiveResult(prices, EndOfStream)
    else match ClassifyFrame(frames[0], parse)
      case Skip => ReceiveFrom(prices, frames[1..], parse)
      case Dispatch(trades) => ReceiveFrom(CheckBatch(prices, trades), frames[1..], parse)
      case AckCloseAndStop => ReceiveResult(prices, ServerClose)
      case Fault => ReceiveResult(prices, Faulted)
  }

  /** Receiving never adds or drops a baseline. */
  lemma {:induction false} ReceiveKeepsSymbols(prices: map<string, real>, frames: seq<Frame>, parse: MessageParser)
    ensures ReceiveFrom(prices, frames, parse).prices.Keys == prices.Keys
    decreases |frames|
  {
    if frames != [] {
      match ClassifyFrame(frames[0], parse)
      case Skip => ReceiveKeepsSymbols(prices, frames[1..], parse);
      case Dispatch(trades) => ReceiveKeepsSymbols(CheckBatch(prices, trades), frames[1..], parse);
      case AckCloseAndStop =>
      case Fault =>
    }
  }

  /** A frame the loop skips can be dropped without changing anything. */
  lemma {:induction false} SkippedFrameIrrelevant(prices: map<string, real>, before: seq<Frame>, f: Frame, after: seq<Frame>, parse: MessageParser)
    requires ClassifyFrame(f, parse) == Skip
    ensures ReceiveFrom(prices, before + [f] + after, parse) == ReceiveFrom(prices, before + after, parse)
    decreases |before|
  {
    if before == [] {
      assert before + [f] + after == [f] + after;
      assert ([f] + after)[1..] == after;
      assert before + after == after;
    } else {
      assert (before + [f] + after)[0] == before[0] && (before + after)[0] == before[0];
      assert (before + [f] + after)[1..] == before[1..] + [f] + after;
      assert (before + after)[1..] == before[1..] + after;
      match ClassifyFrame(before[0], parse)
      case Skip => SkippedFrameIrrelevant(prices, before[1..], f, after, parse);
      case Dispatch(trades) => SkippedFrameIrrelevant(CheckBatch(prices, trades), before[1..], f, after, parse);
      case AckCloseAndStop =>
      case Fault =>
    }
  }

  /** Nothing after the first close frame is read. */
  lemma {:induction false} CloseEndsReceiving(prices: map<string, real>, frames: seq<Frame>, k: nat, parse: MessageParser)
    requires k < |frames| && frames[k] == CloseFrame
    ensures ReceiveFrom(prices, frames, parse) == ReceiveFrom(prices, frames[..k + 1], parse)
    decreases k
  {
    assert frames[..k + 1][0] == frames[0];
    if k > 0 {
      assert frames[..k + 1][1..] == frames[1..][..k];
      match ClassifyFrame(frames[0], parse)
      case Skip => CloseEndsReceiving(prices, frames[1..], k - 1, parse);
      case Dispatch(trades) => CloseEndsReceiving(CheckBatch(prices, trades), frames[1..], k - 1, parse);
      case AckCloseAndStop =>
      case Fault =>
    }
  }

  /** The trades of all the batches, in order. */
  function Flatten(batches: seq<seq<Trade>>): seq<Trade> {
    if batches == [] then [] else batches[0] + Flatten(batches[1..])
  }

  /** When every frame is a trade message, each message's trades reach `CheckPrice` exactly once, in order. */
  lemma {:induction false} TradeFramesAllChecked(prices: map<string, real>, frames: seq<Frame>, batches: seq<seq<Trade>>, parse: MessageParser)
    requires |frames| == |batches|
    requires forall i :: 0 <= i < |frames| ==> ClassifyFrame(frames[i], parse) == Dispatch(batches[i])
    ensures ReceiveFrom(prices, frames, parse) == ReceiveResult(CheckBatch(prices, Flatten(batches)), EndOfStream)
    decreases |frames|
  {
    if frames != [] {
      assert ClassifyFrame(frames[0], parse) == Dispatch(batches[0]);
      TradeFramesAllChecked(CheckBatch(prices, batches[0]), frames[1..], batches[1..], parse);
      CheckBatchAppend(prices, batches[0], Flatten(batches[1..]));
    }
  }

  /** A quote lookup by symbol; the HTTP client itself is not part of this model. */
  type QuoteLookup = TickerSymbol -> ApiResponse<StockQuote>

  /**
   * The position of the first subscription whose ticker `new TickerSymbol` rejects, or the
   * number of subscriptions when there is none. Seeding stops there: the constructor throws
   * right after that subscription's subscribe message went out.
   */
  function FirstInvalid(subs: seq<StockPriceSubscription>): (k: nat)
    ensures k <= |subs|
  {
    if subs == [] || !IsValidTicker(subs[0].ticker) then 0 else 1 + FirstInvalid(subs[1..])
  }

  /** Every ticker before the stop is valid, and the one at the stop, if any, is not. */
  lemma {:induction false} FirstInvalidIsFirst(subs: seq<StockPriceSubscription>)
    ensures forall i :: 0 <= i < FirstInvalid(subs) ==> IsValidTicker(subs[i].ticker)
    ensures FirstInvalid(subs) < |subs| ==> !IsValidTicker(subs[FirstInvalid(subs)].ticker)
  {
    if subs != [] && IsValidTicker(subs[0].ticker) {
      FirstInvalidIsFirst(subs[1..]);
      forall i | 0 < i < FirstInvalid(subs)
        ensures IsValidTicker(subs[i].ticker)
      {
        assert subs[i] == subs[1..][i - 1];
      }
    }
  }

  /** Up to where seeding stops, a subscription's ticker is valid exactly before the stop. */
  lemma FirstInvalidAt(subs: seq<StockPriceSubscription>, i: nat)
    requires i < |subs| && i <= FirstInvalid(subs)
    ensures IsValidTicker(subs[i].ticker) <==> i < FirstInvalid(subs)
  {
    FirstInvalidIsFirst(subs);
    var k := FirstInvalid(subs);
    if i < k {
      assert IsValidTicker(subs[i].ticker);
    } else {
      assert i == k;
    }
  }

  /** One subscribe message per subscription, in order. */
  function SubscribeTexts(subs: seq<StockPriceSubscription>): (r: seq<Outgoing>)
    ensures |r| == |subs|
  {
    if subs == [] then [] else SubscribeTexts(subs[..|subs| - 1]) + [SubscriptionText(subs[|subs| - 1].ticker, true)]
  }

  /** The i-th message is the subscribe message for the i-th subscription's ticker. */
  lemma {:induction false} SubscribeTextsAt(subs: seq<StockPriceSubscription>, i: nat)
    requires i < |subs|
    ensures SubscribeTexts(subs)[i] == SubscriptionText(subs[i].ticker, true)
  {
    if i < |subs| - 1 {
      SubscribeTextsAt(subs[..|subs| - 1], i);
    }
  }

  /** `TryAdd` of a quote's price under the quote's ticker, when the quote has data. */
  function SeedOne(prices: map<string, real>, quote: ApiResponse<StockQuote>): map<string, real> {
    if quote.data.Some? && quote.data.value.ticker !in prices
    then prices[quote.data.value.ticker := quote.data.value.currentPrice]
    else prices
  }

  /**
   * The baselines after the `TryAdd`s of seeding over `subs`, in order. A subscription with an
   * invalid ticker adds nothing; seeding only ever runs this over the subscriptions before the
   * first invalid one.
   */
  function SeedPrices(prices: map<string, real>, subs: seq<StockPriceSubscription>, lookup: QuoteLookup): map<string, real> {
    if subs == [] then prices
    else
      var before := SeedPrices(prices, subs[..|subs| - 1], lookup);
      var symbol := NewTickerSymbol(subs[|subs| - 1].ticker);
      if symbol.Err? then before else SeedOne(before, lookup(symbol.value))
  }

  /** Seeding one more subscription extends the messages by one and applies one more `TryAdd`. */
  lemma SeedPrefixStep(prices: map<string, real>, subs: seq<StockPriceSubscription>, lookup: QuoteLookup, i: nat)
    requires i < |subs|
    ensures SubscribeTexts(subs[..i + 1]) == SubscribeTexts(subs[..i]) + [SubscriptionText(subs[i].ticker, true)]
    ensures SeedPrices(prices, subs[..i + 1], lookup) ==
      if IsValidTicker(subs[i].ticker)
      then SeedOne(SeedPrices(prices, subs[..i], lookup), lookup(NewTickerSymbol(subs[i].ticker).value))
      else SeedPrices(prices, subs[..i], lookup)
  {
    assert subs[..i + 1][..i] == subs[..i];
  }

  /** Seeding never overwrites a baseline that is already there. */
  lemma {:induction false} SeedNeverOverwrites(prices: map<string, real>, subs: seq<StockPriceSubscription>, lookup: QuoteLookup)
    ensures forall k :: k in prices ==> k in SeedPrices(prices, subs, lookup) && SeedPrices(prices, subs, lookup)[k] == prices[k]
  {
    if subs != [] {
      SeedNeverOverwrites(prices, subs[..|subs| - 1], lookup);
    }
  }

  /** The ticker of the quote seeding looks up for a subscription, when the ticker is valid and the quote has data. */
  function QuotedTicker(sub: StockPriceSubscription, lookup: QuoteLookup): Option<string> {
    var symbol := NewTickerSymbol(sub.ticker);
    if symbol.Err? then None
    else
      var quote := lookup(symbol.value);
      if quote.data.Some? then Some(quote.data.value.ticker) else None
  }

  /** A new baseline comes only from a quote that returned data for one of the subscriptions. */
  lemma {:induction false} SeedAddsOnlyQuotedTickers(prices: map<string, real>, subs: seq<StockPriceSubscription>, lookup: QuoteLookup, key: string)
    requires key in SeedPrices(prices, subs, lookup) && key !in prices
    ensures exists i :: 0 <= i < |subs| && QuotedTicker(subs[i], lookup) == Some(key)
  {
    var init := subs[..|subs| - 1];
    if key in SeedPrices(prices, init, lookup) {
      SeedAddsOnlyQuotedTickers(prices, init, lookup, key);
      var i :| 0 <= i < |init| && QuotedTicker(init[i], lookup) == Some(key);
      assert subs[i] == init[i];
    } else {
      assert QuotedTicker(subs[|subs| - 1], lookup) == Some(key);
    }
  }

  /**
   * Over a valid table, where stored tickers are at most five characters, seeding stops
   * early only at an active subscription with an empty ticker.
   */
  lemma StoredTickerAbortsOnlyWhenEmpty(table: seq<StockPriceSubscription>)
    requires TableInvariant(table)
    ensures var subs := GetAllSubscriptions(table);
      FirstInvalid(subs) < |subs| <==> exists i :: 0 <= i < |subs| && subs[i].ticker == ""
  {
    var subs := GetAllSubscriptions(table);
    forall i | 0 <= i < |subs|
      ensures IsValidTicker(subs[i].ticker) <==> subs[i].ticker != ""
    {
      assert subs[i] in table;
    }
    FirstInvalidIsFirst(subs);
  }

  /** How `ConnectAndListenAsync` ends: startup aborted by an invalid ticker, or the receive loop's stop reason. */
  datatype ListenOutcome = SeedingAborted | Listened(stop: StopReason)

  class FinnhubWSManager {
    const priceChecker: PriceChecker
    var sent: seq<Outgoing>

    constructor (priceChecker: PriceChecker)
      ensures this.priceChecker == priceChecker && sent == []
    {
      this.priceChecker := priceChecker;
      sent := [];
    }

    /** `SendMessageAsync`: send failures and cancellation are caught, so the call always returns normally. */
    method SendMessage(symbol: string, isSubscribe: bool)
      modifies this
      ensures sent == old(sent) + [SubscriptionText(symbol, isSubscribe)]
    {
      var message := BuildSubscriptionMessage(symbol, isSubscribe);
      sent := sent + [SendText(SerializeSubscription(message))];
    }

    /** `RecieveMessagesAsync` over the frames the socket delivers. */
    method ReceiveMessages(frames: seq<Frame>, parse: MessageParser) returns (stop: StopReason)
      modifies this, priceChecker
      ensures ReceiveResult(priceChecker.stockPrices, stop) == ReceiveFrom(old(priceChecker.stockPrices), frames, parse)
      ensures sent == old(sent) + if stop == ServerClose then [CloseAck] else []
    {
      var i := 0;
      while i < |frames|
        invariant 0 <= i <= |frames|
        invariant ReceiveFrom(priceChecker.stockPrices, frames[i..], parse) == ReceiveFrom(old(priceChecker.stockPrices), frames, parse)
        invariant sent == old(sent)
      {
        assert frames[i..][0] == frames[i] && frames[i..][1..] == frames[i + 1..];
        var frame := frames[i];
        i := i + 1;
        if frame.TextFrame? {
          if |frame.text| < MinTradeMessageLength {
            continue;
          }
          var parsed := parse(frame.text);
          if parsed.None? {
            continue;
          }
          if parsed.value.data.None? {
            return Faulted;
          }
          if |parsed.value.data.value| == 0 {
            continue;
          }
          priceChecker.CheckPrice(parsed.value.data.value);
        } else if frame.CloseFrame? {
          sent := sent + [CloseAck];
          return ServerClose;
        }
      }
      return EndOfStream;
    }

    /** One iteration of the seeding `foreach`; `aborted` when the ticker is invalid and `new TickerSymbol` throws. */
    method SeedSubscription(s: StockPriceSubscription, lookup: QuoteLookup) returns (aborted: bool)
      modifies this, priceChecker
      ensures sent == old(sent) + [SubscriptionText(s.ticker, true)]
      ensures aborted == !IsValidTicker(s.ticker)
      ensures priceChecker.stockPrices ==
        if aborted then old(priceChecker.stockPrices)
        else SeedOne(old(priceChecker.stockPrices), lookup(NewTickerSymbol(s.ticker).value))
    {
      SendMessage(s.ticker, true);
      var symbol := NewTickerSymbol(s.ticker);
      if symbol.Err? {
        return true;
      }
      var initialQuote := lookup(symbol.value);
      if initialQuote.data.Some? {
        var _ := priceChecker.TryAdd(initialQuote.data.value.ticker, initialQuote.data.value.currentPrice);
      }
      return false;
    }

    /**
     * The seeding `foreach` of `ConnectAndListenAsync`: a subscribe message and a baseline per
     * subscription, in order, up to and including the first invalid ticker.
     */
    method SeedSubscriptions(subs: seq<StockPriceSubscription>, lookup: QuoteLookup) returns (aborted: bool)
      modifies this, priceChecker
      ensures aborted <==> FirstInvalid(subs) < |subs|
      ensures priceChecker.stockPrices == SeedPrices(old(priceChecker.stockPrices), subs[..FirstInvalid(subs)], lookup)
      ensures sent == old(sent) + SubscribeTexts(subs[..if aborted then FirstInvalid(subs) + 1 else |subs|])
    {
      var i := 0;
      while i < |subs|
        invariant 0 <= i <= FirstInvalid(subs)
        invariant priceChecker.stockPrices == SeedPrices(old(priceChecker.stockPrices), subs[..i], lookup)
        invariant sent == old(sent) + SubscribeTexts(subs[..i])
      {
        FirstInvalidAt(subs, i);
        SeedPrefixStep(old(priceChecker.stockPrices), subs, lookup, i);
        assert (old(sent) + SubscribeTexts(subs[..i])) + [SubscriptionText(subs[i].ticker, true)]
            == old(sent) + (SubscribeTexts(subs[..i]) + [SubscriptionText(subs[i].ticker, true)]);
        aborted := SeedSubscription(subs[i], lookup);
        if aborted {
          return;
        }
        i := i + 1;
      }
      assert subs[..i] == subs;
      return false;
    }

    /**
     * `ConnectAndListenAsync` once connected: seed from the active subscriptions in `table`,
     * then receive. An exception during seeding ends the call before any frame is read.
     */
    method ConnectAndListen(table: seq<StockPriceSubscription>, lookup: QuoteLookup, frames: seq<Frame>, parse: MessageParser)
      returns (outcome: ListenOutcome)
      modifies this, priceChecker
      ensures var subs := GetAllSubscriptions(table);
        var n := FirstInvalid(subs);
        var seeded := SeedPrices(old(priceChecker.stockPrices), subs[..n], lookup);
        if n < |subs| then
          && outcome == SeedingAborted
          && priceChecker.stockPrices == seeded
          && sent == old(sent) + SubscribeTexts(subs[..n + 1])
        else
          var received := ReceiveFrom(seeded, frames, parse);
          && outcome == Listened(received.stop)
          && priceChecker.stockPrices == received.prices
          && sent == old(sent) + SubscribeTexts(subs) + if received.stop == ServerClose then [CloseAck] else []
    {
      var subs := GetAllSubscriptions(table);
      var aborted := SeedSubscriptions(subs, lookup);
      if aborted {
        return SeedingAborted;
      }
      assert subs[..FirstInvalid(subs)] == subs;
      var stop := ReceiveMessages(frames, parse);
      return Listened(stop);
    }
  }
}
