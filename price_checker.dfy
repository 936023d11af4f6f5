/**
 * `PriceChecker`: the in-memory map from symbol to baseline price, and `CheckPrice`, which
 * runs each trade of a websocket message against its symbol's baseline and moves the baseline
 * when the price has moved by 5% or more. Prices are `real` rather than IEEE doubles, and the
 * concurrent dictionary is used by one caller at a time. No alert is published anywhere.
 */
module PriceCheck {
  import opened Wrappers

  /** `WSDataObj`: one trade (JSON c, p, s, t and v). */
  datatype Trade = Trade(category: seq<string>, price: real, symbol: string, timestamp: nat, volume: int)

  /** `FinnhubStockPriceRecievedMessage`: `data` is null when the JSON has no "data" array. */
  datatype PriceMessage = PriceMessage(data: Option<seq<Trade>>, messageType: Option<string>)

  const ThresholdPercent: real := 5.0

  function Abs(x: real): real {
    if x < 0.0 then -x else x
  }

  /**
   * `HasStockMovedXPercent`: from a zero baseline any non-zero price has moved; otherwise the
   * relative change must be at least 5%, both ways, with exactly 5% counting as moved.
   */
  function HasStockMovedXPercent(newPrice: real, oldPrice: real): (moved: bool)
    ensures oldPrice == 0.0 ==> (moved <==> newPrice != 0.0)
    ensures oldPrice != 0.0 ==> (moved <==> Abs(newPrice - oldPrice) * 100.0 >= ThresholdPercent * Abs(oldPrice))
  {
    if oldPrice == 0.0 then newPrice != 0.0
    else
      var priceChange := ((newPrice - oldPrice) / oldPrice) * 100.0;
      ChangeAgainstThreshold(newPrice - oldPrice, oldPrice);
      Abs(priceChange) >= ThresholdPercent
  }

  /** Clearing the division: |d / o * 100| >= 5 exactly when |d| * 100 >= 5 * |o|. */
  lemma ChangeAgainstThreshold(d: real, o: real)
    requires o != 0.0
    ensures Abs((d / o) * 100.0) >= ThresholdPercent <==> Abs(d) * 100.0 >= ThresholdPercent * Abs(o)
  {
    var q := d / o;
    assert d == q * o;
    assert Abs(d) == Abs(q) * Abs(o);
    assert Abs(q * 100.0) == Abs(q) * 100.0;
    if Abs(q) * 100.0 >= ThresholdPercent {
      assert Abs(d) * 100.0 == (Abs(q) * 100.0) * Abs(o);
    } else {
      assert Abs(d) * 100.0 == (Abs(q) * 100.0) * Abs(o);
    }
  }

  /** `ConcurrentDictionary.TryUpdate(key, newValue, comparisonValue)` on a map value. */
  function CompareAndSwap(prices: map<string, real>, key: string, newValue: real, comparisonValue: real): (r: map<string, real>)
    ensures r.Keys == prices.Keys
    ensures key in prices && prices[key] == comparisonValue ==> r == prices[key := newValue]
    ensures !(key in prices && prices[key] == comparisonValue) ==> r == prices
  {
    if key in prices && prices[key] == comparisonValue then prices[key := newValue] else prices
  }

  /**
   * One iteration of the `foreach` in `CheckPrice`. An unknown symbol changes nothing. A zero
   * baseline is swapped for the trade's price only in the local copy, so the price is compared
   * with itself and the stored zero stays. A non-zero baseline becomes the trade's price exactly
   * when the trade breaches it; the swap always succeeds because nothing else writes in between.
   */
  function CheckTrade(prices: map<string, real>, t: Trade): (r: map<string, real>)
    ensures r.Keys == prices.Keys
    ensures t.symbol !in prices ==> r == prices
    ensures t.symbol in prices && prices[t.symbol] == 0.0 ==> r == prices
    ensures t.symbol in prices && prices[t.symbol] != 0.0 ==>
      r == if HasStockMovedXPercent(t.price, prices[t.symbol]) then prices[t.symbol := t.price] else prices
  {
    if t.symbol !in prices then prices
    else
      var currPrice := if prices[t.symbol] == 0.0 then t.price else prices[t.symbol];
      if HasStockMovedXPercent(t.price, currPrice) then
        CompareAndSwap(prices, t.symbol, t.price, currPrice)
      else prices
  }

  /** `CheckPrice` over a whole message: the trades in array order, each seeing the earlier ones' writes. */
  function CheckBatch(prices: map<string, real>, trades: seq<Trade>): (r: map<string, real>)
    ensures r.Keys == prices.Keys
  {
    if trades == [] then prices
    else CheckTrade(CheckBatch(prices, trades[..|trades| - 1]), trades[|trades| - 1])
  }

  /** Two messages in a row act like their trades in one message. */
  lemma {:induction false} CheckBatchAppend(prices: map<string, real>, first: seq<Trade>, second: seq<Trade>)
    ensures CheckBatch(prices, first + second) == CheckBatch(CheckBatch(prices, first), second)
    decreases |second|
  {
    if second == [] {
      assert first + second == first;
    } else {
      var init := second[..|second| - 1];
      assert (first + second)[..|first + second| - 1] == first + init;
      CheckBatchAppend(prices, first, init);
    }
  }

  /** A baseline of zero survives every message. */
  lemma {:induction false} ZeroBaselineNeverChanges(prices: map<string, real>, trades: seq<Trade>, symbol: string)
    requires symbol in prices && prices[symbol] == 0.0
    ensures CheckBatch(prices, trades)[symbol] == 0.0
  {
    if trades != [] {
      ZeroBaselineNeverChanges(prices, trades[..|trades| - 1], symbol);
    }
  }

  /** A symbol's baseline moves only through trades for that symbol. */
  lemma {:induction false} OtherSymbolsUntouched(prices: map<string, real>, trades: seq<Trade>, symbol: string)
    requires symbol in prices
    requires forall i :: 0 <= i < |trades| ==> trades[i].symbol != symbol
    ensures CheckBatch(prices, trades)[symbol] == prices[symbol]
  {
    if trades != [] {
      OtherSymbolsUntouched(prices, trades[..|trades| - 1], symbol);
    }
  }

  /** A stored baseline is always either the original one or the price of one of the trades. */
  lemma {:induction false} BaselineComesFromTrades(prices: map<string, real>, trades: seq<Trade>, symbol: string)
    requires symbol in prices
    ensures var p := CheckBatch(prices, trades)[symbol];
      p == prices[symbol] || exists i :: 0 <= i < |trades| && trades[i].symbol == symbol && trades[i].price == p
  {
    if trades != [] {
      var init := trades[..|trades| - 1];
      BaselineComesFromTrades(prices, init, symbol);
      var p := CheckBatch(prices, init)[symbol];
      if p != prices[symbol] {
        var i :| 0 <= i < |init| && init[i].symbol == symbol && init[i].price == p;
        assert trades[i] == init[i];
      }
    }
  }

  /** Exactly 5% counts as moved, just under 5% does not, in either direction. */
  lemma ThresholdIsInclusive()
    ensures HasStockMovedXPercent(105.0, 100.0)
    ensures HasStockMovedXPercent(95.0, 100.0)
    ensures !HasStockMovedXPercent(104.99, 100.0)
    ensures !HasStockMovedXPercent(95.01, 100.0)
  {
  }

  /** No per-message cap: 100 -> 106 -> 112 moves the baseline twice in one message. */
  lemma {:induction false} EveryBreachInABatchUpdates()
    ensures var t1 := Trade([], 106.0, "AAPL", 0, 1);
      var t2 := Trade([], 112.0, "AAPL", 1, 1);
      CheckBatch(map["AAPL" := 100.0], [t1, t2]) == map["AAPL" := 112.0]
  {
    var t1 := Trade([], 106.0, "AAPL", 0, 1);
    var t2 := Trade([], 112.0, "AAPL", 1, 1);
    assert [t1, t2][..1] == [t1];
    assert [t1][..0] == [];
    assert CheckBatch(map["AAPL" := 100.0], [t1]) == map["AAPL" := 106.0];
  }

  /** A price within 5% of a non-zero baseline leaves it; later trades still compare against the old value. */
  lemma {:induction false} SmallMovesAccumulateNothing()
    ensures var t1 := Trade([], 103.0, "AAPL", 0, 1);
      var t2 := Trade([], 104.0, "AAPL", 1, 1);
      CheckBatch(map["AAPL" := 100.0], [t1, t2]) == map["AAPL" := 100.0]
  {
    var t1 := Trade([], 103.0, "AAPL", 0, 1);
    var t2 := Trade([], 104.0, "AAPL", 1, 1);
    assert [t1, t2][..1] == [t1];
    assert [t1][..0] == [];
    assert !HasStockMovedXPercent(103.0, 100.0) && !HasStockMovedXPercent(104.0, 100.0);
    assert CheckBatch(map["AAPL" := 100.0], [t1]) == map["AAPL" := 100.0];
  }

  class PriceChecker {
    var stockPrices: map<string, real>

    constructor ()
      ensures stockPrices == map[]
    {
      stockPrices := map[];
    }

    /** `_stockPrices.TryUpdate(key, newValue, comparisonValue)` */
    method TryUpdate(key: string, newValue: real, comparisonValue: real) returns (updated: bool)
      modifies this
      ensures updated <==> key in old(stockPrices) && old(stockPrices)[key] == comparisonValue
      ensures stockPrices == CompareAndSwap(old(stockPrices), key, newValue, comparisonValue)
    {
      updated := key in stockPrices && stockPrices[key] == comparisonValue;
      if updated {
        stockPrices := stockPrices[key := newValue];
      }
    }

    /** `_stockPrices.TryAdd(key, value)`: never overwrites an existing entry. */
    method TryAdd(key: string, value: real) returns (added: bool)
      modifies this
      ensures added <==> key !in old(stockPrices)
      ensures stockPrices == if added then old(stockPrices)[key := value] else old(stockPrices)
    {
      added := key !in stockPrices;
      if added {
        stockPrices := stockPrices[key := value];
      }
    }

    /** `CheckPrice(msg)`, given `msg.Data`. */
    method CheckPrice(trades: seq<Trade>)
      modifies this
      ensures stockPrices == CheckBatch(old(stockPrices), trades)
    {
      for i := 0 to |trades|
        invariant stockPrices == CheckBatch(old(stockPrices), trades[..i])
      {
        var t := trades[i];
        assert trades[..i + 1][..i] == trades[..i];
        if t.symbol in stockPrices {
          var currPrice := stockPrices[t.symbol];
          if currPrice == 0.0 {
            currPrice := t.price;
          }
          if HasStockMovedXPercent(t.price, currPrice) {
            var _ := TryUpdate(t.symbol, t.price, currPrice);
          }
        }
      }
      assert trades[..|trades|] == trades;
    }
  }
}
