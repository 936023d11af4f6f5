/**
 * `StockPriceSubscriptionRepository`: the table of price subscriptions. The table is a
 * sequence of records in storage order; the database's unique index on
 * (DiscordId, Ticker) and the five-character ticker column are its invariant.
 */
module Subscriptions {
  import opened Wrappers
  import opened Tickers

  /** A Discord user id, a `ulong`. */
  type DiscordId = x: int | 0 <= x < 0x1_0000_0000_0000_0000

  /** One row; the row id and the two timestamps play no part in any operation. */
  datatype StockPriceSubscription = StockPriceSubscription(discordId: DiscordId, ticker: string, isActive: bool)

  /** `new StockPriceSubscription(discordId, ticker)`: a new subscription starts active. */
  function NewSubscription(discordId: DiscordId, ticker: string): (s: StockPriceSubscription)
    ensures s.discordId == discordId && s.ticker == ticker && s.isActive
  {
    StockPriceSubscription(discordId, ticker, true)
  }

  predicate Matches(s: StockPriceSubscription, discordId: DiscordId, ticker: string) {
    s.discordId == discordId && s.ticker == ticker
  }

  /** The unique index on (DiscordId, Ticker). */
  predicate UniquePairs(table: seq<StockPriceSubscription>) {
    forall i, j :: 0 <= i < |table| && 0 <= j < |table| && Matches(table[j], table[i].discordId, table[i].ticker) ==> i == j
  }

  /** What the database enforces on every row. */
  predicate TableInvariant(table: seq<StockPriceSubscription>) {
    UniquePairs(table) && forall i :: 0 <= i < |table| ==> |table[i].ticker| <= MaxLength
  }

  /** The index `FirstOrDefault` finds for a (DiscordId, Ticker) pair. */
  function FirstMatch(table: seq<StockPriceSubscription>, discordId: DiscordId, ticker: string): (r: Option<nat>)
    ensures r.Some? ==> r.value < |table| && Matches(table[r.value], discordId, ticker)
    ensures r.Some? ==> forall k :: 0 <= k < r.value ==> !Matches(table[k], discordId, ticker)
    ensures r.None? ==> forall k :: 0 <= k < |table| ==> !Matches(table[k], discordId, ticker)
  {
    if table == [] then None
    else if Matches(table[0], discordId, ticker) then Some(0)
    else match FirstMatch(table[1..], discordId, ticker)
      case None => None
      case Some(k) => Some(k + 1)
  }

  /** Under the unique index the first match is the only one. */
  lemma MatchIsUnique(table: seq<StockPriceSubscription>, k: nat)
    requires TableInvariant(table) && k < |table|
    ensures FirstMatch(table, table[k].discordId, table[k].ticker) == Some(k)
  {
  }

  /** Whether the database accepts a new row: a new pair and a ticker that fits the column. */
  predicate AddAccepted(table: seq<StockPriceSubscription>, sps: StockPriceSubscription) {
    FirstMatch(table, sps.discordId, sps.ticker).None? && |sps.ticker| <= MaxLength
  }

  /** Setting `IsActive` on row `k`. */
  function SetActive(table: seq<StockPriceSubscription>, k: nat, active: bool): seq<StockPriceSubscription>
    requires k < |table|
  {
    table[k := table[k].(isActive := active)]
  }

  /** An accepted add keeps the invariant and appends exactly one row. */
  lemma AddKeepsInvariant(table: seq<StockPriceSubscription>, sps: StockPriceSubscription)
    requires TableInvariant(table) && AddAccepted(table, sps)
    ensures TableInvariant(table + [sps])
    ensures FirstMatch(table + [sps], sps.discordId, sps.ticker) == Some(|table|)
  {
    var t := table + [sps];
    assert forall i :: 0 <= i < |table| ==> t[i] == table[i] && !Matches(t[i], sps.discordId, sps.ticker);
    MatchIsUnique(t, |table|);
  }

  /** Flipping `IsActive` keeps the invariant, every row's key and every other row. */
  lemma SetActiveKeepsInvariant(table: seq<StockPriceSubscription>, k: nat, active: bool)
    requires TableInvariant(table) && k < |table|
    ensures TableInvariant(SetActive(table, k, active))
    ensures |SetActive(table, k, active)| == |table|
    ensures SetActive(table, k, active)[k] == table[k].(isActive := active)
    ensures forall j :: 0 <= j < |table| && j != k ==> SetActive(table, k, active)[j] == table[j]
  {
    var t := SetActive(table, k, active);
    assert forall j :: 0 <= j < |table| ==> Matches(t[j], table[j].discordId, table[j].ticker);
  }

  /** `Where` in the repository's LINQ queries, keeping storage order. */
  function Where(table: seq<StockPriceSubscription>, keep: StockPriceSubscription -> bool): (r: seq<StockPriceSubscription>)
    ensures |r| <= |table|
    ensures forall s :: s in r <==> s in table && keep(s)
  {
    if table == [] then []
    else if keep(table[0]) then [table[0]] + Where(table[1..], keep)
    else Where(table[1..], keep)
  }

  /** `GetStockPriceSubscription`: the row for the user and the symbol's value, active or not. */
  function GetStockPriceSubscription(table: seq<StockPriceSubscription>, discordId: DiscordId, symbol: TickerSymbol): (r: Option<StockPriceSubscription>)
    ensures r.Some? ==> r.value in table && Matches(r.value, discordId, symbol.value)
    ensures r.None? ==> forall s :: s in table ==> !Matches(s, discordId, symbol.value)
  {
    match FirstMatch(table, discordId, symbol.value)
    case None => None
    case Some(k) => Some(table[k])
  }

  /** `GetAllSubscriptionsForUserAsync`: exactly the user's active rows. */
  function GetAllSubscriptionsForUser(table: seq<StockPriceSubscription>, discordId: DiscordId): (r: seq<StockPriceSubscription>)
    ensures forall s :: s in r <==> s in table && s.discordId == discordId && s.isActive
  {
    Where(table, (s: StockPriceSubscription) => s.discordId == discordId && s.isActive)
  }

  /** `GetAllSubscriptionsAsync`: exactly the active rows. */
  function GetAllSubscriptions(table: seq<StockPriceSubscription>): (r: seq<StockPriceSubscription>)
    ensures forall s :: s in r <==> s in table && s.isActive
  {
    Where(table, (s: StockPriceSubscription) => s.isActive)
  }

  /** `Select(x => x.DiscordId)` */
  function DiscordIds(rows: seq<StockPriceSubscription>): (r: seq<DiscordId>)
    ensures |r| == |rows|
    ensures forall i :: 0 <= i < |rows| ==> r[i] == rows[i].discordId
  {
    if rows == [] then [] else [rows[0].discordId] + DiscordIds(rows[1..])
  }

  predicate NoDuplicates(xs: seq<DiscordId>) {
    forall i, j :: 0 <= i < j < |xs| ==> xs[i] != xs[j]
  }

  /** `Distinct()`: each element once, at its first position. */
  function Distinct(xs: seq<DiscordId>): (r: seq<DiscordId>)
    ensures NoDuplicates(r)
    ensures forall x :: x in r <==> x in xs
  {
    if xs == [] then []
    else
      var d := Distinct(xs[..|xs| - 1]);
      if xs[|xs| - 1] in d then d else d + [xs[|xs| - 1]]
  }

  /** `GetAllUsersSubscribedToAStock`: each user with an active row for the symbol, once. */
  function GetAllUsersSubscribedToAStock(table: seq<StockPriceSubscription>, symbol: string): (r: seq<DiscordId>)
    ensures NoDuplicates(r)
    ensures forall id :: id in r <==> exists s :: s in table && s.ticker == symbol && s.isActive && s.discordId == id
  {
    var rows := Where(table, (s: StockPriceSubscription) => s.ticker == symbol && s.isActive);
    var ids := DiscordIds(rows);
    assert forall id :: id in ids <==> exists s :: s in rows && s.discordId == id by {
      forall id | id in ids ensures exists s :: s in rows && s.discordId == id {
        var i :| 0 <= i < |ids| && ids[i] == id;
        assert rows[i] in rows;
      }
      forall id | exists s :: s in rows && s.discordId == id ensures id in ids {
        var s :| s in rows && s.discordId == id;
        var i :| 0 <= i < |rows| && rows[i] == s;
        assert ids[i] == id;
      }
    }
    Distinct(ids)
  }

  /** Deactivating a row takes its user off the symbol's list, given the unique index. */
  lemma DeactivatedUserNotListed(table: seq<StockPriceSubscription>, k: nat)
    requires TableInvariant(table) && k < |table|
    ensures table[k].discordId !in GetAllUsersSubscribedToAStock(SetActive(table, k, false), table[k].ticker)
  {
    var t := SetActive(table, k, false);
    forall j | 0 <= j < |t| && j != k
      ensures !Matches(t[j], table[k].discordId, table[k].ticker)
    {
      assert t[j] == table[j];
    }
  }

  /** Activating a row puts its user on the symbol's list. */
  lemma ActivatedUserListed(table: seq<StockPriceSubscription>, k: nat)
    requires k < |table|
    ensures table[k].discordId in GetAllUsersSubscribedToAStock(SetActive(table, k, true), table[k].ticker)
  {
    var t := SetActive(table, k, true);
    assert t[k] in t;
  }

  /** Flipping one row leaves every other (user, symbol) listing as it was. */
  lemma OtherListingsUnaffected(table: seq<StockPriceSubscription>, k: nat, active: bool, discordId: DiscordId, symbol: string)
    requires TableInvariant(table) && k < |table|
    requires !Matches(table[k], discordId, symbol)
    ensures discordId in GetAllUsersSubscribedToAStock(SetActive(table, k, active), symbol)
        <==> discordId in GetAllUsersSubscribedToAStock(table, symbol)
  {
    var t := SetActive(table, k, active);
    SetActiveKeepsInvariant(table, k, active);
    if discordId in GetAllUsersSubscribedToAStock(t, symbol) {
      var s :| s in t && s.ticker == symbol && s.isActive && s.discordId == discordId;
      var j :| 0 <= j < |t| && t[j] == s;
      assert j != k && table[j] == s;
    }
    if discordId in GetAllUsersSubscribedToAStock(table, symbol) {
      var s :| s in table && s.ticker == symbol && s.isActive && s.discordId == discordId;
      var j :| 0 <= j < |table| && table[j] == s;
      assert j != k && t[j] == s;
    }
  }

  class StockPriceSubscriptionRepository {
    var table: seq<StockPriceSubscription>

    ghost predicate Valid()
      reads this
    {
      TableInvariant(table)
    }

    constructor (initial: seq<StockPriceSubscription>)
      requires TableInvariant(initial)
      ensures Valid() && table == initial
    {
      table := initial;
    }

    /**
     * `AddSubscriptionAsync`: appends the row and returns true; a duplicate pair or an over-long
     * ticker makes the save fail, which is caught and reported as false with nothing added.
     */
    method AddSubscription(sps: StockPriceSubscription) returns (success: bool)
      requires Valid()
      modifies this
      ensures Valid()
      ensures success == AddAccepted(old(table), sps)
      ensures table == if success then old(table) + [sps] else old(table)
    {
      if !AddAccepted(table, sps) {
        return false;
      }
      AddKeepsInvariant(table, sps);
      table := table + [sps];
      return true;
    }

    /** `ReSubscribeAsync`: reactivates the user's inactive row for the ticker; false when there is none. */
    method ReSubscribe(discordId: DiscordId, ticker: string) returns (found: bool)
      requires Valid()
      modifies this
      ensures Valid()
      ensures var m := FirstMatch(old(table), discordId, ticker);
        && (found <==> m.Some? && !old(table)[m.value].isActive)
        && table == if found then SetActive(old(table), m.value, true) else old(table)
    {
      var m := FirstMatch(table, discordId, ticker);
      if m.Some? && !table[m.value].isActive {
        SetActiveKeepsInvariant(table, m.value, true);
        table := SetActive(table, m.value, true);
        return true;
      }
      return false;
    }

    /**
     * `UnsubscribeAsync`: deactivates the user's row for the ticker. The result is whether the
     * save wrote anything, which it does only when the row was active.
     */
    method Unsubscribe(discordId: DiscordId, ticker: string) returns (changed: bool)
      requires Valid()
      modifies this
      ensures Valid()
      ensures var m := FirstMatch(old(table), discordId, ticker);
        && (changed <==> m.Some? && old(table)[m.value].isActive)
        && table == if m.Some? then SetActive(old(table), m.value, false) else old(table)
    {
      var m := FirstMatch(table, discordId, ticker);
      if m.None? {
        return false;
      }
      changed := table[m.value].isActive;
      SetActiveKeepsInvariant(table, m.value, false);
      table := SetActive(table, m.value, false);
    }
  }
}
