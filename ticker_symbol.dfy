/** `TickerSymbol`: a value object holding a validated, upper-cased stock symbol. */
module Tickers {
  import opened Wrappers
  import opened Text

  const MinLength: nat := 1
  const MaxLength: nat := 5
  const InvalidTickerMessage := "Ticker must be a valid sequence of charachters between 1-5 letters long"

  datatype TickerSymbol = TickerSymbol(value: string)

  datatype ArgumentException = ArgumentException(message: string)

  /** `new TickerSymbol(ticker)`: throws `ArgumentException` unless the length is 1 to 5. */
  function NewTickerSymbol(ticker: string): (r: Result<TickerSymbol, ArgumentException>)
    ensures r.Ok? <==> 1 <= |ticker| <= 5
    ensures r.Err? ==> r.error.message == InvalidTickerMessage
    ensures r.Ok? ==> |r.value.value| == |ticker|
    ensures r.Ok? ==> EqualsIgnoringCase(r.value.value, ticker)
    ensures r.Ok? ==> forall i :: 0 <= i < |r.value.value| ==> !IsAsciiLower(r.value.value[i])
  {
    if |ticker| < MinLength || |ticker| > MaxLength then
      Err(ArgumentException(InvalidTickerMessage))
    else
      Ok(TickerSymbol(Upper(ticker)))
  }

  /** The tickers `new TickerSymbol` accepts. */
  predicate IsValidTicker(ticker: string) {
    MinLength <= |ticker| <= MaxLength
  }

  /** Wrapping the `Value` of a ticker symbol again gives the same symbol. */
  lemma {:induction false} RewrapIsIdentity(ticker: string)
    requires IsValidTicker(ticker)
    ensures NewTickerSymbol(NewTickerSymbol(ticker).value.value) == NewTickerSymbol(ticker)
  {
    var v := Upper(ticker);
    assert Upper(v) == v by {
      forall i | 0 <= i < |v| ensures Upper(v)[i] == v[i] {
        assert v[i] == UpperChar(ticker[i]);
      }
    }
  }

  /** Two inputs give the same symbol exactly when they differ only in letter case (or are both invalid). */
  lemma {:induction false} CaseInsensitive(a: string, b: string)
    requires IsValidTicker(a)
    ensures NewTickerSymbol(a) == NewTickerSymbol(b) <==> EqualsIgnoringCase(a, b)
  {
    UpperEqualIffEqualsIgnoringCase(a, b);
  }
}
