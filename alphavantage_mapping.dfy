/**
 * `AlphaVantageMappingHelper.MapOverview`: maps AlphaVantage's company-overview DTO, whose
 * fields are all text, to a `StockOverview` with typed fields. The library number parsers
 * are parameters; `DateTime.TryParseExact(value, "yyyy-MM-dd", ...)` is written out.
 */
module AlphaVantageMapping {
  import opened Wrappers
  import opened Text

  /** `AVStockOverviewDTO`: every JSON field as possibly-null text. */
  datatype AVStockOverviewDTO = AVStockOverviewDTO(
    symbol: Option<string>,
    assetType: Option<string>,
    name: Option<string>,
    description: Option<string>,
    cik: Option<string>,
    exchange: Option<string>,
    currency: Option<string>,
    country: Option<string>,
    sector: Option<string>,
    industry: Option<string>,
    address: Option<string>,
    officialSite: Option<string>,
    fiscalYearEnd: Option<string>,
    latestQuarter: Option<string>,
    marketCapitalization: Option<string>,
    ebitda: Option<string>,
    peRatio: Option<string>,
    pegRatio: Option<string>,
    bookValue: Option<string>,
    dividendPerShare: Option<string>,
    dividendYield: Option<string>,
    eps: Option<string>,
    revenuePerShareTTM: Option<string>,
    profitMargin: Option<string>,
    operatingMarginTTM: Option<string>,
    returnOnAssetsTTM: Option<string>,
    returnOnEquityTTM: Option<string>,
    revenueTTM: Option<string>,
    grossProfitTTM: Option<string>,
    dilutedEPSTTM: Option<string>,
    quarterlyEarningsGrowthYOY: Option<string>,
    quarterlyRevenueGrowthYOY: Option<string>,
    analystTargetPrice: Option<string>,
    analystRatingStrongBuy: Option<string>,
    analystRatingBuy: Option<string>,
    analystRatingHold: Option<string>,
    analystRatingSell: Option<string>,
    analystRatingStrongSell: Option<string>,
    trailingPE: Option<string>,
    forwardPE: Option<string>,
    priceToSalesRatioTTM: Option<string>,
    priceToBookRatio: Option<string>,
    evToRevenue: Option<string>,
    evToEbitda: Option<string>,
    beta: Option<string>,
    fiftyTwoWeekHigh: Option<string>,
    fiftyTwoWeekLow: Option<string>,
    fiftyDayMovingAverage: Option<string>,
    twoHundredDayMovingAverage: Option<string>,
    sharesOutstanding: Option<string>,
    dividendDate: Option<string>,
    exDividendDate: Option<string>)

  /** A date with no time of day, as `TryParseExact` with "yyyy-MM-dd" produces it. */
  datatype CalendarDate = CalendarDate(year: int, month: int, day: int)

  /** `StockOverview`: the symbol is never null, every other field may be. */
  datatype StockOverview = StockOverview(
    name: Option<string>,
    symbol: string,
    description: Option<string>,
    assetType: Option<string>,
    currency: Option<string>,
    sector: Option<string>,
    industry: Option<string>,
    fiscalYearEnd: Option<string>,
    latestQuarter: Option<CalendarDate>,
    marketCapitalization: Option<int>,
    ebitda: Option<int>,
    peRatio: Option<real>,
    pegRatio: Option<real>,
    bookValue: Option<real>,
    dividendPerShare: Option<real>,
    dividendYield: Option<real>,
    eps: Option<real>,
    revenuePerShareTTM: Option<real>,
    profitMargin: Option<real>,
    operatingMarginTTM: Option<real>,
    returnOnAssetsTTM: Option<real>,
    returnOnEquityTTM: Option<real>,
    revenueTTM: Option<int>,
    grossProfitTTM: Option<int>,
    dilutedEPSTTM: Option<real>,
    quarterlyEarningsGrowthYOY: Option<real>,
    quarterlyRevenueGrowthYOY: Option<real>,
    analystTargetPrice: Option<real>,
    analystRatingStrongBuy: Option<int>,
    analystRatingBuy: Option<int>,
    analystRatingHold: Option<int>,
    analystRatingSell: Option<int>,
    analystRatingStrongSell: Option<int>,
    trailingPE: Option<real>,
    forwardPE: Option<real>,
    priceToSalesRatioTTM: Option<real>,
    priceToBookRatio: Option<real>,
    evToRevenue: Option<real>,
    evToEbitda: Option<real>,
    beta: Option<real>,
    fiftyTwoWeekHigh: Option<real>,
    fiftyTwoWeekLow: Option<real>,
    fiftyDayMovingAverage: Option<real>,
    twoHundredDayMovingAverage: Option<real>,
    sharesOutstanding: Option<int>,
    dividendDate: Option<CalendarDate>,
    exDividendDate: Option<CalendarDate>)

  /** `decimal.TryParse`, `long.TryParse` and `int.TryParse` with `NumberStyles.Any` and the invariant culture. */
  datatype NumberParsers = NumberParsers(parseDecimal: Parser<real>, parseLong: Parser<int>, parseInt: Parser<int>)

  /** `IsNone`: the text "None" in any letter case. */
  predicate IsNone(value: Option<string>) {
    value.Some? && EqualsIgnoringCase(value.value, "None")
  }

  /** `IsDash`: exactly "-" (a dash has no other letter case). */
  predicate IsDash(value: Option<string>) {
    value == Some("-")
  }

  /** The shared null guard of the decimal, long and date helpers. */
  predicate IsNullSentinel(value: Option<string>) {
    IsNullOrWhiteSpace(value) || IsNone(value)
  }

  /** `ParseDecimalSafe`: null for null, blank or "None" text and for text the parser rejects. */
  function ParseDecimalSafe(value: Option<string>, parseDecimal: Parser<real>): (r: Option<real>)
    ensures IsNullSentinel(value) ==> r.None?
    ensures !IsNullSentinel(value) ==> r == parseDecimal(value.value)
  {
    if IsNullSentinel(value) then None else parseDecimal(value.value)
  }

  /** `ParseLongSafe`: the same guard as for decimals. */
  function ParseLongSafe(value: Option<string>, parseLong: Parser<int>): (r: Option<int>)
    ensures IsNullSentinel(value) ==> r.None?
    ensures !IsNullSentinel(value) ==> r == parseLong(value.value)
  {
    if IsNullSentinel(value) then None else parseLong(value.value)
  }

  /** `ParseIntSafe` (analyst ratings): null for null, blank or "-" text; "None" reaches the parser. */
  function ParseIntSafe(value: Option<string>, parseInt: Parser<int>): (r: Option<int>)
    ensures IsNullOrWhiteSpace(value) || IsDash(value) ==> r.None?
    ensures !IsNullOrWhiteSpace(value) && !IsDash(value) ==> r == parseInt(value.value)
  {
    if IsNullOrWhiteSpace(value) || IsDash(value) then None else parseInt(value.value)
  }

  predicate IsLeapYear(year: int) {
    year % 4 == 0 && (year % 100 != 0 || year % 400 == 0)
  }

  function DaysInMonth(year: int, month: int): int
    requires 1 <= month <= 12
  {
    if month == 2 then (if IsLeapYear(year) then 29 else 28)
    else if month in {4, 6, 9, 11} then 30
    else 31
  }

  /** A date `DateTime` can hold: years 1 to 9999 and a day that exists in its month. */
  predicate ValidDate(d: CalendarDate) {
    1 <= d.year <= 9999 && 1 <= d.month <= 12 && 1 <= d.day <= DaysInMonth(d.year, d.month)
  }

  /** Ten characters: four digits, '-', two digits, '-', two digits. */
  predicate IsoDateShape(s: string) {
    && |s| == 10
    && s[4] == '-' && s[7] == '-'
    && forall i :: 0 <= i < 10 && i != 4 && i != 7 ==> IsAsciiDigit(s[i])
  }

  /** `DateTime.TryParseExact(s, "yyyy-MM-dd", InvariantCulture, DateTimeStyles.None)`: no surrounding blanks. */
  function ParseIsoDate(s: string): (r: Option<CalendarDate>)
    ensures r.Some? ==> IsoDateShape(s) && ValidDate(r.value)
  {
    if !IsoDateShape(s) then None
    else
      var d := CalendarDate(
        10 * (10 * (10 * DigitValue(s[0]) + DigitValue(s[1])) + DigitValue(s[2])) + DigitValue(s[3]),
        10 * DigitValue(s[5]) + DigitValue(s[6]),
        10 * DigitValue(s[8]) + DigitValue(s[9]));
      if ValidDate(d) then Some(d) else None
  }

  /** The "yyyy-MM-dd" rendering of a date, with leading zeros. */
  function FormatIsoDate(d: CalendarDate): (s: string)
    requires ValidDate(d)
    ensures IsoDateShape(s)
  {
    var y := d.year;
    [DigitChar(y / 10 / 10 / 10), DigitChar(y / 10 / 10 % 10), DigitChar(y / 10 % 10), DigitChar(y % 10), '-',
     DigitChar(d.month / 10), DigitChar(d.month % 10), '-',
     DigitChar(d.day / 10), DigitChar(d.day % 10)]
  }

  /** Every date `DateTime` can hold is read back from its own rendering. */
  lemma {:induction false} FormatThenParse(d: CalendarDate)
    requires ValidDate(d)
    ensures ParseIsoDate(FormatIsoDate(d)) == Some(d)
  {
    var s := FormatIsoDate(d);
    var y := d.year;
    assert DigitValue(s[0]) == y / 10 / 10 / 10;
    assert DigitValue(s[1]) == y / 10 / 10 % 10;
    assert DigitValue(s[2]) == y / 10 % 10;
    assert DigitValue(s[3]) == y % 10;
    assert 10 * (10 * (10 * DigitValue(s[0]) + DigitValue(s[1])) + DigitValue(s[2])) + DigitValue(s[3]) == y;
    assert 10 * DigitValue(s[5]) + DigitValue(s[6]) == d.month;
    assert 10 * DigitValue(s[8]) + DigitValue(s[9]) == d.day;
  }

  /** The parser accepts nothing but the exact rendering of the date it returns. */
  lemma {:induction false} ParseThenFormat(s: string)
    requires ParseIsoDate(s).Some?
    ensures FormatIsoDate(ParseIsoDate(s).value) == s
  {
    var d := ParseIsoDate(s).value;
    var a, b, c, e := DigitValue(s[0]), DigitValue(s[1]), DigitValue(s[2]), DigitValue(s[3]);
    DivideDigit(10 * (10 * a + b) + c, e);
    DivideDigit(10 * a + b, c);
    DivideDigit(a, b);
    DivideDigit(DigitValue(s[5]), DigitValue(s[6]));
    DivideDigit(DigitValue(s[8]), DigitValue(s[9]));
    var f := FormatIsoDate(d);
    forall i | 0 <= i < 10 && i != 4 && i != 7
      ensures f[i] == s[i]
    {
      DigitOfValue(f[i], s[i]);
    }
    assert f == s;
  }

  /** Two digit characters with the same value are the same character. */
  lemma DigitOfValue(x: char, y: char)
    requires IsAsciiDigit(x) && IsAsciiDigit(y)
    requires DigitValue(x) == DigitValue(y)
    ensures x == y
  {
  }

  /** Appending a digit and dividing by ten gives back the number and the digit. */
  lemma DivideDigit(q: nat, r: nat)
    requires r < 10
    ensures (10 * q + r) / 10 == q && (10 * q + r) % 10 == r
  {
  }

  /** `ParseDateTimeSafe`: null for null, blank or "None" text and for any text not in "yyyy-MM-dd" form. */
  function ParseDateTimeSafe(value: Option<string>): (r: Option<CalendarDate>)
    ensures IsNullSentinel(value) ==> r.None?
    ensures !IsNullSentinel(value) ==> r == ParseIsoDate(value.value)
  {
    if IsNullSentinel(value) then None else ParseIsoDate(value.value)
  }

  /** A text with leading or trailing blanks is never a date. */
  lemma PaddedDateRejected(value: string)
    requires |value| > 0 && (IsWhiteSpace(value[0]) || IsWhiteSpace(value[|value| - 1]))
    ensures ParseDateTimeSafe(Some(value)).None?
  {
  }

  /**
   * `MapOverview`: null exactly when the DTO or its symbol is missing or blank. Otherwise the
   * symbol and the text fields are copied and each typed field is parsed from its own DTO field
   * alone, so a bad value nulls that field and never the overview. `symbol` is only logged.
   */
  function MapOverview(avObj: Option<AVStockOverviewDTO>, symbol: string, parsers: NumberParsers): (r: Option<StockOverview>)
    ensures r.None? <==> avObj.None? || IsNullOrWhiteSpace(avObj.value.symbol)
    ensures r.Some? ==> var dto := avObj.value;
      && r.value.name == dto.name
      && r.value.symbol == dto.symbol.value
      && r.value.description == dto.description
      && r.value.assetType == dto.assetType
      && r.value.currency == dto.currency
      && r.value.sector == dto.sector
      && r.value.industry == dto.industry
      && r.value.fiscalYearEnd == dto.fiscalYearEnd
      && r.value.latestQuarter == ParseDateTimeSafe(dto.latestQuarter)
      && r.value.marketCapitalization == ParseLongSafe(dto.marketCapitalization, parsers.parseLong)
      && r.value.ebitda == ParseLongSafe(dto.ebitda, parsers.parseLong)
      && r.value.peRatio == ParseDecimalSafe(dto.peRatio, parsers.parseDecimal)
      && r.value.pegRatio == ParseDecimalSafe(dto.pegRatio, parsers.parseDecimal)
      && r.value.bookValue == ParseDecimalSafe(dto.bookValue, parsers.parseDecimal)
      && r.value.dividendPerShare == ParseDecimalSafe(dto.dividendPerShare, parsers.parseDecimal)
      && r.value.dividendYield == ParseDecimalSafe(dto.dividendYield, parsers.parseDecimal)
      && r.value.eps == ParseDecimalSafe(dto.eps, parsers.parseDecimal)
      && r.value.revenuePerShareTTM == ParseDecimalSafe(dto.revenuePerShareTTM, parsers.parseDecimal)
      && r.value.profitMargin == ParseDecimalSafe(dto.profitMargin, parsers.parseDecimal)
      && r.value.operatingMarginTTM == ParseDecimalSafe(dto.operatingMarginTTM, parsers.parseDecimal)
      && r.value.returnOnAssetsTTM == ParseDecimalSafe(dto.returnOnAssetsTTM, parsers.parseDecimal)
      && r.value.returnOnEquityTTM == ParseDecimalSafe(dto.returnOnEquityTTM, parsers.parseDecimal)
      && r.value.revenueTTM == ParseLongSafe(dto.revenueTTM, parsers.parseLong)
      && r.value.grossProfitTTM == ParseLongSafe(dto.grossProfitTTM, parsers.parseLong)
      && r.value.dilutedEPSTTM == ParseDecimalSafe(dto.dilutedEPSTTM, parsers.parseDecimal)
      && r.value.quarterlyEarningsGrowthYOY == ParseDecimalSafe(dto.quarterlyEarningsGrowthYOY, parsers.parseDecimal)
      && r.value.quarterlyRevenueGrowthYOY == ParseDecimalSafe(dto.quarterlyRevenueGrowthYOY, parsers.parseDecimal)
      && r.value.analystTargetPrice == ParseDecimalSafe(dto.analystTargetPrice, parsers.parseDecimal)
      && r.value.analystRatingStrongBuy == ParseIntSafe(dto.analystRatingStrongBuy, parsers.parseInt)
      && r.value.analystRatingBuy == ParseIntSafe(dto.analystRatingBuy, parsers.parseInt)
      && r.value.analystRatingHold == ParseIntSafe(dto.analystRatingHold, parsers.parseInt)
      && r.value.analystRatingSell == ParseIntSafe(dto.analystRatingSell, parsers.parseInt)
      && r.value.analystRatingStrongSell == ParseIntSafe(dto.analystRatingStrongSell, parsers.parseInt)
      && r.value.trailingPE == ParseDecimalSafe(dto.trailingPE, parsers.parseDecimal)
      && r.value.forwardPE == ParseDecimalSafe(dto.forwardPE, parsers.parseDecimal)
      && r.value.priceToSalesRatioTTM == ParseDecimalSafe(dto.priceToSalesRatioTTM, parsers.parseDecimal)
      && r.value.priceToBookRatio == ParseDecimalSafe(dto.priceToBookRatio, parsers.parseDecimal)
      && r.value.evToRevenue == ParseDecimalSafe(dto.evToRevenue, parsers.parseDecimal)
      && r.value.evToEbitda == ParseDecimalSafe(dto.evToEbitda, parsers.parseDecimal)
      && r.value.beta == ParseDecimalSafe(dto.beta, parsers.parseDecimal)
      && r.value.fiftyTwoWeekHigh == ParseDecimalSafe(dto.fiftyTwoWeekHigh, parsers.parseDecimal)
      && r.value.fiftyTwoWeekLow == ParseDecimalSafe(dto.fiftyTwoWeekLow, parsers.parseDecimal)
      && r.value.fiftyDayMovingAverage == ParseDecimalSafe(dto.fiftyDayMovingAverage, parsers.parseDecimal)
      && r.value.twoHundredDayMovingAverage == ParseDecimalSafe(dto.twoHundredDayMovingAverage, parsers.parseDecimal)
      && r.value.sharesOutstanding == ParseLongSafe(dto.sharesOutstanding, parsers.parseLong)
      && r.value.dividendDate == ParseDateTimeSafe(dto.dividendDate)
      && r.value.exDividendDate == ParseDateTimeSafe(dto.exDividendDate)
  {
    if avObj.None? || IsNullOrWhiteSpace(avObj.value.symbol) then None
    else
      var dto := avObj.value;
      Some(StockOverview(
        name := dto.name,
        symbol := dto.symbol.value,
        description := dto.description,
        assetType := dto.assetType,
        currency := dto.currency,
        sector := dto.sector,
        industry := dto.industry,
        fiscalYearEnd := dto.fiscalYearEnd,
        latestQuarter := ParseDateTimeSafe(dto.latestQuarter),
        marketCapitalization := ParseLongSafe(dto.marketCapitalization, parsers.parseLong),
        ebitda := ParseLongSafe(dto.ebitda, parsers.parseLong),
        peRatio := ParseDecimalSafe(dto.peRatio, parsers.parseDecimal),
        pegRatio := ParseDecimalSafe(dto.pegRatio, parsers.parseDecimal),
        bookValue := ParseDecimalSafe(dto.bookValue, parsers.parseDecimal),
        dividendPerShare := ParseDecimalSafe(dto.dividendPerShare, parsers.parseDecimal),
        dividendYield := ParseDecimalSafe(dto.dividendYield, parsers.parseDecimal),
        eps := ParseDecimalSafe(dto.eps, parsers.parseDecimal),
        revenuePerShareTTM := ParseDecimalSafe(dto.revenuePerShareTTM, parsers.parseDecimal),
        profitMargin := ParseDecimalSafe(dto.profitMargin, parsers.parseDecimal),
        operatingMarginTTM := ParseDecimalSafe(dto.operatingMarginTTM, parsers.parseDecimal),
        returnOnAssetsTTM := ParseDecimalSafe(dto.returnOnAssetsTTM, parsers.parseDecimal),
        returnOnEquityTTM := ParseDecimalSafe(dto.returnOnEquityTTM, parsers.parseDecimal),
        revenueTTM := ParseLongSafe(dto.revenueTTM, parsers.parseLong),
        grossProfitTTM := ParseLongSafe(dto.grossProfitTTM, parsers.parseLong),
        dilutedEPSTTM := ParseDecimalSafe(dto.dilutedEPSTTM, parsers.parseDecimal),
        quarterlyEarningsGrowthYOY := ParseDecimalSafe(dto.quarterlyEarningsGrowthYOY, parsers.parseDecimal),
        quarterlyRevenueGrowthYOY := ParseDecimalSafe(dto.quarterlyRevenueGrowthYOY, parsers.parseDecimal),
        analystTargetPrice := ParseDecimalSafe(dto.analystTargetPrice, parsers.parseDecimal),
        analystRatingStrongBuy := ParseIntSafe(dto.analystRatingStrongBuy, parsers.parseInt),
        analystRatingBuy := ParseIntSafe(dto.analystRatingBuy, parsers.parseInt),
        analystRatingHold := ParseIntSafe(dto.analystRatingHold, parsers.parseInt),
        analystRatingSell := ParseIntSafe(dto.analystRatingSell, parsers.parseInt),
        analystRatingStrongSell := ParseIntSafe(dto.analystRatingStrongSell, parsers.parseInt),
        trailingPE := ParseDecimalSafe(dto.trailingPE, parsers.parseDecimal),
        forwardPE := ParseDecimalSafe(dto.forwardPE, parsers.parseDecimal),
        priceToSalesRatioTTM := ParseDecimalSafe(dto.priceToSalesRatioTTM, parsers.parseDecimal),
        priceToBookRatio := ParseDecimalSafe(dto.priceToBookRatio, parsers.parseDecimal),
        evToRevenue := ParseDecimalSafe(dto.evToRevenue, parsers.parseDecimal),
        evToEbitda := ParseDecimalSafe(dto.evToEbitda, parsers.parseDecimal),
        beta := ParseDecimalSafe(dto.beta, parsers.parseDecimal),
        fiftyTwoWeekHigh := ParseDecimalSafe(dto.fiftyTwoWeekHigh, parsers.parseDecimal),
        fiftyTwoWeekLow := ParseDecimalSafe(dto.fiftyTwoWeekLow, parsers.parseDecimal),
        fiftyDayMovingAverage := ParseDecimalSafe(dto.fiftyDayMovingAverage, parsers.parseDecimal),
        twoHundredDayMovingAverage := ParseDecimalSafe(dto.twoHundredDayMovingAverage, parsers.parseDecimal),
        sharesOutstanding := ParseLongSafe(dto.sharesOutstanding, parsers.parseLong),
        dividendDate := ParseDateTimeSafe(dto.dividendDate),
        exDividendDate := ParseDateTimeSafe(dto.exDividendDate)))
  }

  /** The `symbol` argument never shows in the result. */
  lemma SymbolArgumentOnlyLogged(avObj: Option<AVStockOverviewDTO>, symbol1: string, symbol2: string, parsers: NumberParsers)
    ensures MapOverview(avObj, symbol1, parsers) == MapOverview(avObj, symbol2, parsers)
  {
  }

  /** "None", in any letter case, is null for a decimal, long or date field whatever the parsers say. */
  lemma NoneSentinelIsNull(value: string, parsers: NumberParsers)
    requires EqualsIgnoringCase(value, "None")
    ensures ParseDecimalSafe(Some(value), parsers.parseDecimal).None?
    ensures ParseLongSafe(Some(value), parsers.parseLong).None?
    ensures ParseDateTimeSafe(Some(value)).None?
  {
  }

  /** An analyst rating of "None" is handed to the int parser; only "-" is a sentinel there. */
  lemma RatingNoneReachesParser(parseInt: Parser<int>)
    ensures ParseIntSafe(Some("None"), parseInt) == parseInt("None")
    ensures ParseIntSafe(Some("-"), parseInt).None?
  {
    assert "None"[0] == 'N' && !IsWhiteSpace('N');
    assert |"None"| != |"-"|;
  }

  /**
   * A bad P/E ratio, rating or dividend date nulls that field only; the rest of the overview
   * is what the original DTO gives.
   */
  lemma BadFieldNullsOnlyItself(dto: AVStockOverviewDTO, symbol: string, parsers: NumberParsers)
    requires !IsNullOrWhiteSpace(dto.symbol)
    ensures var bad := dto.(peRatio := Some("None"), analystRatingBuy := Some("-"), dividendDate := Some("31-12-2024"));
      MapOverview(Some(bad), symbol, parsers)
        == Some(MapOverview(Some(dto), symbol, parsers).value.(peRatio := None, analystRatingBuy := None, dividendDate := None))
  {
    var bad := dto.(peRatio := Some("None"), analystRatingBuy := Some("-"), dividendDate := Some("31-12-2024"));
    NoneSentinelIsNull("None", parsers);
    assert !IsoDateShape("31-12-2024") by { assert "31-12-2024"[4] != '-'; }
  }

  /** Leap days parse only in leap years. */
  lemma LeapDay()
    ensures ParseIsoDate("2024-02-29") == Some(CalendarDate(2024, 2, 29))
    ensures ParseIsoDate("2023-02-29").None?
    ensures ParseIsoDate("1900-02-29").None?
  {
  }
}
