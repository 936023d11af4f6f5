/**
 * `FinnhubMappingHelper`: maps Finnhub's quote and company-news DTOs to domain objects.
 * A JSON field that is absent is `None`; `double.TryParse` is the `parseDouble` parameter.
 */
module FinnhubMapping {
  import opened Wrappers
  import opened Text
  import opened StockQuotes
  import opened NewsArticles

  /** `FHStockQuoteDTO`: JSON fields c, h, l, o, pc, dp, d and t. */
  datatype FHStockQuoteDTO = FHStockQuoteDTO(
    currentPrice: Option<string>,
    highPrice: Option<string>,
    lowPrice: Option<string>,
    openPrice: Option<string>,
    previousClosePrice: Option<string>,
    differencePercentage: Option<string>,
    difference: Option<string>,
    timestamp: Option<string>)

  /** `FHStockNewsArticleDTO`; `timeStamp` is the JSON field "datetime". */
  datatype FHStockNewsArticleDTO = FHStockNewsArticleDTO(
    category: Option<string>,
    timeStamp: Option<string>,
    headline: Option<string>,
    id: Option<string>,
    image: Option<string>,
    related: Option<string>,
    source: Option<string>,
    summary: Option<string>,
    url: Option<string>)

  /** `double.TryParse` on a possibly-null string: null never parses. */
  function TryParseDouble(parseDouble: Parser<real>, s: Option<string>): (r: Option<real>)
    ensures s.None? ==> r.None?
    ensures s.Some? ==> r == parseDouble(s.value)
  {
    if s.None? then None else parseDouble(s.value)
  }

  /**
   * `MapStockQuote`: null unless "dp" is present and non-empty and all of o, pc, c, h and l
   * parse; the quote takes c as current, o as opening, pc as closing, h and l as high and low.
   */
  function MapStockQuote(dto: FHStockQuoteDTO, symbol: string, parseDouble: Parser<real>): (r: Option<StockQuote>)
    ensures IsNullOrEmpty(dto.differencePercentage) ==> r.None?
    ensures r.Some? <==>
      && !IsNullOrEmpty(dto.differencePercentage)
      && TryParseDouble(parseDouble, dto.openPrice).Some?
      && TryParseDouble(parseDouble, dto.previousClosePrice).Some?
      && TryParseDouble(parseDouble, dto.currentPrice).Some?
      && TryParseDouble(parseDouble, dto.highPrice).Some?
      && TryParseDouble(parseDouble, dto.lowPrice).Some?
    ensures r.Some? ==>
      && r.value.ticker == symbol
      && Some(r.value.currentPrice) == parseDouble(dto.currentPrice.value)
      && Some(r.value.openingPrice) == parseDouble(dto.openPrice.value)
      && Some(r.value.closingPrice) == parseDouble(dto.previousClosePrice.value)
      && Some(r.value.high) == parseDouble(dto.highPrice.value)
      && Some(r.value.low) == parseDouble(dto.lowPrice.value)
  {
    if IsNullOrEmpty(dto.differencePercentage) then None
    else
      var openingPrice := TryParseDouble(parseDouble, dto.openPrice);
      if openingPrice.None? then None
      else
        var previousClosePrice := TryParseDouble(parseDouble, dto.previousClosePrice);
        if previousClosePrice.None? then None
        else
          var currentPrice := TryParseDouble(parseDouble, dto.currentPrice);
          if currentPrice.None? then None
          else
            var high := TryParseDouble(parseDouble, dto.highPrice);
            if high.None? then None
            else
              var low := TryParseDouble(parseDouble, dto.lowPrice);
              if low.None? then None
              else
                Some(StockQuote(
                  ticker := symbol,
                  currentPrice := currentPrice.value,
                  openingPrice := openingPrice.value,
                  closingPrice := previousClosePrice.value,
                  high := high.value,
                  low := low.value))
  }

  /** "d" and "t" never influence the quote, and "dp" only through being present and non-empty. */
  lemma QuoteIgnoresChangeFields(dto: FHStockQuoteDTO, symbol: string, parseDouble: Parser<real>,
                                 dp: Option<string>, d: Option<string>, t: Option<string>)
    requires !IsNullOrEmpty(dp) && !IsNullOrEmpty(dto.differencePercentage)
    ensures MapStockQuote(dto.(differencePercentage := dp, difference := d, timestamp := t), symbol, parseDouble)
         == MapStockQuote(dto, symbol, parseDouble)
  {
  }

  /** The number of articles `MapStockNews` returns. */
  const ArticleCount: nat := 4

  /** The fields a news item must have non-empty; the image may be missing (only logged). */
  predicate NewsDtoAccepted(a: FHStockNewsArticleDTO) {
    && !IsNullOrEmpty(a.timeStamp)
    && !IsNullOrEmpty(a.headline)
    && !IsNullOrEmpty(a.source)
    && !IsNullOrEmpty(a.summary)
    && !IsNullOrEmpty(a.url)
  }

  /** The article built from an accepted item, with `now` the clock reading taken while building it. */
  function ToArticle(a: FHStockNewsArticleDTO, parseDouble: Parser<real>, now: DateTime): Result<StockNewsArticle, ArgumentOutOfRangeException>
    requires NewsDtoAccepted(a)
  {
    NewStockNewsArticle(a.timeStamp.value, a.headline.value, a.image, a.source.value, a.summary.value, a.url.value, parseDouble, now)
  }

  /** An item that passes the checks and whose article is built without the date conversion throwing. */
  predicate Buildable(a: FHStockNewsArticleDTO, parseDouble: Parser<real>, now: DateTime) {
    NewsDtoAccepted(a) && ToArticle(a, parseDouble, now).Ok?
  }

  /**
   * Outcome of `MapStockNews`: the list, null (`Rejected`), the `ArgumentOutOfRangeException`
   * of a timestamp outside years 1 to 9999, or that of indexing past the end of a short list.
   */
  datatype NewsOutcome = Mapped(articles: seq<StockNewsArticle>) | Rejected | DateOutOfRange | IndexOutOfRange

  /**
   * `MapStockNews`: the first four items in order. It stops at the first item that lacks a
   * required field (null) or whose timestamp does not convert (the exception propagates), and
   * with an index fault when fewer than four are given and none of them stops it.
   * `clock(k)` is `DateTime.Now` while the k-th article is built.
   */
  method MapStockNews(dtoList: seq<FHStockNewsArticleDTO>, symbol: string, parseDouble: Parser<real>, clock: nat -> DateTime)
    returns (r: NewsOutcome)
    ensures r.Mapped? <==> |dtoList| >= ArticleCount && forall j :: 0 <= j < ArticleCount ==> Buildable(dtoList[j], parseDouble, clock(j))
    ensures r.Rejected? <==>
      exists j :: (0 <= j < ArticleCount && j < |dtoList| && !NewsDtoAccepted(dtoList[j])
                   && forall k :: 0 <= k < j ==> Buildable(dtoList[k], parseDouble, clock(k)))
    ensures r.DateOutOfRange? <==>
      exists j :: (0 <= j < ArticleCount && j < |dtoList| && NewsDtoAccepted(dtoList[j])
                   && !Buildable(dtoList[j], parseDouble, clock(j))
                   && forall k :: 0 <= k < j ==> Buildable(dtoList[k], parseDouble, clock(k)))
    ensures r.Mapped? ==>
      && |r.articles| == ArticleCount
      && forall j :: 0 <= j < ArticleCount ==> r.articles[j] == ToArticle(dtoList[j], parseDouble, clock(j)).value
  {
    var articles: seq<StockNewsArticle> := [];
    var i := 0;
    while |articles| <= 3
      invariant i == |articles| <= ArticleCount
      invariant i <= |dtoList|
      invariant forall j :: 0 <= j < i ==> Buildable(dtoList[j], parseDouble, clock(j))
      invariant forall j :: 0 <= j < i ==> articles[j] == ToArticle(dtoList[j], parseDouble, clock(j)).value
    {
      if i >= |dtoList| {
        return IndexOutOfRange;
      }
      var a := dtoList[i];
      if IsNullOrEmpty(a.timeStamp) || IsNullOrEmpty(a.headline) || IsNullOrEmpty(a.source)
         || IsNullOrEmpty(a.summary) || IsNullOrEmpty(a.url) {
        return Rejected;
      }
      var newArticle := ToArticle(a, parseDouble, clock(i));
      if newArticle.Err? {
        return DateOutOfRange;
      }
      articles := articles + [newArticle.value];
      i := i + 1;
    }
    return Mapped(articles);
  }
}
