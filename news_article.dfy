/**
 * `StockNewsArticle`: a news item whose constructor truncates long summaries and turns
 * the Unix timestamp text into a date. A date is its offset in seconds from the Unix epoch.
 */
module NewsArticles {
  import opened Wrappers
  import opened Text

  datatype DateTime = DateTime(secondsSinceEpoch: real)

  const UnixEpoch := DateTime(0.0)

  /** `DateTime.MinValue` (0001-01-01) in seconds from the Unix epoch. */
  const MinDateTimeSeconds: real := -62135596800.0
  /** The first instant past `DateTime.MaxValue` (the end of 9999-12-31). */
  const EndOfDateTimeSeconds: real := 253402300800.0

  /** The instants a `DateTime` can hold, years 1 to 9999. */
  predicate InDateTimeRange(seconds: real) {
    MinDateTimeSeconds <= seconds < EndOfDateTimeSeconds
  }

  /** The exception `AddSeconds` throws when the result is not a representable date. */
  datatype ArgumentOutOfRangeException = ArgumentOutOfRangeException

  /** `d.AddSeconds(seconds)`: throws when the sum leaves years 1 to 9999. */
  function AddSeconds(d: DateTime, seconds: real): (r: Result<DateTime, ArgumentOutOfRangeException>)
    ensures r.Ok? <==> InDateTimeRange(d.secondsSinceEpoch + seconds)
    ensures r.Ok? ==> r.value.secondsSinceEpoch == d.secondsSinceEpoch + seconds
  {
    var sum := d.secondsSinceEpoch + seconds;
    if InDateTimeRange(sum) then Ok(DateTime(sum)) else Err(ArgumentOutOfRangeException)
  }

  const MaxSummaryLength: nat := 200
  const KeptSummaryLength: nat := 100
  const Ellipsis := "..."

  datatype StockNewsArticle = StockNewsArticle(
    dateOfArticle: DateTime,
    headline: string,
    imageUrl: Option<string>,
    source: string,
    summary: string,
    url: string)

  /** A summary over 200 characters keeps its first 100 and gains "..."; a shorter one is kept whole. */
  function TruncateSummary(summary: string): (r: string)
    ensures |r| <= MaxSummaryLength
    ensures |summary| <= MaxSummaryLength ==> r == summary
    ensures |summary| > MaxSummaryLength ==>
      |r| == KeptSummaryLength + |Ellipsis| && r[..KeptSummaryLength] == summary[..KeptSummaryLength] && r[KeptSummaryLength..] == Ellipsis
  {
    if |summary| > MaxSummaryLength then summary[..KeptSummaryLength] + Ellipsis else summary
  }

  /** A stored summary is stored unchanged when an article is built from it again. */
  lemma TruncateIdempotent(summary: string)
    ensures TruncateSummary(TruncateSummary(summary)) == TruncateSummary(summary)
  {
  }

  /**
   * A numeric timestamp counts seconds from the Unix epoch, and one outside years 1 to 9999
   * throws; any other text gives the current time, `now`.
   */
  function ConvertTimestampToDatetime(ts: string, parseDouble: Parser<real>, now: DateTime): (r: Result<DateTime, ArgumentOutOfRangeException>)
    ensures parseDouble(ts).Some? ==> (r.Ok? <==> InDateTimeRange(parseDouble(ts).value))
    ensures parseDouble(ts).Some? && r.Ok? ==> r.value.secondsSinceEpoch == parseDouble(ts).value
    ensures parseDouble(ts).None? ==> r == Ok(now)
  {
    match parseDouble(ts)
    case Some(seconds) => AddSeconds(UnixEpoch, seconds)
    case None => Ok(now)
  }

  /**
   * `new StockNewsArticle(timeStamp, headline, imageUrl, source, summary, url)`: throws
   * exactly when the timestamp conversion does.
   */
  function NewStockNewsArticle(
    timeStamp: string, headline: string, imageUrl: Option<string>, source: string, summary: string, url: string,
    parseDouble: Parser<real>, now: DateTime): (r: Result<StockNewsArticle, ArgumentOutOfRangeException>)
    ensures r.Ok? <==> ConvertTimestampToDatetime(timeStamp, parseDouble, now).Ok?
    ensures r.Ok? ==>
      && r.value.headline == headline && r.value.imageUrl == imageUrl && r.value.source == source && r.value.url == url
      && |r.value.summary| <= MaxSummaryLength
      && r.value.summary == TruncateSummary(summary)
      && r.value.dateOfArticle == ConvertTimestampToDatetime(timeStamp, parseDouble, now).value
  {
    match ConvertTimestampToDatetime(timeStamp, parseDouble, now)
    case Err(e) => Err(e)
    case Ok(date) => Ok(StockNewsArticle(date, headline, imageUrl, source, TruncateSummary(summary), url))
  }

  /** The clock is read only for a timestamp that does not parse. */
  lemma NumericTimestampIgnoresClock(ts: string, parseDouble: Parser<real>, now1: DateTime, now2: DateTime)
    requires parseDouble(ts).Some?
    ensures ConvertTimestampToDatetime(ts, parseDouble, now1) == ConvertTimestampToDatetime(ts, parseDouble, now2)
  {
  }

  /**
   * A timestamp in milliseconds rather than seconds, such as 1e12, lands after year 9999,
   * and one of -1e11 lands before year 1: both throw instead of giving a date.
   */
  lemma OutOfRangeTimestampsThrow(parseDouble: Parser<real>, now: DateTime)
    requires parseDouble("1e12") == Some(1000000000000.0)
    requires parseDouble("-1e11") == Some(-100000000000.0)
    ensures ConvertTimestampToDatetime("1e12", parseDouble, now).Err?
    ensures ConvertTimestampToDatetime("-1e11", parseDouble, now).Err?
  {
  }
}
