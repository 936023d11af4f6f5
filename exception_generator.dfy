/**
 * `ExceptionGenerator` and the two application exceptions it builds.
 *
 * Both exceptions carry a technical `Message` and a chat-facing `UserFriendlyMessage`,
 * but their constructors take them in opposite orders:
 * `StockDataNotFoundException(message, userFriendlyMessage, inner)` and
 * `ExternalServiceException(userFriendlyMessage, message, inner)`.
 * The generator passes the "Sorry, ..." text first to both, so for
 * `StockDataNotFoundException` it lands in `Message` and the log text in
 * `UserFriendlyMessage`. `GenerateNon200StatusCodeException` and
 * `GenerateDataNotFoundException` model that as written, and the quote handler calls them;
 * the `Intended...` functions put each text where the callers read it.
 */
module Exceptions {
  import opened Wrappers
  import opened Text
  import opened HttpStatus

  datatype ExceptionKind = StockDataNotFound | ExternalService

  /** The exception passed through as `innerException`. */
  datatype InnerException = InnerException(typeName: string, message: string)

  datatype AppException = AppException(
    kind: ExceptionKind,
    message: string,
    userFriendlyMessage: string,
    inner: Option<InnerException>)

  /** `new StockDataNotFoundException(message, userFriendlyMessage, innerException)` */
  function NewStockDataNotFoundException(message: string, userFriendlyMessage: string, inner: Option<InnerException>): AppException {
    AppException(StockDataNotFound, message, userFriendlyMessage, inner)
  }

  /** `new ExternalServiceException(userFriendlyMessage, message, innerException)` */
  function NewExternalServiceException(userFriendlyMessage: string, message: string, inner: Option<InnerException>): AppException {
    AppException(ExternalService, message, userFriendlyMessage, inner)
  }

  const TooManyRequestsText := "Oops! I'm getting too many requests right now. Please try again in a minute."
  const NotFoundWithoutIdentifierText := "The requested information could not be found. It might be invalid or no longer exists."
  const BadRequestText := "There was a problem with my request to the service. Please try again or contact support."
  const ConfigurationText := "I'm having trouble connecting to the external service. This is likely a configuration issue on my end."
  const UnavailableText := "The external service is currently unavailable or unresponsive. Please try again in a few minutes."
  const InternalErrorText := "An unexpected error occurred with the external service. Please try again later."
  const UnexpectedText := "An unexpected problem occurred while processing your request. I'll let my developer know!"

  /** The `ExternalServiceException` text of each branch of the status switch. */
  function ExternalServiceText(statusCode: int): string {
    if statusCode == TooManyRequests then TooManyRequestsText
    else if statusCode == NotFound then NotFoundWithoutIdentifierText
    else if statusCode == BadRequest then BadRequestText
    else if statusCode == Unauthorized || statusCode == Forbidden then ConfigurationText
    else if statusCode == ServiceUnavailable || statusCode == BadGateway || statusCode == GatewayTimeout then UnavailableText
    else if statusCode == InternalServerError then InternalErrorText
    else UnexpectedText
  }

  /** The status codes the switch names; every other code takes the `default` branch. */
  predicate IsListedStatus(statusCode: int) {
    statusCode in {TooManyRequests, NotFound, BadRequest, Unauthorized, Forbidden,
                   ServiceUnavailable, BadGateway, GatewayTimeout, InternalServerError}
  }

  /** The log text of a non-200 response: a null identifier reads "unknown", a null API message "N/A". */
  function Non200LogMessage(statusCode: int, commandType: string, identifier: Option<string>, apiResponseMessage: Option<string>): string {
    "External API error during " + commandType + " for " + identifier.GetOr("unknown")
    + ". Status: " + StatusName(statusCode) + ". Original message: '" + apiResponseMessage.GetOr("N/A") + "'"
  }

  /** The chat text of a 404 for a named identifier (a null identifier interpolates as empty). */
  function NotFoundText(identifier: Option<string>): string {
    "Sorry, I couldn't find any data for '" + identifier.GetOr("") + "'. Please check if it's correct."
  }

  /** A 404 names the missing stock only when there is a non-blank identifier. */
  predicate IsStockNotFound(statusCode: int, identifier: Option<string>) {
    statusCode == NotFound && !IsNullOrWhiteSpace(identifier)
  }

  /** `GenerateNon200StatusCodeException`, as written. */
  function GenerateNon200StatusCodeException(
    statusCode: int,
    commandType: string,
    identifier: Option<string>,
    apiResponseMessage: Option<string> := None,
    innerException: Option<InnerException> := None): (e: AppException)
    ensures e.kind == StockDataNotFound <==> IsStockNotFound(statusCode, identifier)
    ensures e.inner == innerException
    ensures e.kind == ExternalService ==>
      && e.userFriendlyMessage == ExternalServiceText(statusCode)
      && e.message == Non200LogMessage(statusCode, commandType, identifier, apiResponseMessage)
    ensures e.kind == StockDataNotFound ==>
      && e.message == NotFoundText(identifier)
      && e.userFriendlyMessage == Non200LogMessage(statusCode, commandType, identifier, apiResponseMessage)
  {
    var log := Non200LogMessage(statusCode, commandType, identifier, apiResponseMessage);
    if IsStockNotFound(statusCode, identifier) then
      NewStockDataNotFoundException(NotFoundText(identifier), log, innerException)
    else
      NewExternalServiceException(ExternalServiceText(statusCode), log, innerException)
  }

  /** The log text of a missing-data result; a null identifier reads "unknown". */
  function DataNotFoundLogMessage(commandType: string, identifier: Option<string>, technicalReason: string): string {
    "Data not found during " + commandType + " for " + identifier.GetOr("unknown")
    + ". Technical reason: '" + technicalReason + "'."
  }

  /** The chat text of a missing-data result. */
  function DataNotFoundText(identifier: Option<string>): string {
    "Sorry, I couldn't find any data for '" + identifier.GetOr("") + "'. Please check your input or try again."
  }

  /** `GenerateDataNotFoundException`, as written: always a `StockDataNotFoundException`. */
  function GenerateDataNotFoundException(
    commandType: string,
    identifier: Option<string>,
    technicalReason: string,
    innerException: Option<InnerException> := None): (e: AppException)
    ensures e.kind == StockDataNotFound && e.inner == innerException
    ensures e.message == DataNotFoundText(identifier)
    ensures e.userFriendlyMessage == DataNotFoundLogMessage(commandType, identifier, technicalReason)
  {
    NewStockDataNotFoundException(
      DataNotFoundText(identifier),
      DataNotFoundLogMessage(commandType, identifier, technicalReason),
      innerException)
  }

  /** `GenerateNon200StatusCodeException` with the chat text in `UserFriendlyMessage` on every branch. */
  function IntendedNon200StatusCodeException(
    statusCode: int,
    commandType: string,
    identifier: Option<string>,
    apiResponseMessage: Option<string> := None,
    innerException: Option<InnerException> := None): (e: AppException)
    ensures e.kind == StockDataNotFound <==> IsStockNotFound(statusCode, identifier)
    ensures e.inner == innerException
    ensures e.message == Non200LogMessage(statusCode, commandType, identifier, apiResponseMessage)
    ensures e.userFriendlyMessage ==
      if e.kind == StockDataNotFound then NotFoundText(identifier) else ExternalServiceText(statusCode)
  {
    var log := Non200LogMessage(statusCode, commandType, identifier, apiResponseMessage);
    if IsStockNotFound(statusCode, identifier) then
      NewStockDataNotFoundException(log, NotFoundText(identifier), innerException)
    else
      NewExternalServiceException(ExternalServiceText(statusCode), log, innerException)
  }

  /** `GenerateDataNotFoundException` with the chat text in `UserFriendlyMessage`. */
  function IntendedDataNotFoundException(
    commandType: string,
    identifier: Option<string>,
    technicalReason: string,
    innerException: Option<InnerException> := None): (e: AppException)
    ensures e.kind == StockDataNotFound && e.inner == innerException
    ensures e.message == DataNotFoundLogMessage(commandType, identifier, technicalReason)
    ensures e.userFriendlyMessage == DataNotFoundText(identifier)
  {
    NewStockDataNotFoundException(
      DataNotFoundLogMessage(commandType, identifier, technicalReason),
      DataNotFoundText(identifier),
      innerException)
  }

  /** 401 and 403 share one text; 502, 503 and 504 share another; every unlisted code gets the default text. */
  lemma SharedTexts(statusCode: int)
    ensures ExternalServiceText(Unauthorized) == ExternalServiceText(Forbidden) == ConfigurationText
    ensures ExternalServiceText(BadGateway) == ExternalServiceText(ServiceUnavailable) == ExternalServiceText(GatewayTimeout) == UnavailableText
    ensures ExternalServiceText(TooManyRequests) == TooManyRequestsText
    ensures !IsListedStatus(statusCode) ==> ExternalServiceText(statusCode) == UnexpectedText
  {
  }

  /**
   * The as-written generator and the intended one build the same exception, except that
   * for `StockDataNotFoundException` the two texts trade places.
   */
  lemma AsWrittenSwapsNotFoundTexts(
    statusCode: int, commandType: string, identifier: Option<string>,
    apiResponseMessage: Option<string>, innerException: Option<InnerException>)
    ensures
      var w := GenerateNon200StatusCodeException(statusCode, commandType, identifier, apiResponseMessage, innerException);
      var i := IntendedNon200StatusCodeException(statusCode, commandType, identifier, apiResponseMessage, innerException);
      && w.kind == i.kind && w.inner == i.inner
      && (w.kind == ExternalService ==> w == i)
      && (w.kind == StockDataNotFound ==> w.message == i.userFriendlyMessage && w.userFriendlyMessage == i.message)
  {
  }

  /** The log text of the missing "FAKE" quote has no capital 'S'. */
  lemma FakeQuoteLogLacksS()
    ensures 'S' !in DataNotFoundLogMessage("quote", Some("FAKE"), "Technical error")
  {
    assert DataNotFoundLogMessage("quote", Some("FAKE"), "Technical error")
      == "Data not found during " + "quote" + " for " + "FAKE" + ". Technical reason: '" + "Technical error" + "'.";
  }

  /**
   * The repository's quote-handler test expects the `UserFriendlyMessage` of a missing quote
   * for "FAKE" to contain "Sorry, I couldn't find any data for 'FAKE'". As written it holds
   * the log text instead, which lacks even the letter 'S'; the text sits in `Message`.
   */
  lemma DataNotFoundFriendlyTextMisplaced()
    ensures !Contains(GenerateDataNotFoundException("quote", Some("FAKE"), "Technical error").userFriendlyMessage,
                      "Sorry, I couldn't find any data for 'FAKE'")
    ensures Contains(GenerateDataNotFoundException("quote", Some("FAKE"), "Technical error").message,
                     "Sorry, I couldn't find any data for 'FAKE'")
  {
    var sorry := "Sorry, I couldn't find any data for 'FAKE'";
    FakeQuoteLogLacksS();
    NotContainsMissingChar(DataNotFoundLogMessage("quote", Some("FAKE"), "Technical error"), sorry, 'S');
    DataNotFoundTextNamesIdentifier("FAKE");
    assert "Sorry, I couldn't find any data for '" + "FAKE" + "'" == sorry;
  }

  /** The chat text of a missing-data result names the identifier. */
  lemma {:induction false} DataNotFoundTextNamesIdentifier(id: string)
    ensures Contains(DataNotFoundText(Some(id)), "Sorry, I couldn't find any data for '" + id + "'")
  {
    var head := "Sorry, I couldn't find any data for '" + id + "'";
    var tail := ". Please check your input or try again.";
    assert DataNotFoundText(Some(id)) == head + tail;
    ContainsPrefix(head, tail);
  }

  /** With the intended construction the chat text of a missing-data result names the identifier. */
  lemma {:induction false} IntendedNamesIdentifier(commandType: string, id: string, technicalReason: string)
    ensures Contains(IntendedDataNotFoundException(commandType, Some(id), technicalReason).userFriendlyMessage,
                     "Sorry, I couldn't find any data for '" + id + "'")
  {
    DataNotFoundTextNamesIdentifier(id);
  }

  /** A 404 with a blank identifier is an external-service error, never a not-found. */
  lemma BlankIdentifierIsExternal(commandType: string, identifier: Option<string>, apiResponseMessage: Option<string>)
    requires IsNullOrWhiteSpace(identifier)
    ensures GenerateNon200StatusCodeException(NotFound, commandType, identifier, apiResponseMessage).kind == ExternalService
    ensures GenerateNon200StatusCodeException(NotFound, commandType, identifier, apiResponseMessage).userFriendlyMessage == NotFoundWithoutIdentifierText
  {
  }
}
