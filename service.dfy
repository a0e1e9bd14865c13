/**
 * The error and result types of the URL-session service
 * (RijksMuseum/Service/Service.swift). The service itself performs I/O; it
 * appears in this model only as a function from the query's URL string to
 * its result.
 */
module Service {
  import opened Wrappers
  import opened Foundation

  /** `.invalidQuery` when `getUrl()` gives no URL, `.requestError` for a transport failure. */
  datatype ServiceLoadingError = InvalidQuery | RequestError(cause: AnyError)

  type ServiceLoadingResult = Result<Data, ServiceLoadingError>

  /**
   * `service.getData(query:)`, seen from the string the query's `getUrl()` parses:
   * the gateways are given `s => GetData(parse, send, s)`.
   */
  type Fetch = string -> ServiceLoadingResult

  /**
   * `getData(query:)` for the query whose URL string is `s`. `URL(string:)`
   * is `parse`; the session's data task is `send`, which yields the bytes or
   * the transport error. A string that does not parse is answered with
   * `.invalidQuery` and nothing is sent; otherwise the bytes pass through and
   * a transport error `e` becomes `.requestError(e)`.
   */
  function GetData(parse: UrlParser, send: Url -> Result<Data, AnyError>, s: string): (r: ServiceLoadingResult)
    ensures parse(s).None? <==> r == Failure(InvalidQuery)
    ensures parse(s).Some? ==>
      var sent := send(parse(s).value);
      && (r.Success? <==> sent.Success?)
      && (r.Success? ==> r.value == sent.value)
      && (r.Failure? ==> r.error == RequestError(sent.error))
  {
    match parse(s)
    case None => Failure(InvalidQuery)
    case Some(url) =>
      match send(url)
      case Success(data) => Success(data)
      case Failure(e) => Failure(RequestError(e))
  }
}
