/**
 * `ApiBuilder.requestWebPage`: one GET of the built URL, then a decision on
 * the status code. The transport, the URI conversion and the decoding of
 * the error envelope are foreign code and arrive as the fields of a
 * `Network` value.
 */
module Request {
  import opened Wrappers
  import opened Json
  import opened UrlBuilder

  /** The error envelope (`ImdbError`): its `@type` tag and the status message it carries. */
  datatype ImdbError = ImdbError(kind: string, statusMessage: string)

  /** The kinds of `ImdbException` this pipeline raises. */
  datatype ImdbExceptionType = Http503Error | Http404Error | InvalidUrl | ConnectionError

  /** The exception an `ImdbException` is built around, which `getCause()` returns. */
  datatype Cause =
      /** `URISyntaxException` from `url.toURI()`. */
    | UriSyntax
      /** The `IOException` the HTTP client threw, with its message. */
    | Transport(message: string)
      /** Jackson's exception from decoding an error body as the envelope: the failed decode itself. */
    | EnvelopeDecode(failure: Decoded<ImdbError>)

  /**
   * An `ImdbException`: its kind, the response text it was given, the URL
   * requested, and its cause (`None` for the constructor without one).
   */
  datatype ImdbException = ImdbException(kind: ImdbExceptionType, response: string, url: Url, cause: Option<Cause>)

  /** What the HTTP client hands back: status code and body text. */
  datatype Response = Response(statusCode: int, content: string)

  datatype Network = Network(
    /** Whether `url.toURI()` succeeds rather than throwing `URISyntaxException`. */
    toUri: Url -> bool,
    /** `httpClient.requestContent`: a response, or the message of the `IOException` it threw. */
    fetch: Url -> Result<Response, string>,
    /** Jackson decoding a body as the error envelope. */
    readError: string -> Decoded<ImdbError>)

  const InvalidUrlText: string := "Invalid URL"
  const ConnectionErrorText: string := "Error retrieving URL"

  /**
   * The status branch: 500 and above is a server error, 300 to 499 a
   * client or redirect error, anything lower a success. Every code lands in
   * exactly one class.
   */
  function ErrorKindFor(statusCode: int): (k: Option<ImdbExceptionType>)
    ensures k == Some(Http503Error) <==> statusCode >= 500
    ensures k == Some(Http404Error) <==> 300 <= statusCode < 500
    ensures k == None <==> statusCode < 300
  {
    if statusCode >= 500 then Some(Http503Error)
    else if statusCode >= 300 then Some(Http404Error)
    else None
  }

  /** The GET went out and a response came back. */
  predicate Delivered(url: Url, net: Network) {
    net.toUri(url) && net.fetch(url).Success?
  }

  /**
   * The server answered with an error status of class `kind` and a body
   * that decodes as an envelope whose status message is `message`.
   */
  predicate ServedError(url: Url, net: Network, kind: ImdbExceptionType, message: string) {
    && Delivered(url, net)
    && ErrorKindFor(net.fetch(url).value.statusCode) == Some(kind)
    && net.readError(net.fetch(url).value.content).Decoded?
    && net.readError(net.fetch(url).value.content).value.statusMessage == message
  }

  /**
   * An error status: decode the body as the envelope and raise its message
   * under `kind`, with no cause. A body that does not decode throws an
   * `IOException` inside the same `try`, which the handler turns into a
   * connection error whose cause is that decoding exception.
   */
  function RaiseFor(kind: ImdbExceptionType, content: string, url: Url, net: Network): Result<string, ImdbException> {
    match net.readError(content)
    case Decoded(error) => Failure(ImdbException(kind, error.statusMessage, url, None))
    case _ => Failure(ImdbException(ConnectionError, ConnectionErrorText, url, Some(EnvelopeDecode(net.readError(content)))))
  }

  function RequestWebPage(url: Url, net: Network): (r: Result<string, ImdbException>)
    ensures r.Success? <==> Delivered(url, net) && net.fetch(url).value.statusCode < 300
    ensures r.Success? ==> r.value == net.fetch(url).value.content
    ensures r.Failure? ==> r.error.url == url
    ensures (r.Failure? && r.error.kind == InvalidUrl) <==> !net.toUri(url)
    ensures r.Failure? && r.error.kind == InvalidUrl ==>
              r.error.response == "Invalid URL" && r.error.cause == Some(UriSyntax)
    ensures r.Failure? && r.error.kind in {Http503Error, Http404Error} ==>
              ServedError(url, net, r.error.kind, r.error.response) && r.error.cause.None?
    ensures forall kind, message :: ServedError(url, net, kind, message) ==>
              r == Failure(ImdbException(kind, message, url, None))
    ensures (r.Failure? && r.error.kind == ConnectionError) <==>
              net.toUri(url)
              && (net.fetch(url).Failure?
                  || (net.fetch(url).value.statusCode >= 300
                      && !net.readError(net.fetch(url).value.content).Decoded?))
    ensures r.Failure? && r.error.kind == ConnectionError ==> r.error.response == "Error retrieving URL"
    ensures r.Failure? && r.error.kind == ConnectionError && net.fetch(url).Failure? ==>
              r.error.cause == Some(Transport(net.fetch(url).error))
    ensures r.Failure? && r.error.kind == ConnectionError && net.fetch(url).Success? ==>
              r.error.cause == Some(EnvelopeDecode(net.readError(net.fetch(url).value.content)))
  {
    if !net.toUri(url) then
      Failure(ImdbException(InvalidUrl, InvalidUrlText, url, Some(UriSyntax)))
    else
      match net.fetch(url)
      case Failure(message) => Failure(ImdbException(ConnectionError, ConnectionErrorText, url, Some(Transport(message))))
      case Success(response) =>
        if response.statusCode >= 500 then RaiseFor(Http503Error, response.content, url, net)
        else if response.statusCode >= 300 then RaiseFor(Http404Error, response.content, url, net)
        else Success(response.content)
  }

  /**
   * An error page whose body is not a readable envelope raises the same
   * kind, text and URL as a failed connection, and the status code leaves
   * no trace: any other error code with the same body gives the same
   * exception. Only the cause tells the two apart, carrying the decoder's
   * failure instead of a transport exception.
   */
  lemma {:induction false} UnreadableErrorBodyIsConnectionError(url: Url, net: Network, otherCode: int, ioMessage: string)
    requires Delivered(url, net)
    requires net.fetch(url).value.statusCode >= 300
    requires !net.readError(net.fetch(url).value.content).Decoded?
    requires otherCode >= 300
    ensures var r := RequestWebPage(url, net);
            var lost := RequestWebPage(url, net.(fetch := u => Failure(ioMessage)));
            && r.Failure? && lost.Failure?
            && r.error.(cause := None) == lost.error.(cause := None)
            && r.error.cause == Some(EnvelopeDecode(net.readError(net.fetch(url).value.content)))
            && r.error.cause != lost.error.cause
    ensures var content := net.fetch(url).value.content;
            RequestWebPage(url, net) == RequestWebPage(url, net.(fetch := u => Success(Response(otherCode, content))))
  {
  }
}
