# IMDb app API client: request pipeline model

A Dafny model of the request pipeline of `ApiBuilder`, the class at the
centre of this client library for the IMDb iPhone-app web API. The model
uses pure functions. The process-wide state (HTTP client and locale) and
the foreign collaborators (clock, `java.net.URL`, HTTP transport, Jackson)
are passed in as explicit values. The pipeline has three parts.

- **URL assembly** (`buildUrl`), in `UrlBuilder`. The URL is made of:
  - the base `http://app.imdb.com/` and the function path;
  - `?api=v1&appid=iphone1&locale=<locale>&timestamp=<seconds>`;
  - the caller's arguments as `&key=value`, in iteration order and unescaped;
  - the trailer `&sig=app1`.

  A text that `new URL` rejects gives no URL.
- **Status classification** (`requestWebPage`), in `Request`:
  - 500 and above raise `HTTP_503_ERROR`;
  - 300 to 499 raise `HTTP_404_ERROR`;
  - both carry the status message decoded from the error body;
  - anything lower returns the body unchanged;
  - a bad URI raises `INVALID_URL`, with the `URISyntaxException` as cause;
  - a transport `IOException` raises `CONNECTION_ERROR`, with that
    exception as cause.
- **Outcome wrapping** (`getWrapper`, `getSearchWrapper`, `getResponse`), in
  `ResultWrapper`. Success yields the decoded object, which is null when the
  page is the JSON literal `null`. Any caught exception yields the blank
  object, with a status message made of the handler's literal prefix and the
  exception's text.

Supporting modules:

- `Wrappers`: `Option` and `Result`.
- `Json`: the abstract outcome of a Jackson decode (a value, or a parse,
  mapping or other read failure).
- `Decimal`: Java `long`, its truncating division, `Long.toString`, and a
  reader for that text.
- `Query`: `key=value` rendering and a reference query-string reader. The
  reader cuts the fragment off at the first `#`, takes the query behind the
  first `?`, splits it at `&`, then each field at its first `=`. The URL's
  contents are stated against this reader.

The model follows the code in these places, where a reader might expect
something else:

- An error body that cannot be decoded might be expected to surface as its
  own decode failure. It does not get an exception kind of its own.
  Jackson's exception is an `IOException` thrown inside the same `try`, so
  it becomes `CONNECTION_ERROR` "Error retrieving
  URL" with the decoding exception as its cause, and the status code is
  lost. `Request.UnreadableErrorBodyIsConnectionError` states this: only the
  cause tells it apart from a lost connection.
- The `ImdbException` handler writes the prefix `ImdbExceptio2n: `, as spelled
  in the source.
- Because nothing is escaped, a value containing `&k=v` produces the same
  URL as two separate arguments (`UrlBuilder.UnescapedValueSplitsArgument`).
  A `#` anywhere in the path, locale or arguments starts the URL's fragment,
  which the request does not send. "Each argument exactly once" therefore
  holds only for arguments that need no escaping
  (`UrlBuilder.CallerKeysOccurOnce`).
- `getSearchWrapper` and `getResponse` return what a getter
  (`getSearchData()`, `getResult()`) reads from the wrapper. After a failure
  that wrapper is the blank object carrying the status message. The getters
  are not part of this model, so whether the message is passed on to the
  caller is left to them.

## Model

| member | source | states |
|---|---|---|
| `Decimal.TruncDiv` | src/main/java/com/omertron/imdbapi/tools/ApiBuilder.java:83 | Java integer division rounds toward zero: the remainder is in [0, b) for a non-negative dividend and in (-b, 0] for a negative one |
| `UrlBuilder.Timestamp` | src/main/java/com/omertron/imdbapi/tools/ApiBuilder.java:83 | the timestamp is the clock's milliseconds divided by 1000, rounded toward zero: `1000*s <= ms < 1000*s + 1000` for a non-negative clock, mirrored for a negative one |
| `Decimal.LongToString` | src/main/java/com/omertron/imdbapi/tools/ApiBuilder.java:83 | the decimal text appended for a `long` starts with `-` exactly for a negative value and has no leading zero: `0` is written `0`, and there is no `-0` |
| `Decimal.LongToStringReadsBack` | src/main/java/com/omertron/imdbapi/tools/ApiBuilder.java:83 | the decimal text appended for a `long` is well formed and reads back to the same value |
| `UrlBuilder.TimestampReadsBack` | src/main/java/com/omertron/imdbapi/tools/ApiBuilder.java:83 | the fourth parameter is `timestamp` and its value reads back as the clock divided by 1000, rounded toward zero |
| `UrlBuilder.Assemble` | src/main/java/com/omertron/imdbapi/tools/ApiBuilder.java:77-90 | the URL text starts with the head (base, path, fixed parameters) and ends with `&sig=app1`; with no arguments it is exactly the head followed by `&sig=app1` |
| `UrlBuilder.HeadSpelledOut` | src/main/java/com/omertron/imdbapi/tools/ApiBuilder.java:77-83 | the head is literally `http://app.imdb.com/` + path + `?api=v1&appid=iphone1&locale=` + locale + `&timestamp=` + seconds |
| `UrlBuilder.AppendArguments` | src/main/java/com/omertron/imdbapi/tools/ApiBuilder.java:85-88 | the loop over the argument map appends exactly the entries `&key=value` of all arguments, in iteration order |
| `UrlBuilder.ArgumentInPlace` | src/main/java/com/omertron/imdbapi/tools/ApiBuilder.java:85-88 | argument i appears verbatim as `&key=value`, after the entries of the arguments before it and before those after it, then `&sig=app1` |
| `UrlBuilder.UnescapedValueSplitsArgument` | src/main/java/com/omertron/imdbapi/tools/ApiBuilder.java:85-88 | values are not escaped: an argument whose value ends in `&k=v` gives the same URL as two separate arguments |
| `UrlBuilder.AssembleIsRender` | src/main/java/com/omertron/imdbapi/tools/ApiBuilder.java:77-90 | the URL is base + path + `?` + the query of the fixed parameters, the caller's arguments and the signature, in that order |
| `UrlBuilder.BuiltQueryReadsBack` | src/main/java/com/omertron/imdbapi/tools/ApiBuilder.java:77-90 | read back by a query-string reader, the URL yields exactly api, appid, locale, timestamp, then the caller's arguments in order, then sig. The fragment, from the first `#`, is not part of the query. This needs a path without `?` or `#`, a locale without `&` or `#`, and arguments that need no escaping (no `&` or `#` in key or value, no `=` in the key) |
| `UrlBuilder.CallerKeysOccurOnce` | src/main/java/com/omertron/imdbapi/tools/ApiBuilder.java:85-88 | with distinct caller keys that need no escaping (no `&`, `#` or `=`) and are not one of the builder's own keys, and with no `?` or `#` in the path and no `&` or `#` in the locale, each caller key occurs exactly once among the URL's query parameters |
| `UrlBuilder.BuildUrl` | src/main/java/com/omertron/imdbapi/tools/ApiBuilder.java:93-98 | a URL is returned exactly when the assembled text is a valid URL, and it carries that text; otherwise the result is null rather than an exception |
| `Request.ErrorKindFor` | src/main/java/com/omertron/imdbapi/tools/ApiBuilder.java:170-176 | the classification is total and disjoint: `HTTP_503_ERROR` exactly for codes of 500 and above, `HTTP_404_ERROR` exactly for 300 to 499, no error exactly below 300 |
| `Request.RequestWebPage` | src/main/java/com/omertron/imdbapi/tools/ApiBuilder.java:162-184 | success exactly when the URI converts, a response arrives and its code is below 300, and then the body is returned unchanged. An error-class response with a decodable envelope raises that class with the envelope's status message. `INVALID_URL` exactly when the URI does not convert. `CONNECTION_ERROR` exactly on a transport failure or an undecodable error body. Every exception carries the URL. The cause is the `URISyntaxException` for `INVALID_URL`; the transport exception, or the decoder's failure on the error body, for `CONNECTION_ERROR`; and none for the two HTTP error kinds |
| `Request.UnreadableErrorBodyIsConnectionError` | src/main/java/com/omertron/imdbapi/tools/ApiBuilder.java:170-182 | an error status whose body is not a readable envelope raises the same kind, text and URL as a lost connection, and the same exception for every error code. Only the cause differs: the decoder's failure instead of a transport exception |
| `ResultWrapper.StatusText` | src/main/java/com/omertron/imdbapi/tools/ApiBuilder.java:119-131 | the status message is the handler's literal prefix (`JsonParseException: `, `JsonMappingException: `, `IOException: `, `ImdbExceptio2n: `) followed by the exception's message, or by the response text for an `ImdbException` |
| `ResultWrapper.StatusTextReadsBack` | src/main/java/com/omertron/imdbapi/tools/ApiBuilder.java:119-131 | no prefix is a prefix of another, so every status message names its exception kind and text unambiguously |
| `ResultWrapper.DecodeFailure` | src/main/java/com/omertron/imdbapi/tools/ApiBuilder.java:117-127 | a failed decode is reported as a decoder exception carrying the decoder's message, never as an `ImdbException` |
| `ResultWrapper.Attempt` | src/main/java/com/omertron/imdbapi/tools/ApiBuilder.java:115-131 | the guarded block succeeds exactly when the request succeeds and its page decodes, and then yields the decoded object, or null for a JSON `null` page. A request failure surfaces as the `ImdbException` itself. A decode failure surfaces as the matching decoder exception with the decoder's message |
| `ResultWrapper.GetWrapper` | src/main/java/com/omertron/imdbapi/tools/ApiBuilder.java:101-134 | null exactly when the class cannot be instantiated or the page decodes to JSON `null`. Otherwise: on success, the decoded object; on failure, the blank object whose status message reads back as the failure's kind and text, with the failure as its cause |
| `ResultWrapper.GetSearchWrapper` | src/main/java/com/omertron/imdbapi/tools/ApiBuilder.java:145-153 | null when the class cannot be instantiated or the page decodes to JSON `null`. Otherwise it returns the search data of the decoded wrapper, or after any failure of the blank wrapper carrying the failure's status message |
| `ResultWrapper.NonNullWrapperIsNotNull` | src/main/java/com/omertron/imdbapi/tools/ApiBuilder.java:101-138 | the wrapper `getResponse` dereferences is non-null exactly when the class can be instantiated and a successful attempt did not decode JSON `null`; this is the precondition `getResponse` needs |
| `ResultWrapper.GetResponse` | src/main/java/com/omertron/imdbapi/tools/ApiBuilder.java:136-139 | for a caller that does not meet a null wrapper: the result of the decoded wrapper on success, and after any failure the result of the blank wrapper carrying the failure's status message |
| `ResultWrapper.GetResponseWithoutArguments` | src/main/java/com/omertron/imdbapi/tools/ApiBuilder.java:141-143 | the call with no arguments requests exactly the head followed by `&sig=app1`, and for a non-null wrapper answers as `getResponse` with an empty map: the decoded wrapper's result on success, and after a failure the result of the blank wrapper carrying the status message |

## Left out

- HTTP transport (`HttpGet`, the `accept` and user-agent headers, random user-agent choice, charset): foreign I/O. `Request.Network` gives only whether `toURI` succeeds and the `(status, body)` the client returns, or an `IOException`.
- Jackson decoding, module registration and `SearchDeserializer`: foreign code. The deserializer's source is not part of this model. Decoding is an abstract function that returns a value or a parse, mapping or read failure. The registration table (`tconst` to movie details, `nconst` to person) is not modelled, because its dispatch algorithm cannot be seen.
- Reflective instantiation (`clazz.newInstance`): the blank object is a parameter. `None` stands for a class that cannot be instantiated.
- `System.currentTimeMillis`, `Locale.toString`, `new URL` validity: fields of `UrlBuilder.Context` (clock reading, locale text, validity predicate).
- `setHttpClient` / `setLocale` and the static fields behind them: replaced by the `Context` and `Network` values passed to each call. An unset HTTP client (a `NullPointerException`) is not modelled.
- A null URL from `buildUrl` reaching `requestWebPage`: an uncaught `NullPointerException`, not a handled outcome. The wrapper functions require that the assembled text is a valid URL.
- An error body that decodes to JSON `null`, or an envelope without a status message (`getStatusMessage()` returning null): an uncaught `NullPointerException` at line 172 or 175. `Request.Network.readError` never yields null, and `Request.ImdbError` always carries a message string.
- `ImdbException` and `AbstractJsonMapping` are not part of this model. `getResponse()` is taken to return the message the exception was built with, and `getCause()` the cause it was given. `setStatusMessage(text, cause)` is taken to record both.
- Logging (`LOG.*`) and the private constructor that throws.
- Argument maps are sequences in iteration order. Duplicate keys, which a Java `Map` cannot hold, are allowed, and the properties that need distinct keys require them.
- `WrapperSearch.getSearchData()` and `WrapperResponse.getResult()` are not part of this model: they are functions of the whole wrapper, status message included, and nothing is assumed about what they read.
- ResultWrapper.GetSearchWrapper: not stated as "null exactly when the wrapper is null". `getSearchData()` may itself return null, so the model only says what is returned in each case.
- ResultWrapper.GetResponse: a null wrapper (`WrapperResponse` cannot be instantiated, or the page is JSON `null`) makes `wr.getResult()` throw an uncaught `NullPointerException`. The model requires a non-null wrapper and does not model the crash. The same holds for `ResultWrapper.GetResponseWithoutArguments`.
- The `IOException` message a transport failure carries is an opaque string. The `Transport` cause records it, but the model does not say what the HTTP client writes there.
