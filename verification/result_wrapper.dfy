/**
 * `ApiBuilder.getWrapper` and its two callers. The body of the `try`
 * (build, request, decode) either yields the decoded object or an
 * exception; every exception is caught and written into a blank object's
 * status message behind a prefix naming the exception's class.
 */
module ResultWrapper {
  import opened Wrappers
  import opened Json
  import opened UrlBuilder
  import opened Request
  import Query

  /** The exceptions `getWrapper` catches, with the text each contributes. */
  datatype Caught =
    | JsonParse(message: string)
    | JsonMapping(message: string)
    | Io(message: string)
    | Imdb(exception: ImdbException)

  datatype CaughtKind = JsonParseKind | JsonMappingKind | IoKind | ImdbKind

  function KindOf(f: Caught): CaughtKind {
    match f
    case JsonParse(_) => JsonParseKind
    case JsonMapping(_) => JsonMappingKind
    case Io(_) => IoKind
    case Imdb(_) => ImdbKind
  }

  /** `getMessage()` of the decoder's exceptions; `getResponse()` of an `ImdbException`. */
  function Detail(f: Caught): string {
    match f
    case JsonParse(m) => m
    case JsonMapping(m) => m
    case Io(m) => m
    case Imdb(e) => e.response
  }

  /** The literal prefix each handler writes, including the `ImdbExceptio2n` misspelling. */
  function Prefix(k: CaughtKind): string {
    match k
    case JsonParseKind => "JsonParseException: "
    case JsonMappingKind => "JsonMappingException: "
    case IoKind => "IOException: "
    case ImdbKind => "ImdbExceptio2n: "
  }

  /** The status message a handler sets: its prefix, then the exception's text. */
  function StatusText(f: Caught): (text: string)
    ensures StartsWith(text, Prefix(KindOf(f)))
    ensures text[|Prefix(KindOf(f))|..] == Detail(f)
  {
    match f
    case JsonParse(m) => "JsonParseException: " + m
    case JsonMapping(m) => "JsonMappingException: " + m
    case Io(m) => "IOException: " + m
    case Imdb(e) => "ImdbExceptio2n: " + e.response
  }

  /** Recovers the exception kind and text from a status message, or `None` if no prefix fits. */
  function ReadStatusText(text: string): Option<(CaughtKind, string)> {
    if StartsWith(text, Prefix(JsonParseKind)) then Some((JsonParseKind, text[|Prefix(JsonParseKind)|..]))
    else if StartsWith(text, Prefix(JsonMappingKind)) then Some((JsonMappingKind, text[|Prefix(JsonMappingKind)|..]))
    else if StartsWith(text, Prefix(IoKind)) then Some((IoKind, text[|Prefix(IoKind)|..]))
    else if StartsWith(text, Prefix(ImdbKind)) then Some((ImdbKind, text[|Prefix(ImdbKind)|..]))
    else None
  }

  /** No two prefixes clash, so a status message names its exception kind and text unambiguously. */
  lemma {:induction false} StatusTextReadsBack(f: Caught)
    ensures ReadStatusText(StatusText(f)) == Some((KindOf(f), Detail(f)))
  {
    var text := StatusText(f);
    match f
    case JsonParse(_) =>
    case JsonMapping(_) =>
      assert text[4] == 'M' && Prefix(JsonParseKind)[4] == 'P';
    case Io(_) =>
      assert text[0] == 'I' && Prefix(JsonParseKind)[0] == 'J' && Prefix(JsonMappingKind)[0] == 'J';
    case Imdb(_) =>
      assert text[0] == 'I' && Prefix(JsonParseKind)[0] == 'J' && Prefix(JsonMappingKind)[0] == 'J';
      assert text[1] == 'm' && Prefix(IoKind)[1] == 'O';
  }

  /** `setStatusMessage(text, cause)`. */
  datatype StatusMessage = StatusMessage(message: string, cause: Caught)

  /** An instance of a JSON-mapped class: its own fields and the status message it inherits. */
  datatype Mapped<T> = Mapped(content: T, status: Option<StatusMessage>)

  /** The context the builder reads and the network the request uses. */
  datatype Client = Client(context: Context, net: Network)

  /** `buildUrl` yields a URL; a null URL would crash the request with an uncaught exception. */
  predicate Buildable(path: string, args: seq<Query.Param>, client: Client) {
    client.context.isUrl(Assemble(path, args, client.context))
  }

  function RequestedUrl(path: string, args: seq<Query.Param>, client: Client): (url: Url)
    requires Buildable(path, args, client)
    ensures url.spec == Assemble(path, args, client.context)
  {
    BuildUrl(path, args, client.context).value
  }

  /** The page the request returned, or the exception it raised. */
  function Page(path: string, args: seq<Query.Param>, client: Client): Result<string, ImdbException>
    requires Buildable(path, args, client)
  {
    RequestWebPage(RequestedUrl(path, args, client), client.net)
  }

  /** The decoder exception a failed decode raises. */
  function DecodeFailure<X>(d: Decoded<X>): (f: Caught)
    requires !d.Decoded?
    ensures !f.Imdb? && Detail(f) == d.message
  {
    match d
    case ParseFailure(m) => JsonParse(m)
    case MappingFailure(m) => JsonMapping(m)
    case ReadFailure(m) => Io(m)
  }

  /**
   * The body of the `try`: request the page, then decode it as the target
   * class. A body that is the JSON literal `null` decodes to `None`, and
   * `clazz.cast` passes that null on.
   */
  function Attempt<T>(path: string, args: seq<Query.Param>, client: Client,
                      decode: string -> Decoded<Option<Mapped<T>>>): (r: Result<Option<Mapped<T>>, Caught>)
    requires Buildable(path, args, client)
    ensures r.Success? <==> Page(path, args, client).Success? && decode(Page(path, args, client).value).Decoded?
    ensures r.Success? ==> r.value == decode(Page(path, args, client).value).value
    ensures (r.Failure? && r.error.Imdb?) <==> Page(path, args, client).Failure?
    ensures r.Failure? && r.error.Imdb? ==> r.error.exception == Page(path, args, client).error
    ensures r.Failure? && !r.error.Imdb? ==>
              && Page(path, args, client).Success?
              && var d := decode(Page(path, args, client).value);
              && !d.Decoded?
              && Detail(r.error) == d.message
              && (r.error.JsonParse? <==> d.ParseFailure?)
              && (r.error.JsonMapping? <==> d.MappingFailure?)
  {
    match Page(path, args, client)
    case Failure(e) => Failure(Imdb(e))
    case Success(page) =>
      match decode(page)
      case Decoded(v) => Success(v)
      case _ => Failure(DecodeFailure(decode(page)))
  }

  /**
   * `getWrapper`. It is null exactly when the class cannot be instantiated
   * or the page decodes to JSON `null`. Otherwise a successful attempt gives
   * the decoded object, and a failed one gives the blank object whose status
   * message names the exception kind and text.
   */
  function GetWrapper<T>(blank: Option<T>, path: string, args: seq<Query.Param>, client: Client,
                         decode: string -> Decoded<Option<Mapped<T>>>): (r: Option<Mapped<T>>)
    requires blank.Some? ==> Buildable(path, args, client)
    ensures blank.None? ==> r.None?
    ensures blank.Some? ==>
              (r.None? <==> Attempt(path, args, client, decode).Success? && Attempt(path, args, client, decode).value.None?)
    ensures blank.Some? && Attempt(path, args, client, decode).Success? ==>
              r == Attempt(path, args, client, decode).value
    ensures blank.Some? && Attempt(path, args, client, decode).Failure? ==>
              var f := Attempt(path, args, client, decode).error;
              && r.Some?
              && r.value.content == blank.value
              && r.value.status.Some?
              && r.value.status.value.cause == f
              && ReadStatusText(r.value.status.value.message) == Some((KindOf(f), Detail(f)))
  {
    match blank
    case None => None
    case Some(instance) =>
      match Attempt(path, args, client, decode)
      case Success(v) => v
      case Failure(f) => Some(Reported(instance, f))
  }

  /**
   * The blank object after a handler has caught `f`: its own fields, and a
   * status message naming the exception with the exception as its cause.
   */
  function Reported<T>(instance: T, f: Caught): (m: Mapped<T>)
    ensures m.content == instance && m.status.Some? && m.status.value.cause == f
    ensures ReadStatusText(m.status.value.message) == Some((KindOf(f), Detail(f)))
  {
    StatusTextReadsBack(f);
    Mapped(instance, Some(StatusMessage(StatusText(f), f)))
  }

  /**
   * `getSearchWrapper`: null for a null wrapper, otherwise what
   * `getSearchData()` reads from the wrapper: the decoded one, or after a
   * failure the blank one carrying the status message.
   */
  function GetSearchWrapper<T, D>(blank: Option<T>, path: string, args: seq<Query.Param>, client: Client,
                                  decode: string -> Decoded<Option<Mapped<T>>>, searchData: Mapped<T> -> Option<D>): (r: Option<D>)
    requires blank.Some? ==> Buildable(path, args, client)
    ensures blank.None? ==> r.None?
    ensures blank.Some? && Attempt(path, args, client, decode).Success? && Attempt(path, args, client, decode).value.None? ==>
              r.None?
    ensures blank.Some? && Attempt(path, args, client, decode).Success? && Attempt(path, args, client, decode).value.Some? ==>
              r == searchData(Attempt(path, args, client, decode).value.value)
    ensures blank.Some? && Attempt(path, args, client, decode).Failure? ==>
              r == searchData(Reported(blank.value, Attempt(path, args, client, decode).error))
  {
    var wrapper := GetWrapper(blank, path, args, client, decode);
    if wrapper.None? then None else searchData(wrapper.value)
  }

  /**
   * The wrapper `getWrapper` returns is not null: the class can be
   * instantiated, and a successful attempt did not decode JSON `null`.
   */
  predicate NonNullWrapper<T>(blank: Option<T>, path: string, args: seq<Query.Param>, client: Client,
                              decode: string -> Decoded<Option<Mapped<T>>>) {
    && blank.Some?
    && Buildable(path, args, client)
    && (Attempt(path, args, client, decode).Success? ==> Attempt(path, args, client, decode).value.Some?)
  }

  /**
   * `getResponse(function, args)`: the wrapper's result. The caller must
   * not meet a null wrapper, which would throw a `NullPointerException`.
   * As with the search wrapper, `getResult()` reads the decoded wrapper, or
   * after a failure the blank one carrying the status message.
   */
  function GetResponse<T, R>(blank: Option<T>, path: string, args: seq<Query.Param>, client: Client,
                             decode: string -> Decoded<Option<Mapped<T>>>, result: Mapped<T> -> R): (r: R)
    requires NonNullWrapper(blank, path, args, client, decode)
    ensures Attempt(path, args, client, decode).Success? ==>
              r == result(Attempt(path, args, client, decode).value.value)
    ensures Attempt(path, args, client, decode).Failure? ==>
              r == result(Reported(blank.value, Attempt(path, args, client, decode).error))
  {
    result(GetWrapper(blank, path, args, client, decode).value)
  }

  /** `NonNullWrapper` is exactly the case where `getWrapper` does not return null. */
  lemma {:induction false} NonNullWrapperIsNotNull<T>(blank: Option<T>, path: string, args: seq<Query.Param>,
                                                       client: Client, decode: string -> Decoded<Option<Mapped<T>>>)
    requires blank.Some? ==> Buildable(path, args, client)
    ensures NonNullWrapper(blank, path, args, client, decode) <==> GetWrapper(blank, path, args, client, decode).Some?
  {
  }

  /**
   * `getResponse(function)`: the same call with an empty argument map, so
   * the URL requested is the head followed directly by the signature.
   */
  function GetResponseWithoutArguments<T, R>(blank: Option<T>, path: string, client: Client,
                                             decode: string -> Decoded<Option<Mapped<T>>>, result: Mapped<T> -> R): (r: R)
    requires NonNullWrapper(blank, path, [], client, decode)
    ensures RequestedUrl(path, [], client).spec == Head(path, client.context) + "&sig=app1"
    ensures Attempt(path, [], client, decode).Success? ==>
              r == result(Attempt(path, [], client, decode).value.value)
    ensures Attempt(path, [], client, decode).Failure? ==>
              r == result(Reported(blank.value, Attempt(path, [], client, decode).error))
  {
    GetResponse(blank, path, [], client, decode, result)
  }
}
