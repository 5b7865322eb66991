/**
 * `ApiBuilder.buildUrl`: the request URL is the fixed base, the function
 * path, the four fixed leading parameters, the caller's arguments in their
 * iteration order and the fixed signature, with nothing escaped. The
 * process-wide locale and the clock become fields of an explicit context,
 * and `new URL(...)`'s syntax check becomes the predicate `isUrl`.
 */
module UrlBuilder {
  import opened Wrappers
  import opened Decimal
  import opened Query

  const BaseUrl: string := "http://app.imdb.com/"
  const ApiVersion: string := "v1"
  const AppId: string := "iphone1"
  const Sig: string := "app1"
  const MillisPerSecond: int := 1000

  /** The explicit form of the builder's hidden inputs. */
  datatype Context = Context(
    /** `imdbLocale.toString()`, e.g. `en_US`. */
    locale: string,
    /** The reading of `System.currentTimeMillis()` for this request. */
    clockMillis: Long,
    /** Whether `new URL(text)` accepts `text` rather than throwing `MalformedURLException`. */
    isUrl: string -> bool)

  /** A `java.net.URL`, identified by the text it was built from. */
  datatype Url = Url(spec: string)

  /** The request timestamp: whole seconds of the clock, Java division rounding toward zero. */
  function Timestamp(millis: Long): (seconds: Long)
    ensures millis >= 0 ==> seconds * 1000 <= millis < seconds * 1000 + 1000
    ensures millis < 0 ==> seconds * 1000 - 1000 < millis <= seconds * 1000
  {
    TruncDiv(millis, MillisPerSecond)
  }

  /** The timestamp as `StringBuilder.append(long)` writes it. */
  function TimestampText(ctx: Context): string {
    LongToString(Timestamp(ctx.clockMillis))
  }

  /** The parameters written before the caller's, in their fixed order. */
  function Leading(ctx: Context): seq<Param> {
    [("api", ApiVersion), ("appid", AppId), ("locale", ctx.locale), ("timestamp", TimestampText(ctx))]
  }

  /** The parameter written after the caller's. */
  const Signature: Param := ("sig", Sig)

  /** Keys the builder writes itself. */
  const ReservedKeys: set<string> := {"api", "appid", "locale", "timestamp", "sig"}

  /** Everything up to and including the timestamp. */
  function Head(path: string, ctx: Context): string {
    BaseUrl + path + "?" + Render(Leading(ctx))
  }

  predicate StartsWith(s: string, prefix: string) {
    |prefix| <= |s| && s[..|prefix|] == prefix
  }

  predicate EndsWith(s: string, suffix: string) {
    |suffix| <= |s| && s[|s| - |suffix|..] == suffix
  }

  /** The text the `StringBuilder` holds once every append is done. */
  function Assemble(path: string, args: seq<Param>, ctx: Context): (s: string)
    ensures StartsWith(s, Head(path, ctx))
    ensures EndsWith(s, "&sig=app1")
    ensures |args| == 0 ==> s == Head(path, ctx) + "&sig=app1"
  {
    var head := Head(path, ctx);
    var rest := Tail(args) + Entry(Signature);
    assert Entry(Signature) == "&sig=app1" by {
      assert Entry(Signature) == "&" + ("sig" + "=" + "app1");
    }
    assert (head + rest)[..|head|] == head;
    assert (head + rest)[|head + rest| - 9..] == "&sig=app1";
    head + rest
  }

  /** The leading parameters rendered, piece by piece. */
  lemma {:induction false} LeadingRendered(ctx: Context)
    ensures Render(Leading(ctx))
      == "api=v1" + ("&appid=iphone1" + ("&locale=" + ctx.locale) + ("&timestamp=" + TimestampText(ctx)))
  {
    var lead := Leading(ctx);
    assert lead[1..] == [lead[1], lead[2], lead[3]];
    TailOfThree(lead[1], lead[2], lead[3]);
    assert Field(lead[0]) == "api=v1";
    assert Entry(lead[1]) == "&appid=iphone1";
    assert Entry(lead[2]) == "&locale=" + ctx.locale;
    assert Entry(lead[3]) == "&timestamp=" + TimestampText(ctx);
  }

  /** The head written out as the source's appends write it. */
  lemma {:induction false} HeadSpelledOut(path: string, ctx: Context)
    ensures Head(path, ctx)
      == "http://app.imdb.com/" + path + "?api=v1&appid=iphone1&locale=" + ctx.locale
         + "&timestamp=" + TimestampText(ctx)
  {
    LeadingRendered(ctx);
    assert "?" + "api=v1" + "&appid=iphone1" + "&locale=" == "?api=v1&appid=iphone1&locale=";
    Regroup(BaseUrl + path, "?", "api=v1", "&appid=iphone1", "&locale=", ctx.locale, "&timestamp=", TimestampText(ctx));
  }

  lemma {:induction false} Regroup(x: string, q: string, a: string, b: string,
                                   c1: string, c2: string, d1: string, d2: string)
    ensures x + q + (a + (b + (c1 + c2) + (d1 + d2)))
         == x + (q + a + b + c1) + c2 + d1 + d2
  {
  }

  /** `buildUrl`: the assembled text as a URL, or null when it is not a valid URL. */
  function BuildUrl(path: string, args: seq<Param>, ctx: Context): (r: Option<Url>)
    ensures r.Some? <==> ctx.isUrl(Assemble(path, args, ctx))
    ensures r.Some? ==> r.value.spec == Assemble(path, args, ctx)
  {
    var text := Assemble(path, args, ctx);
    if ctx.isUrl(text) then Some(Url(text)) else None
  }

  /** The loop over the argument map: each entry appends `&key=value`, in iteration order. */
  method AppendArguments(sb: string, args: seq<Param>) returns (out: string)
    ensures out == sb + Tail(args)
  {
    out := sb;
    for i := 0 to |args|
      invariant out == sb + Tail(args[..i])
    {
      var entry := "&" + args[i].0 + "=" + args[i].1;
      out := out + entry;
      TailAppend(args[..i], [args[i]]);
      assert Tail([args[i]]) == entry;
      assert args[..i + 1] == args[..i] + [args[i]];
    }
    assert args[..|args|] == args;
  }

  lemma {:induction false} AssembleAsTail(path: string, args: seq<Param>, ctx: Context)
    ensures Assemble(path, args, ctx) == Head(path, ctx) + (Tail(args) + "&sig=app1")
  {
    SignatureEntry();
  }

  lemma {:induction false} SignatureEntry()
    ensures Entry(Signature) == "&sig=app1"
  {
  }

  /**
   * Argument `i` appears as `&key=value`, verbatim, after exactly the
   * arguments that precede it in iteration order and before those that follow.
   */
  lemma {:induction false} ArgumentInPlace(path: string, args: seq<Param>, ctx: Context, i: nat)
    requires i < |args|
    ensures Assemble(path, args, ctx)
      == Head(path, ctx) + Tail(args[..i]) + Entry(args[i]) + Tail(args[i + 1..]) + "&sig=app1"
  {
    TailAround(args, i);
    AssembleAsTail(path, args, ctx);
    Regroup5(Head(path, ctx), Tail(args[..i]), Entry(args[i]), Tail(args[i + 1..]), "&sig=app1");
  }

  lemma {:induction false} Regroup5(h: string, b: string, e: string, a: string, g: string)
    ensures h + ((b + (e + a)) + g) == h + b + e + a + g
  {
  }

  /**
   * Nothing is escaped: an argument whose value carries `&key=value` yields
   * the very URL that two separate arguments would.
   */
  lemma {:induction false} UnescapedValueSplitsArgument(path: string, ctx: Context, p: Param, q: Param)
    ensures Assemble(path, [(p.0, p.1 + Entry(q))], ctx) == Assemble(path, [p, q], ctx)
  {
    AssembleAsTail(path, [(p.0, p.1 + Entry(q))], ctx);
    AssembleAsTail(path, [p, q], ctx);
    EntryAbsorbs(p, q);
  }

  /** The whole URL is the base, the path, `?`, and the query of all parameters in order. */
  lemma {:induction false} AssembleIsRender(path: string, args: seq<Param>, ctx: Context)
    ensures Assemble(path, args, ctx)
      == BaseUrl + path + "?" + Render(Leading(ctx) + args + [Signature])
  {
    var lead := Leading(ctx);
    RenderAppend(lead, args + [Signature]);
    TailAppend(args, [Signature]);
    assert lead + args + [Signature] == lead + (args + [Signature]);
    assert Tail([Signature]) == Entry(Signature) + Tail([]);
  }

  /**
   * Read by the reference query reader, the URL carries exactly the leading
   * parameters, then the caller's arguments in order, then the signature,
   * provided the path has no `?`, neither path nor locale has a `#` (which
   * would start the fragment), the locale has no `&`, and the arguments
   * need no escaping.
   */
  lemma {:induction false} BuiltQueryReadsBack(path: string, args: seq<Param>, ctx: Context)
    requires '?' !in path && '#' !in path
    requires '&' !in ctx.locale && '#' !in ctx.locale
    requires AllPlain(args)
    ensures ParseUrl(Assemble(path, args, ctx)) == Some(Leading(ctx) + args + [Signature])
  {
    AssembleIsRender(path, args, ctx);
    var lead := Leading(ctx);
    var all := lead + args + [Signature];
    LeadingPlain(ctx);
    AllPlainAppend(lead, args);
    AllPlainAppend(lead + args, [Signature]);
    BaseAndPath(path);
    ParseUrlOf(BaseUrl + path, all);
  }

  /** The fixed parameters need no escaping when the locale holds no `&` or `#`. */
  lemma {:induction false} LeadingPlain(ctx: Context)
    requires '&' !in ctx.locale && '#' !in ctx.locale
    ensures AllPlain(Leading(ctx)) && Plain(Signature)
  {
    LongTextExcludes(TimestampText(ctx), '&');
    LongTextExcludes(TimestampText(ctx), '#');
  }

  /** The base holds neither `?` nor `#`, so neither does base + path when the path does not. */
  lemma {:induction false} BaseAndPath(path: string)
    requires '?' !in path && '#' !in path
    ensures '?' !in BaseUrl + path && '#' !in BaseUrl + path
  {
  }

  /** The timestamp written into the URL reads back as the clock's whole seconds. */
  lemma {:induction false} TimestampReadsBack(ctx: Context)
    ensures Leading(ctx)[3].0 == "timestamp"
    ensures IsLongText(Leading(ctx)[3].1)
    ensures ParseLong(Leading(ctx)[3].1) == TruncDiv(ctx.clockMillis, 1000)
  {
    LongToStringReadsBack(Timestamp(ctx.clockMillis));
  }

  /** A key the builder does not write itself is absent from the fixed parameters. */
  lemma {:induction false} NotReserved(ctx: Context, key: string)
    requires key !in ReservedKeys
    ensures KeyAbsent(Leading(ctx), key) && KeyAbsent([Signature], key)
  {
  }

  /**
   * With distinct caller keys that do not clash with the builder's own,
   * each caller key occurs exactly once among the URL's parameters.
   */
  lemma {:induction false} CallerKeysOccurOnce(path: string, args: seq<Param>, ctx: Context, i: nat)
    requires '?' !in path && '#' !in path
    requires '&' !in ctx.locale && '#' !in ctx.locale
    requires AllPlain(args) && DistinctKeys(args)
    requires forall k :: 0 <= k < |args| ==> args[k].0 !in ReservedKeys
    requires i < |args|
    ensures ParseUrl(Assemble(path, args, ctx)).Some?
    ensures Occurrences(ParseUrl(Assemble(path, args, ctx)).value, args[i].0) == 1
  {
    BuiltQueryReadsBack(path, args, ctx);
    var key := args[i].0;
    NotReserved(ctx, key);
    OccurrencesBetween(Leading(ctx), args, [Signature], key);
    DistinctKeysOccurOnce(args, i);
  }
}
