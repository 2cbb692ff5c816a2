/** The version 2 client (`RestClient`): class defaults merged with constructor
    and per-call values, verb checks, the decoder registry, and the cURL
    options `__invoke` hands to the transfer. The transfer itself is a function
    parameter from the options to what came back. */
module Client {
  import opened PhpString
  import opened PhpArray
  import opened PhpCompare
  import opened Errors
  import opened Paths
  import opened Parameters
  import opened Resources
  import opened HeaderFields
  import opened Responses

  // ---------------------------------------------------------------------------
  // cURL options

  const CurlTimeout: int := 13
  const CurlHeader: int := 42
  const CurlPost: int := 47
  const CurlUrl: int := 10002
  const CurlPostFields: int := 10015
  const CurlUserAgent: int := 10018
  const CurlHttpHeader: int := 10023
  const CurlCustomRequest: int := 10036
  const CurlReturnTransfer: int := 19913

  /** The value of a cURL option: `TRUE`/`FALSE`, or a PHP value. */
  datatype Setting = Flag(on: bool) | Val(v: Value)

  /** What a transfer gives back: the raw response (`false` on failure), the
      error text and `info['http_code']`. */
  datatype Reply = Reply(raw: Raw, error: string, httpCode: int)

  /** The options every request starts with. */
  function FixedOptions(timeout: int, userAgent: string): seq<(Key, Setting)> {
    [(IntKey(CurlTimeout), Val(Int(timeout))), (IntKey(CurlHeader), Flag(true)),
     (IntKey(CurlReturnTransfer), Flag(true)), (IntKey(CurlUserAgent), Val(Str(userAgent)))]
  }

  function StrList(lines: seq<string>): (vs: seq<Value>)
    ensures |vs| == |lines| && forall i :: 0 <= i < |lines| ==> vs[i] == Str(lines[i])
  {
    seq(|lines|, i requires 0 <= i < |lines| => Str(lines[i]))
  }

  /** `CURLOPT_HTTPHEADER` as the client evidently means it: the list of the
      request's `Name: value` lines. */
  function HeaderSetting(headers: seq<(Key, string)>): Setting {
    Val(Arr(ListOf(StrList(Lines(headers)))))
  }

  /** `CURLOPT_HTTPHEADER` as written: `(array) $request->headers`, the field
      array itself, names as keys and values as values. */
  function HeaderSettingAsWritten(headers: seq<(Key, string)>): Setting {
    Val(Arr(seq(|headers|, i requires 0 <= i < |headers| => (headers[i].0, Str(headers[i].1)))))
  }

  /** The header lines cURL sends for a `CURLOPT_HTTPHEADER` array: its string
      values in order; the keys play no part. */
  function SentLines(s: Setting): seq<string> {
    match s
    case Val(Arr(es)) => StrValues(es)
    case _ => []
  }

  function StrValues(es: seq<(Key, Value)>): seq<string>
    decreases |es|
  {
    if es == [] then []
    else (if es[0].1.Str? then [es[0].1.s] else []) + StrValues(es[1..])
  }

  // ---------------------------------------------------------------------------
  // The request plan

  /** Parameters held by a `Params` object, as values. */
  datatype ParamsState = ParamsState(entries: seq<(Key, Value)>, indexes: bool, encodeKeys: bool)

  /** What a request carries as its parameters: a pre-encoded string, or a
      `Params` object. */
  datatype Body = TextBody(text: string) | ParamsBody(p: ParamsState)

  /** `(string) $request->params`. */
  function BodyText(b: Body): Result<string> {
    match b
    case TextBody(t) => Ok(t)
    case ParamsBody(p) => BuildQuery(p.entries, p.indexes, p.encodeKeys)
  }

  const CountOnString := "count(): Argument #1 ($value) must be of type Countable|array, string given"

  /** Whether `__invoke` merges the parameters into the URL's query: a GET
      whose parameters object is not empty. */
  predicate AppendsQuery(verb: string, body: Body) {
    verb == "GET" && body.ParamsBody? && |body.p.entries| > 0
  }

  /** The request's URL once `__invoke` has run: the query object is replaced
      by its merge with the parameters when it appends them, and kept
      otherwise. */
  function UrlAfter(verb: string, url: Url, body: Body): Url {
    if AppendsQuery(verb, body) then url.(query := ArrayMergeRecursive(url.query, body.p.entries)) else url
  }

  /** The options `__invoke` builds before the client's own `curl_options` are
      laid over them: the fixed ones, the header field array as written when
      there are headers,
      a body for POST and for any other verb but GET (the latter as a custom
      request), and the URL. A GET with string parameters fails in `count`. */
  function RequestOptions(timeout: int, userAgent: string, verb: string, url: Url, body: Body,
                          headers: seq<(Key, string)>): Result<seq<(Key, Setting)>>
  {
    var fixed := FixedOptions(timeout, userAgent);
    var opts := if |headers| > 0 then Put(fixed, IntKey(CurlHttpHeader), HeaderSettingAsWritten(headers)) else fixed;
    if verb == "POST" || verb != "GET" then
      match BodyText(body)
      case Fail(e) => Fail(e)
      case Ok(t) =>
        var withVerb := if verb == "POST" then Put(opts, IntKey(CurlPost), Flag(true))
                        else Put(opts, IntKey(CurlCustomRequest), Val(Str(verb)));
        WithUrl(Put(withVerb, IntKey(CurlPostFields), Val(Str(t))), url)
    else if body.TextBody? then Fail(TypeError(CountOnString))
    else WithUrl(opts, UrlAfter(verb, url, body))
  }

  function WithUrl(opts: seq<(Key, Setting)>, url: Url): Result<seq<(Key, Setting)>> {
    match RenderUrl(url)
    case Fail(e) => Fail(e)
    case Ok(t) => Ok(Put(opts, IntKey(CurlUrl), Val(Str(t))))
  }

  /** Every option `curl_setopt_array` receives: the request's options with the
      client's `curl_options` assigned over them key by key. */
  function Options(timeout: int, userAgent: string, curlOptions: seq<(Key, Setting)>, verb: string,
                   url: Url, body: Body, headers: seq<(Key, string)>): Result<seq<(Key, Setting)>>
  {
    match RequestOptions(timeout, userAgent, verb, url, body, headers)
    case Fail(e) => Fail(e)
    case Ok(opts) => Ok(PutAll(opts, curlOptions))
  }

  // ---------------------------------------------------------------------------
  // Decoders and verbs

  /** A decoder `empty()` rejects: a falsy function name. A closure never is. */
  predicate EmptyDecoder(d: Decoder) {
    d.Library? && !Truthy(d.name)
  }

  const ClosureToString := "Object of class Closure could not be converted to string"

  /** `get_decoder(format)`: the registered decoder, unless it is missing or
      empty. The debug message interpolates the decoder into a string before
      the logger sees it, and a closure cannot be converted, so a closure
      decoder raises an engine `Error` there. */
  function DecoderFor(decoders: seq<(Key, Decoder)>, format: string): Result<Decoder> {
    match Get(decoders, NormalizeKey(format))
    case Some(d) =>
      if EmptyDecoder(d) then Fail(OutOfBounds("No decoder for format '" + format + "'"))
      else if d.Callable? then Fail(EngineError(ClosureToString))
      else Ok(d)
    case None => Fail(OutOfBounds("No decoder for format '" + format + "'"))
  }

  /** `get_decoder(format)` as meant: a closure is returned like a function name. */
  function CorrectedDecoderFor(decoders: seq<(Key, Decoder)>, format: string): Result<Decoder> {
    match Get(decoders, NormalizeKey(format))
    case Some(d) => if EmptyDecoder(d) then Fail(OutOfBounds("No decoder for format '" + format + "'")) else Ok(d)
    case None => Fail(OutOfBounds("No decoder for format '" + format + "'"))
  }

  /** The verb `__call` resolves a method name to, or the exception it raises. */
  function CallVerb(allowedVerbs: seq<Scalar>, name: string): Result<string> {
    var verb := ToUpper(name);
    if InArray(SStr(verb), allowedVerbs) then Ok(verb)
    else Fail(BadMethodCall("Call to undefined method RestClient::" + verb))
  }

  const OptionKeys: seq<string> :=
    ["base_url", "headers", "params", "user_agent", "timeout", "curl_options", "build_indexed_queries"]

  function Names(names: seq<string>): (xs: seq<Scalar>)
    ensures |xs| == |names| && forall i :: 0 <= i < |names| ==> xs[i] == SStr(names[i])
  {
    seq(|names|, i requires 0 <= i < |names| => SStr(names[i]))
  }

  /** The check `set_option` makes: `in_array($key, self::_option_keys)`. */
  predicate IsOptionKey(key: string) {
    InArray(SStr(key), Names(OptionKeys))
  }

  // ---------------------------------------------------------------------------
  // Handling the reply

  /** What `__invoke` makes of a reply: the parse, and the decoder for the
      format of its content type; the exception of either step otherwise. */
  function Received(reply: Reply, decoders: seq<(Key, Decoder)>): Result<(Outcome, Decoder)> {
    var o := ParseFrom(RawString(reply.raw), [], []);
    match o
    case Threw(e, _, _) => Fail(e)
    case Done(_, hs, _) =>
      match DecoderFor(decoders, FormatOf(ContentTypeOf(hs)))
      case Fail(e) => Fail(e)
      case Ok(d) => Ok((o, d))
  }

  /** The response object holds the reply, parsed and decoded. */
  predicate Holds(r: Response, reply: Reply, o: Outcome, d: Decoder)
    reads r, r.headers
  {
    o.Done?
    && r.response == RawString(reply.raw) && r.error == reply.error && r.statusCode == reply.httpCode
    && r.success == (200 <= reply.httpCode < 300) && r.fail == !r.success
    && r.statusLines == o.statusLines && r.headers.entries == o.headers && r.body == o.body
    && r.contentType == ContentTypeOf(o.headers) && r.data == Decoded(d, o.body)
  }

  // ---------------------------------------------------------------------------
  // Properties of the plan

  /** Every request carries the timeout, asks for the header block and the
      transferred text, and sends the user agent. */
  lemma FixedOptionsKept(timeout: int, userAgent: string, verb: string, url: Url, body: Body,
                         headers: seq<(Key, string)>)
    requires RequestOptions(timeout, userAgent, verb, url, body, headers).Ok?
    ensures var o := RequestOptions(timeout, userAgent, verb, url, body, headers).value;
      Get(o, IntKey(CurlTimeout)) == Some(Val(Int(timeout))) && Get(o, IntKey(CurlHeader)) == Some(Flag(true))
      && Get(o, IntKey(CurlReturnTransfer)) == Some(Flag(true))
      && Get(o, IntKey(CurlUserAgent)) == Some(Val(Str(userAgent)))
  {
    OptionsAdded(timeout, userAgent, verb, url, body, headers, IntKey(CurlTimeout));
    OptionsAdded(timeout, userAgent, verb, url, body, headers, IntKey(CurlHeader));
    OptionsAdded(timeout, userAgent, verb, url, body, headers, IntKey(CurlReturnTransfer));
    OptionsAdded(timeout, userAgent, verb, url, body, headers, IntKey(CurlUserAgent));
    FixedGet(timeout, userAgent);
  }

  /** The fixed options read back as set. */
  lemma FixedGet(timeout: int, userAgent: string)
    ensures var fixed := FixedOptions(timeout, userAgent);
      Get(fixed, IntKey(CurlTimeout)) == Some(Val(Int(timeout))) && Get(fixed, IntKey(CurlHeader)) == Some(Flag(true))
      && Get(fixed, IntKey(CurlReturnTransfer)) == Some(Flag(true))
      && Get(fixed, IntKey(CurlUserAgent)) == Some(Val(Str(userAgent)))
  {
    var fixed := FixedOptions(timeout, userAgent);
    assert DistinctKeys(fixed);
    GetAt(fixed, 0);
    GetAt(fixed, 1);
    GetAt(fixed, 2);
    GetAt(fixed, 3);
  }

  /** Apart from the fixed options, a request sets only the header lines, the
      POST flag or custom verb, the body and the URL. */
  lemma OptionsAdded(timeout: int, userAgent: string, verb: string, url: Url, body: Body,
                     headers: seq<(Key, string)>, k: Key)
    requires RequestOptions(timeout, userAgent, verb, url, body, headers).Ok?
    requires k !in {IntKey(CurlHttpHeader), IntKey(CurlPost), IntKey(CurlCustomRequest), IntKey(CurlPostFields), IntKey(CurlUrl)}
    ensures Get(RequestOptions(timeout, userAgent, verb, url, body, headers).value, k) == Get(FixedOptions(timeout, userAgent), k)
  {
    var fixed := FixedOptions(timeout, userAgent);
    var opts := if |headers| > 0 then Put(fixed, IntKey(CurlHttpHeader), HeaderSettingAsWritten(headers)) else fixed;
    GetPut(fixed, IntKey(CurlHttpHeader), HeaderSettingAsWritten(headers), k);
    assert Get(opts, k) == Get(fixed, k);
    var rendered := RenderUrl(UrlAfter(verb, url, body));
    if verb == "POST" || verb != "GET" {
      var t := BodyText(body).value;
      var withVerb := if verb == "POST" then Put(opts, IntKey(CurlPost), Flag(true))
                      else Put(opts, IntKey(CurlCustomRequest), Val(Str(verb)));
      GetPut(opts, IntKey(CurlPost), Flag(true), k);
      GetPut(opts, IntKey(CurlCustomRequest), Val(Str(verb)), k);
      var withBody := Put(withVerb, IntKey(CurlPostFields), Val(Str(t)));
      GetPut(withVerb, IntKey(CurlPostFields), Val(Str(t)), k);
      GetPut(withBody, IntKey(CurlUrl), Val(Str(RenderUrl(url).value)), k);
    } else {
      GetPut(opts, IntKey(CurlUrl), Val(Str(rendered.value)), k);
    }
  }

  /** `CURLOPT_HTTPHEADER` is set exactly when the request has headers, to the
      field array itself, so that the lines cURL sends are the field values. */
  lemma HeaderLinesIffHeaders(timeout: int, userAgent: string, verb: string, url: Url, body: Body,
                              headers: seq<(Key, string)>)
    requires RequestOptions(timeout, userAgent, verb, url, body, headers).Ok?
    ensures Get(RequestOptions(timeout, userAgent, verb, url, body, headers).value, IntKey(CurlHttpHeader))
      == if |headers| > 0 then Some(HeaderSettingAsWritten(headers)) else None
    ensures |headers| > 0 ==> SentLines(HeaderSettingAsWritten(headers)) == Values(headers)
  {
    AsWrittenSendsValues(headers);
    var k := IntKey(CurlHttpHeader);
    var fixed := FixedOptions(timeout, userAgent);
    var opts := if |headers| > 0 then Put(fixed, k, HeaderSettingAsWritten(headers)) else fixed;
    GetPut(fixed, k, HeaderSettingAsWritten(headers), k);
    assert !HasKey(fixed, k) by {
      assert forall j :: 0 <= j < |fixed| ==> fixed[j].0 != k;
    }
    if verb == "POST" || verb != "GET" {
      var t := BodyText(body).value;
      var withVerb := if verb == "POST" then Put(opts, IntKey(CurlPost), Flag(true))
                      else Put(opts, IntKey(CurlCustomRequest), Val(Str(verb)));
      GetPut(opts, IntKey(CurlPost), Flag(true), k);
      GetPut(opts, IntKey(CurlCustomRequest), Val(Str(verb)), k);
      var withBody := Put(withVerb, IntKey(CurlPostFields), Val(Str(t)));
      GetPut(withVerb, IntKey(CurlPostFields), Val(Str(t)), k);
      GetPut(withBody, IntKey(CurlUrl), Val(Str(RenderUrl(url).value)), k);
    } else {
      GetPut(opts, IntKey(CurlUrl), Val(Str(RenderUrl(UrlAfter(verb, url, body)).value)), k);
    }
  }

  /** A POST sets the POST flag and sends the serialised parameters as its body
      to the URL as it was; it names no custom verb. */
  lemma PostSendsBody(timeout: int, userAgent: string, url: Url, body: Body, headers: seq<(Key, string)>)
    requires BodyText(body).Ok? && RenderUrl(url).Ok?
    ensures RequestOptions(timeout, userAgent, "POST", url, body, headers).Ok?
    ensures var o := RequestOptions(timeout, userAgent, "POST", url, body, headers).value;
      Get(o, IntKey(CurlPost)) == Some(Flag(true))
      && Get(o, IntKey(CurlPostFields)) == Some(Val(Str(BodyText(body).value)))
      && !HasKey(o, IntKey(CurlCustomRequest))
      && Get(o, IntKey(CurlUrl)) == Some(Val(Str(RenderUrl(url).value)))
  {
    var fixed := FixedOptions(timeout, userAgent);
    var opts := if |headers| > 0 then Put(fixed, IntKey(CurlHttpHeader), HeaderSettingAsWritten(headers)) else fixed;
    var t := BodyText(body).value;
    var withVerb := Put(opts, IntKey(CurlPost), Flag(true));
    var withBody := Put(withVerb, IntKey(CurlPostFields), Val(Str(t)));
    var u := Val(Str(RenderUrl(url).value));
    NotFixed(timeout, userAgent, headers, IntKey(CurlCustomRequest));
    GetPut(opts, IntKey(CurlPost), Flag(true), IntKey(CurlCustomRequest));
    GetPut(withVerb, IntKey(CurlPostFields), Val(Str(t)), IntKey(CurlCustomRequest));
    GetPut(withBody, IntKey(CurlUrl), u, IntKey(CurlCustomRequest));
    GetPut(opts, IntKey(CurlPost), Flag(true), IntKey(CurlPost));
    GetPut(withVerb, IntKey(CurlPostFields), Val(Str(t)), IntKey(CurlPost));
    GetPut(withBody, IntKey(CurlUrl), u, IntKey(CurlPost));
    GetPut(withVerb, IntKey(CurlPostFields), Val(Str(t)), IntKey(CurlPostFields));
    GetPut(withBody, IntKey(CurlUrl), u, IntKey(CurlPostFields));
    GetPut(withBody, IntKey(CurlUrl), u, IntKey(CurlUrl));
  }

  /** Any verb other than GET and POST is sent as a custom request with the
      serialised parameters as its body, to the URL as it was. */
  lemma OtherVerbSendsBody(timeout: int, userAgent: string, verb: string, url: Url, body: Body,
                           headers: seq<(Key, string)>)
    requires verb != "POST" && verb != "GET"
    requires BodyText(body).Ok? && RenderUrl(url).Ok?
    ensures RequestOptions(timeout, userAgent, verb, url, body, headers).Ok?
    ensures var o := RequestOptions(timeout, userAgent, verb, url, body, headers).value;
      Get(o, IntKey(CurlCustomRequest)) == Some(Val(Str(verb)))
      && Get(o, IntKey(CurlPostFields)) == Some(Val(Str(BodyText(body).value)))
      && !HasKey(o, IntKey(CurlPost))
      && Get(o, IntKey(CurlUrl)) == Some(Val(Str(RenderUrl(url).value)))
  {
    var fixed := FixedOptions(timeout, userAgent);
    var opts := if |headers| > 0 then Put(fixed, IntKey(CurlHttpHeader), HeaderSettingAsWritten(headers)) else fixed;
    var t := BodyText(body).value;
    var custom := Val(Str(verb));
    var withVerb := Put(opts, IntKey(CurlCustomRequest), custom);
    var withBody := Put(withVerb, IntKey(CurlPostFields), Val(Str(t)));
    var u := Val(Str(RenderUrl(url).value));
    NotFixed(timeout, userAgent, headers, IntKey(CurlPost));
    GetPut(opts, IntKey(CurlCustomRequest), custom, IntKey(CurlPost));
    GetPut(withVerb, IntKey(CurlPostFields), Val(Str(t)), IntKey(CurlPost));
    GetPut(withBody, IntKey(CurlUrl), u, IntKey(CurlPost));
    GetPut(opts, IntKey(CurlCustomRequest), custom, IntKey(CurlCustomRequest));
    GetPut(withVerb, IntKey(CurlPostFields), Val(Str(t)), IntKey(CurlCustomRequest));
    GetPut(withBody, IntKey(CurlUrl), u, IntKey(CurlCustomRequest));
    GetPut(withVerb, IntKey(CurlPostFields), Val(Str(t)), IntKey(CurlPostFields));
    GetPut(withBody, IntKey(CurlUrl), u, IntKey(CurlPostFields));
    GetPut(withBody, IntKey(CurlUrl), u, IntKey(CurlUrl));
  }

  /** A GET with a parameters object sends no body and no custom verb; its URL
      is the one with the parameters merged into the query when there are any,
      and the one given otherwise. */
  lemma GetSendsQuery(timeout: int, userAgent: string, url: Url, p: ParamsState, headers: seq<(Key, string)>)
    requires RenderUrl(UrlAfter("GET", url, ParamsBody(p))).Ok?
    ensures RequestOptions(timeout, userAgent, "GET", url, ParamsBody(p), headers).Ok?
    ensures var o := RequestOptions(timeout, userAgent, "GET", url, ParamsBody(p), headers).value;
      !HasKey(o, IntKey(CurlPost)) && !HasKey(o, IntKey(CurlPostFields)) && !HasKey(o, IntKey(CurlCustomRequest))
      && Get(o, IntKey(CurlUrl)) == Some(Val(Str(RenderUrl(UrlAfter("GET", url, ParamsBody(p))).value)))
    ensures UrlAfter("GET", url, ParamsBody(p)) ==
      if |p.entries| > 0 then url.(query := ArrayMergeRecursive(url.query, p.entries)) else url
  {
    var fixed := FixedOptions(timeout, userAgent);
    var opts := if |headers| > 0 then Put(fixed, IntKey(CurlHttpHeader), HeaderSettingAsWritten(headers)) else fixed;
    var u := Val(Str(RenderUrl(UrlAfter("GET", url, ParamsBody(p))).value));
    NotFixed(timeout, userAgent, headers, IntKey(CurlPost));
    NotFixed(timeout, userAgent, headers, IntKey(CurlPostFields));
    NotFixed(timeout, userAgent, headers, IntKey(CurlCustomRequest));
    GetPut(opts, IntKey(CurlUrl), u, IntKey(CurlPost));
    GetPut(opts, IntKey(CurlUrl), u, IntKey(CurlPostFields));
    GetPut(opts, IntKey(CurlUrl), u, IntKey(CurlCustomRequest));
    GetPut(opts, IntKey(CurlUrl), u, IntKey(CurlUrl));
  }

  /** A GET whose parameters are a string fails in `count()` before anything is sent. */
  lemma GetWithTextFails(timeout: int, userAgent: string, url: Url, text: string, headers: seq<(Key, string)>)
    ensures RequestOptions(timeout, userAgent, "GET", url, TextBody(text), headers) == Fail(TypeError(CountOnString))
  {
  }

  /** A request either carries a body or has its query extended, never both:
      the body is there exactly when the verb is not GET, and then the URL is
      left as it was. */
  lemma BodyOrQuery(timeout: int, userAgent: string, verb: string, url: Url, body: Body,
                    headers: seq<(Key, string)>)
    requires RequestOptions(timeout, userAgent, verb, url, body, headers).Ok?
    ensures HasKey(RequestOptions(timeout, userAgent, verb, url, body, headers).value, IntKey(CurlPostFields))
      <==> verb != "GET"
    ensures verb != "GET" ==> UrlAfter(verb, url, body) == url
  {
    if verb == "POST" {
      PostSendsBody(timeout, userAgent, url, body, headers);
    } else if verb != "GET" {
      OtherVerbSendsBody(timeout, userAgent, verb, url, body, headers);
    } else {
      GetSendsQuery(timeout, userAgent, url, body.p, headers);
    }
  }

  /** The options a request adds beyond the fixed ones are not among the fixed
      ones, with or without the header lines. */
  lemma NotFixed(timeout: int, userAgent: string, headers: seq<(Key, string)>, k: Key)
    requires k in {IntKey(CurlPost), IntKey(CurlCustomRequest), IntKey(CurlPostFields), IntKey(CurlUrl)}
    ensures var fixed := FixedOptions(timeout, userAgent);
      !HasKey(if |headers| > 0 then Put(fixed, IntKey(CurlHttpHeader), HeaderSettingAsWritten(headers)) else fixed, k)
  {
    var fixed := FixedOptions(timeout, userAgent);
    assert forall j :: 0 <= j < |fixed| ==> fixed[j].0 != k;
    GetPut(fixed, IntKey(CurlHttpHeader), HeaderSettingAsWritten(headers), k);
  }

  /** The client's `curl_options` win over the request's options key by key,
      and every other option stays as the request set it. */
  lemma CurlOptionsWin(timeout: int, userAgent: string, curlOptions: seq<(Key, Setting)>, verb: string,
                       url: Url, body: Body, headers: seq<(Key, string)>, k: Key)
    requires DistinctKeys(curlOptions)
    requires RequestOptions(timeout, userAgent, verb, url, body, headers).Ok?
    ensures Get(Options(timeout, userAgent, curlOptions, verb, url, body, headers).value, k) ==
      if HasKey(curlOptions, k) then Get(curlOptions, k)
      else Get(RequestOptions(timeout, userAgent, verb, url, body, headers).value, k)
  {
    PutAllGet(RequestOptions(timeout, userAgent, verb, url, body, headers).value, curlOptions, k);
  }

  /** Why the options are assigned one by one: `array_merge` renumbers integer
      keys, so merging would move the timeout from `CURLOPT_TIMEOUT` to key 0. */
  lemma ArrayMergeMovesOptions(timeout: int, userAgent: string)
    ensures ArrayMerge(FixedOptions(timeout, userAgent), [])[0] == (IntKey(0), Val(Int(timeout)))
    ensures !HasKey(ArrayMerge(FixedOptions(timeout, userAgent), []), IntKey(CurlTimeout))
  {
    var fixed := FixedOptions(timeout, userAgent);
    var merged := ArrayMerge(fixed, []);
    assert merged == RenumberFrom(fixed, 0);
    RenumberInts(fixed, 0);
    assert forall j :: 0 <= j < |merged| ==> merged[j].0 == IntKey(j);
  }

  // ---------------------------------------------------------------------------
  // The header lines, as written and as meant

  lemma {:induction false} StrValuesOf(es: seq<(Key, Value)>, lines: seq<string>)
    requires |es| == |lines| && forall i :: 0 <= i < |es| ==> es[i].1 == Str(lines[i])
    ensures StrValues(es) == lines
    decreases |es|
  {
    if es != [] {
      StrValuesOf(es[1..], lines[1..]);
      assert lines == [lines[0]] + lines[1..];
    }
  }

  /** As written, cURL receives the header values alone, one per field, and
      never the names. */
  lemma AsWrittenSendsValues(headers: seq<(Key, string)>)
    ensures SentLines(HeaderSettingAsWritten(headers)) == Values(headers)
  {
    StrValuesOf(HeaderSettingAsWritten(headers).v.entries, Values(headers));
  }

  /** As meant, cURL receives the request's `Name: value` lines in order. */
  lemma HeaderLinesSent(headers: seq<(Key, string)>)
    ensures SentLines(HeaderSetting(headers)) == Lines(headers)
  {
    StrValuesOf(HeaderSetting(headers).v.entries, Lines(headers));
  }

  /** The options as meant: those `__invoke` builds, with `CURLOPT_HTTPHEADER`
      holding the `Name: value` lines instead of the field array. */
  function CorrectedRequestOptions(timeout: int, userAgent: string, verb: string, url: Url, body: Body,
                                   headers: seq<(Key, string)>): Result<seq<(Key, Setting)>>
  {
    match RequestOptions(timeout, userAgent, verb, url, body, headers)
    case Fail(e) => Fail(e)
    case Ok(opts) => Ok(if |headers| > 0 then Put(opts, IntKey(CurlHttpHeader), HeaderSetting(headers)) else opts)
  }

  /** Corrected, a request with headers sends one `Name: value` line per
      field, one without sends none, and every other option is the one the
      code as written sets. */
  lemma CorrectedSendsLines(timeout: int, userAgent: string, verb: string, url: Url, body: Body,
                            headers: seq<(Key, string)>, k: Key)
    requires RequestOptions(timeout, userAgent, verb, url, body, headers).Ok?
    ensures CorrectedRequestOptions(timeout, userAgent, verb, url, body, headers).Ok?
    ensures var o := CorrectedRequestOptions(timeout, userAgent, verb, url, body, headers).value;
      Get(o, IntKey(CurlHttpHeader)) == (if |headers| > 0 then Some(HeaderSetting(headers)) else None)
      && (|headers| > 0 ==> SentLines(Get(o, IntKey(CurlHttpHeader)).value) == Lines(headers))
    ensures k != IntKey(CurlHttpHeader) ==>
      Get(CorrectedRequestOptions(timeout, userAgent, verb, url, body, headers).value, k)
        == Get(RequestOptions(timeout, userAgent, verb, url, body, headers).value, k)
  {
    var opts := RequestOptions(timeout, userAgent, verb, url, body, headers).value;
    HeaderLinesIffHeaders(timeout, userAgent, verb, url, body, headers);
    GetPut(opts, IntKey(CurlHttpHeader), HeaderSetting(headers), IntKey(CurlHttpHeader));
    GetPut(opts, IntKey(CurlHttpHeader), HeaderSetting(headers), k);
    HeaderLinesSent(headers);
  }

  /** Each line sent splits at its first colon into the field's name and its
      value after one space. */
  lemma HeaderLineSplits(e: (Key, string))
    requires ':' !in KeyString(e.0)
    ensures SplitFirst(':', Line(e)) == (KeyString(e.0), Some(" " + e.1))
  {
    assert Line(e) == KeyString(e.0) + [':'] + (" " + e.1);
    SplitFirstAt(':', KeyString(e.0), " " + e.1);
  }

  /** The field of a JSON post: as written the line sent is `application/json`,
      which has no colon and names no header; as meant it is the field itself. */
  lemma JsonPostHeader(headers: seq<(Key, string)>)
    requires headers == [(StrKey("Content-Type"), "application/json")]
    ensures SentLines(HeaderSettingAsWritten(headers)) == ["application/json"]
    ensures ':' !in SentLines(HeaderSettingAsWritten(headers))[0]
    ensures SentLines(HeaderSetting(headers)) == ["Content-Type: application/json"]
  {
    AsWrittenSendsValues(headers);
    HeaderLinesSent(headers);
    assert Values(headers) == [headers[0].1];
    assert Lines(headers) == [Line(headers[0])];
    var name, value := "Content-Type", "application/json";
    assert headers[0] == (StrKey(name), value);
    LineExample(name, value);
    assert name + ": " + value == "Content-Type: application/json";
  }

  // ---------------------------------------------------------------------------
  // Properties of decoders, verbs and options

  const StandardDecoders: seq<(Key, Decoder)> :=
    [(StrKey("text"), Library("strval")), (StrKey("json"), Library("json_decode")), (StrKey("php"), Library("unserialize"))]

  /** After `register_decoder(format, d)`, `get_decoder(format)` returns `d`
      for a function name that is not empty; it raises for an empty one and,
      as written, for a closure. */
  lemma RegisteredDecoderFound(decoders: seq<(Key, Decoder)>, format: string, d: Decoder)
    ensures DecoderFor(Put(decoders, NormalizeKey(format), d), format) ==
      if EmptyDecoder(d) then Fail(OutOfBounds("No decoder for format '" + format + "'"))
      else if d.Callable? then Fail(EngineError(ClosureToString))
      else Ok(d)
  {
    GetPut(decoders, NormalizeKey(format), d, NormalizeKey(format));
  }

  /** As written, a registered closure is never returned: the lookup raises. */
  lemma ClosureDecoderFails(decoders: seq<(Key, Decoder)>, format: string, id: nat)
    ensures DecoderFor(Put(decoders, NormalizeKey(format), Callable(id)), format) == Fail(EngineError(ClosureToString))
  {
    RegisteredDecoderFound(decoders, format, Callable(id));
  }

  /** Corrected, `get_decoder(format)` returns whatever was registered last
      for the format, closure or function name, unless it is an empty name. */
  lemma CorrectedDecoderFound(decoders: seq<(Key, Decoder)>, format: string, d: Decoder)
    ensures CorrectedDecoderFor(Put(decoders, NormalizeKey(format), d), format) ==
      if EmptyDecoder(d) then Fail(OutOfBounds("No decoder for format '" + format + "'")) else Ok(d)
  {
    GetPut(decoders, NormalizeKey(format), d, NormalizeKey(format));
  }

  /** The lookups as written and as meant differ exactly when the format's
      decoder is a closure. */
  lemma DecoderLookupsAgree(decoders: seq<(Key, Decoder)>, format: string)
    ensures DecoderFor(decoders, format) != CorrectedDecoderFor(decoders, format)
      <==> Get(decoders, NormalizeKey(format)).Some? && Get(decoders, NormalizeKey(format)).value.Callable?
  {
  }

  /** Registering a decoder for one format leaves every other format's lookup as it was. */
  lemma RegisterKeepsOthers(decoders: seq<(Key, Decoder)>, format: string, other: string, d: Decoder)
    requires NormalizeKey(other) != NormalizeKey(format)
    ensures DecoderFor(Put(decoders, NormalizeKey(format), d), other) == DecoderFor(decoders, other)
  {
    GetPut(decoders, NormalizeKey(format), d, NormalizeKey(other));
  }

  /** The standard registry decodes `json` with `json_decode` and has nothing for `xml`. */
  lemma StandardFormats(json: string, xml: string)
    requires json == "json" && xml == "xml"
    ensures DecoderFor(StandardDecoders, json) == Ok(Library("json_decode"))
    ensures DecoderFor(StandardDecoders, xml) == Fail(OutOfBounds("No decoder for format 'xml'"))
  {
    assert NormalizeKey(json) == StrKey(json) by {
      assert !IsDigit(json[0]) && json[0] != '-';
    }
    assert NormalizeKey(xml) == StrKey(xml) by {
      assert !IsDigit(xml[0]) && xml[0] != '-';
    }
    GetAt(StandardDecoders, 1);
    assert forall j :: 0 <= j < |StandardDecoders| ==> StandardDecoders[j].0 != StrKey(xml);
    assert "No decoder for format '" + xml + "'" == "No decoder for format 'xml'";
  }

  /** For a method name (a letter or `_` first), `__call` accepts it exactly
      when its upper-case form is one of the allowed verbs, and then uses that form. */
  lemma CallVerbMembership(allowedVerbs: seq<Scalar>, name: string)
    requires name != [] && (IsAlpha(name[0]) || name[0] == '_')
    ensures CallVerb(allowedVerbs, name).Ok? <==> SStr(ToUpper(name)) in allowedVerbs
    ensures CallVerb(allowedVerbs, name).Ok? ==> CallVerb(allowedVerbs, name).value == ToUpper(name)
  {
    var verb := ToUpper(name);
    assert verb[0] == AsciiUpper(name[0]);
    InArrayOfName(verb, allowedVerbs);
  }

  /** Upper- and lower-case method names resolve to the same verb. */
  lemma CallVerbCaseInsensitive(allowedVerbs: seq<Scalar>, name: string)
    ensures CallVerb(allowedVerbs, name) == CallVerb(allowedVerbs, ToUpper(name))
  {
    ToUpperIdempotent(name);
  }

  /** `set_option` accepts exactly the seven option names: being names, none of
      them is loosely equal to any other string. */
  lemma OptionKeyExact(key: string)
    ensures IsOptionKey(key) <==> key in OptionKeys
  {
    forall i | 0 <= i < |OptionKeys| ensures OptionKeys[i] != [] && IsAlpha(OptionKeys[i][0]) {
    }
    InNamesExact(key, OptionKeys);
  }

  lemma {:induction false} InNamesExact(key: string, names: seq<string>)
    requires forall i :: 0 <= i < |names| ==> names[i] != [] && IsAlpha(names[i][0])
    ensures InArray(SStr(key), Names(names)) <==> key in names
  {
    if names != [] {
      NameNotNumeric(names[0]);
      LooseEqNonNumeric(key, names[0]);
      NamesCons(names);
      InNamesExact(key, names[1..]);
      assert names == [names[0]] + names[1..];
    }
  }

  lemma NamesCons(names: seq<string>)
    requires names != [] && forall i :: 0 <= i < |names| ==> names[i] != [] && IsAlpha(names[i][0])
    ensures Names(names) == [SStr(names[0])] + Names(names[1..])
    ensures forall i :: 0 <= i < |names[1..]| ==> names[1..][i] != [] && IsAlpha(names[1..][i][0])
  {
    assert forall i :: 0 <= i < |names[1..]| ==> names[1..][i] == names[i + 1];
    assert Names(names)[1..] == Names(names[1..]);
  }
}
