/** The `RestClient` object: its constructor, `set_option`, the decoder
    registry, `__call`, `execute` and `__invoke`. The cURL handle is replaced by
    a transfer function from the options to what came back. */
module RestClients {
  import opened PhpString
  import opened PhpArray
  import opened PhpCompare
  import opened Errors
  import opened Paths
  import opened Parameters
  import opened Resources
  import opened HeaderFields
  import opened Responses
  import opened Client

  // ---------------------------------------------------------------------------
  // Field and argument types

  /** `string|Resource $base_url`. */
  datatype BaseUrl = BaseString(text: string) | BaseResource(r: Resource)

  /** `array|Headers $headers`. */
  datatype HeadersField = HeadersArray(entries: seq<(Key, Value)>) | HeadersObject(h: Headers)

  /** `array|Params $params`. */
  datatype ParamsField = ParamsArray(entries: seq<(Key, Value)>) | ParamsObject(p: Params)

  /** A headers argument: an array of fields or a `Headers` object. */
  datatype HeadersArg = HeaderEntries(entries: seq<(Key, string)>) | HeaderSet(h: Headers)

  /** A parameters argument: an array, a `Params` object, or a string (a
      pre-encoded body for `execute`, a query for the deprecated constructor form). */
  datatype ParamsArg = ParamEntries(entries: seq<(Key, Value)>) | ParamSet(p: Params) | ParamString(text: string)

  /** The property initialisers of the class (or of a subclass), with the user
      agent of the library as a parameter. */
  datatype ClassDefaults = ClassDefaults(userAgent: string, timeout: int, baseUrl: string,
                                         headers: seq<(Key, string)>, params: seq<(Key, Value)>,
                                         curlOptions: seq<(Key, Setting)>, allowedVerbs: seq<Scalar>,
                                         buildIndexed: bool, decoders: seq<(Key, Decoder)>)

  function Standard(userAgent: string): ClassDefaults {
    ClassDefaults(userAgent, 10, "", [], [], [],
                  Names(["GET", "POST", "PUT", "DELETE", "PATCH", "HEAD", "OPTIONS"]), false, StandardDecoders)
  }

  /** The constructor's arguments; `None` for an argument left null. */
  datatype Args = Args(baseUrl: Option<BaseUrl>, headers: Option<HeadersArg>, params: Option<ParamsArg>,
                       userAgent: Option<string>, timeout: Option<int>,
                       curlOptions: Option<seq<(Key, Setting)>>, buildIndexed: Option<bool>)

  /** The arguments in force: with the deprecated options array, every option
      it names replaces the named argument, and the base URL comes from it alone.
      A key the array holds with the value null reads here as absent, so it
      keeps the named argument, where `extract` would reset it to null. */
  function Effective(named: Args, options: Option<Args>): Args {
    match options
    case None => named
    case Some(o) =>
      Args(o.baseUrl, Prefer(o.headers, named.headers), Prefer(o.params, named.params),
           Prefer(o.userAgent, named.userAgent), Prefer(o.timeout, named.timeout),
           Prefer(o.curlOptions, named.curlOptions), Prefer(o.buildIndexed, named.buildIndexed))
  }

  function Or<T>(given: Option<T>, fallback: T): T {
    if given.Some? then given.value else fallback
  }

  /** `if($base_url)` on a Resource object or a string. */
  predicate GivesBase(a: Args) {
    a.baseUrl.Some? && (a.baseUrl.value.BaseResource? || Truthy(a.baseUrl.value.text))
  }

  predicate GivesResource(a: Args) {
    GivesBase(a) && a.baseUrl.value.BaseResource?
  }

  /** The string a base `Resource` is built from when none is given. */
  function BaseText(d: ClassDefaults, a: Args): string {
    if GivesBase(a) && a.baseUrl.value.BaseString? then a.baseUrl.value.text else d.baseUrl
  }

  function Indexed(d: ClassDefaults, a: Args): bool {
    FlagOr(a.buildIndexed, d.buildIndexed)
  }

  /** The base URL is settled: an object was given, or the text parses. */
  predicate BaseSettles(d: ClassDefaults, a: Args) {
    GivesResource(a) || Build(UrlString(BaseText(d, a)), Some(Indexed(d, a))).Ok?
  }

  function HeaderArgReads(h: Option<HeadersArg>): set<object> {
    if h.Some? && h.value.HeaderSet? then {h.value.h} else {}
  }

  function ParamArgReads(p: Option<ParamsArg>): set<object> {
    if p.Some? && p.value.ParamSet? then {p.value.p} else {}
  }

  /** `if($headers)`: a non-empty array or an object. */
  predicate HeadersTruthy(h: Option<HeadersArg>) {
    h.Some? && (h.value.HeaderSet? || |h.value.entries| > 0)
  }

  /** `if($params)`: a non-empty array, an object or a truthy string. */
  predicate ParamsTruthy(p: Option<ParamsArg>) {
    p.Some? && match p.value
      case ParamEntries(es) => |es| > 0
      case ParamSet(_) => true
      case ParamString(t) => Truthy(t)
  }

  /** The fields of a headers argument once it is a `Headers` object. */
  function HeaderArgEntries(h: HeadersArg): seq<(Key, string)>
    reads if h.HeaderSet? then {h.h} else {}
  {
    match h
    case HeaderEntries(es) => PutAll([], es)
    case HeaderSet(o) => o.entries
  }

  /** The constructed header fields: the defaults, merged with the argument when it is truthy. */
  function ConstructedHeaders(d: ClassDefaults, a: Args): seq<(Key, string)>
    reads HeaderArgReads(a.headers)
  {
    var base := PutAll([], d.headers);
    if HeadersTruthy(a.headers) then ArrayMerge(base, HeaderArgEntries(a.headers.value)) else base
  }

  /** The constructed parameters: the defaults with the client's `INDEXES`
      flag, merged with the argument when it is truthy; a query string given in
      the deprecated form is parsed first and may raise. */
  function ConstructedParams(d: ClassDefaults, a: Args): Result<seq<(Key, Value)>>
    reads ParamArgReads(a.params)
  {
    if !ParamsTruthy(a.params) then Ok(d.params)
    else match a.params.value
      case ParamEntries(es) => Ok(ArrayMergeRecursive(d.params, es))
      case ParamSet(p) => Ok(ArrayMergeRecursive(d.params, p.entries))
      case ParamString(t) =>
        match ParseSpec(t)
        case Fail(e) => Fail(e)
        case Ok(es) => Ok(ArrayMergeRecursive(d.params, es))
  }

  /** The base URL field after construction: the object given, or a
      resource holding what the text parses to. */
  predicate Settled(b: BaseUrl, d: ClassDefaults, a: Args)
    reads if b.BaseResource? then {b.r, b.r.path, b.r.query} else {}
  {
    b.BaseResource?
    && (GivesResource(a) ==> b == a.baseUrl.value)
    && (!GivesResource(a) ==> Build(UrlString(BaseText(d, a)), Some(Indexed(d, a))) == Ok(b.r.View()))
  }

  // ---------------------------------------------------------------------------
  // `set_option`

  /** A value handed to `set_option`. */
  datatype OptionValue =
    | TextValue(s: string) | IntValue(n: int) | BoolValue(b: bool) | ArrayValue(entries: seq<(Key, Value)>)
    | ResourceValue(r: Resource) | HeadersValue(h: Headers) | ParamsValue(p: Params)

  /** Whether the typed property named `key` accepts the value under strict types. */
  predicate Fits(key: string, value: OptionValue) {
    match value
    case TextValue(_) => key == "base_url" || key == "user_agent"
    case IntValue(_) => key == "timeout"
    case BoolValue(_) => key == "build_indexed_queries"
    case ArrayValue(_) => key == "headers" || key == "params" || key == "curl_options"
    case ResourceValue(_) => key == "base_url"
    case HeadersValue(_) => key == "headers"
    case ParamsValue(_) => key == "params"
  }

  function TypeName(value: OptionValue): string {
    match value
    case TextValue(_) => "string"
    case IntValue(_) => "int"
    case BoolValue(_) => "bool"
    case ArrayValue(_) => "array"
    case ResourceValue(_) => "RestClient\\Resource"
    case HeadersValue(_) => "RestClient\\Headers"
    case ParamsValue(_) => "RestClient\\Params"
  }

  function DeclaredType(key: string): string {
    if key == "base_url" then "RestClient\\Resource|string"
    else if key == "headers" then "RestClient\\Headers|array"
    else if key == "params" then "RestClient\\Params|array"
    else if key == "user_agent" then "string"
    else if key == "timeout" then "int"
    else if key == "curl_options" then "array"
    else "bool"
  }

  /** What `set_option(key, value)` raises, if anything. */
  function OptionError(key: string, value: OptionValue): Option<Error> {
    if !IsOptionKey(key) then Some(OutOfBounds("'" + key + "' is not a valid option."))
    else if !Fits(key, value) then
      Some(TypeError("Cannot assign " + TypeName(value) + " to property RestClient::$" + key + " of type " + DeclaredType(key)))
    else None
  }

  function AsSettings(es: seq<(Key, Value)>): (s: seq<(Key, Setting)>)
    ensures |s| == |es| && forall i :: 0 <= i < |es| ==> s[i] == (es[i].0, Val(es[i].1))
  {
    seq(|es|, i requires 0 <= i < |es| => (es[i].0, Val(es[i].1)))
  }

  // ---------------------------------------------------------------------------
  // Requests

  /** A request's parameters: a pre-encoded string or a `Params` object. */
  datatype RequestParams = TextParams(text: string) | ObjectParams(p: Params)

  /** `new Request(method, url, params, headers)`. */
  datatype Request = Request(verb: string, url: Resource, params: RequestParams, headers: Headers)

  function RequestBody(params: RequestParams): Body
    reads if params.ObjectParams? then {params.p} else {}
  {
    match params
    case TextParams(t) => TextBody(t)
    case ObjectParams(p) => ParamsBody(ParamsState(p.entries, p.indexes, p.encodeKeys))
  }

  /** The response object `__invoke` returns for the options it built, or the
      exception it raises: from building the options, from `parse` or from
      `get_decoder`. */
  predicate Answered(r: Result<Response>, opts: Result<seq<(Key, Setting)>>,
                     transport: seq<(Key, Setting)> -> Reply, decoders: seq<(Key, Decoder)>)
    reads if r.Ok? then {r.value, r.value.headers} else {}
  {
    match opts
    case Fail(e) => r == Fail(e)
    case Ok(o) =>
      match Received(transport(o), decoders)
      case Fail(e) => r == Fail(e)
      case Ok(x) => r.Ok? && Holds(r.value, transport(o), x.0, x.1)
  }

  // ---------------------------------------------------------------------------
  // Calls, as values

  const MergeOnString := "Call to a member function merge() on string"
  const MergeOnArray := "Call to a member function merge() on array"

  /** The state `execute` reads: `None` where the field holds a string or an
      array instead of an object (after `set_option`). */
  datatype Config = Config(base: Option<Url>, headers: Option<seq<(Key, string)>>, params: Option<ParamsState>)

  /** A call's parameters as values: a pre-encoded string, or entries to merge. */
  datatype Given = GivenText(text: string) | GivenEntries(entries: seq<(Key, Value)>)

  /** What `execute` hands `__invoke`: the upper-case verb, the base URL merged
      with the call's URL, the parameters (a string as it is, entries merged
      onto the client's), and the client's headers merged with the call's. It
      raises when a field is not an object, when the URL does not parse, or
      when the merged URL cannot be printed for the log line. */
  datatype Plan = Plan(verb: string, url: Url, body: Body, headers: seq<(Key, string)>)

  function CallPlan(c: Config, verb: string, url: Option<string>, given: Given, headers: seq<(Key, string)>): Result<Plan> {
    match PlanUrl(c.base, url)
    case Fail(e) => Fail(e)
    case Ok(u) =>
      match PlanBody(c.params, given)
      case Fail(e) => Fail(e)
      case Ok(body) =>
        match PlanHeaders(c.headers, headers)
        case Fail(e) => Fail(e)
        case Ok(hs) =>
          match RenderUrl(u)
          case Fail(e) => Fail(e)
          case Ok(_) => Ok(Plan(ToUpper(verb), u, body, hs))
  }

  /** `$this->base_url->merge(new Resource($url ?? ''))`. */
  function PlanUrl(base: Option<Url>, url: Option<string>): Result<Url> {
    if base.None? then Fail(EngineError(MergeOnString))
    else match Build(UrlString(Or(url, "")), None)
      case Fail(e) => Fail(e)
      case Ok(overlay) => Ok(MergeUrls(base.value, overlay))
  }

  /** A string as it is; entries merged onto the client's parameters object. */
  function PlanBody(params: Option<ParamsState>, given: Given): Result<Body> {
    match given
    case GivenText(t) => Ok(TextBody(t))
    case GivenEntries(es) =>
      if params.None? then Fail(EngineError(MergeOnArray))
      else Ok(ParamsBody(params.value.(entries := ArrayMergeRecursive(params.value.entries, es))))
  }

  /** The client's headers object merged with the call's fields. */
  function PlanHeaders(held: Option<seq<(Key, string)>>, headers: seq<(Key, string)>): Result<seq<(Key, string)>> {
    if held.None? then Fail(EngineError(MergeOnArray)) else Ok(ArrayMerge(held.value, headers))
  }

  /** A call's parameters argument as values. */
  function GivenOf(params: ParamsArg): Given
    reads ParamArgReads(Some(params))
  {
    match params
    case ParamString(t) => GivenText(t)
    case ParamEntries(es) => GivenEntries(es)
    case ParamSet(p) => GivenEntries(p.entries)
  }

  /** The options a call sends, or the exception raised first. */
  function CallOptions(c: Config, timeout: int, userAgent: string, curlOptions: seq<(Key, Setting)>,
                       verb: string, url: Option<string>, given: Given, headers: seq<(Key, string)>): Result<seq<(Key, Setting)>>
  {
    match CallPlan(c, verb, url, given, headers)
    case Fail(e) => Fail(e)
    case Ok(p) => Options(timeout, userAgent, curlOptions, p.verb, p.url, p.body, p.headers)
  }

  lemma CallOptionsFail(c: Config, timeout: int, userAgent: string, curlOptions: seq<(Key, Setting)>,
                        verb: string, url: Option<string>, given: Given, headers: seq<(Key, string)>)
    requires CallPlan(c, verb, url, given, headers).Fail?
    ensures CallOptions(c, timeout, userAgent, curlOptions, verb, url, given, headers)
         == Fail(CallPlan(c, verb, url, given, headers).error)
  {
  }

  lemma CallOptionsOk(c: Config, timeout: int, userAgent: string, curlOptions: seq<(Key, Setting)>,
                      verb: string, url: Option<string>, given: Given, headers: seq<(Key, string)>)
    requires CallPlan(c, verb, url, given, headers).Ok?
    ensures var p := CallPlan(c, verb, url, given, headers).value;
      CallOptions(c, timeout, userAgent, curlOptions, verb, url, given, headers)
         == Options(timeout, userAgent, curlOptions, p.verb, p.url, p.body, p.headers)
  {
  }

  // ---------------------------------------------------------------------------
  // Properties of calls

  /** `execute` upper-cases the verb first, so `post` and `POST` send the same request. */
  lemma CallUpperCases(c: Config, timeout: int, userAgent: string, curlOptions: seq<(Key, Setting)>,
                       verb: string, url: Option<string>, given: Given, headers: seq<(Key, string)>)
    ensures CallOptions(c, timeout, userAgent, curlOptions, verb, url, given, headers)
      == CallOptions(c, timeout, userAgent, curlOptions, ToUpper(verb), url, given, headers)
  {
    ToUpperIdempotent(verb);
    assert CallPlan(c, verb, url, given, headers) == CallPlan(c, ToUpper(verb), url, given, headers);
  }

  /** Parameters passed as a string are sent as the body verbatim for any verb
      but GET, and are never merged with the client's parameters: the plan
      does not depend on them, and does not need them to be an object. */
  lemma CallTextVerbatim(c: Config, timeout: int, userAgent: string, verb: string, url: Option<string>,
                         text: string, headers: seq<(Key, string)>, held: Option<ParamsState>)
    requires ToUpper(verb) != "GET"
    requires CallPlan(c, verb, url, GivenText(text), headers).Ok?
    ensures CallPlan(c.(params := held), verb, url, GivenText(text), headers) == CallPlan(c, verb, url, GivenText(text), headers)
    ensures var p := CallPlan(c, verb, url, GivenText(text), headers).value;
      RequestOptions(timeout, userAgent, p.verb, p.url, p.body, p.headers).Ok?
      && Get(RequestOptions(timeout, userAgent, p.verb, p.url, p.body, p.headers).value, IntKey(CurlPostFields))
         == Some(Val(Str(text)))
  {
    var p := CallPlan(c, verb, url, GivenText(text), headers).value;
    assert p.body == TextBody(text);
    if p.verb == "POST" {
      PostSendsBody(timeout, userAgent, p.url, p.body, p.headers);
    } else {
      OtherVerbSendsBody(timeout, userAgent, p.verb, p.url, p.body, p.headers);
    }
  }

  /** Parameters passed as entries are merged onto the client's: a string key
      the call gives takes the call's value, combined with the client's when
      both hold it, and any other key keeps the client's; the client's
      `INDEXES` and key-encoding flags are kept. */
  lemma CallParamsMerged(c: Config, verb: string, url: Option<string>, es: seq<(Key, Value)>,
                         headers: seq<(Key, string)>, k: Key)
    requires k.StrKey? && DistinctKeys(es)
    requires CallPlan(c, verb, url, GivenEntries(es), headers).Ok?
    ensures var p := CallPlan(c, verb, url, GivenEntries(es), headers).value;
      p.body.ParamsBody? && c.params.Some?
      && p.body.p.indexes == c.params.value.indexes && p.body.p.encodeKeys == c.params.value.encodeKeys
      && Get(p.body.p.entries, k) ==
         match Get(es, k)
         case None => Get(c.params.value.entries, k)
         case Some(y) => Some(match Get(c.params.value.entries, k) case Some(x) => Combine(x, y) case None => y)
  {
    ArrayMergeRecursiveGet(c.params.value.entries, es, k);
  }

  /** A header field the call gives replaces the client's field of that name;
      the client's other fields are sent as they are. */
  lemma CallHeadersWin(c: Config, verb: string, url: Option<string>, given: Given,
                       headers: seq<(Key, string)>, name: string)
    requires DistinctKeys(headers) && NormalizeKey(name).StrKey?
    requires CallPlan(c, verb, url, given, headers).Ok?
    ensures c.headers.Some?
    ensures Get(CallPlan(c, verb, url, given, headers).value.headers, NormalizeKey(name)) ==
      if HasKey(headers, NormalizeKey(name)) then Get(headers, NormalizeKey(name))
      else Get(c.headers.value, NormalizeKey(name))
  {
    MergeField(c.headers.value, headers, name);
  }

  /** Without a URL (or with `''`) a call goes to the base URL's scheme, host
      and port, with an empty path and no query of its own. */
  lemma EmptyCallUrl(base: Url, url: Option<string>)
    requires url.None? || url == Some("")
    ensures PlanUrl(Some(base), url) == Ok(base.(segments := [], query := [], encodeKeys := true))
  {
    var e := Or(url, "");
    assert e == "";
    assert SchemeOnly(e).None? by {
      assert WithoutFinalNewline(e) == e;
    }
    assert SplitFirst(':', e) == ("", None);
    assert SplitFirst('#', e).0 == "" && SplitFirst('?', "") == ("", None);
    assert SplitUrl(e) == Parsed(UrlParts(None, None, None, NullPath, QueryEntries([])));
    assert Build(UrlString(e), None) == Ok(Url(None, None, None, [], [], false, true));
  }

  // ---------------------------------------------------------------------------
  // The object

  class RestClient {
    var userAgent: string
    var timeout: int
    var baseUrl: BaseUrl
    var headers: HeadersField
    var params: ParamsField
    var curlOptions: seq<(Key, Setting)>
    var allowedVerbs: seq<Scalar>
    var buildIndexed: bool
    var decoders: seq<(Key, Decoder)>

    /** A header object the client holds keeps every name once. */
    predicate Valid()
      reads this, if headers.HeadersObject? then {headers.h} else {}
    {
      headers.HeadersObject? ==> headers.h.Valid()
    }

    /** The objects `execute` reads. */
    function State(): set<object>
      reads this
    {
      (if baseUrl.BaseResource? then {baseUrl.r} else {})
      + (if headers.HeadersObject? then {headers.h} else {})
      + (if params.ParamsObject? then {params.p} else {})
    }

    function BaseView(): Option<Url>
      reads this, State(), if baseUrl.BaseResource? then {baseUrl.r.path, baseUrl.r.query} else {}
    {
      if baseUrl.BaseResource? then Some(baseUrl.r.View()) else None
    }

    function HeadersView(): Option<seq<(Key, string)>>
      reads this, State()
    {
      if headers.HeadersObject? then Some(headers.h.entries) else None
    }

    function ParamsView(): Option<ParamsState>
      reads this, State()
    {
      if params.ParamsObject? then Some(ParamsState(params.p.entries, params.p.indexes, params.p.encodeKeys)) else None
    }

    function ConfigView(): Config
      reads this, State(), if baseUrl.BaseResource? then {baseUrl.r.path, baseUrl.r.query} else {}
    {
      Config(BaseView(), HeadersView(), ParamsView())
    }

    /** A client holding the given fields. */
    constructor Of(userAgent: string, timeout: int, baseUrl: BaseUrl, headers: HeadersField, params: ParamsField,
                   curlOptions: seq<(Key, Setting)>, allowedVerbs: seq<Scalar>, buildIndexed: bool,
                   decoders: seq<(Key, Decoder)>)
      ensures this.userAgent == userAgent && this.timeout == timeout && this.baseUrl == baseUrl
      ensures this.headers == headers && this.params == params && this.curlOptions == curlOptions
      ensures this.allowedVerbs == allowedVerbs && this.buildIndexed == buildIndexed && this.decoders == decoders
    {
      this.userAgent := userAgent;
      this.timeout := timeout;
      this.baseUrl := baseUrl;
      this.headers := headers;
      this.params := params;
      this.curlOptions := curlOptions;
      this.allowedVerbs := allowedVerbs;
      this.buildIndexed := buildIndexed;
      this.decoders := decoders;
    }

    /** `new RestClient(...)`: each scalar option is the argument or the
        default; the base URL is the object given or a fresh `Resource`
        built from the text, carrying the client's `INDEXES` flag; headers and
        parameters are fresh objects holding the defaults merged with the
        arguments. Parsing the base URL or a query string may raise. */
    static method Make(defaults: ClassDefaults, named: Args, options: Option<Args>) returns (r: Result<RestClient>)
      requires options.Some? ==> named.baseUrl.None?
      requires named.params.None? || !named.params.value.ParamString?
      ensures var a := Effective(named, options);
        !BaseSettles(defaults, a) ==> r == Fail(Build(UrlString(BaseText(defaults, a)), Some(Indexed(defaults, a))).error)
      ensures var a := Effective(named, options);
        BaseSettles(defaults, a) && ConstructedParams(defaults, a).Fail? ==> r == Fail(ConstructedParams(defaults, a).error)
      ensures var a := Effective(named, options);
        BaseSettles(defaults, a) && ConstructedParams(defaults, a).Ok? ==>
          r.Ok? && fresh(r.value)
          && r.value.userAgent == Or(a.userAgent, defaults.userAgent) && r.value.timeout == Or(a.timeout, defaults.timeout)
          && r.value.curlOptions == Or(a.curlOptions, defaults.curlOptions)
          && r.value.buildIndexed == Indexed(defaults, a)
          && r.value.allowedVerbs == defaults.allowedVerbs && r.value.decoders == defaults.decoders
          && Settled(r.value.baseUrl, defaults, a)
          && (!GivesResource(a) ==> fresh(r.value.baseUrl.r) && fresh(r.value.baseUrl.r.path) && fresh(r.value.baseUrl.r.query))
          && r.value.headers.HeadersObject? && fresh(r.value.headers.h)
          && r.value.headers.h.entries == ConstructedHeaders(defaults, a) && r.value.Valid()
          && r.value.params.ParamsObject? && fresh(r.value.params.p)
          && r.value.params.p.entries == ConstructedParams(defaults, a).value
          && r.value.params.p.indexes == Indexed(defaults, a) && r.value.params.p.encodeKeys
    {
      var a := Effective(named, options);
      var base := MakeBase(defaults, a);
      if base.Fail? {
        return Fail(base.error);
      }
      var hs := MakeHeaders(defaults, a);
      var ps := MakeParams(defaults, a);
      if ps.Fail? {
        return Fail(ps.error);
      }
      var c := new RestClient.Of(Or(a.userAgent, defaults.userAgent), Or(a.timeout, defaults.timeout), base.value,
                                 HeadersObject(hs), ParamsObject(ps.value), Or(a.curlOptions, defaults.curlOptions),
                                 defaults.allowedVerbs, Indexed(defaults, a), defaults.decoders);
      r := Ok(c);
    }

    /** The base URL the constructor settles on. */
    static method MakeBase(defaults: ClassDefaults, a: Args) returns (r: Result<BaseUrl>)
      ensures !BaseSettles(defaults, a) ==> r == Fail(Build(UrlString(BaseText(defaults, a)), Some(Indexed(defaults, a))).error)
      ensures BaseSettles(defaults, a) ==> r.Ok? && Settled(r.value, defaults, a)
      ensures r.Ok? && !GivesResource(a) ==> fresh(r.value.r) && fresh(r.value.r.path) && fresh(r.value.r.query)
    {
      if GivesResource(a) {
        return Ok(a.baseUrl.value);
      }
      var made := Resource.Make(UrlString(BaseText(defaults, a)), Some(Indexed(defaults, a)));
      if made.Fail? {
        return Fail(made.error);
      }
      r := Ok(BaseResource(made.value));
    }

    /** The constructed `Headers` object. */
    static method MakeHeaders(defaults: ClassDefaults, a: Args) returns (hs: Headers)
      ensures fresh(hs) && hs.entries == ConstructedHeaders(defaults, a) && hs.Valid()
    {
      hs := new Headers(defaults.headers);
      if HeadersTruthy(a.headers) {
        var given: Headers;
        match a.headers.value {
          case HeaderEntries(es) =>
            given := new Headers(es);
          case HeaderSet(h) =>
            given := h;
        }
        hs := hs.Merge(given);
      }
    }

    /** The constructed `Params` object, or the error parsing a query string raised. */
    static method MakeParams(defaults: ClassDefaults, a: Args) returns (r: Result<Params>)
      ensures ConstructedParams(defaults, a).Fail? ==> r == Fail(ConstructedParams(defaults, a).error)
      ensures ConstructedParams(defaults, a).Ok? ==>
        r.Ok? && fresh(r.value) && r.value.entries == ConstructedParams(defaults, a).value
        && r.value.indexes == Indexed(defaults, a) && r.value.encodeKeys
    {
      var ps := new Params(defaults.params, Some(Indexed(defaults, a)), None);
      if ParamsTruthy(a.params) {
        var given: Params;
        match a.params.value {
          case ParamEntries(es) =>
            given := new Params(es, None, None);
          case ParamSet(p) =>
            given := p;
          case ParamString(t) =>
            var parsed := Params.FromQuery(t, None, None);
            if parsed.Fail? {
              return Fail(parsed.error);
            }
            given := parsed.value;
        }
        ps := ps.Merge(given);
      }
      r := Ok(ps);
    }

    /** `set_option(key, value)`: only the seven option names are accepted, and
        the property takes only a value of its declared type; it is then
        replaced and nothing else changes. */
    method SetOption(key: string, value: OptionValue) returns (thrown: Option<Error>)
      modifies this
      ensures thrown == OptionError(key, value)
      ensures thrown.Some? ==> unchanged(this)
      ensures thrown.None? ==>
        baseUrl == (if key != "base_url" then old(baseUrl)
                    else if value.TextValue? then BaseString(value.s) else BaseResource(value.r))
        && headers == (if key != "headers" then old(headers)
                       else if value.ArrayValue? then HeadersArray(value.entries) else HeadersObject(value.h))
        && params == (if key != "params" then old(params)
                      else if value.ArrayValue? then ParamsArray(value.entries) else ParamsObject(value.p))
        && userAgent == (if key == "user_agent" then value.s else old(userAgent))
        && timeout == (if key == "timeout" then value.n else old(timeout))
        && curlOptions == (if key == "curl_options" then AsSettings(value.entries) else old(curlOptions))
        && buildIndexed == (if key == "build_indexed_queries" then value.b else old(buildIndexed))
        && allowedVerbs == old(allowedVerbs) && decoders == old(decoders)
    {
      thrown := OptionError(key, value);
      if thrown.Some? {
        return;
      }
      match value {
        case TextValue(s) =>
          if key == "base_url" { baseUrl := BaseString(s); } else { userAgent := s; }
        case IntValue(n) =>
          timeout := n;
        case BoolValue(b) =>
          buildIndexed := b;
        case ArrayValue(es) =>
          if key == "headers" { headers := HeadersArray(es); }
          else if key == "params" { params := ParamsArray(es); }
          else { curlOptions := AsSettings(es); }
        case ResourceValue(res) =>
          baseUrl := BaseResource(res);
        case HeadersValue(h) =>
          headers := HeadersObject(h);
        case ParamsValue(p) =>
          params := ParamsObject(p);
      }
    }

    /** `register_decoder(format, d)`: the registry entry for the format is `d`. */
    method RegisterDecoder(format: string, d: Decoder)
      modifies this
      ensures decoders == Put(old(decoders), NormalizeKey(format), d)
      ensures userAgent == old(userAgent) && timeout == old(timeout) && baseUrl == old(baseUrl)
      ensures headers == old(headers) && params == old(params) && curlOptions == old(curlOptions)
      ensures allowedVerbs == old(allowedVerbs) && buildIndexed == old(buildIndexed)
    {
      decoders := Put(decoders, NormalizeKey(format), d);
    }

    /** `get_decoder(format)`. */
    function GetDecoder(format: string): Result<Decoder>
      reads this
    {
      DecoderFor(decoders, format)
    }

    /** `__invoke(request)`: the options are built and sent, and the reply
        parsed and decoded into a fresh response. A GET merges its parameters
        into the request URL's query object, which is the only change to
        existing state. */
    method Invoke(request: Request, transport: seq<(Key, Setting)> -> Reply) returns (r: Result<Response>)
      modifies request.url
      ensures request.url.path == old(request.url.path)
      ensures request.url.View() == UrlAfter(request.verb, old(request.url.View()), old(RequestBody(request.params)))
      ensures Answered(r, Options(timeout, userAgent, curlOptions, request.verb, old(request.url.View()),
                                  old(RequestBody(request.params)), old(request.headers.entries)), transport, decoders)
      ensures r.Ok? ==> fresh(r.value) && fresh(r.value.headers)
    {
      var opts := BuildOptions(request);
      if opts.Fail? {
        return Fail(opts.error);
      }
      var all := LayOptions(opts.value);
      r := Receive(transport(all));
    }

    /** The request's own options, before `curl_options`. */
    method BuildOptions(request: Request) returns (r: Result<seq<(Key, Setting)>>)
      modifies request.url
      ensures request.url.path == old(request.url.path)
      ensures request.url.View() == UrlAfter(request.verb, old(request.url.View()), old(RequestBody(request.params)))
      ensures r == RequestOptions(timeout, userAgent, request.verb, old(request.url.View()),
                                  old(RequestBody(request.params)), old(request.headers.entries))
    {
      ghost var url0 := request.url.View();
      ghost var body := RequestBody(request.params);
      var opts := FixedOptions(timeout, userAgent);
      if request.headers.Count() > 0 {
        opts := Put(opts, IntKey(CurlHttpHeader), HeaderSettingAsWritten(request.headers.entries));
      }
      if request.verb == "POST" {
        opts := Put(opts, IntKey(CurlPost), Flag(true));
        var text := BodyText(RequestBody(request.params));
        if text.Fail? {
          return Fail(text.error);
        }
        opts := Put(opts, IntKey(CurlPostFields), Val(Str(text.value)));
      } else if request.verb != "GET" {
        opts := Put(opts, IntKey(CurlCustomRequest), Val(Str(request.verb)));
        var text := BodyText(RequestBody(request.params));
        if text.Fail? {
          return Fail(text.error);
        }
        opts := Put(opts, IntKey(CurlPostFields), Val(Str(text.value)));
      } else {
        match request.params {
          case TextParams(_) =>
            return Fail(TypeError(CountOnString));
          case ObjectParams(p) =>
            if p.Count() > 0 {
              var q := request.url.query.Merge(p);
              request.url.query := q;
            }
        }
      }
      var url := request.url.ToString();
      if url.Fail? {
        return Fail(url.error);
      }
      r := Ok(Put(opts, IntKey(CurlUrl), Val(Str(url.value))));
    }

    /** The `curl_options` loop: each of the client's options assigned over
        the request's in turn. */
    method LayOptions(opts: seq<(Key, Setting)>) returns (all: seq<(Key, Setting)>)
      ensures all == PutAll(opts, curlOptions)
    {
      all := opts;
      var i := 0;
      while i < |curlOptions|
        invariant 0 <= i <= |curlOptions|
        invariant PutAll(opts, curlOptions) == PutAll(all, curlOptions[i..])
      {
        assert curlOptions[i..][1..] == curlOptions[i + 1..];
        all := Put(all, curlOptions[i].0, curlOptions[i].1);
        i := i + 1;
      }
      assert curlOptions[i..] == [];
    }

    /** The response for a reply: parsed, then decoded by the decoder for its format. */
    method Receive(reply: Reply) returns (r: Result<Response>)
      ensures Answered(r, Ok([]), _ => reply, decoders)
      ensures r.Ok? ==> fresh(r.value) && fresh(r.value.headers)
    {
      var response := new Response(reply.raw, reply.error, reply.httpCode);
      var thrown := response.Parse();
      if thrown.Some? {
        return Fail(thrown.value);
      }
      var decoder := GetDecoder(response.Format());
      if decoder.Fail? {
        return Fail(decoder.error);
      }
      response.Decode(decoder.value);
      r := Ok(response);
    }

    /** `execute(method, url, params, headers)`: the request `CallPlan`
        describes is built from fresh objects and handed to `__invoke`; no
        existing object changes. */
    method Execute(verb: string, url: Option<string>, params: ParamsArg, headers: HeadersArg,
                   transport: seq<(Key, Setting)> -> Reply) returns (r: Result<Response>)
      requires Valid()
      ensures Answered(r, old(CallOptions(ConfigView(), timeout, userAgent, curlOptions, verb, url,
                                          GivenOf(params), HeaderArgEntries(headers))), transport, decoders)
      ensures r.Ok? ==> fresh(r.value) && fresh(r.value.headers)
    {
      ghost var c := ConfigView();
      ghost var given := GivenOf(params);
      ghost var entries := HeaderArgEntries(headers);
      var plan := Prepare(verb, url, params, headers);
      if plan.Fail? {
        CallOptionsFail(c, timeout, userAgent, curlOptions, verb, url, given, entries);
        return Fail(plan.error);
      }
      var request := plan.value;
      CallOptionsOk(c, timeout, userAgent, curlOptions, verb, url, given, entries);
      ghost var opts := CallOptions(c, timeout, userAgent, curlOptions, verb, url, given, entries);
      r := Invoke(request, transport);
    }

    /** The request `execute` builds, or the exception raised on the way. */
    method Prepare(verb: string, url: Option<string>, params: ParamsArg, headers: HeadersArg) returns (r: Result<Request>)
      requires Valid()
      ensures var plan := CallPlan(ConfigView(), verb, url, GivenOf(params), HeaderArgEntries(headers));
        (plan.Fail? ==> r == Fail(plan.error))
        && (plan.Ok? ==>
              r.Ok? && fresh(r.value.url) && r.value.verb == plan.value.verb
              && r.value.url.View() == plan.value.url && RequestBody(r.value.params) == plan.value.body
              && r.value.headers.entries == plan.value.headers)
    {
      var merged := PrepareUrl(url);
      if merged.Fail? {
        return Fail(merged.error);
      }
      var body := PrepareBody(params);
      if body.Fail? {
        return Fail(body.error);
      }
      var hs := PrepareHeaders(headers);
      if hs.Fail? {
        return Fail(hs.error);
      }
      var logged := merged.value.ToString();
      if logged.Fail? {
        return Fail(logged.error);
      }
      r := Ok(Request(ToUpper(verb), merged.value, body.value, hs.value));
    }

    /** The base merged with the call's URL, built as a fresh resource. */
    method PrepareUrl(url: Option<string>) returns (r: Result<Resource>)
      ensures PlanUrl(BaseView(), url).Fail? ==> r == Fail(PlanUrl(BaseView(), url).error)
      ensures PlanUrl(BaseView(), url).Ok? ==> r.Ok? && fresh(r.value) && r.value.View() == PlanUrl(BaseView(), url).value
    {
      if baseUrl.BaseString? {
        return Fail(EngineError(MergeOnString));
      }
      var overlay := Resource.Make(UrlString(Or(url, "")), None);
      if overlay.Fail? {
        return Fail(overlay.error);
      }
      var merged := baseUrl.r.Merge(overlay.value);
      r := Ok(merged);
    }

    /** The call's parameters: the string, or a fresh merged `Params` object. */
    method PrepareBody(params: ParamsArg) returns (r: Result<RequestParams>)
      ensures PlanBody(ParamsView(), GivenOf(params)).Fail? ==> r == Fail(PlanBody(ParamsView(), GivenOf(params)).error)
      ensures PlanBody(ParamsView(), GivenOf(params)).Ok? ==>
        r.Ok? && RequestBody(r.value) == PlanBody(ParamsView(), GivenOf(params)).value
        && (r.value.ObjectParams? ==> fresh(r.value.p))
    {
      if params.ParamString? {
        return Ok(TextParams(params.text));
      }
      var given: Params;
      if params.ParamEntries? {
        given := new Params(params.entries, None, None);
      } else {
        given := params.p;
      }
      if this.params.ParamsArray? {
        return Fail(EngineError(MergeOnArray));
      }
      var m := this.params.p.Merge(given);
      r := Ok(ObjectParams(m));
    }

    /** The client's headers merged with the call's, as a fresh object. */
    method PrepareHeaders(headers: HeadersArg) returns (r: Result<Headers>)
      requires Valid()
      ensures PlanHeaders(HeadersView(), HeaderArgEntries(headers)).Fail? ==>
        r == Fail(PlanHeaders(HeadersView(), HeaderArgEntries(headers)).error)
      ensures PlanHeaders(HeadersView(), HeaderArgEntries(headers)).Ok? ==>
        r.Ok? && fresh(r.value) && r.value.entries == PlanHeaders(HeadersView(), HeaderArgEntries(headers)).value
    {
      var hs: Headers;
      match headers {
        case HeaderEntries(es) =>
          hs := new Headers(es);
        case HeaderSet(h) =>
          hs := h;
      }
      if this.headers.HeadersArray? {
        return Fail(EngineError(MergeOnArray));
      }
      var mh := this.headers.h.Merge(hs);
      r := Ok(mh);
    }

    /** `__call(name, args)`: a method name that is not an allowed verb raises;
        otherwise `execute` runs with the verb. */
    method Call(name: string, url: Option<string>, params: ParamsArg, headers: HeadersArg,
                transport: seq<(Key, Setting)> -> Reply) returns (r: Result<Response>)
      requires Valid()
      ensures CallVerb(allowedVerbs, name).Fail? ==> r == Fail(CallVerb(allowedVerbs, name).error)
      ensures CallVerb(allowedVerbs, name).Ok? ==>
        Answered(r, CallOptions(ConfigView(), timeout, userAgent, curlOptions, CallVerb(allowedVerbs, name).value,
                                url, GivenOf(params), HeaderArgEntries(headers)), transport, decoders)
      ensures r.Ok? ==> fresh(r.value) && fresh(r.value.headers)
    {
      var verb := CallVerb(allowedVerbs, name);
      if verb.Fail? {
        return Fail(verb.error);
      }
      r := Execute(verb.value, url, params, headers, transport);
    }
  }
}
