/** The version 1 client (`restclient.php`): its options, the request
    `execute` composes, and what it makes of the reply (the status lines, the
    header fields with repeated names gathered into lists, the body, the
    response format and the cached decoded data). The transfer is a function
    parameter from the cURL options to what came back. */
module LegacyClient {
  import opened PhpString
  import opened PhpArray
  import opened Errors
  import opened Responses
  import opened LegacyQuery
  import Client

  // ---------------------------------------------------------------------------
  // Header fields as version 1 keeps them

  /** A header value: one string, or the list that a repeated name (or an
      array given as a request header) holds. */
  datatype FieldValue = One(v: string) | Many(vs: seq<string>)

  /** `is_array($values) ? $values : [$values]`. */
  function ValuesOf(f: FieldValue): seq<string> {
    match f
    case One(v) => [v]
    case Many(vs) => vs
  }

  /** `empty($headers[$key])`: missing, a falsy string or an empty list. */
  predicate Unset(f: Option<FieldValue>) {
    match f
    case None => true
    case Some(One(v)) => !Truthy(v)
    case Some(Many(vs)) => vs == []
  }

  /** One header line assigned: an unset name takes the value, a name holding
      a list gets the value appended, a name holding one string becomes the
      list of both. */
  function Added(cur: Option<FieldValue>, v: string): FieldValue {
    if Unset(cur) then One(v)
    else match cur.value
      case Many(vs) => Many(vs + [v])
      case One(x) => Many([x, v])
  }

  function AddField(hs: seq<(Key, FieldValue)>, k: Key, v: string): (r: seq<(Key, FieldValue)>)
    ensures HasKey(r, k)
  {
    GetPut(hs, k, Added(Get(hs, k), v), k);
    Put(hs, k, Added(Get(hs, k), v))
  }

  /** The key a header name is stored under: `-` turned into `_`, lower-cased,
      trimmed, and normalised as an array key. */
  function HeaderKey(name: string): Key {
    NormalizeKey(Trim(ToLower(ReplaceChar(name, '-', '_'))))
  }

  // ---------------------------------------------------------------------------
  // parse_response as a function

  /** What `parse_response` leaves behind. */
  datatype Parsed = Parsed(statusLines: seq<string>, headers: seq<(Key, FieldValue)>, response: Raw)

  /** `strtok('')` on the text not yet read: `false` once nothing is left. */
  function Remainder(rest: string): Raw {
    if rest == "" then NoRaw else RawText(rest)
  }

  /** The loop body on a line that does not end the header block. */
  function Effect(line: string, status: seq<string>, hs: seq<(Key, FieldValue)>): (seq<string>, seq<(Key, FieldValue)>) {
    if Blank(line) then (status, hs)
    else if StartsWith(line, "HTTP") then (status + [Trim(line)], hs)
    else
      var split := SplitFirst(':', line);
      (status, AddField(hs, HeaderKey(split.0), Trim(if split.1.Some? then split.1.value else "")))
  }

  /** The loop condition `$line = strtok("\n")`: go on with a truthy token,
      else stop, the body being what is left. */
  function Resume(tok: Option<(string, string)>, status: seq<string>, hs: seq<(Key, FieldValue)>): Parsed
    decreases if tok.Some? then |tok.value.1| + 1 else 0, 1
  {
    match tok
    case None => Parsed(status, hs, NoRaw)
    case Some(t) => if Truthy(t.0) then Pass(t.0, t.1, status, hs) else Parsed(status, hs, Remainder(t.1))
  }

  /** One pass of the loop body on `line`, with `rest` unread. A blank line
      ends the header block once a field has been read. */
  function Pass(line: string, rest: string, status: seq<string>, hs: seq<(Key, FieldValue)>): Parsed
    decreases |rest| + 1, 0
  {
    if Blank(line) && |hs| > 0 then Parsed(status, hs, Remainder(rest))
    else
      var e := Effect(line, status, hs);
      Resume(NextToken(rest), e.0, e.1)
  }

  /** `parse_response(text)`: a do-while, so the first token goes through the
      body whatever it is; no token at all reads as an empty line. */
  function LegacyParse(text: string): Parsed {
    match NextToken(text)
    case None => Parsed([], [], NoRaw)
    case Some(t) => Pass(t.0, t.1, [], [])
  }

  /** What `strtok` makes of curl's result: `false` reads as `''`. */
  function InputText(raw: Raw): string {
    if raw.RawText? then raw.text else ""
  }

  /** The parse from the next token on, once the first is behind. */
  function From(text: string, status: seq<string>, hs: seq<(Key, FieldValue)>): Parsed {
    Resume(NextToken(text), status, hs)
  }

  // ---------------------------------------------------------------------------
  // get_response_format and decode_response

  const NoResponse := "A response must exist before it can be decoded."
  const Undetermined := "Response format could not be determined."
  const PregArray := "preg_match(): Argument #2 ($subject) must be of type string, array given"
  const Immutable := "Decoded response data is immutable."

  function Unsupported(format: string): string {
    "'" + format + "' is not a supported format, register a decoder to handle this response."
  }

  /** `(\w+)/(\w+)` matches somewhere in the content type. */
  predicate HasMatch(contentType: string) {
    exists j :: 0 <= j < |contentType| && SlashAt(contentType, j)
  }

  /** `get_response_format()`: an error without a (truthy) response; else a
      truthy `format` option; else the subtype of the content type. Two
      `Content-Type` fields make a list, which `preg_match` refuses. */
  function ResponseFormat(response: Raw, hs: seq<(Key, FieldValue)>, format: Option<string>): Result<string> {
    if !(response.RawText? && Truthy(response.text)) then Fail(ClientError(NoResponse))
    else if format.Some? && Truthy(format.value) then Ok(format.value)
    else ContentTypeFormat(Get(hs, StrKey("content_type")))
  }

  /** `empty($this->decoded_response)`. A decoded object is modelled as an
      array with entries. */
  predicate EmptyValue(v: Value) {
    match v
    case Null => true
    case Str(s) => !Truthy(s)
    case Int(n) => n == 0
    case Arr(es) => es == []
  }

  /** `decode_response()` on the data decoded so far: non-empty data is
      returned as it is; otherwise the decoder registered for the format is
      applied to the response. */
  function Decoding(decoded: Value, response: Raw, hs: seq<(Key, FieldValue)>, o: Options,
                    run: (Decoder, string) -> Value): Result<Value>
  {
    if !EmptyValue(decoded) then Ok(decoded)
    else match ResponseFormat(response, hs, o.format)
      case Fail(e) => Fail(e)
      case Ok(f) =>
        match Get(o.decoders, NormalizeKey(f))
        case None => Fail(ClientError(Unsupported(f)))
        case Some(d) => Ok(run(d, InputText(response)))
  }

  // ---------------------------------------------------------------------------
  // Options

  /** The options a client keeps. `format_regex` is left at its default. */
  datatype Options = Options(
    headers: seq<(Key, FieldValue)>,
    parameters: seq<(Key, Value)>,
    curlOptions: seq<(Key, Client.Setting)>,
    buildIndexed: bool,
    userAgent: string,
    baseUrl: Option<string>,
    format: Option<string>,
    decoders: seq<(Key, Decoder)>,
    username: Option<string>,
    password: Option<string>)

  const DefaultDecoders: seq<(Key, Decoder)> :=
    [(StrKey("json"), Library("json_decode")), (StrKey("php"), Library("unserialize"))]

  const Defaults: Options :=
    Options([], [], [], false, "PHP RestClient/0.1.7", None, None, DefaultDecoders, None, None)

  /** One option as given to the constructor or to `set_option`. */
  datatype OptionArg =
    | HeadersOpt(headers: seq<(Key, FieldValue)>)
    | ParametersOpt(parameters: seq<(Key, Value)>)
    | CurlOpt(curlOptions: seq<(Key, Client.Setting)>)
    | IndexedOpt(on: bool)
    | UserAgentOpt(userAgent: string)
    | BaseUrlOpt(baseUrl: Option<string>)
    | FormatOpt(format: Option<string>)
    | DecodersOpt(decoders: seq<(Key, Decoder)>)
    | UsernameOpt(username: Option<string>)
    | PasswordOpt(password: Option<string>)

  /** The key of the options array the option is stored under. */
  function OptionKey(a: OptionArg): string {
    match a
    case HeadersOpt(_) => "headers"
    case ParametersOpt(_) => "parameters"
    case CurlOpt(_) => "curl_options"
    case IndexedOpt(_) => "build_indexed_queries"
    case UserAgentOpt(_) => "user_agent"
    case BaseUrlOpt(_) => "base_url"
    case FormatOpt(_) => "format"
    case DecodersOpt(_) => "decoders"
    case UsernameOpt(_) => "username"
    case PasswordOpt(_) => "password"
  }

  /** `$this->options[$key]`, as the option it holds. */
  function Entry(o: Options, key: string): Option<OptionArg> {
    if key == "headers" then Some(HeadersOpt(o.headers))
    else if key == "parameters" then Some(ParametersOpt(o.parameters))
    else if key == "curl_options" then Some(CurlOpt(o.curlOptions))
    else if key == "build_indexed_queries" then Some(IndexedOpt(o.buildIndexed))
    else if key == "user_agent" then Some(UserAgentOpt(o.userAgent))
    else if key == "base_url" then Some(BaseUrlOpt(o.baseUrl))
    else if key == "format" then Some(FormatOpt(o.format))
    else if key == "decoders" then Some(DecodersOpt(o.decoders))
    else if key == "username" then Some(UsernameOpt(o.username))
    else if key == "password" then Some(PasswordOpt(o.password))
    else None
  }

  /** `$this->options[$key] = $value`. */
  function Assign(o: Options, a: OptionArg): Options {
    match a
    case HeadersOpt(v) => o.(headers := v)
    case ParametersOpt(v) => o.(parameters := v)
    case CurlOpt(v) => o.(curlOptions := v)
    case IndexedOpt(v) => o.(buildIndexed := v)
    case UserAgentOpt(v) => o.(userAgent := v)
    case BaseUrlOpt(v) => o.(baseUrl := v)
    case FormatOpt(v) => o.(format := v)
    case DecodersOpt(v) => o.(decoders := v)
    case UsernameOpt(v) => o.(username := v)
    case PasswordOpt(v) => o.(password := v)
  }

  function AssignAll(o: Options, given: seq<OptionArg>): Options
    decreases |given|
  {
    if given == [] then o else AssignAll(Assign(o, given[0]), given[1..])
  }

  /** The last of the given options stored under `key`: the one `array_merge`
      keeps. */
  function LastGiven(given: seq<OptionArg>, key: string): (r: Option<OptionArg>)
    ensures r.Some? ==> OptionKey(r.value) == key
    decreases |given|
  {
    if given == [] then None
    else match LastGiven(given[1..], key)
      case Some(a) => Some(a)
      case None => if OptionKey(given[0]) == key then Some(given[0]) else None
  }

  /** `__construct($options)`: `array_merge` of the defaults and the options,
      then the given decoders merged over the default ones. */
  function Construct(given: seq<OptionArg>): Options {
    var o := AssignAll(Defaults, given);
    match LastGiven(given, "decoders")
    case Some(DecodersOpt(d)) => o.(decoders := ArrayMerge(DefaultDecoders, d))
    case _ => o
  }

  // ---------------------------------------------------------------------------
  // The request execute builds

  const CurlUserPwd: int := 10005

  /** Parameters: an array, merged with the `parameters` option, or a string
      used as it is. */
  datatype Params = ParamArray(entries: seq<(Key, Value)>) | ParamText(text: string)

  /** The parameter string: `http_build_query` of the merged array, with list
      indexes stripped unless `build_indexed_queries` is set. */
  function ParamsString(o: Options, p: Params): string {
    match p
    case ParamText(t) => t
    case ParamArray(es) =>
      var q := HttpBuildQuery(ArrayMerge(o.parameters, es));
      if o.buildIndexed then q else Unindex(q)
  }

  predicate SendsCredentials(o: Options) {
    o.username.Some? && Truthy(o.username.value) && o.password.Some? && Truthy(o.password.value)
  }

  /** The options every request starts with, and `user:password` when both
      are set. */
  function Preamble(o: Options): seq<(Key, Client.Setting)> {
    var fixed := [(IntKey(Client.CurlHeader), Client.Flag(true)), (IntKey(Client.CurlReturnTransfer), Client.Flag(true)),
                  (IntKey(Client.CurlUserAgent), Client.Val(Str(o.userAgent)))];
    if SendsCredentials(o) then Put(fixed, IntKey(CurlUserPwd), Client.Val(Str(o.username.value + ":" + o.password.value)))
    else fixed
  }

  /** The lines of one header entry: `name:value` per value, no space. */
  function EntryLines(e: (Key, FieldValue)): (lines: seq<string>)
    ensures |lines| == |ValuesOf(e.1)|
  {
    seq(|ValuesOf(e.1)|, j requires 0 <= j < |ValuesOf(e.1)| => KeyString(e.0) + ":" + ValuesOf(e.1)[j])
  }

  function HeaderLinesOf(hs: seq<(Key, FieldValue)>): seq<string>
    decreases |hs|
  {
    if hs == [] then [] else EntryLines(hs[0]) + HeaderLinesOf(hs[1..])
  }

  function HeaderList(lines: seq<string>): Client.Setting {
    Client.Val(Arr(ListOf(Client.StrList(lines))))
  }

  /** `CURLOPT_HTTPHEADER` when either the option or the call has headers:
      the lines of the call's headers merged over the option's. */
  function WithHeaderLines(opts: seq<(Key, Client.Setting)>, o: Options, headers: seq<(Key, FieldValue)>): seq<(Key, Client.Setting)> {
    if |o.headers| > 0 || |headers| > 0 then Put(opts, IntKey(Client.CurlHttpHeader), HeaderList(HeaderLinesOf(ArrayMerge(o.headers, headers))))
    else opts
  }

  /** The body: POST, or any other verb but GET as a custom request, sends
      the parameter string. */
  function WithBody(opts: seq<(Key, Client.Setting)>, verb: string, q: string): seq<(Key, Client.Setting)> {
    if verb == "POST" then Put(Put(opts, IntKey(Client.CurlPost), Client.Flag(true)), IntKey(Client.CurlPostFields), Client.Val(Str(q)))
    else if verb != "GET" then
      Put(Put(opts, IntKey(Client.CurlCustomRequest), Client.Val(Str(verb))), IntKey(Client.CurlPostFields), Client.Val(Str(q)))
    else opts
  }

  /** The URL `execute` requests. */
  function ExecUrl(o: Options, url: string, verb: string, p: Params): string {
    RequestUrl(o.baseUrl, o.format, url, ToUpper(verb), ParamsString(o, p))
  }

  /** Every option `curl_setopt_array` receives, the `curl_options` option
      assigned over the rest key by key. */
  function ExecOptions(o: Options, url: string, verb: string, p: Params, headers: seq<(Key, FieldValue)>): seq<(Key, Client.Setting)> {
    var q := ParamsString(o, p);
    var opts := WithBody(WithHeaderLines(Preamble(o), o, headers), ToUpper(verb), q);
    PutAll(Put(opts, IntKey(Client.CurlUrl), Client.Val(Str(ExecUrl(o, url, verb, p)))), o.curlOptions)
  }

  // ---------------------------------------------------------------------------
  // The object

  class LegacyRestClient {
    var options: Options
    var url: string
    var response: Raw
    var headers: seq<(Key, FieldValue)>
    var statusLines: seq<string>
    var httpCode: int
    var error: string
    var decoded: Value

    /** `new RestClient($options)`. */
    constructor(given: seq<OptionArg>)
      ensures options == Construct(given)
      ensures url == "" && response == NoRaw && headers == [] && statusLines == []
      ensures httpCode == 0 && error == "" && decoded == Null
    {
      options := Construct(given);
      url := "";
      response := NoRaw;
      headers := [];
      statusLines := [];
      httpCode := 0;
      error := "";
      decoded := Null;
    }

    /** `clone $this`. */
    constructor Clone(from: LegacyRestClient)
      ensures options == from.options && url == from.url && response == from.response
      ensures headers == from.headers && statusLines == from.statusLines
      ensures httpCode == from.httpCode && error == from.error && decoded == from.decoded
    {
      options := from.options;
      url := from.url;
      response := from.response;
      headers := from.headers;
      statusLines := from.statusLines;
      httpCode := from.httpCode;
      error := from.error;
      decoded := from.decoded;
    }

    /** `set_option($key, $value)`. */
    method SetOption(a: OptionArg)
      modifies this
      ensures options == Assign(old(options), a)
      ensures url == old(url) && response == old(response) && headers == old(headers)
      ensures statusLines == old(statusLines) && httpCode == old(httpCode) && error == old(error) && decoded == old(decoded)
    {
      options := Assign(options, a);
    }

    /** `register_decoder($format, $method)`. */
    method RegisterDecoder(format: string, d: Decoder)
      modifies this
      ensures options == old(options).(decoders := Put(old(options).decoders, NormalizeKey(format), d))
      ensures url == old(url) && response == old(response) && headers == old(headers)
      ensures statusLines == old(statusLines) && httpCode == old(httpCode) && error == old(error) && decoded == old(decoded)
    {
      options := options.(decoders := Put(options.decoders, NormalizeKey(format), d));
    }

    /** `parse_response($response)`. */
    method ParseResponse(raw: Raw)
      modifies this
      ensures var p := LegacyParse(InputText(raw));
        statusLines == p.statusLines && headers == p.headers && response == p.response
      ensures options == old(options) && url == old(url) && httpCode == old(httpCode)
      ensures error == old(error) && decoded == old(decoded)
    {
      var text := InputText(raw);
      var hs: seq<(Key, FieldValue)> := [];
      statusLines := [];
      var tok := NextToken(text);
      if tok.None? {
        headers, response := hs, NoRaw;
        return;
      }
      var line, rest := tok.value.0, tok.value.1;
      while true
        invariant options == old(options) && url == old(url) && httpCode == old(httpCode)
        invariant error == old(error) && decoded == old(decoded)
        invariant LegacyParse(text) == Pass(line, rest, statusLines, hs)
        decreases |rest|
      {
        if Blank(line) {
          if |hs| > 0 {
            headers, response := hs, Remainder(rest);
            return;
          }
        } else if StartsWith(line, "HTTP") {
          statusLines := statusLines + [Trim(line)];
        } else {
          var split := SplitFirst(':', line);
          var key := HeaderKey(split.0);
          var value := Trim(if split.1.Some? then split.1.value else "");
          var cur := Get(hs, key);
          if Unset(cur) {
            hs := Put(hs, key, One(value));
          } else if cur.value.Many? {
            hs := Put(hs, key, Many(cur.value.vs + [value]));
          } else {
            hs := Put(hs, key, Many([cur.value.v, value]));
          }
        }
        tok := NextToken(rest);
        if tok.None? {
          headers, response := hs, NoRaw;
          return;
        }
        if !Truthy(tok.value.0) {
          headers, response := hs, Remainder(tok.value.1);
          return;
        }
        line, rest := tok.value.0, tok.value.1;
      }
    }

    /** `get_response_format()`. */
    function Format(): Result<string>
      reads this
    {
      ResponseFormat(response, headers, options.format)
    }

    /** `decode_response()`: the decoder is applied only while the data is
      empty, and what it gives is kept. */
    method DecodeResponse(run: (Decoder, string) -> Value) returns (r: Result<Value>)
      modifies this
      ensures r == Decoding(old(decoded), response, headers, options, run)
      ensures decoded == if r.Ok? then r.value else old(decoded)
      ensures options == old(options) && url == old(url) && response == old(response) && headers == old(headers)
      ensures statusLines == old(statusLines) && httpCode == old(httpCode) && error == old(error)
    {
      if EmptyValue(decoded) {
        var format := ResponseFormat(response, headers, options.format);
        if format.Fail? {
          return Fail(format.error);
        }
        var d := Get(options.decoders, NormalizeKey(format.value));
        if d.None? {
          return Fail(ClientError(Unsupported(format.value)));
        }
        decoded := run(d.value, InputText(response));
      }
      r := Ok(decoded);
    }

    /** `$client[$key] = $value`: always refused. */
    method OffsetSet(key: Key, value: Value) returns (e: Error)
      ensures e == ClientError(Immutable)
    {
      e := ClientError(Immutable);
    }

    /** `unset($client[$key])`: always refused. */
    method OffsetUnset(key: Key) returns (e: Error)
      ensures e == ClientError(Immutable)
    {
      e := ClientError(Immutable);
    }

    /** `execute($url, $method, $parameters, $headers)`: a clone of this client
      requests the composed URL with the composed options and holds the parsed
      reply; the decoded data of this client comes along with the clone. */
    method Execute(url: string, verb: string, params: Params, headers: seq<(Key, FieldValue)>,
                   transport: seq<(Key, Client.Setting)> -> Client.Reply)
      returns (client: LegacyRestClient)
      ensures fresh(client)
      ensures client.options == options && client.decoded == decoded
      ensures client.url == ExecUrl(options, url, verb, params)
      ensures var reply := transport(ExecOptions(options, url, verb, params, headers));
        var p := LegacyParse(InputText(reply.raw));
        client.statusLines == p.statusLines && client.headers == p.headers && client.response == p.response
        && client.httpCode == reply.httpCode && client.error == reply.error
    {
      client := new LegacyRestClient.Clone(this);
      var curlopt, target := Compose(options, url, verb, params, headers);
      var reply := transport(curlopt);
      client.url := target;
      client.Receive(reply);
    }

    /** The reply stored: its parsed text, status code and error. */
    method Receive(reply: Client.Reply)
      modifies this
      ensures var p := LegacyParse(InputText(reply.raw));
        statusLines == p.statusLines && headers == p.headers && response == p.response
        && httpCode == reply.httpCode && error == reply.error
      ensures options == old(options) && url == old(url) && decoded == old(decoded)
    {
      httpCode := reply.httpCode;
      error := reply.error;
      ParseResponse(reply.raw);
    }
  }

  /** The options `execute` hands to cURL and the URL among them. */
  method Compose(o: Options, url: string, verb: string, params: Params, headers: seq<(Key, FieldValue)>)
    returns (curlopt: seq<(Key, Client.Setting)>, target: string)
    ensures curlopt == ExecOptions(o, url, verb, params, headers)
    ensures target == ExecUrl(o, url, verb, params)
  {
    curlopt := StartOptions(o);
    if |o.headers| > 0 || |headers| > 0 {
      var lines := HeaderLines(ArrayMerge(o.headers, headers));
      curlopt := Put(curlopt, IntKey(Client.CurlHttpHeader), HeaderList(lines));
    }
    assert curlopt == WithHeaderLines(Preamble(o), o, headers);
    var q := QueryString(o, params);
    var upper := ToUpper(verb);
    curlopt := WithBody(curlopt, upper, q);
    target := ComposeUrl(o, url, upper, q);
    curlopt := Put(curlopt, IntKey(Client.CurlUrl), Client.Val(Str(target)));
    curlopt := LayOptions(curlopt, o.curlOptions);
  }

  /** The first options, one by one. */
  method StartOptions(o: Options) returns (curlopt: seq<(Key, Client.Setting)>)
    ensures curlopt == Preamble(o)
  {
    curlopt := [(IntKey(Client.CurlHeader), Client.Flag(true)), (IntKey(Client.CurlReturnTransfer), Client.Flag(true)),
                (IntKey(Client.CurlUserAgent), Client.Val(Str(o.userAgent)))];
    if o.username.Some? && Truthy(o.username.value) && o.password.Some? && Truthy(o.password.value) {
      curlopt := Put(curlopt, IntKey(CurlUserPwd), Client.Val(Str(o.username.value + ":" + o.password.value)));
    }
  }

  /** The header lines: for each name, one line per value. */
  method HeaderLines(hs: seq<(Key, FieldValue)>) returns (lines: seq<string>)
    ensures lines == HeaderLinesOf(hs)
  {
    lines := [];
    var i := 0;
    while i < |hs|
      invariant 0 <= i <= |hs|
      invariant lines + HeaderLinesOf(hs[i..]) == HeaderLinesOf(hs)
    {
      var more := ValueLines(hs[i]);
      assert hs[i..][1..] == hs[i + 1..];
      assert HeaderLinesOf(hs[i..]) == more + HeaderLinesOf(hs[i + 1..]);
      lines := lines + more;
      i := i + 1;
    }
  }

  /** The lines of one name. */
  method ValueLines(e: (Key, FieldValue)) returns (lines: seq<string>)
    ensures lines == EntryLines(e)
  {
    var values := ValuesOf(e.1);
    lines := [];
    var j := 0;
    while j < |values|
      invariant 0 <= j <= |values|
      invariant lines == EntryLines(e)[..j]
    {
      lines := lines + [KeyString(e.0) + ":" + values[j]];
      j := j + 1;
    }
  }

  /** The parameter string. */
  method QueryString(o: Options, params: Params) returns (q: string)
    ensures q == ParamsString(o, params)
  {
    if params.ParamArray? {
      q := HttpBuildQuery(ArrayMerge(o.parameters, params.entries));
      if !o.buildIndexed {
        q := Unindex(q);
      }
    } else {
      q := params.text;
    }
  }

  /** The URL, built by concatenation: format suffix, GET query, base URL. */
  method ComposeUrl(o: Options, url: string, verb: string, q: string) returns (target: string)
    ensures target == RequestUrl(o.baseUrl, o.format, url, verb, q)
  {
    target := url;
    if o.format.Some? && Truthy(o.format.value) {
      target := target + "." + o.format.value;
    }
    if verb == "GET" && Truthy(q) {
      target := target + SeparatorAsWritten(target);
      target := target + q;
    }
    if o.baseUrl.Some? && Truthy(o.baseUrl.value) {
      var b := o.baseUrl.value;
      if (target == "" || target[0] != '/') && b[|b| - 1] != '/' {
        target := "/" + target;
      }
      target := b + target;
    }
  }

  /** The `curl_options` option assigned key by key. */
  method LayOptions(opts: seq<(Key, Client.Setting)>, curl: seq<(Key, Client.Setting)>) returns (r: seq<(Key, Client.Setting)>)
    ensures r == PutAll(opts, curl)
  {
    r := opts;
    var i := 0;
    while i < |curl|
      invariant 0 <= i <= |curl|
      invariant PutAll(opts, curl) == PutAll(r, curl[i..])
    {
      assert curl[i..][1..] == curl[i + 1..];
      r := Put(r, curl[i].0, curl[i].1);
      i := i + 1;
    }
  }

  // ---------------------------------------------------------------------------
  // What parse_response makes of a message

  /** Each field as the loop reads it: the key of its name, its value trimmed. */
  function Keyed(fields: seq<(string, string)>): (es: seq<(Key, string)>)
    ensures |es| == |fields|
    ensures forall i :: 0 <= i < |fields| ==> es[i] == (HeaderKey(fields[i].0), Trim(fields[i].1))
  {
    MapFields(fields, HeaderKey, Trim)
  }

  /** The fields assigned in order, as the loop assigns them. */
  function Collect(hs: seq<(Key, FieldValue)>, es: seq<(Key, string)>): seq<(Key, FieldValue)>
    decreases |es|
  {
    if es == [] then hs else Collect(AddField(hs, es[0].0, es[0].1), es[1..])
  }

  /** The values read under `k`, in order. */
  function ValuesFor(es: seq<(Key, string)>, k: Key): seq<string>
    decreases |es|
  {
    if es == [] then [] else (if es[0].0 == k then [es[0].1] else []) + ValuesFor(es[1..], k)
  }

  /** The value a name holds after its values arrive one by one. */
  function Gathered(cur: Option<FieldValue>, vs: seq<string>): Option<FieldValue>
    decreases |vs|
  {
    if vs == [] then cur else Gathered(Some(Added(cur, vs[0])), vs[1..])
  }

  /** The first line is read by the loop body whatever it is; a line ending
      in CR is truthy, so the do-while then runs as a while loop would. */
  lemma FirstLine(lines: seq<string>, rest: string)
    requires lines != [] && '\n' !in lines[0]
    ensures LegacyParse(Crlf(lines, rest)) == From(Crlf(lines, rest), [], [])
  {
    var line := lines[0] + "\r";
    assert line[|line| - 1] == '\r';
    TokenOf(line, Crlf(lines[1..], rest));
  }

  /** A truthy line ending in a newline goes through one pass of the body. */
  lemma PassOf(line: string, rest: string, status: seq<string>, hs: seq<(Key, FieldValue)>)
    requires line != "" && '\n' !in line && Truthy(line)
    ensures From(line + "\n" + rest, status, hs) == Pass(line, rest, status, hs)
  {
    TokenOf(line, rest);
  }

  /** Before any field, a status line is kept trimmed and a blank line is
      skipped. */
  lemma LegacyPreludeStep(l: string, after: string, status: seq<string>)
    requires PreludeLine(l)
    ensures From((l + "\r") + "\n" + after, status, []) == From(after, status + (if l == "" then [] else [Trim(l)]), [])
  {
    if l == "" {
      assert l + "\r" == "\r";
      LegacyBlankSkipped(after, status);
      assert status + [] == status;
    } else {
      LegacyStatusKept(l, after, status);
    }
  }

  lemma LegacyBlankSkipped(after: string, status: seq<string>)
    ensures From("\r" + "\n" + after, status, []) == From(after, status, [])
  {
    PassOf("\r", after, status, []);
    CrIsBlank();
  }

  lemma LegacyStatusKept(l: string, after: string, status: seq<string>)
    requires '\n' !in l && StartsWith(l, "HTTP")
    ensures From((l + "\r") + "\n" + after, status, []) == From(after, status + [Trim(l)], [])
  {
    var line := l + "\r";
    StatusLineCr(l);
    assert Effect(line, status, []) == (status + [Trim(l)], []);
    PassOf(line, after, status, []);
  }

  lemma {:induction false} LegacyPreludeSteps(prelude: seq<string>, rest: string, status: seq<string>)
    requires forall i :: 0 <= i < |prelude| ==> PreludeLine(prelude[i])
    ensures From(Crlf(prelude, rest), status, []) == From(rest, status + StatusOf(prelude), [])
    decreases |prelude|
  {
    if prelude == [] {
      assert status + [] == status;
    } else {
      var l, tail := prelude[0], prelude[1..];
      LegacyPreludeStep(l, Crlf(tail, rest), status);
      assert forall i :: 0 <= i < |tail| ==> PreludeLine(tail[i]) by {
        forall i | 0 <= i < |tail| ensures PreludeLine(tail[i]) {
          assert tail[i] == prelude[i + 1];
        }
      }
      LegacyPreludeSteps(tail, rest, status + (if l == "" then [] else [Trim(l)]));
      StatusOfCons(prelude, status);
    }
  }

  /** A field line adds its trimmed value under the name's key. */
  lemma LegacyFieldStep(f: (string, string), after: string, status: seq<string>, hs: seq<(Key, FieldValue)>)
    requires FieldLine(f)
    ensures From((f.0 + ": " + f.1 + "\r") + "\n" + after, status, hs)
      == From(after, status, AddField(hs, HeaderKey(f.0), Trim(f.1)))
  {
    FieldLineRead(f.0, f.1);
    PassOf(f.0 + ": " + f.1 + "\r", after, status, hs);
    TrimPadded(f.1);
  }

  lemma {:induction false} LegacyFieldSteps(fields: seq<(string, string)>, rest: string, status: seq<string>, hs: seq<(Key, FieldValue)>)
    requires forall i :: 0 <= i < |fields| ==> FieldLine(fields[i])
    ensures From(Crlf(FieldLines(fields), rest), status, hs) == From(rest, status, Collect(hs, Keyed(fields)))
    decreases |fields|
  {
    if fields == [] {
      assert FieldLines(fields) == [];
    } else {
      var tail := fields[1..];
      var after := Crlf(FieldLines(tail), rest);
      CrlfFieldsCons(fields, rest);
      var next := AddField(hs, HeaderKey(fields[0].0), Trim(fields[0].1));
      MapFieldsCons(fields, HeaderKey, Trim);
      assert Collect(hs, Keyed(fields)) == Collect(next, Keyed(tail));
      LegacyFieldStep(fields[0], after, status, hs);
      FieldLinesTail(fields);
      LegacyFieldSteps(tail, rest, status, next);
    }
  }

  lemma {:induction false} CollectNonEmpty(hs: seq<(Key, FieldValue)>, es: seq<(Key, string)>)
    requires es != [] || hs != []
    ensures |Collect(hs, es)| > 0
    decreases |es|
  {
    if es != [] {
      var next := AddField(hs, es[0].0, es[0].1);
      assert Find(next, es[0].0).value < |next|;
      CollectNonEmpty(next, es[1..]);
    }
  }

  /** `parse_response` on a message: the trimmed status lines in order, every
      field gathered under its key, and the text after the empty line as the
      response, or `false` when nothing follows it. */
  lemma LegacyParseMessage(prelude: seq<string>, fields: seq<(string, string)>, body: string)
    requires forall i :: 0 <= i < |prelude| ==> PreludeLine(prelude[i])
    requires fields != [] && forall i :: 0 <= i < |fields| ==> FieldLine(fields[i])
    ensures LegacyParse(Message(prelude, fields, body)) == Parsed(StatusOf(prelude), Collect([], Keyed(fields)), Remainder(body))
  {
    MessageStart(prelude, fields, body);
    MessageFrom(prelude, fields, body);
  }

  /** After the first token, the status lines, then the fields and the body. */
  lemma MessageFrom(prelude: seq<string>, fields: seq<(string, string)>, body: string)
    requires forall i :: 0 <= i < |prelude| ==> PreludeLine(prelude[i])
    requires fields != [] && forall i :: 0 <= i < |fields| ==> FieldLine(fields[i])
    ensures From(Crlf(prelude, Crlf(FieldLines(fields), "\r" + "\n" + body)), [], [])
      == Parsed(StatusOf(prelude), Collect([], Keyed(fields)), Remainder(body))
  {
    var status := StatusOf(prelude);
    LegacyPreludeSteps(prelude, Crlf(FieldLines(fields), "\r" + "\n" + body), []);
    assert [] + status == status;
    LegacyFieldsThenBody(fields, body, status);
  }

  /** The field lines, the empty line and the body, after the status lines. */
  lemma LegacyFieldsThenBody(fields: seq<(string, string)>, body: string, status: seq<string>)
    requires fields != [] && forall i :: 0 <= i < |fields| ==> FieldLine(fields[i])
    ensures From(Crlf(FieldLines(fields), "\r" + "\n" + body), status, [])
      == Parsed(status, Collect([], Keyed(fields)), Remainder(body))
  {
    var hs := Collect([], Keyed(fields));
    LegacyFieldSteps(fields, "\r" + "\n" + body, status, []);
    CollectNonEmpty([], Keyed(fields));
    LegacyBlankEnds(body, status, hs);
  }

  /** A message begins with a truthy line. */
  lemma MessageStart(prelude: seq<string>, fields: seq<(string, string)>, body: string)
    requires forall i :: 0 <= i < |prelude| ==> PreludeLine(prelude[i])
    requires fields != [] && forall i :: 0 <= i < |fields| ==> FieldLine(fields[i])
    ensures LegacyParse(Message(prelude, fields, body)) == From(Message(prelude, fields, body), [], [])
  {
    var tail := "\r" + "\n" + body;
    var after := Crlf(FieldLines(fields), tail);
    if prelude != [] {
      FirstLine(prelude, after);
    } else {
      FieldLineRead(fields[0].0, fields[0].1);
      assert FieldLines(fields)[0] + "\r" == fields[0].0 + ": " + fields[0].1 + "\r";
      FirstLine(FieldLines(fields), tail);
    }
  }

  /** An empty line after a field ends the header block. */
  lemma LegacyBlankEnds(body: string, status: seq<string>, hs: seq<(Key, FieldValue)>)
    requires |hs| > 0
    ensures From("\r" + "\n" + body, status, hs) == Parsed(status, hs, Remainder(body))
  {
    PassOf("\r", body, status, hs);
    CrIsBlank();
  }

  /** A response of status lines alone has no fields and no body: `strtok`
      has nothing left, so the response is `false`. */
  lemma LegacyStatusOnly(prelude: seq<string>)
    requires prelude != [] && forall i :: 0 <= i < |prelude| ==> PreludeLine(prelude[i])
    ensures LegacyParse(Crlf(prelude, "")) == Parsed(StatusOf(prelude), [], NoRaw)
  {
    FirstLine(prelude, "");
    LegacyPreludeSteps(prelude, "", []);
    assert [] + StatusOf(prelude) == StatusOf(prelude);
  }

  /** What a key holds after the fields: its own values, gathered in order. */
  lemma {:induction false} CollectGet(hs: seq<(Key, FieldValue)>, es: seq<(Key, string)>, k: Key)
    ensures Get(Collect(hs, es), k) == Gathered(Get(hs, k), ValuesFor(es, k))
    decreases |es|
  {
    if es != [] {
      var k0, v0 := es[0].0, es[0].1;
      var next := AddField(hs, k0, v0);
      var rest := ValuesFor(es[1..], k);
      GetPut(hs, k0, Added(Get(hs, k0), v0), k);
      CollectGet(next, es[1..], k);
      if k0 == k {
        assert ValuesFor(es, k) == [v0] + rest;
        assert ([v0] + rest)[1..] == rest;
      } else {
        assert ValuesFor(es, k) == [] + rest;
        assert [] + rest == rest;
        assert Get(next, k) == Get(hs, k);
      }
      assert Collect(hs, es) == Collect(next, es[1..]);
    }
  }

  lemma {:induction false} GatheredMany(xs: seq<string>, vs: seq<string>)
    requires xs != []
    ensures Gathered(Some(Many(xs)), vs) == Some(Many(xs + vs))
    decreases |vs|
  {
    if vs == [] {
      assert xs + vs == xs;
    } else {
      GatheredMany(xs + [vs[0]], vs[1..]);
      assert (xs + [vs[0]]) + vs[1..] == xs + vs;
    }
  }

  /** Truthy values arriving for one name: none, one string, or the list of
      all of them in arrival order. */
  lemma GatheredTruthy(vs: seq<string>)
    requires AllTruthy(vs)
    ensures Gathered(None, vs) == if vs == [] then None else if |vs| == 1 then Some(One(vs[0])) else Some(Many(vs))
  {
    if |vs| >= 2 {
      assert Truthy(vs[0]);
      assert vs[1..][1..] == vs[2..];
      GatheredMany([vs[0], vs[1]], vs[2..]);
      assert [vs[0], vs[1]] + vs[2..] == vs;
    }
  }

  /** A falsy value (`''` or `'0'`) counts as unset: the next value replaces
      it instead of joining it in a list. */
  lemma FalsyReplaced(x: string, v: string)
    requires !Truthy(x)
    ensures Gathered(Some(One(x)), [v]) == Some(One(v))
  {
    assert [v][1..] == [];
  }

  /** The fields of a message as `parse_response` leaves them: a name sent
      once holds its value, a name sent several times the list of its values
      in order. */
  lemma RepeatedNames(prelude: seq<string>, fields: seq<(string, string)>, body: string, k: Key)
    requires forall i :: 0 <= i < |prelude| ==> PreludeLine(prelude[i])
    requires fields != [] && forall i :: 0 <= i < |fields| ==> FieldLine(fields[i])
    requires forall i :: 0 <= i < |fields| ==> Truthy(Trim(fields[i].1))
    ensures var vs := ValuesFor(Keyed(fields), k);
      Get(LegacyParse(Message(prelude, fields, body)).headers, k)
        == if vs == [] then None else if |vs| == 1 then Some(One(vs[0])) else Some(Many(vs))
  {
    var es := Keyed(fields);
    LegacyParseMessage(prelude, fields, body);
    CollectGet([], es, k);
    assert forall i :: 0 <= i < |es| ==> Truthy(es[i].1) by {
      forall i | 0 <= i < |es| ensures Truthy(es[i].1) {
        assert es[i].1 == Trim(fields[i].1);
      }
    }
    TruthyValuesFor(es, k);
    GatheredTruthy(ValuesFor(es, k));
  }

  predicate AllTruthy(vs: seq<string>) {
    forall i :: 0 <= i < |vs| ==> Truthy(vs[i])
  }

  lemma {:induction false} TruthyValuesFor(es: seq<(Key, string)>, k: Key)
    requires forall i :: 0 <= i < |es| ==> Truthy(es[i].1)
    ensures AllTruthy(ValuesFor(es, k))
    decreases |es|
  {
    if es != [] {
      var tail := es[1..];
      assert forall i :: 0 <= i < |tail| ==> Truthy(tail[i].1) by {
        forall i | 0 <= i < |tail| ensures Truthy(tail[i].1) {
          assert tail[i] == es[i + 1];
        }
      }
      TruthyValuesFor(tail, k);
      var vs, ts := ValuesFor(es, k), ValuesFor(tail, k);
      forall i | 0 <= i < |vs| ensures Truthy(vs[i]) {
        if es[0].0 == k {
          assert vs == [es[0].1] + ts;
          if i > 0 {
            assert vs[i] == ts[i - 1] && Truthy(ts[i - 1]);
          } else {
            assert vs[i] == es[0].1 && Truthy(es[0].1);
          }
        } else {
          assert vs == [] + ts;
          assert vs[i] == ts[i] && Truthy(ts[i]);
        }
      }
    }
  }

  /** The character a header name's character is stored as. */
  function Folded(c: char): char {
    AsciiLower(if c == '-' then '_' else c)
  }

  /** Header names are matched without regard to ASCII case, and `-` and `_`
      are one: `Content-Type` and `Content-type` share the key
      `content_type`. */
  lemma HeaderKeyFolds(a: string, b: string)
    requires |a| == |b| && forall i :: 0 <= i < |a| ==> Folded(a[i]) == Folded(b[i])
    ensures HeaderKey(a) == HeaderKey(b)
  {
    var fa, fb := ToLower(ReplaceChar(a, '-', '_')), ToLower(ReplaceChar(b, '-', '_'));
    forall i | 0 <= i < |a| ensures fa[i] == fb[i] {
      ReplaceCharAt(a, '-', '_', i);
      ReplaceCharAt(b, '-', '_', i);
      ToLowerAt(ReplaceChar(a, '-', '_'), i);
      ToLowerAt(ReplaceChar(b, '-', '_'), i);
    }
    assert fa == fb;
  }

  lemma {:induction false} ReplaceCharAt(s: string, from: char, to: char, i: nat)
    requires i < |s|
    ensures ReplaceChar(s, from, to)[i] == if s[i] == from then to else s[i]
    decreases i
  {
    if i > 0 {
      ReplaceCharAt(s[1..], from, to, i - 1);
    }
  }

  lemma {:induction false} ToLowerAt(s: string, i: nat)
    requires i < |s|
    ensures ToLower(s)[i] == AsciiLower(s[i])
    decreases i
  {
    if i > 0 {
      ToLowerAt(s[1..], i - 1);
    }
  }

  // ---------------------------------------------------------------------------
  // Options

  /** An assigned option reads back as assigned. */
  lemma AssignThenRead(o: Options, a: OptionArg)
    ensures Entry(Assign(o, a), OptionKey(a)) == Some(a)
  {
  }

  /** Assigning an option leaves every other option as it was. */
  lemma AssignKeepsOthers(o: Options, a: OptionArg, key: string)
    requires key != OptionKey(a)
    ensures Entry(Assign(o, a), key) == Entry(o, key)
  {
    var o' := Assign(o, a);
    if key == "headers" {
      assert o'.headers == o.headers;
    } else if key == "parameters" {
      assert o'.parameters == o.parameters;
    } else if key == "curl_options" {
      assert o'.curlOptions == o.curlOptions;
    } else if key == "build_indexed_queries" {
      assert o'.buildIndexed == o.buildIndexed;
    } else if key == "user_agent" {
      assert o'.userAgent == o.userAgent;
    } else if key == "base_url" {
      assert o'.baseUrl == o.baseUrl;
    } else if key == "format" {
      assert o'.format == o.format;
    } else if key == "decoders" {
      assert o'.decoders == o.decoders;
    } else if key == "username" {
      assert o'.username == o.username;
    } else if key == "password" {
      assert o'.password == o.password;
    }
  }

  /** After the options are assigned in order, each key holds the last value
      given for it, or what it held before. */
  lemma {:induction false} AssignAllEntry(o: Options, given: seq<OptionArg>, key: string)
    ensures Entry(AssignAll(o, given), key) == if LastGiven(given, key).Some? then LastGiven(given, key) else Entry(o, key)
    decreases |given|
  {
    if given != [] {
      AssignAllEntry(Assign(o, given[0]), given[1..], key);
      if OptionKey(given[0]) == key {
        AssignThenRead(o, given[0]);
      } else {
        AssignKeepsOthers(o, given[0], key);
      }
    }
  }

  /** The constructor: every option but `decoders` is the last one given, or
      its default. */
  lemma ConstructEntry(given: seq<OptionArg>, key: string)
    requires key != "decoders"
    ensures Entry(Construct(given), key) == if LastGiven(given, key).Some? then LastGiven(given, key) else Entry(Defaults, key)
  {
    var o := AssignAll(Defaults, given);
    AssignAllEntry(Defaults, given, key);
    match LastGiven(given, "decoders")
    case Some(DecodersOpt(d)) =>
      assert Construct(given) == o.(decoders := ArrayMerge(DefaultDecoders, d));
      DecodersOnly(o, ArrayMerge(DefaultDecoders, d), key);
    case _ =>
      assert Construct(given) == o;
  }

  /** Replacing the decoders changes no other option. */
  lemma DecodersOnly(o: Options, ds: seq<(Key, Decoder)>, key: string)
    requires key != "decoders"
    ensures Entry(o.(decoders := ds), key) == Entry(o, key)
  {
  }

  /** The given decoders are added to the default ones: `json` and `php` stay
      registered unless the options name a decoder for them. */
  lemma ConstructDecoders(given: seq<OptionArg>, d: seq<(Key, Decoder)>, k: Key)
    requires LastGiven(given, "decoders") == Some(DecodersOpt(d))
    requires k.StrKey? && DistinctKeys(d)
    ensures Get(Construct(given).decoders, k) == if HasKey(d, k) then Get(d, k) else Get(DefaultDecoders, k)
  {
    ArrayMergeGet(DefaultDecoders, d, k);
  }

  lemma ConstructNoDecoders(given: seq<OptionArg>)
    requires LastGiven(given, "decoders").None?
    ensures Construct(given).decoders == DefaultDecoders
  {
    AssignAllEntry(Defaults, given, "decoders");
  }

  // ---------------------------------------------------------------------------
  // Format and decoding

  /** The order `get_response_format` tries: no response is an error
      whatever else holds; a `format` option wins over the content type; the
      content type yields the subtype of its first `word/word`. */
  lemma FormatPrecedence(response: Raw, hs: seq<(Key, FieldValue)>, format: Option<string>)
    ensures !(response.RawText? && Truthy(response.text)) ==> ResponseFormat(response, hs, format) == Fail(ClientError(NoResponse))
    ensures response.RawText? && Truthy(response.text) && format.Some? && Truthy(format.value) ==>
      ResponseFormat(response, hs, format) == Ok(format.value)
    ensures response.RawText? && Truthy(response.text) && !(format.Some? && Truthy(format.value)) ==>
      ResponseFormat(response, hs, format) == ContentTypeFormat(Get(hs, StrKey("content_type")))
  {
  }

  /** What the `content_type` field yields. */
  function ContentTypeFormat(ct: Option<FieldValue>): Result<string> {
    match ct
    case None => Fail(ClientError(Undetermined))
    case Some(One(v)) =>
      if !Truthy(v) then Fail(ClientError(Undetermined))
      else if HasMatch(v) then Ok(FormatOf(v)) else Fail(ClientError(Undetermined))
    case Some(Many(vs)) => if vs == [] then Fail(ClientError(Undetermined)) else Fail(TypeError(PregArray))
  }

  /** The format read from the content type is the second word of its first
      `word/word`. */
  lemma ContentTypeSubtype(response: Raw, hs: seq<(Key, FieldValue)>, ct: string, j: nat)
    requires response.RawText? && Truthy(response.text)
    requires Get(hs, StrKey("content_type")) == Some(One(ct))
    requires j < |ct| && SlashAt(ct, j) && forall i :: 0 <= i < j ==> !SlashAt(ct, i)
    ensures ResponseFormat(response, hs, None) == Ok(WordRun(ct[j + 1..]))
  {
    FormatIsFirstMatch(ct);
  }

  /** A message carrying its content type twice: `parse_response` makes a
      list of it, and `get_response_format` then fails with a `TypeError`. */
  lemma RepeatedContentType(prelude: seq<string>, fields: seq<(string, string)>, body: string)
    requires forall i :: 0 <= i < |prelude| ==> PreludeLine(prelude[i])
    requires fields != [] && forall i :: 0 <= i < |fields| ==> FieldLine(fields[i])
    requires forall i :: 0 <= i < |fields| ==> Truthy(Trim(fields[i].1))
    requires |ValuesFor(Keyed(fields), StrKey("content_type"))| >= 2 && Truthy(body)
    ensures var p := LegacyParse(Message(prelude, fields, body));
      ResponseFormat(p.response, p.headers, None) == Fail(TypeError(PregArray))
  {
    var k := StrKey("content_type");
    var vs := ValuesFor(Keyed(fields), k);
    var p := LegacyParse(Message(prelude, fields, body));
    LegacyParseMessage(prelude, fields, body);
    RepeatedNames(prelude, fields, body, k);
    assert Get(p.headers, k) == Some(Many(vs));
    ManyContentTypes(p.response, p.headers, vs);
  }

  lemma ManyContentTypes(response: Raw, hs: seq<(Key, FieldValue)>, vs: seq<string>)
    requires response.RawText? && Truthy(response.text)
    requires Get(hs, StrKey("content_type")) == Some(Many(vs)) && vs != []
    ensures ResponseFormat(response, hs, None) == Fail(TypeError(PregArray))
  {
  }

  /** Decoded data that is not empty is returned again without decoding. */
  lemma DecodeCached(decoded: Value, response: Raw, hs: seq<(Key, FieldValue)>, o: Options, run: (Decoder, string) -> Value)
    requires !EmptyValue(decoded)
    ensures Decoding(decoded, response, hs, o, run) == Ok(decoded)
  {
  }

  /** A second `decode_response` gives what the first gave when that was
      not empty; an empty result is decoded afresh, as if never decoded. */
  lemma DecodeTwice(decoded: Value, response: Raw, hs: seq<(Key, FieldValue)>, o: Options, run: (Decoder, string) -> Value)
    requires Decoding(decoded, response, hs, o, run).Ok?
    ensures var v := Decoding(decoded, response, hs, o, run).value;
      Decoding(v, response, hs, o, run) == if EmptyValue(v) then Decoding(Null, response, hs, o, run) else Ok(v)
  {
  }

  /** A decoder registered for the response's format is the one applied. */
  lemma RegisterThenDecode(decoded: Value, response: Raw, hs: seq<(Key, FieldValue)>, o: Options,
                           format: string, d: Decoder, run: (Decoder, string) -> Value)
    requires EmptyValue(decoded) && ResponseFormat(response, hs, o.format) == Ok(format)
    ensures Decoding(decoded, response, hs, o.(decoders := Put(o.decoders, NormalizeKey(format), d)), run)
      == Ok(run(d, InputText(response)))
  {
    GetPut(o.decoders, NormalizeKey(format), d, NormalizeKey(format));
  }

  /** A format without a decoder is refused, naming the format. */
  lemma UnsupportedRefused(decoded: Value, response: Raw, hs: seq<(Key, FieldValue)>, o: Options, run: (Decoder, string) -> Value)
    requires EmptyValue(decoded) && ResponseFormat(response, hs, o.format).Ok?
    requires !HasKey(o.decoders, NormalizeKey(ResponseFormat(response, hs, o.format).value))
    ensures Decoding(decoded, response, hs, o, run) == Fail(ClientError(Unsupported(ResponseFormat(response, hs, o.format).value)))
  {
  }

  // ---------------------------------------------------------------------------
  // The options execute sends

  /** What `curl_setopt_array` receives before `curl_options` is laid over. */
  function Composed(o: Options, url: string, verb: string, p: Params, headers: seq<(Key, FieldValue)>): seq<(Key, Client.Setting)> {
    var opts := WithBody(WithHeaderLines(Preamble(o), o, headers), ToUpper(verb), ParamsString(o, p));
    Put(opts, IntKey(Client.CurlUrl), Client.Val(Str(ExecUrl(o, url, verb, p))))
  }

  /** A `curl_options` entry replaces whatever `execute` set for its key;
      every other key keeps what `execute` set. */
  lemma CurlOptionsWin(o: Options, url: string, verb: string, p: Params, headers: seq<(Key, FieldValue)>, k: Key)
    requires DistinctKeys(o.curlOptions)
    ensures Get(ExecOptions(o, url, verb, p, headers), k)
      == if HasKey(o.curlOptions, k) then Get(o.curlOptions, k) else Get(Composed(o, url, verb, p, headers), k)
  {
    PutAllGet(Composed(o, url, verb, p, headers), o.curlOptions, k);
  }

  /** The parameter string is sent as the body for every verb but GET, whose
      parameters go into the URL. */
  lemma BodyOrQuery(o: Options, url: string, verb: string, p: Params, headers: seq<(Key, FieldValue)>)
    ensures Get(Composed(o, url, verb, p, headers), IntKey(Client.CurlPostFields))
      == if ToUpper(verb) == "GET" then None else Some(Client.Val(Str(ParamsString(o, p))))
    ensures Get(Composed(o, url, verb, p, headers), IntKey(Client.CurlUrl)) == Some(Client.Val(Str(ExecUrl(o, url, verb, p))))
    ensures ToUpper(verb) == "GET" ==>
      ExecUrl(o, url, verb, p) == WithBase(o.baseUrl,
        if Truthy(ParamsString(o, p)) then AppendQueryAsWritten(WithFormat(url, o.format), ParamsString(o, p)) else WithFormat(url, o.format))
  {
    var v, q := ToUpper(verb), ParamsString(o, p);
    var pre := WithHeaderLines(Preamble(o), o, headers);
    var body := WithBody(pre, v, q);
    PreambleKeys(o);
    assert Get(pre, IntKey(Client.CurlPostFields)) == None by {
      if |o.headers| > 0 || |headers| > 0 {
        GetPut(Preamble(o), IntKey(Client.CurlHttpHeader), HeaderList(HeaderLinesOf(ArrayMerge(o.headers, headers))), IntKey(Client.CurlPostFields));
      }
    }
    WithBodyPostFields(pre, v, q);
    GetPut(body, IntKey(Client.CurlUrl), Client.Val(Str(ExecUrl(o, url, verb, p))), IntKey(Client.CurlPostFields));
    GetPut(body, IntKey(Client.CurlUrl), Client.Val(Str(ExecUrl(o, url, verb, p))), IntKey(Client.CurlUrl));
  }

  lemma PreambleKeys(o: Options)
    ensures Get(Preamble(o), IntKey(Client.CurlPostFields)) == None
    ensures Get(Preamble(o), IntKey(Client.CurlHttpHeader)) == None
  {
    var fixed := [(IntKey(Client.CurlHeader), Client.Flag(true)), (IntKey(Client.CurlReturnTransfer), Client.Flag(true)),
                  (IntKey(Client.CurlUserAgent), Client.Val(Str(o.userAgent)))];
    if SendsCredentials(o) {
      var s := Client.Val(Str(o.username.value + ":" + o.password.value));
      GetPut(fixed, IntKey(CurlUserPwd), s, IntKey(Client.CurlPostFields));
      GetPut(fixed, IntKey(CurlUserPwd), s, IntKey(Client.CurlHttpHeader));
    }
  }

  lemma WithBodyPostFields(opts: seq<(Key, Client.Setting)>, v: string, q: string)
    requires Get(opts, IntKey(Client.CurlPostFields)) == None
    ensures Get(WithBody(opts, v, q), IntKey(Client.CurlPostFields)) == if v == "GET" then None else Some(Client.Val(Str(q)))
  {
    if v == "POST" {
      var once := Put(opts, IntKey(Client.CurlPost), Client.Flag(true));
      GetPut(once, IntKey(Client.CurlPostFields), Client.Val(Str(q)), IntKey(Client.CurlPostFields));
    } else if v != "GET" {
      var once := Put(opts, IntKey(Client.CurlCustomRequest), Client.Val(Str(v)));
      GetPut(once, IntKey(Client.CurlPostFields), Client.Val(Str(q)), IntKey(Client.CurlPostFields));
    }
  }

  /** Credentials are sent, as `user:password`, exactly when both are set. */
  lemma CredentialsSent(o: Options)
    ensures Get(Preamble(o), IntKey(CurlUserPwd))
      == if SendsCredentials(o) then Some(Client.Val(Str(o.username.value + ":" + o.password.value))) else None
  {
    var fixed := [(IntKey(Client.CurlHeader), Client.Flag(true)), (IntKey(Client.CurlReturnTransfer), Client.Flag(true)),
                  (IntKey(Client.CurlUserAgent), Client.Val(Str(o.userAgent)))];
    if SendsCredentials(o) {
      GetPut(fixed, IntKey(CurlUserPwd), Client.Val(Str(o.username.value + ":" + o.password.value)), IntKey(CurlUserPwd));
    }
  }

  /** Header lines are sent when the option or the call has headers: one
      `name:value` line per value, a call's header replacing the option's
      header of the same name. */
  lemma HeaderLinesSent(o: Options, headers: seq<(Key, FieldValue)>, k: Key)
    requires k.StrKey? && DistinctKeys(headers)
    ensures Get(WithHeaderLines(Preamble(o), o, headers), IntKey(Client.CurlHttpHeader))
      == if |o.headers| > 0 || |headers| > 0 then Some(HeaderList(HeaderLinesOf(ArrayMerge(o.headers, headers)))) else None
    ensures Get(ArrayMerge(o.headers, headers), k) == if HasKey(headers, k) then Get(headers, k) else Get(o.headers, k)
  {
    PreambleKeys(o);
    GetPut(Preamble(o), IntKey(Client.CurlHttpHeader), HeaderList(HeaderLinesOf(ArrayMerge(o.headers, headers))), IntKey(Client.CurlHttpHeader));
    ArrayMergeGet(o.headers, headers, k);
  }

  /** Every value of a header becomes its own line. */
  lemma {:induction false} HeaderLinesCount(hs: seq<(Key, FieldValue)>)
    ensures |HeaderLinesOf(hs)| == ValueCount(hs)
    decreases |hs|
  {
    if hs != [] {
      HeaderLinesCount(hs[1..]);
    }
  }

  function ValueCount(hs: seq<(Key, FieldValue)>): nat
    decreases |hs|
  {
    if hs == [] then 0 else |ValuesOf(hs[0].1)| + ValueCount(hs[1..])
  }
}
