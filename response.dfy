/** `RestClient\Response`: a raw HTTP response split into status lines, header
    fields and body, the way `strtok` tokenises it. */
module Responses {
  import opened PhpString
  import opened PhpArray
  import opened Errors
  import opened HeaderFields

  /** What curl hands over: the response text, or `false` when there is none. */
  datatype Raw = RawText(text: string) | NoRaw

  /** `$response ? $response : ''`. */
  function RawString(raw: Raw): string {
    if raw.RawText? && Truthy(raw.text) then raw.text else ""
  }

  /** A decoder: a function given by its name, such as `json_decode`, or a
      closure the caller registered, told apart by an identity. Decoders are
      not modelled further. */
  datatype Decoder = Library(name: string) | Callable(id: nat)

  /** The decoded body: unset, or what a decoder returned for a text. */
  datatype Data = Undecoded | Decoded(decoder: Decoder, text: string)

  // ---------------------------------------------------------------------------
  // strtok on "\n"

  /** `strtok(…, "\n")` on the text not yet read: newlines are skipped, then the
      token runs to the next newline, which is consumed; `None` once only
      newlines remain. */
  function NextToken(rest: string): (r: Option<(string, string)>)
    ensures r.None? <==> forall i :: 0 <= i < |rest| ==> rest[i] == '\n'
    ensures r.Some? ==> r.value.0 != "" && '\n' !in r.value.0 && |r.value.1| < |rest|
    decreases |rest|
  {
    if rest == [] then None
    else if rest[0] == '\n' then NextToken(rest[1..])
    else
      var split := SplitFirst('\n', rest);
      Some((split.0, if split.1.Some? then split.1.value else ""))
  }

  /** A line that ends in a newline is the next token. */
  lemma TokenOf(line: string, rest: string)
    requires line != "" && '\n' !in line
    ensures NextToken(line + "\n" + rest) == Some((line, rest))
  {
    SplitFirstAt('\n', line, rest);
    assert (line + "\n" + rest)[0] == line[0];
  }

  /** Empty tokens are dropped: a newline ahead of the text changes nothing. */
  lemma SkipNewline(rest: string)
    ensures NextToken("\n" + rest) == NextToken(rest)
  {
    assert ("\n" + rest)[1..] == rest;
  }

  // ---------------------------------------------------------------------------
  // The parse loop as a function

  /** What `parse` leaves behind: the status lines and header fields read, and
      either the body or the error that stopped it. */
  datatype Outcome =
    | Done(statusLines: seq<string>, headers: seq<(Key, string)>, body: string)
    | Threw(error: Error, statusLines: seq<string>, headers: seq<(Key, string)>)

  const TrimNull := "trim(): Argument #1 ($string) must be of type string, null given"

  predicate Blank(line: string) {
    Trim(line) == ""
  }

  /** `strtok('')` on what is left after the header block, `''` when that is
      empty or `'0'`. */
  function BodyOf(rest: string): string {
    if Truthy(rest) then rest else ""
  }

  /** The loop condition: continue with a truthy token, else the body follows. */
  function Continue(tok: Option<(string, string)>, status: seq<string>, headers: seq<(Key, string)>): Outcome
    decreases if tok.Some? then |tok.value.1| + 1 else 0, 1
  {
    match tok
    case None => Done(status, headers, "")
    case Some(t) => if Truthy(t.0) then Step(t.0, t.1, status, headers) else Done(status, headers, BodyOf(t.1))
  }

  /** One pass of the loop body on the token `line`, with `rest` unread. */
  function Step(line: string, rest: string, status: seq<string>, headers: seq<(Key, string)>): Outcome
    decreases |rest| + 1, 0
  {
    if Blank(line) then
      if |headers| > 0 then Done(status, headers, BodyOf(rest))
      else Continue(NextToken(rest), status, headers)
    else if StartsWith(line, "HTTP") then Continue(NextToken(rest), status + [Trim(line)], headers)
    else
      var split := SplitFirst(':', line);
      if split.1.None? then Threw(TypeError(TrimNull), status, headers)
      else Continue(NextToken(rest), status, Put(headers, NormalizeKey(split.0), Trim(split.1.value)))
  }

  /** `parse` on the raw text, from the given status lines and fields. */
  function ParseFrom(raw: string, status: seq<string>, headers: seq<(Key, string)>): Outcome {
    Continue(NextToken(raw), status, headers)
  }

  /** A truthy line ending in a newline goes through one pass of the loop body. */
  lemma StepOf(line: string, rest: string, status: seq<string>, headers: seq<(Key, string)>)
    requires line != "" && '\n' !in line && Truthy(line)
    ensures ParseFrom(line + "\n" + rest, status, headers) == Step(line, rest, status, headers)
  {
    TokenOf(line, rest);
    assert ParseFrom(line + "\n" + rest, status, headers) == Continue(Some((line, rest)), status, headers);
  }

  /** `$this->headers['Content-Type'] ?? ''`; the name is matched exactly. */
  function ContentTypeOf(headers: seq<(Key, string)>): string {
    var v := Get(headers, StrKey("Content-Type"));
    if v.Some? then v.value else ""
  }

  // ---------------------------------------------------------------------------
  // format(): the first match of (\w+)/(\w+)

  /** A match of `(\w+)/(\w+)` can have its slash at `j`. */
  predicate SlashAt(s: string, j: int) {
    0 < j < |s| - 1 && s[j] == '/' && IsWordChar(s[j - 1]) && IsWordChar(s[j + 1])
  }

  /** The greedy `\w+` run at the start of `s`. */
  function WordRun(s: string): (r: string)
    ensures |r| <= |s| && r == s[..|r|]
    ensures forall i :: 0 <= i < |r| ==> IsWordChar(r[i])
    ensures |r| == |s| || !IsWordChar(s[|r|])
  {
    if s != [] && IsWordChar(s[0]) then [s[0]] + WordRun(s[1..]) else []
  }

  function FormatScan(s: string, j: nat): string
    decreases |s| - j
  {
    if j >= |s| then "text"
    else if SlashAt(s, j) then WordRun(s[j + 1..])
    else FormatScan(s, j + 1)
  }

  /** `format()`: the second word of the first `word/word` in the content type,
      or `'text'` when there is none. */
  function FormatOf(contentType: string): string {
    FormatScan(contentType, 0)
  }

  /** The scan agrees with the regex: the leftmost match is the one whose slash
      comes first, and its second group is the word run after that slash. */
  lemma FormatIsFirstMatch(ct: string)
    ensures (forall j :: 0 <= j < |ct| ==> !SlashAt(ct, j)) ==> FormatOf(ct) == "text"
    ensures forall j :: 0 <= j < |ct| && SlashAt(ct, j) && (forall k :: 0 <= k < j ==> !SlashAt(ct, k)) ==>
      FormatOf(ct) == WordRun(ct[j + 1..])
  {
    if forall j :: 0 <= j < |ct| ==> !SlashAt(ct, j) {
      FormatScanNone(ct, 0);
    }
    forall j | 0 <= j < |ct| && SlashAt(ct, j) && (forall k :: 0 <= k < j ==> !SlashAt(ct, k))
      ensures FormatOf(ct) == WordRun(ct[j + 1..])
    {
      FormatScanFirst(ct, 0, j);
    }
  }

  lemma {:induction false} FormatScanNone(s: string, i: nat)
    requires forall j :: i <= j < |s| ==> !SlashAt(s, j)
    ensures FormatScan(s, i) == "text"
    decreases |s| - i
  {
    if i < |s| {
      FormatScanNone(s, i + 1);
    }
  }

  lemma {:induction false} FormatScanFirst(s: string, i: nat, j: nat)
    requires i <= j < |s| && SlashAt(s, j) && forall k :: i <= k < j ==> !SlashAt(s, k)
    ensures FormatScan(s, i) == WordRun(s[j + 1..])
    decreases j - i
  {
    if i < j {
      FormatScanFirst(s, i + 1, j);
    }
  }

  /** For `type/subtype…` with a word as its type, the format is the word
      that starts the subtype. */
  lemma FormatOfType(kind: string, sub: string)
    requires kind != "" && (forall i :: 0 <= i < |kind| ==> IsWordChar(kind[i]))
    requires sub != "" && IsWordChar(sub[0])
    ensures FormatOf(kind + "/" + sub) == WordRun(sub)
  {
    var ct := kind + "/" + sub;
    var j := |kind|;
    assert ct[j] == '/' && ct[j - 1] == kind[j - 1] && ct[j + 1] == sub[0];
    assert forall k :: 0 <= k < j ==> ct[k] == kind[k];
    assert SlashAt(ct, j);
    assert forall k :: 0 <= k < j ==> !SlashAt(ct, k) by {
      forall k | 0 <= k < j ensures !SlashAt(ct, k) {
        assert IsWordChar(kind[k]);
      }
    }
    FormatIsFirstMatch(ct);
    assert ct[j + 1..] == sub;
  }

  /** `application/json` has the format `json`. */
  lemma FormatJson(ct: string)
    requires ct == "application/json"
    ensures FormatOf(ct) == "json"
  {
    var kind, sub := "application", "json";
    assert ct == kind + "/" + sub;
    FormatOfType(kind, sub);
    assert WordRun(sub) == sub;
  }

  /** What follows the subtype, from a non-word character on (such as a
      `; charset=...` parameter), does not change the format. */
  lemma FormatWithParameter(kind: string, sub: string, rest: string)
    requires kind != "" && forall i :: 0 <= i < |kind| ==> IsWordChar(kind[i])
    requires sub != "" && forall i :: 0 <= i < |sub| ==> IsWordChar(sub[i])
    requires rest == "" || !IsWordChar(rest[0])
    ensures FormatOf(kind + "/" + sub + rest) == sub
  {
    var t := sub + rest;
    assert kind + "/" + sub + rest == kind + "/" + t;
    assert t[..|sub|] == sub;
    if rest == "" {
      assert t == sub;
    } else {
      WordRunStops(t, |sub|);
    }
    FormatOfType(kind, t);
  }

  /** `text/html; charset=utf-8` has the format `html`. */
  lemma FormatWithCharset(ct: string)
    requires ct == "text/html; charset=utf-8"
    ensures FormatOf(ct) == "html"
  {
    var kind, sub, rest := "text", "html", "; charset=utf-8";
    assert ct == kind + "/" + sub + rest;
    FormatWithParameter(kind, sub, rest);
  }

  /** The run ends at the first non-word character. */
  lemma {:induction false} WordRunStops(s: string, n: nat)
    requires n < |s| && !IsWordChar(s[n]) && forall i :: 0 <= i < n ==> IsWordChar(s[i])
    ensures WordRun(s) == s[..n]
  {
    if n > 0 {
      WordRunStops(s[1..], n - 1);
      assert [s[0]] + s[1..][..n - 1] == s[..n];
    }
  }

  // ---------------------------------------------------------------------------
  // The object

  class Response {
    var response: string
    var statusLines: seq<string>
    var statusCode: int
    var headers: Headers
    var contentType: string
    var body: string
    var data: Data
    var error: string
    var success: bool
    var fail: bool

    /** `new Response(request, response, error, info)` with `info['http_code']`
        as `httpCode`: success is a 2xx status. */
    constructor(raw: Raw, error: string, httpCode: int)
      ensures response == RawString(raw) && this.error == error && statusCode == httpCode
      ensures success == (200 <= httpCode < 300) && fail == !success
      ensures fresh(headers) && headers.entries == [] && statusLines == []
      ensures body == "" && contentType == "" && data == Undecoded
    {
      response := RawString(raw);
      this.error := error;
      statusCode := httpCode;
      success := 200 <= httpCode && httpCode < 300;
      fail := !(200 <= httpCode && httpCode < 300);
      headers := new Headers([]);
      statusLines := [];
      body := "";
      contentType := "";
      data := Undecoded;
    }

    /** `parse()`: the `strtok` loop. A header line without `:` stops it with
        the `TypeError` of `trim(null)`, leaving what was read so far. */
    method Parse() returns (thrown: Option<Error>)
      modifies this, headers
      requires headers.Valid()
      ensures headers == old(headers) && headers.Valid()
      ensures response == old(response) && statusCode == old(statusCode) && data == old(data)
      ensures error == old(error) && success == old(success) && fail == old(fail)
      ensures var o := ParseFrom(old(response), old(statusLines), old(headers.entries));
        statusLines == o.statusLines && headers.entries == o.headers
        && (o.Done? ==> thrown == None && body == o.body && contentType == ContentTypeOf(o.headers))
        && (o.Threw? ==> thrown == Some(o.error) && body == old(body) && contentType == old(contentType))
    {
      var tok := NextToken(response);
      while tok.Some? && Truthy(tok.value.0)
        invariant headers == old(headers) && headers.Valid()
        invariant response == old(response) && statusCode == old(statusCode) && data == old(data)
        invariant error == old(error) && success == old(success) && fail == old(fail)
        invariant body == old(body) && contentType == old(contentType)
        invariant ParseFrom(old(response), old(statusLines), old(headers.entries)) == Continue(tok, statusLines, headers.entries)
        decreases if tok.Some? then |tok.value.1| + 1 else 0
      {
        var line, rest := tok.value.0, tok.value.1;
        assert Continue(tok, statusLines, headers.entries) == Step(line, rest, statusLines, headers.entries);
        var go, raised := Take(line, rest);
        if !go {
          return raised;
        }
        tok := NextToken(rest);
      }
      assert Continue(tok, statusLines, headers.entries)
        == Done(statusLines, headers.entries, if tok.Some? then BodyOf(tok.value.1) else "");
      body := if tok.Some? then BodyOf(tok.value.1) else "";
      contentType := ContentTypeOf(headers.entries);
      thrown := None;
    }

    /** One pass of the loop body on the token `line`, with `rest` unread:
        whether the loop goes on and, when it stops, what it raised. */
    method Take(line: string, rest: string) returns (go: bool, thrown: Option<Error>)
      modifies this, headers
      requires headers.Valid()
      ensures headers == old(headers) && headers.Valid()
      ensures response == old(response) && statusCode == old(statusCode) && data == old(data)
      ensures error == old(error) && success == old(success) && fail == old(fail)
      ensures var o := Step(line, rest, old(statusLines), old(headers.entries));
        if go then
          thrown == None && body == old(body) && contentType == old(contentType)
          && o == Continue(NextToken(rest), statusLines, headers.entries)
        else
          statusLines == o.statusLines && headers.entries == o.headers
          && (o.Done? ==> thrown == None && body == o.body && contentType == ContentTypeOf(o.headers))
          && (o.Threw? ==> thrown == Some(o.error) && body == old(body) && contentType == old(contentType))
    {
      go, thrown := true, None;
      if Blank(line) {
        if headers.Count() > 0 {
          body := BodyOf(rest);
          contentType := ContentTypeOf(headers.entries);
          go := false;
        }
      } else if StartsWith(line, "HTTP") {
        statusLines := statusLines + [Trim(line)];
      } else {
        var split := SplitFirst(':', line);
        if split.1.None? {
          go, thrown := false, Some(TypeError(TrimNull));
        } else {
          headers.Set(split.0, Trim(split.1.value));
        }
      }
    }

    /** `decode(decoder)`: the data is the decoder applied to the body. */
    method Decode(decoder: Decoder)
      modifies this
      ensures data == Decoded(decoder, body)
      ensures body == old(body) && headers == old(headers) && statusLines == old(statusLines)
      ensures response == old(response) && contentType == old(contentType) && statusCode == old(statusCode)
      ensures error == old(error) && success == old(success) && fail == old(fail)
    {
      data := Decoded(decoder, body);
    }

    /** The `format` property. */
    function Format(): string
      reads this
    {
      FormatOf(contentType)
    }

    /** `$response[key] = value`: always refused, the data stays as it is. */
    method OffsetSet(key: Key, value: Value) returns (e: Error)
      ensures e == OutOfBounds("Response data is immutable.")
    {
      e := OutOfBounds("Response data is immutable.");
    }

    /** `unset($response[key])`: always refused. */
    method OffsetUnset(key: Key) returns (e: Error)
      ensures e == OutOfBounds("Response data is immutable.")
    {
      e := OutOfBounds("Response data is immutable.");
    }
  }

  // ---------------------------------------------------------------------------
  // What parse makes of a message

  /** The lines, each followed by CR LF, then `rest`. */
  function Crlf(lines: seq<string>, rest: string): string {
    if lines == [] then rest else (lines[0] + "\r") + "\n" + Crlf(lines[1..], rest)
  }

  /** The status lines `parse` keeps from a prelude of status lines and blank
      lines: the non-blank ones, trimmed. */
  function StatusOf(prelude: seq<string>): seq<string> {
    if prelude == [] then []
    else (if prelude[0] == "" then [] else [Trim(prelude[0])]) + StatusOf(prelude[1..])
  }

  /** A status line, or the blank line after an interim `1xx` response. */
  predicate PreludeLine(l: string) {
    '\n' !in l && (l == "" || StartsWith(l, "HTTP"))
  }

  /** A field line `name: value` that `parse` reads as a header. */
  predicate FieldLine(f: (string, string)) {
    '\n' !in f.0 && ':' !in f.0 && !StartsWith(f.0, "HTTP") && '\n' !in f.1
  }

  function FieldLines(fields: seq<(string, string)>): (lines: seq<string>)
    ensures |lines| == |fields|
  {
    seq(|fields|, i requires 0 <= i < |fields| => fields[i].0 + ": " + fields[i].1)
  }

  /** The fields as `parse` stores them: the name as an array key, the value
      trimmed. */
  function Stored(fields: seq<(string, string)>): (es: seq<(Key, string)>)
    ensures |es| == |fields|
    ensures forall i :: 0 <= i < |fields| ==> es[i] == (NormalizeKey(fields[i].0), Trim(fields[i].1))
  {
    MapFields(fields, NormalizeKey, Trim)
  }

  /** Each field turned into a key and a value by the given functions. */
  function MapFields<K, V>(fields: seq<(string, string)>, key: string -> K, value: string -> V): (es: seq<(K, V)>)
    ensures |es| == |fields|
    ensures forall i :: 0 <= i < |fields| ==> es[i] == (key(fields[i].0), value(fields[i].1))
  {
    seq(|fields|, i requires 0 <= i < |fields| => (key(fields[i].0), value(fields[i].1)))
  }

  lemma MapFieldsCons<K, V>(fields: seq<(string, string)>, key: string -> K, value: string -> V)
    requires fields != []
    ensures MapFields(fields, key, value) == [(key(fields[0].0), value(fields[0].1))] + MapFields(fields[1..], key, value)
  {
    var tail := fields[1..];
    forall i | 0 <= i < |tail|
      ensures MapFields(fields, key, value)[i + 1] == MapFields(tail, key, value)[i]
    {
      assert tail[i] == fields[i + 1];
    }
  }

  /** An HTTP/1.x message with CR LF line ends (section 2.1 of RFC 9112): status
      lines (an interim response followed by its empty line, then the final
      one), field lines, an empty line and the body. */
  function Message(prelude: seq<string>, fields: seq<(string, string)>, body: string): string {
    Crlf(prelude, Crlf(FieldLines(fields), "\r" + "\n" + body))
  }

  /** `parse` keeps the trimmed status lines in order, assigns the fields in
      order, so that a repeated name keeps its last value, and takes the rest
      verbatim as the body. */
  lemma ParseMessage(prelude: seq<string>, fields: seq<(string, string)>, body: string)
    requires forall i :: 0 <= i < |prelude| ==> PreludeLine(prelude[i])
    requires fields != [] && forall i :: 0 <= i < |fields| ==> FieldLine(fields[i])
    ensures ParseFrom(Message(prelude, fields, body), [], [])
      == Done(StatusOf(prelude), PutAll([], Stored(fields)), BodyOf(body))
  {
    PreludeThenFields(prelude, fields, body);
  }

  lemma PreludeThenFields(prelude: seq<string>, fields: seq<(string, string)>, body: string)
    requires forall i :: 0 <= i < |prelude| ==> PreludeLine(prelude[i])
    requires fields != [] && forall i :: 0 <= i < |fields| ==> FieldLine(fields[i])
    ensures ParseFrom(Crlf(prelude, Crlf(FieldLines(fields), "\r" + "\n" + body)), [], [])
      == Done(StatusOf(prelude), PutAll([], Stored(fields)), BodyOf(body))
  {
    var status := StatusOf(prelude);
    PreludeSteps(prelude, Crlf(FieldLines(fields), "\r" + "\n" + body), []);
    assert [] + status == status;
    FieldsThenBody(fields, body, status);
  }

  /** The field lines, the empty line and the body, after the status lines. */
  lemma FieldsThenBody(fields: seq<(string, string)>, body: string, status: seq<string>)
    requires fields != [] && forall i :: 0 <= i < |fields| ==> FieldLine(fields[i])
    ensures ParseFrom(Crlf(FieldLines(fields), "\r" + "\n" + body), status, [])
      == Done(status, PutAll([], Stored(fields)), BodyOf(body))
  {
    var stored := PutAll([], Stored(fields));
    FieldSteps(fields, "\r" + "\n" + body, status, []);
    PutAllNonEmpty([], Stored(fields));
    BlankEnds(body, status, stored);
  }

  /** The status lines of a prelude are collected before any field is read. */
  lemma {:induction false} PreludeSteps(prelude: seq<string>, rest: string, status: seq<string>)
    requires forall i :: 0 <= i < |prelude| ==> PreludeLine(prelude[i])
    ensures ParseFrom(Crlf(prelude, rest), status, []) == ParseFrom(rest, status + StatusOf(prelude), [])
    decreases |prelude|
  {
    if prelude == [] {
      assert status + [] == status;
    } else {
      var l, tail := prelude[0], prelude[1..];
      var after := Crlf(tail, rest);
      var kept := if l == "" then [] else [Trim(l)];
      PreludeStep(l, after, status);
      assert forall i :: 0 <= i < |tail| ==> PreludeLine(tail[i]) by {
        forall i | 0 <= i < |tail| ensures PreludeLine(tail[i]) {
          assert tail[i] == prelude[i + 1];
        }
      }
      PreludeSteps(tail, rest, status + kept);
      StatusOfCons(prelude, status);
    }
  }

  lemma StatusOfCons(prelude: seq<string>, status: seq<string>)
    requires prelude != []
    ensures (status + (if prelude[0] == "" then [] else [Trim(prelude[0])])) + StatusOf(prelude[1..])
      == status + StatusOf(prelude)
  {
    var kept := if prelude[0] == "" then [] else [Trim(prelude[0])];
    assert StatusOf(prelude) == kept + StatusOf(prelude[1..]);
    AppendAssoc(status, kept, StatusOf(prelude[1..]));
  }

  lemma PreludeStep(l: string, after: string, status: seq<string>)
    requires PreludeLine(l)
    ensures ParseFrom((l + "\r") + "\n" + after, status, [])
      == ParseFrom(after, status + (if l == "" then [] else [Trim(l)]), [])
  {
    if l == "" {
      assert l + "\r" == "\r";
      BlankLineSkipped(after, status);
      assert status + [] == status;
    } else {
      StatusLineKept(l, after, status);
    }
  }

  /** Before any field, a line holding only a CR is skipped. */
  lemma BlankLineSkipped(after: string, status: seq<string>)
    ensures ParseFrom("\r" + "\n" + after, status, []) == ParseFrom(after, status, [])
  {
    StepOf("\r", after, status, []);
    CrIsBlank();
  }

  lemma CrIsBlank()
    ensures Blank("\r")
  {
    assert IsTrimSpace("\r"[0]);
    TrimEmptyIff("\r");
  }

  /** A status line is kept, trimmed. */
  lemma StatusLineKept(l: string, after: string, status: seq<string>)
    requires '\n' !in l && StartsWith(l, "HTTP")
    ensures ParseFrom((l + "\r") + "\n" + after, status, []) == ParseFrom(after, status + [Trim(l)], [])
  {
    var line := l + "\r";
    StatusLineCr(l);
    StepOf(line, after, status, []);
  }

  /** A status line followed by its CR is not blank, still starts with
      `HTTP`, and trims to the line without the CR. */
  lemma StatusLineCr(l: string)
    requires '\n' !in l && StartsWith(l, "HTTP")
    ensures var line := l + "\r";
      line != [] && line[|line| - 1] == '\r' && '\n' !in line && !Blank(line)
      && StartsWith(line, "HTTP") && Trim(line) == Trim(l)
  {
    var line := l + "\r";
    assert !Blank(line) by {
      assert !IsTrimSpace(line[0]);
      TrimEmptyIff(line);
    }
    assert line[..4] == l[..4];
    TrimCr(l);
  }

  /** Field lines assign their fields in order. */
  /** The first field line, then the rest. */
  lemma CrlfFieldsCons(fields: seq<(string, string)>, rest: string)
    requires fields != []
    ensures Crlf(FieldLines(fields), rest)
      == (fields[0].0 + ": " + fields[0].1 + "\r") + "\n" + Crlf(FieldLines(fields[1..]), rest)
  {
    var lines := FieldLines(fields);
    assert lines[1..] == FieldLines(fields[1..]);
  }

  lemma FieldLinesTail(fields: seq<(string, string)>)
    requires fields != [] && forall i :: 0 <= i < |fields| ==> FieldLine(fields[i])
    ensures forall i :: 0 <= i < |fields[1..]| ==> FieldLine(fields[1..][i])
  {
    var tail := fields[1..];
    forall i | 0 <= i < |tail| ensures FieldLine(tail[i]) {
      assert tail[i] == fields[i + 1];
    }
  }

  lemma {:induction false} FieldSteps(fields: seq<(string, string)>, rest: string, status: seq<string>, headers: seq<(Key, string)>)
    requires forall i :: 0 <= i < |fields| ==> FieldLine(fields[i])
    ensures ParseFrom(Crlf(FieldLines(fields), rest), status, headers) == ParseFrom(rest, status, PutAll(headers, Stored(fields)))
    decreases |fields|
  {
    if fields == [] {
      assert FieldLines(fields) == [];
    } else {
      var tail := fields[1..];
      var after := Crlf(FieldLines(tail), rest);
      CrlfFieldsCons(fields, rest);
      MapFieldsCons(fields, NormalizeKey, Trim);
      FieldStep(fields[0], after, status, headers);
      var headers' := Put(headers, NormalizeKey(fields[0].0), Trim(fields[0].1));
      FieldLinesTail(fields);
      FieldSteps(tail, rest, status, headers');
    }
  }

  /** One field line: the name before the first colon, the value trimmed. */
  lemma FieldStep(f: (string, string), after: string, status: seq<string>, headers: seq<(Key, string)>)
    requires FieldLine(f)
    ensures ParseFrom((f.0 + ": " + f.1 + "\r") + "\n" + after, status, headers)
      == ParseFrom(after, status, Put(headers, NormalizeKey(f.0), Trim(f.1)))
  {
    var line := f.0 + ": " + f.1 + "\r";
    FieldLineRead(f.0, f.1);
    StepOf(line, after, status, headers);
    TrimPadded(f.1);
  }

  /** How the loop body classifies a field line. */
  lemma FieldLineRead(name: string, value: string)
    requires FieldLine((name, value))
    ensures var line := name + ": " + value + "\r";
      line != "" && '\n' !in line && Truthy(line) && !Blank(line) && !StartsWith(line, "HTTP")
      && SplitFirst(':', line) == (name, Some(" " + value + "\r"))
  {
    var padded := " " + value + "\r";
    var line := name + [':'] + padded;
    assert line == name + ": " + value + "\r";
    assert line[|name|] == ':';
    SplitFirstAt(':', name, padded);
    ColonNotBlank(line, |name|);
    NotStatusLine(name, padded);
  }

  lemma ColonNotBlank(line: string, i: nat)
    requires i < |line| && line[i] == ':'
    ensures !Blank(line) && Truthy(line)
  {
    assert !IsTrimSpace(line[i]);
    TrimEmptyIff(line);
  }

  lemma NotStatusLine(name: string, padded: string)
    requires ':' !in name && !StartsWith(name, "HTTP")
    ensures !StartsWith(name + [':'] + padded, "HTTP")
  {
    var line := name + [':'] + padded;
    if |line| >= 4 {
      if |name| < 4 {
        assert line[..4][|name|] == ':';
      } else {
        assert line[..4] == name[..4];
      }
    }
  }

  /** An empty line after a field ends the header block; the rest is the body. */
  lemma BlankEnds(body: string, status: seq<string>, headers: seq<(Key, string)>)
    requires |headers| > 0
    ensures ParseFrom("\r" + "\n" + body, status, headers) == Done(status, headers, BodyOf(body))
  {
    StepOf("\r", body, status, headers);
    assert IsTrimSpace('\r');
    TrimEmptyIff("\r");
    assert Blank("\r");
  }

  /** A response of status lines alone has no fields and an empty body. */
  lemma StatusOnly(prelude: seq<string>)
    requires forall i :: 0 <= i < |prelude| ==> PreludeLine(prelude[i])
    ensures ParseFrom(Crlf(prelude, ""), [], []) == Done(StatusOf(prelude), [], "")
  {
    PreludeSteps(prelude, "", []);
    assert NextToken("") == None;
    assert [] + StatusOf(prelude) == StatusOf(prelude);
  }

  /** A line that is neither blank, nor a status line, nor `name: value` stops
      the parse with a `TypeError`. */
  lemma MissingColon(line: string, rest: string, status: seq<string>, headers: seq<(Key, string)>)
    requires line != "" && '\n' !in line && ':' !in line && !StartsWith(line, "HTTP")
    requires Truthy(line) && !Blank(line)
    ensures ParseFrom(line + "\n" + rest, status, headers) == Threw(TypeError(TrimNull), status, headers)
  {
    StepOf(line, rest, status, headers);
  }

  /** A line `0`, being falsy, ends the loop as an empty line does, even before
      any field; the rest is the body. */
  lemma ZeroLineEnds(rest: string, status: seq<string>, headers: seq<(Key, string)>)
    ensures ParseFrom("0\n" + rest, status, headers) == Done(status, headers, BodyOf(rest))
  {
    TokenOf("0", rest);
    assert "0\n" + rest == "0" + "\n" + rest;
    assert ParseFrom("0\n" + rest, status, headers) == Continue(Some(("0", rest)), status, headers);
  }

  /** Empty lines between LF line ends are no lines at all: only a line that
      still holds its CR (or other white space) can end the header block. */
  lemma BareLfSkipped(rest: string, status: seq<string>, headers: seq<(Key, string)>)
    ensures ParseFrom("\n" + rest, status, headers) == ParseFrom(rest, status, headers)
  {
    SkipNewline(rest);
  }

  lemma {:induction false} PutAllNonEmpty(acc: seq<(Key, string)>, entries: seq<(Key, string)>)
    requires entries != [] || acc != []
    ensures |PutAll(acc, entries)| > 0
    decreases |entries|
  {
    if entries != [] {
      var next := Put(acc, entries[0].0, entries[0].1);
      assert |next| > 0 by {
        if HasKey(acc, entries[0].0) {
          assert Find(acc, entries[0].0).value < |acc|;
        }
      }
      PutAllNonEmpty(next, entries[1..]);
    }
  }

  /** A trailing CR is trimmed away. */
  lemma TrimCr(l: string)
    ensures Trim(l + "\r") == Trim(l)
  {
    TrimLeftCr(l);
    TrimRightCr(TrimLeft(l));
  }

  lemma {:induction false} TrimLeftCr(l: string)
    ensures TrimLeft(l + "\r") == TrimLeft(l) + "\r" || (TrimLeft(l) == "" && TrimLeft(l + "\r") == "")
    decreases |l|
  {
    var s := l + "\r";
    if l == [] {
      assert s == "\r" && IsTrimSpace(s[0]) && s[1..] == "";
      assert TrimLeft(s) == TrimLeft("");
    } else if IsTrimSpace(l[0]) {
      assert s[0] == l[0] && s[1..] == l[1..] + "\r";
      assert TrimLeft(s) == TrimLeft(l[1..] + "\r");
      assert TrimLeft(l) == TrimLeft(l[1..]);
      TrimLeftCr(l[1..]);
    } else {
      assert s[0] == l[0];
      assert TrimLeft(s) == s;
      assert TrimLeft(l) == l;
    }
  }

  lemma TrimRightCr(l: string)
    ensures TrimRight(l + "\r") == TrimRight(l)
  {
    assert (l + "\r")[..|l|] == l;
  }

  /** The space after the colon and the CR before the newline are trimmed away. */
  lemma TrimPadded(v: string)
    ensures Trim(" " + v + "\r") == Trim(v)
  {
    assert (" " + v + "\r")[1..] == v + "\r";
    TrimCr(v);
  }
}
