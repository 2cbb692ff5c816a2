/** `Resource`: a URL held as its scheme, host and port, a `Path` and a
    `Params` query, built from a string, from a parts array or from nothing,
    printed back and merged field by field. */
module Resources {
  import opened PhpString
  import opened PhpArray
  import opened Errors
  import opened Paths
  import opened Parameters

  /** The query handed to `Params`: an array, or text it parses. */
  datatype QueryArg = QueryEntries(entries: seq<(Key, Value)>) | QueryText(text: string)

  /** The parts array the constructor reads: what `parse_url` returned, or one
      given by the caller. An absent entry is `None`, `NullPath` or no entries. */
  datatype UrlParts = UrlParts(scheme: Option<string>, host: Option<string>, port: Option<int>,
                               path: PathArg, query: QueryArg)

  const NoParts := UrlParts(None, None, None, NullPath, QueryEntries([]))

  /** What `new Resource(…)` accepts: null, a URL string or a parts array. */
  datatype ResourceArg = NoUrl | UrlString(s: string) | UrlArray(parts: UrlParts)

  // ---------------------------------------------------------------------------
  // The `scheme://` special case

  /** `preg_match('/^(\w+):\/\/$/', s)`, giving the scheme. Without the `D`
      modifier `$` also matches just before a final newline. */
  function SchemeOnly(s: string): Option<string> {
    var body := WithoutFinalNewline(s);
    if SchemeSeparator(body) then Some(body[..|body| - 3]) else None
  }

  function WithoutFinalNewline(s: string): string {
    if |s| > 0 && s[|s| - 1] == '\n' then s[..|s| - 1] else s
  }

  /** Word characters, at least one, then `://`. */
  predicate SchemeSeparator(body: string) {
    |body| > 3 && body[|body| - 3..] == "://" && forall i :: 0 <= i < |body| - 3 ==> IsWordChar(body[i])
  }

  // ---------------------------------------------------------------------------
  // parse_url, on the modelled grammar

  /** How `parse_url` treats a string: split into parts, rejected (it returns
      `false`), or in a corner of its grammar this model does not cover. */
  datatype Split = Parsed(parts: UrlParts) | Rejected | Outside

  /** The characters `parse_url` accepts in a scheme. */
  predicate IsSchemeChar(c: char) {
    IsAlpha(c) || IsDigit(c) || c == '+' || c == '-' || c == '.'
  }

  predicate AllSchemeChars(s: string) {
    forall i :: 0 <= i < |s| ==> IsSchemeChar(s[i])
  }

  /** Characters `parse_url` rewrites to `_` in every part it returns. */
  predicate IsControl(c: char) {
    c < ' ' || c == '\U{007F}'
  }

  predicate NoControl(s: string) {
    forall i :: 0 <= i < |s| ==> !IsControl(s[i])
  }

  /** The path and query of what follows the authority (or of a reference
      without one): the fragment from the first `#` is dropped, and the query
      is what follows the first `?` before it, `''` when nothing does. */
  function PathAndQuery(rest: string): (PathArg, QueryArg) {
    var (p, q) := SplitFirst('?', SplitFirst('#', rest).0);
    (if p == "" then NullPath else StrPath(p), if q.Some? then QueryText(q.value) else QueryEntries([]))
  }

  /** A reference without scheme and authority: only a path and a query. */
  function Relative(s: string): Split {
    if StartsWith(s, "//") then Outside
    else
      var (p, q) := PathAndQuery(s);
      Parsed(UrlParts(None, None, None, p, q))
  }

  /** The length of the authority: everything before the first `/`, `?` or `#`. */
  function AuthorityLength(s: string): (n: nat)
    ensures n <= |s|
  {
    if s == [] || s[0] == '/' || s[0] == '?' || s[0] == '#' then 0 else 1 + AuthorityLength(s[1..])
  }

  /** What follows `scheme://`: a host, an optional `:port`, then path and query.
      An empty host, a port text longer than five characters and a port above
      65535 make `parse_url` fail; user info, bracketed hosts and port texts
      that are not all digits are not modelled. */
  function SplitAuthority(scheme: string, rest: string): Split {
    var n := AuthorityLength(rest);
    var authority := rest[..n];
    var (host, portText) := SplitFirst(':', authority);
    var (path, query) := PathAndQuery(rest[n..]);
    if '@' in authority || '[' in authority || ']' in authority then Outside
    else if portText.Some? && ':' in portText.value then Outside
    else if host == "" then Rejected
    else if portText.None? || portText.value == "" then Parsed(UrlParts(Some(scheme), Some(host), None, path, query))
    else if |portText.value| > 5 then Rejected
    else if !AllDigits(portText.value) then Outside
    else if DigitsValue(portText.value) > 65535 then Rejected
    else Parsed(UrlParts(Some(scheme), Some(host), Some(DigitsValue(portText.value)), path, query))
  }

  /** A `file` scheme, in any case. */
  predicate IsFileScheme(scheme: string) {
    ToLower(scheme) == "file"
  }

  /** What follows `file://` when it starts with a third `/`: no authority,
      only a path (from that `/`, or from a drive letter as in `file:///c:/x`)
      and a query. */
  function FilePath(scheme: string, rest: string): Split
    requires StartsWith(rest, "/")
  {
    var p := if |rest| > 2 && rest[2] == ':' then rest[1..] else rest;
    var (path, query) := PathAndQuery(p);
    Parsed(UrlParts(Some(scheme), None, None, path, query))
  }

  /** The length of the run of digits that `s` starts with. */
  function LeadingDigits(s: string): (n: nat)
    ensures n <= |s| && AllDigits(s[..n]) && (n < |s| ==> !IsDigit(s[n]))
  {
    if s == [] || !IsDigit(s[0]) then 0
    else
      var n := 1 + LeadingDigits(s[1..]);
      assert forall i :: 1 <= i < n ==> s[..n][i] == s[1..][..n - 1][i - 1];
      n
  }

  /** Whether `parse_url` reads the text after a colon as a port: one to five
      digits, then `/` or the end of the text. */
  predicate IsPortText(after: string) {
    var n := LeadingDigits(after);
    1 <= n <= 5 && (n == |after| || after[n] == '/')
  }

  /** A reference without a scheme whose first colon is followed by a port:
      `parse_url` takes the port and then reads a host from the start of the
      text. A port above 65535 fails, and so does the empty host of text that
      starts with a single `/`; a host, or a network path after `//`, is not
      modelled. */
  function PortReference(s: string, after: string): Split
    requires IsPortText(after)
  {
    if DigitsValue(after[..LeadingDigits(after)]) > 65535 then Rejected
    else if StartsWith(s, "//") then Outside
    else if StartsWith(s, "/") then Rejected
    else Outside
  }

  lemma ThirdSlash(t: string)
    requires StartsWith(t, "///")
    ensures StartsWith(t[2..], "/")
  {
    assert t[2..][..1] == t[..3][2..];
  }

  /** `parse_url(s)` on the shapes the client meets: `scheme://authority…` and
      references without a scheme. The text before the first `:` decides:
      scheme characters followed by `//` start an authority, except that a
      `file` scheme followed by `///` starts a path; any other scheme form
      (`mailto:x`, `host:80`) is not modelled. Text that is not a scheme is a
      relative reference, unless its colon comes before any `?` or `#` and a
      port follows it, in which case `parse_url` reads a host and a port. */
  function SplitUrl(s: string): Split {
    if !NoControl(s) then Outside
    else
      var (before, after) := SplitFirst(':', s);
      if after.None? then Relative(s)
      else if before == "" then Outside
      else if AllSchemeChars(before) then
        (if !StartsWith(after.value, "//") then Outside
         else if IsFileScheme(before) && StartsWith(after.value, "///") then
           ThirdSlash(after.value);
           FilePath(before, after.value[2..])
         else SplitAuthority(before, after.value[2..]))
      else if '?' !in before && '#' !in before && IsPortText(after.value) then PortReference(s, after.value)
      else Relative(s)
  }

  /** The parts array for a constructor argument. A string `parse_url` rejects
      leaves `false`, whose every entry reads as null. */
  function Parts(arg: ResourceArg): Result<UrlParts> {
    match arg
    case NoUrl => Ok(NoParts)
    case UrlArray(parts) => Ok(parts)
    case UrlString(s) =>
      match SchemeOnly(s)
      case Some(name) => Ok(UrlParts(Some(name), None, None, NullPath, QueryEntries([])))
      case None =>
        match SplitUrl(s)
        case Parsed(parts) => Ok(parts)
        case Rejected => Ok(NoParts)
        case Outside => Fail(Unmodelled("parse_url outside the modelled grammar"))
  }

  // ---------------------------------------------------------------------------
  // The value of a resource

  /** A resource's state as a value: its scalar fields, the path's segments and
      the query's entries and flags. */
  datatype Url = Url(scheme: Option<string>, host: Option<string>, port: Option<int>,
                     segments: seq<string>, query: seq<(Key, Value)>, indexes: bool, encodeKeys: bool)

  function QueryOf(q: QueryArg): Result<seq<(Key, Value)>> {
    match q
    case QueryEntries(es) => Ok(es)
    case QueryText(t) => ParseSpec(t)
  }

  /** The resource `new Resource(arg, QUERY_INDEXES)` builds, or the error it raises. */
  function Build(arg: ResourceArg, queryIndexes: Option<bool>): Result<Url> {
    match Parts(arg)
    case Fail(e) => Fail(e)
    case Ok(p) =>
      match QueryOf(p.query)
      case Fail(e) => Fail(e)
      case Ok(es) => Ok(Url(p.scheme, p.host, p.port, Initial(p.path), es, FlagOr(queryIndexes, false), true))
  }

  /** A string that is not `scheme://` and that `parse_url` splits gives those parts. */
  lemma PartsOfSplit(s: string, parts: UrlParts)
    requires SchemeOnly(s).None? && SplitUrl(s) == Parsed(parts)
    ensures Parts(UrlString(s)) == Ok(parts)
  {
  }

  /** The resource built from parts whose query reads as `es`. */
  lemma BuildOfParts(arg: ResourceArg, queryIndexes: Option<bool>, parts: UrlParts, es: seq<(Key, Value)>)
    requires Parts(arg) == Ok(parts) && QueryOf(parts.query) == Ok(es)
    ensures Build(arg, queryIndexes)
      == Ok(Url(parts.scheme, parts.host, parts.port, Initial(parts.path), es, FlagOr(queryIndexes, false), true))
  {
  }

  predicate HostTruthy(host: Option<string>) {
    host.Some? && Truthy(host.value)
  }

  predicate PortTruthy(port: Option<int>) {
    port.Some? && port.value != 0
  }

  function SchemePrefix(scheme: Option<string>): string {
    if scheme.Some? && Truthy(scheme.value) then scheme.value + "://" else ""
  }

  /** Host and port: the colon needs a truthy port, the digits only a set one. */
  function HostPort(host: Option<string>, port: Option<int>): string {
    (if host.Some? then host.value else "") + (if PortTruthy(port) then ":" else "")
    + (if port.Some? then Decimal(port.value) else "")
  }

  /** The path, with a `/` put before a non-empty relative one. */
  function PathText(segments: seq<string>): string {
    (if |segments| > 0 && !Absolute(segments) then "/" else "") + Render(segments)
  }

  /** Whether `?` separates the query: only a non-empty query after a host, a
      port or a path. */
  predicate QueryMark(u: Url) {
    |u.query| > 0 && (HostTruthy(u.host) || PortTruthy(u.port) || |u.segments| > 0)
  }

  function UrlText(u: Url, query: string): string {
    SchemePrefix(u.scheme) + HostPort(u.host, u.port) + PathText(u.segments)
    + (if QueryMark(u) then "?" else "") + query
  }

  /** `(string) $resource`: only serialising the query can fail. */
  function RenderUrl(u: Url): Result<string> {
    match BuildQuery(u.query, u.indexes, u.encodeKeys)
    case Fail(e) => Fail(e)
    case Ok(q) => Ok(UrlText(u, q))
  }

  function Prefer<T>(overlay: Option<T>, base: Option<T>): Option<T> {
    if overlay.Some? then overlay else base
  }

  /** The value `merge` produces. */
  function MergeUrls(base: Url, overlay: Url): Url {
    Url(Prefer(overlay.scheme, base.scheme), Prefer(overlay.host, base.host), Prefer(overlay.port, base.port),
        overlay.segments, overlay.query, base.indexes, overlay.encodeKeys)
  }

  // ---------------------------------------------------------------------------
  // The object

  class Resource {
    var scheme: Option<string>
    var host: Option<string>
    var port: Option<int>
    var path: Path
    var query: Params

    /** A resource holding the given fields and objects. */
    constructor Of(scheme: Option<string>, host: Option<string>, port: Option<int>, path: Path, query: Params)
      ensures this.scheme == scheme && this.host == host && this.port == port
      ensures this.path == path && this.query == query
    {
      this.scheme := scheme;
      this.host := host;
      this.port := port;
      this.path := path;
      this.query := query;
    }

    function View(): Url
      reads this, path, query
    {
      Url(scheme, host, port, path.parts, query.entries, query.indexes, query.encodeKeys)
    }

    /** `new Resource(arg, QUERY_INDEXES)`: a fresh path and query built from the
        parts; parsing a query string may raise. */
    static method Make(arg: ResourceArg, queryIndexes: Option<bool>) returns (r: Result<Resource>)
      ensures Build(arg, queryIndexes).Fail? ==> r == Fail(Build(arg, queryIndexes).error)
      ensures Build(arg, queryIndexes).Ok? ==>
        (r.Ok? && fresh(r.value) && fresh(r.value.path) && fresh(r.value.query)
         && r.value.View() == Build(arg, queryIndexes).value)
    {
      var split := Parts(arg);
      if split.Fail? {
        return Fail(split.error);
      }
      var parts := split.value;
      var path := new Path(parts.path);
      var query: Params;
      match parts.query {
        case QueryEntries(es) =>
          query := new Params(es, queryIndexes, None);
        case QueryText(t) =>
          var made := Params.FromQuery(t, queryIndexes, None);
          if made.Fail? {
            return Fail(made.error);
          }
          query := made.value;
      }
      var res := new Resource.Of(parts.scheme, parts.host, parts.port, path, query);
      return Ok(res);
    }

    function ToString(): Result<string>
      reads this, path, query
    {
      RenderUrl(View())
    }

    /** `merge`: a new resource taking scheme, host and port from the argument
        when it has them and from this one otherwise, and the argument's own
        path and query objects; the base query's `INDEXES` flag is written onto
        that shared query object. */
    method Merge(other: Resource) returns (merged: Resource)
      modifies other.query
      ensures fresh(merged)
      ensures merged.scheme == Prefer(other.scheme, scheme)
      ensures merged.host == Prefer(other.host, host)
      ensures merged.port == Prefer(other.port, port)
      ensures merged.path == other.path && merged.query == other.query
      ensures other.query.indexes == old(query.indexes)
      ensures other.query.entries == old(other.query.entries)
      ensures other.query.encodeKeys == old(other.query.encodeKeys)
      ensures merged.View() == MergeUrls(old(View()), old(other.View()))
    {
      merged := new Resource.Of(Prefer(other.scheme, scheme), Prefer(other.host, host),
                                Prefer(other.port, port), other.path, other.query);
      merged.query.indexes := query.indexes;
    }
  }

  // ---------------------------------------------------------------------------
  // Properties of construction and printing

  /** A URL with nothing but a query set serialises its query alone. */
  lemma EmptyQuery(indexes: bool, encodeKeys: bool)
    ensures BuildQuery([], indexes, encodeKeys) == Ok("")
  {
    assert BuildPairs(None, Arr([]), 0, indexes, encodeKeys) == Ok([]);
  }

  /** Without host, port and path only the scheme and the query are printed. */
  lemma BareText(u: Url, query: string)
    requires u.host.None? && u.port.None? && u.segments == []
    ensures UrlText(u, query) == SchemePrefix(u.scheme) + query
  {
    assert Render([]) == "";
    assert PathText([]) == "";
    assert HostPort(None, None) == "";
    assert !QueryMark(u);
    assert UrlText(u, query) == SchemePrefix(u.scheme) + "" + "" + "" + query;
  }

  /** Without host, port and query the path follows the scheme directly. */
  lemma HostlessText(u: Url, query: string)
    requires u.host.None? && u.port.None? && u.query == []
    ensures UrlText(u, query) == SchemePrefix(u.scheme) + PathText(u.segments) + query
  {
    assert HostPort(None, None) == "";
    assert !QueryMark(u);
    assert UrlText(u, query) == SchemePrefix(u.scheme) + "" + PathText(u.segments) + "" + query;
  }

  /** A bare `scheme://`, with or without a final newline, sets only the
      scheme; a truthy scheme prints back as `scheme://`. */
  lemma SchemeOnlyResource(name: string, newline: bool, queryIndexes: Option<bool>)
    requires name != "" && forall i :: 0 <= i < |name| ==> IsWordChar(name[i])
    ensures Build(UrlString(name + "://" + (if newline then "\n" else "")), queryIndexes)
      == Ok(Url(Some(name), None, None, [], [], FlagOr(queryIndexes, false), true))
    ensures Truthy(name) ==>
      RenderUrl(Url(Some(name), None, None, [], [], FlagOr(queryIndexes, false), true)) == Ok(name + "://")
  {
    var s := name + "://" + (if newline then "\n" else "");
    var body := WithoutFinalNewline(s);
    assert body == name + "://";
    assert body[|body| - 3..] == "://";
    assert body[..|body| - 3] == name;
    assert SchemeOnly(s) == Some(name);
    EmptyQuery(FlagOr(queryIndexes, false), true);
    BareText(Url(Some(name), None, None, [], [], FlagOr(queryIndexes, false), true), "");
    assert (name + "://") + "" == name + "://";
  }

  /** The scheme `0` is falsy: `0://` keeps it but prints as the empty string. */
  lemma FalsySchemeNotPrinted()
    ensures Build(UrlString("0://"), None) == Ok(Url(Some("0"), None, None, [], [], false, true))
    ensures RenderUrl(Build(UrlString("0://"), None).value) == Ok("")
  {
    SchemeOnlyResource("0", false, None);
    assert "0" + "://" + "" == "0://";
    EmptyQuery(false, true);
    BareText(Url(Some("0"), None, None, [], [], false, true), "");
  }

  /** A URL `parse_url` rejects, such as one with an empty host or a port out of
      range, yields an empty resource rather than an error. */
  lemma RejectedIsEmpty(s: string, queryIndexes: Option<bool>)
    requires SchemeOnly(s).None? && SplitUrl(s).Rejected?
    ensures Build(UrlString(s), queryIndexes) == Ok(Url(None, None, None, [], [], FlagOr(queryIndexes, false), true))
    ensures RenderUrl(Build(UrlString(s), queryIndexes).value) == Ok("")
  {
    EmptyQuery(FlagOr(queryIndexes, false), true);
    BareText(Url(None, None, None, [], [], FlagOr(queryIndexes, false), true), "");
  }

  /** A string starting `scheme://` is split by its authority, unless it is
      a `file` URL whose rest starts with `/`. */
  lemma SplitSchemeForm(scheme: string, rest: string)
    requires scheme != "" && AllSchemeChars(scheme) && NoControl(scheme + "://" + rest)
    requires !(IsFileScheme(scheme) && StartsWith(rest, "/"))
    ensures SplitUrl(scheme + "://" + rest) == SplitAuthority(scheme, rest)
  {
    SchemeColon(scheme, rest);
    if IsFileScheme(scheme) {
      assert !StartsWith("//" + rest, "///");
    }
  }

  /** `file:///…` goes straight to the path, which starts at the third `/`,
      or at the drive letter of `file:///c:/…`; there is no host or port. */
  lemma FileUrlSplit(scheme: string, rest: string)
    requires IsFileScheme(scheme) && StartsWith(rest, "/") && NoControl(scheme + "://" + rest)
    ensures var p := if |rest| > 2 && rest[2] == ':' then rest[1..] else rest;
      SplitUrl(scheme + "://" + rest) == Parsed(UrlParts(Some(scheme), None, None, PathAndQuery(p).0, PathAndQuery(p).1))
  {
    FileSchemeChars(scheme);
    SchemeColon(scheme, rest);
    assert StartsWith("//" + rest, "///");
  }

  /** The first `:` of `scheme://rest` is the one after the scheme. */
  lemma SchemeColon(scheme: string, rest: string)
    requires scheme != "" && AllSchemeChars(scheme)
    ensures SplitFirst(':', scheme + "://" + rest) == (scheme, Some("//" + rest))
    ensures StartsWith("//" + rest, "//") && ("//" + rest)[2..] == rest
  {
    assert ':' !in scheme by {
      forall i | 0 <= i < |scheme| ensures scheme[i] != ':' {
        assert IsSchemeChar(scheme[i]);
      }
    }
    assert scheme + "://" + rest == scheme + [':'] + ("//" + rest);
    SplitFirstAt(':', scheme, "//" + rest);
    assert ("//" + rest)[2..] == rest;
  }

  /** `file:///path` keeps the scheme and the path's segments, with no host,
      and prints back unchanged. */
  lemma FileUrlResource(scheme: string, path: string, queryIndexes: Option<bool>)
    requires IsFileScheme(scheme) && StartsWith(path, "/") && !(|path| > 2 && path[2] == ':')
    requires NoControl(scheme + "://" + path) && '?' !in path && '#' !in path
    ensures Build(UrlString(scheme + "://" + path), queryIndexes)
      == Ok(Url(Some(scheme), None, None, Explode('/', path), [], FlagOr(queryIndexes, false), true))
    ensures RenderUrl(Build(UrlString(scheme + "://" + path), queryIndexes).value) == Ok(scheme + "://" + path)
  {
    FileUrlBuild(scheme, path, queryIndexes);
    FileUrlRender(scheme, path, FlagOr(queryIndexes, false));
  }

  lemma FileUrlBuild(scheme: string, path: string, queryIndexes: Option<bool>)
    requires IsFileScheme(scheme) && StartsWith(path, "/") && !(|path| > 2 && path[2] == ':')
    requires NoControl(scheme + "://" + path) && '?' !in path && '#' !in path
    ensures Build(UrlString(scheme + "://" + path), queryIndexes)
      == Ok(Url(Some(scheme), None, None, Explode('/', path), [], FlagOr(queryIndexes, false), true))
  {
    var s := scheme + "://" + path;
    var parts := UrlParts(Some(scheme), None, None, StrPath(path), QueryEntries([]));
    FileUrlParts(s, scheme, path);
    BuildOfParts(UrlString(s), queryIndexes, parts, []);
    SlashFirst(path);
    assert Initial(StrPath(path)) == Explode('/', path);
  }

  lemma FileUrlParts(s: string, scheme: string, path: string)
    requires s == scheme + "://" + path
    requires IsFileScheme(scheme) && StartsWith(path, "/") && !(|path| > 2 && path[2] == ':')
    requires NoControl(s) && '?' !in path && '#' !in path
    ensures Parts(UrlString(s)) == Ok(UrlParts(Some(scheme), None, None, StrPath(path), QueryEntries([])))
  {
    FileSchemeChars(scheme);
    assert s[4] == ':' && !IsWordChar(s[4]);
    assert WithoutFinalNewline(s) == s by {
      assert !IsControl(s[|s| - 1]);
    }
    FileUrlSplit(scheme, path);
    assert SplitFirst('#', path).0 == path;
    assert SplitFirst('?', path) == (path, None);
  }

  lemma FileUrlRender(scheme: string, path: string, indexes: bool)
    requires IsFileScheme(scheme) && StartsWith(path, "/")
    ensures RenderUrl(Url(Some(scheme), None, None, Explode('/', path), [], indexes, true)) == Ok(scheme + "://" + path)
  {
    var u := Url(Some(scheme), None, None, Explode('/', path), [], indexes, true);
    FileSchemeChars(scheme);
    EmptyQuery(indexes, true);
    HostlessText(u, "");
    SlashFirst(path);
    PathTextOfString(path);
    assert SchemePrefix(u.scheme) == scheme + "://";
    assert UrlText(u, "") == scheme + "://" + path;
  }

  /** `file:///c:/x` has the path `c:/x`, from the drive letter on. */
  lemma DriveLetterExample(scheme: string, rest: string)
    requires scheme == "file" && rest == "/c:/x"
    ensures SplitUrl(scheme + "://" + rest) == Parsed(UrlParts(Some("file"), None, None, StrPath("c:/x"), QueryEntries([])))
  {
    DriveLiteral(scheme, rest);
    FileUrlSplit(scheme, rest);
    DrivePath(rest[1..]);
  }

  lemma DriveLiteral(scheme: string, rest: string)
    requires scheme == "file" && rest == "/c:/x"
    ensures IsFileScheme(scheme) && NoControl(scheme + "://" + rest) && StartsWith(rest, "/")
    ensures |rest| > 2 && rest[2] == ':' && rest[1..] == "c:/x"
  {
    assert ToLower(scheme) == "file";
  }

  lemma DrivePath(p: string)
    requires p == "c:/x"
    ensures PathAndQuery(p) == (StrPath(p), QueryEntries([]))
  {
    assert SplitFirst('#', p) == (p, None);
    assert SplitFirst('?', p) == (p, None);
  }

  lemma SlashFirst(path: string)
    requires StartsWith(path, "/")
    ensures path != [] && path[0] == '/' && Truthy(path)
  {
    assert path[..1][0] == path[0];
  }

  lemma FileSchemeChars(scheme: string)
    requires IsFileScheme(scheme)
    ensures |scheme| == 4 && Truthy(scheme) && AllSchemeChars(scheme)
  {
    var r := ToLower(scheme);
    forall i | 0 <= i < |scheme| ensures IsSchemeChar(scheme[i]) {
      if !('A' <= scheme[i] <= 'Z') {
        assert scheme[i] == r[i];
        assert r[i] in "file";
      }
    }
  }

  /** With no scheme, host or port a non-empty relative path is printed with a
      leading `/`. */
  lemma RelativePathSlash(segments: seq<string>, indexes: bool, encodeKeys: bool)
    requires segments != [] && segments[0] != ""
    ensures RenderUrl(Url(None, None, None, segments, [], indexes, encodeKeys)) == Ok("/" + Render(segments))
  {
    HostlessRender(segments, indexes, encodeKeys);
  }

  /** A resource with only a query prints the query text alone, without `?`. */
  lemma QueryOnlyNoMark(query: seq<(Key, Value)>, indexes: bool, encodeKeys: bool)
    ensures RenderUrl(Url(None, None, None, [], query, indexes, encodeKeys)) == BuildQuery(query, indexes, encodeKeys)
  {
    var u := Url(None, None, None, [], query, indexes, encodeKeys);
    forall q ensures UrlText(u, q) == q {
      BareText(u, q);
      assert "" + q == q;
    }
  }

  /** `:` appears in the printed URL exactly when the port is truthy, as long
      as no other part holds a colon. */
  lemma ColonOnlyWithPort(u: Url, query: string)
    requires u.scheme.None? && (u.host.Some? ==> ':' !in u.host.value)
    requires ':' !in Render(u.segments) && ':' !in query
    ensures ':' in UrlText(u, query) <==> PortTruthy(u.port)
  {
    var hp := HostPort(u.host, u.port);
    var pt := PathText(u.segments);
    var mark := if QueryMark(u) then "?" else "";
    assert SchemePrefix(u.scheme) == "";
    assert ':' !in pt;
    assert ':' !in mark;
    assert UrlText(u, query) == "" + hp + pt + mark + query;
    HostPortColon(u.host, u.port);
  }

  lemma HostPortColon(host: Option<string>, port: Option<int>)
    requires host.Some? ==> ':' !in host.value
    ensures ':' in HostPort(host, port) <==> PortTruthy(port)
  {
    if port.Some? {
      DecimalNoColon(port.value);
    }
    var h := if host.Some? then host.value else "";
    var c := if PortTruthy(port) then ":" else "";
    var d := if port.Some? then Decimal(port.value) else "";
    assert HostPort(host, port) == h + c + d;
  }

  lemma DecimalNoColon(n: int)
    ensures ':' !in Decimal(n)
  {
    var d := Decimal(n);
    forall i | 0 <= i < |d| ensures d[i] != ':' {
      if n < 0 {
        if i > 0 {
          assert d[i] == NatDigits(-n)[i - 1];
        }
      } else {
        assert IsDigit(NatDigits(n)[i]);
      }
    }
  }

  /** A string starting with a non-word character is not `scheme://`. */
  lemma SchemeOnlyLeading(s: string)
    requires s != "" && !IsWordChar(s[0])
    ensures SchemeOnly(s).None?
  {
    var body := WithoutFinalNewline(s);
    if |body| > 3 {
      assert body[0] == s[0];
    }
  }

  /** Nor is a string without a colon. */
  lemma SchemeOnlyColon(s: string)
    requires ':' !in s
    ensures SchemeOnly(s).None?
  {
    var body := WithoutFinalNewline(s);
    if |body| > 3 {
      assert body[|body| - 3] == s[|body| - 3];
      assert body[|body| - 3..][0] != ':';
    }
  }

  /** A string holding a non-word character early enough is not `scheme://`. */
  lemma SchemeOnlyNone(s: string, i: nat)
    requires i + 4 < |s| && !IsWordChar(s[i])
    ensures SchemeOnly(s).None?
  {
    var body := WithoutFinalNewline(s);
    assert i < |body| - 3 && body[i] == s[i];
  }

  /** `parse_url` of a reference with neither colon nor `#` nor a leading `//`. */
  lemma SplitRelative(s: string)
    requires NoControl(s) && ':' !in s && '#' !in s && !StartsWith(s, "//")
    ensures SplitUrl(s) == Parsed(UrlParts(None, None, None, PathAndQuery(s).0, PathAndQuery(s).1))
    ensures PathAndQuery(s) == (var (p, q) := SplitFirst('?', s);
      (if p == "" then NullPath else StrPath(p), if q.Some? then QueryText(q.value) else QueryEntries([])))
  {
    assert SplitFirst('#', s).0 == s;
  }

  /** A colon after a first part that is not a scheme, before any `?` or `#`
      and followed by a port, never gives a relative reference: a port above
      65535 fails, and after a single leading `/` the host read from the start
      is empty, so `parse_url` fails too. */
  lemma PortReferenceSplit(before: string, digits: string, tail: string)
    requires before != "" && ':' !in before && '?' !in before && '#' !in before && !AllSchemeChars(before)
    requires 1 <= |digits| <= 5 && AllDigits(digits) && (tail == "" || tail[0] == '/')
    requires NoControl(before + ":" + digits + tail)
    ensures var s := before + ":" + digits + tail;
      !SplitUrl(s).Parsed?
      && (DigitsValue(digits) > 65535 ==> SplitUrl(s) == Rejected)
      && (StartsWith(s, "/") && !StartsWith(s, "//") ==> SplitUrl(s) == Rejected)
      && (DigitsValue(digits) <= 65535 && !StartsWith(s, "/") ==> SplitUrl(s) == Outside)
  {
    var s := before + ":" + digits + tail;
    SplitFirstAt(':', before, digits + tail);
    assert s == before + [':'] + (digits + tail);
    DigitRun(digits, tail);
    assert (digits + tail)[..|digits|] == digits;
  }

  /** So such a reference with a single leading `/` builds the empty resource. */
  lemma SlashPortEmpty(before: string, digits: string, tail: string, queryIndexes: Option<bool>)
    requires before != "" && ':' !in before && '?' !in before && '#' !in before && !AllSchemeChars(before)
    requires 1 <= |digits| <= 5 && AllDigits(digits) && (tail == "" || tail[0] == '/')
    requires NoControl(before + ":" + digits + tail)
    requires StartsWith(before + ":" + digits + tail, "/") && !StartsWith(before + ":" + digits + tail, "//")
    ensures Build(UrlString(before + ":" + digits + tail), queryIndexes)
      == Ok(Url(None, None, None, [], [], FlagOr(queryIndexes, false), true))
  {
    var s := before + ":" + digits + tail;
    PortReferenceSplit(before, digits, tail);
    assert s[..1][0] == s[0];
    SchemeOnlyLeading(s);
    RejectedIsEmpty(s, queryIndexes);
  }

  /** A colon after a first part that is not a scheme leaves a relative
      reference when a `?` or `#` comes before it or no port follows it. */
  lemma NoPortRelative(before: string, after: string)
    requires before != "" && ':' !in before && !AllSchemeChars(before)
    requires '?' in before || '#' in before || !IsPortText(after)
    requires NoControl(before + ":" + after)
    ensures SplitUrl(before + ":" + after) == Relative(before + ":" + after)
  {
    var s := before + ":" + after;
    SplitFirstAt(':', before, after);
    assert s == before + [':'] + after;
  }

  lemma {:induction false} DigitRun(digits: string, tail: string)
    requires AllDigits(digits) && (tail == "" || !IsDigit(tail[0]))
    ensures LeadingDigits(digits + tail) == |digits|
  {
    if digits == [] {
      assert digits + tail == tail;
    } else {
      assert (digits + tail)[1..] == digits[1..] + tail;
      assert AllDigits(digits[1..]) by {
        forall i | 0 <= i < |digits[1..]| ensures IsDigit(digits[1..][i]) {
          assert digits[1..][i] == digits[i + 1];
        }
      }
      DigitRun(digits[1..], tail);
    }
  }

  /** `/page:1` and `/a:80/b` make `parse_url` fail, so the first builds the
      empty resource; `users/1:2` starts with a host; a `?` after the digits
      leaves `/page:1?x=2` a relative reference. */
  lemma PortReferenceExample(queryIndexes: Option<bool>)
    ensures SplitUrl("/page:1") == Rejected && SplitUrl("/a:80/b") == Rejected
    ensures Build(UrlString("/page:1"), queryIndexes) == Ok(Url(None, None, None, [], [], FlagOr(queryIndexes, false), true))
    ensures SplitUrl("users/1:2").Outside?
    ensures SplitUrl("/page:1?x=2") == Parsed(UrlParts(None, None, None, StrPath("/page:1"), QueryText("x=2")))
  {
    PageRejected();
    SlashPortRejected();
    PageBuild(queryIndexes);
    UsersPort();
    PageQuery();
  }

  lemma PageRejected()
    ensures SplitUrl("/page:1") == Rejected
  {
    PageLiterals();
    PortReferenceSplit("/page", "1", "");
  }

  lemma SlashPortRejected()
    ensures SplitUrl("/a:80/b") == Rejected
  {
    PageLiterals();
    PortReferenceSplit("/a", "80", "/b");
  }

  lemma PageBuild(queryIndexes: Option<bool>)
    ensures Build(UrlString("/page:1"), queryIndexes) == Ok(Url(None, None, None, [], [], FlagOr(queryIndexes, false), true))
  {
    PageLiterals();
    SlashPortEmpty("/page", "1", "", queryIndexes);
  }

  lemma PageLiterals()
    ensures "/page:1" == "/page" + ":" + "1" + "" && "/a:80/b" == "/a" + ":" + "80" + "/b"
    ensures !AllSchemeChars("/page") && !AllSchemeChars("/a") && AllDigits("1") && AllDigits("80")
    ensures NoControl("/page:1") && NoControl("/a:80/b")
    ensures StartsWith("/page:1", "/") && !StartsWith("/page:1", "//")
    ensures StartsWith("/a:80/b", "/") && !StartsWith("/a:80/b", "//")
  {
    assert !IsSchemeChar("/page"[0]) && !IsSchemeChar("/a"[0]);
    assert "/page:1"[..1] == "/" && "/page:1"[..2][1] == 'p';
    assert "/a:80/b"[..1] == "/" && "/a:80/b"[..2][1] == 'a';
  }

  lemma UsersPort()
    ensures SplitUrl("users/1:2").Outside?
  {
    UsersLiterals();
    PortReferenceSplit("users/1", "2", "");
  }

  lemma UsersLiterals()
    ensures "users/1:2" == "users/1" + ":" + "2" + "" && !StartsWith("users/1:2", "/")
    ensures !AllSchemeChars("users/1") && AllDigits("2") && DigitsValue("2") == 2 && NoControl("users/1:2")
  {
    assert !IsSchemeChar("users/1"[5]);
    assert "2"[..0] == "";
    assert "users/1:2"[..1][0] == 'u';
    assert "users/1:2" == "users/1" + ":" + "2" + "";
    assert AllDigits("2");
    assert DigitsValue("2") == 2;
    assert NoControl("users/1:2");
  }

  lemma PageQuery()
    ensures SplitUrl("/page:1?x=2") == Parsed(UrlParts(None, None, None, StrPath("/page:1"), QueryText("x=2")))
  {
    var s := "/page:1?x=2";
    PageQueryLiterals();
    NoPortRelative("/page", "1?x=2");
    SplitFirstAt('?', "/page:1", "x=2");
  }

  lemma PageQueryLiterals()
    ensures "/page:1?x=2" == "/page" + ":" + "1?x=2" && "/page:1?x=2" == "/page:1" + ['?'] + "x=2"
    ensures !AllSchemeChars("/page") && ':' !in "/page" && '?' !in "/page:1" && '#' !in "/page:1?x=2"
    ensures NoControl("/page:1?x=2") && !StartsWith("/page:1?x=2", "//") && !IsPortText("1?x=2")
  {
    assert !IsSchemeChar("/page"[0]);
    assert "/page:1?x=2"[..2][1] == 'p';
    DigitRun("1", "?x=2");
    assert "1" + "?x=2" == "1?x=2";
  }

  /** A path-only reference (no colon, query or fragment) keeps the path's
      segments; it prints back unchanged when it starts with `/` and with a `/`
      put in front otherwise. */
  lemma PathOnlyResource(path: string, queryIndexes: Option<bool>)
    requires Truthy(path) && NoControl(path) && !StartsWith(path, "//")
    requires ':' !in path && '?' !in path && '#' !in path
    ensures Build(UrlString(path), queryIndexes)
      == Ok(Url(None, None, None, Explode('/', path), [], FlagOr(queryIndexes, false), true))
    ensures RenderUrl(Build(UrlString(path), queryIndexes).value)
      == Ok(if path[0] == '/' then path else "/" + path)
  {
    var parts := UrlParts(None, None, None, StrPath(path), QueryEntries([]));
    SchemeOnlyColon(path);
    SplitRelative(path);
    assert SplitFirst('?', path) == (path, None);
    PartsOfSplit(path, parts);
    BuildOfParts(UrlString(path), queryIndexes, parts, []);
    assert Initial(StrPath(path)) == Explode('/', path);
    PathOnlyRender(path, FlagOr(queryIndexes, false));
  }

  lemma PathOnlyRender(path: string, indexes: bool)
    requires Truthy(path)
    ensures RenderUrl(Url(None, None, None, Explode('/', path), [], indexes, true))
      == Ok(if path[0] == '/' then path else "/" + path)
  {
    PathTextOfString(path);
    HostlessRender(Explode('/', path), indexes, true);
  }

  /** The path of a truthy string prints as the string, with a `/` put in
      front when it does not start with one. */
  lemma PathTextOfString(path: string)
    requires Truthy(path)
    ensures PathText(Explode('/', path)) == if path[0] == '/' then path else "/" + path
  {
    assert Initial(StrPath(path)) == Explode('/', path);
    StringRoundTrip(path);
    AbsoluteOfString(path);
  }

  /** Without host, port, scheme and query a resource prints as its path. */
  lemma HostlessRender(segments: seq<string>, indexes: bool, encodeKeys: bool)
    ensures RenderUrl(Url(None, None, None, segments, [], indexes, encodeKeys)) == Ok(PathText(segments))
  {
    var u := Url(None, None, None, segments, [], indexes, encodeKeys);
    EmptyQuery(indexes, encodeKeys);
    HostlessText(u, "");
    assert UrlText(u, "") == PathText(segments);
  }

  /** A query-only reference `?text` keeps the parsed query and prints it
      without the `?`. */
  lemma QueryOnlyResource(es: seq<(Key, Value)>, queryIndexes: Option<bool>)
    requires es != [] && PlainParams(es)
    ensures var text := Implode("&", PlainPairs(es));
      Build(UrlString("?" + text), queryIndexes) == Ok(Url(None, None, None, [], es, FlagOr(queryIndexes, false), true))
      && RenderUrl(Build(UrlString("?" + text), queryIndexes).value) == Ok(text)
  {
    QueryOnlyBuild(es, queryIndexes);
    PlainRoundTrip(es, FlagOr(queryIndexes, false), true);
    QueryOnlyNoMark(es, FlagOr(queryIndexes, false), true);
  }

  lemma QueryOnlyBuild(es: seq<(Key, Value)>, queryIndexes: Option<bool>)
    requires es != [] && PlainParams(es)
    ensures Build(UrlString("?" + Implode("&", PlainPairs(es))), queryIndexes)
      == Ok(Url(None, None, None, [], es, FlagOr(queryIndexes, false), true))
  {
    var text := Implode("&", PlainPairs(es));
    PlainRoundTrip(es, FlagOr(queryIndexes, false), true);
    PlainTextClean(es);
    QueryTextBuild(text, queryIndexes);
  }

  /** `parse_url("?" + text)` gives the text as the query alone. */
  lemma QueryOnlySplit(text: string)
    requires Clean(text)
    ensures SplitUrl("?" + text) == Parsed(UrlParts(None, None, None, NullPath, QueryText(text)))
  {
    var s := "?" + text;
    CleanAfterMark(text);
    MarkRelative(s);
    MarkPathAndQuery(text);
    assert !StartsWith(s, "//");
  }

  lemma CleanAfterMark(text: string)
    requires Clean(text)
    ensures NoControl("?" + text) && '#' !in "?" + text
  {
    var s := "?" + text;
    forall i | 0 <= i < |s| ensures !IsControl(s[i]) && s[i] != '#' {
      if i > 0 {
        assert s[i] == text[i - 1];
      }
    }
  }

  /** A string starting with `?` is a relative reference. */
  lemma MarkRelative(s: string)
    requires NoControl(s) && s != "" && s[0] == '?'
    ensures SplitUrl(s) == Relative(s)
  {
    var split := SplitFirst(':', s);
    if split.1.Some? {
      var before := split.0;
      assert s == before + [':'] + split.1.value;
      assert before != "" && before[0] == s[0];
      assert !IsSchemeChar(before[0]) && '?' in before;
    }
  }

  lemma MarkPathAndQuery(text: string)
    requires '#' !in "?" + text
    ensures PathAndQuery("?" + text) == (NullPath, QueryText(text))
  {
    var s := "?" + text;
    assert SplitFirst('#', s).0 == s;
    SplitFirstAt('?', "", text);
    assert "" + ['?'] + text == s;
  }

  /** No control character and no `#` anywhere. */
  predicate Clean(s: string) {
    forall i :: 0 <= i < |s| ==> !IsControl(s[i]) && s[i] != '#'
  }

  lemma CleanConcat(a: string, b: string)
    requires Clean(a) && Clean(b)
    ensures Clean(a + b)
  {
    forall i | 0 <= i < |a + b| ensures !IsControl((a + b)[i]) && (a + b)[i] != '#' {
      if i >= |a| {
        assert (a + b)[i] == b[i - |a|];
      }
    }
  }

  lemma {:induction false} ImplodeClean(parts: seq<string>)
    requires forall i :: 0 <= i < |parts| ==> Clean(parts[i])
    ensures Clean(Implode("&", parts))
  {
    if |parts| > 1 {
      ImplodeClean(parts[1..]);
      CleanConcat(parts[0], "&");
      CleanConcat(parts[0] + "&", Implode("&", parts[1..]));
    }
  }

  lemma UnreservedClean(s: string)
    requires Unreserved(s)
    ensures Clean(s)
  {
    forall i | 0 <= i < |s| ensures !IsControl(s[i]) && s[i] != '#' {
      assert IsUnreservedChar(s[i]);
    }
  }

  /** Flat parameters print as text without controls or `#`. */
  lemma PlainTextClean(es: seq<(Key, Value)>)
    requires forall i :: 0 <= i < |es| ==> PlainEntry(es[i])
    ensures Clean(Implode("&", PlainPairs(es)))
  {
    var pairs := PlainPairs(es);
    forall i | 0 <= i < |pairs| ensures Clean(pairs[i]) {
      UnreservedClean(es[i].0.s);
      UnreservedClean(es[i].1.s);
      CleanConcat(es[i].0.s, "=");
      CleanConcat(es[i].0.s + "=", es[i].1.s);
    }
    ImplodeClean(pairs);
  }

  /** The authority of `a + b` is `a` when `a` holds no delimiter and `b` is
      empty or starts with one. */
  lemma {:induction false} AuthorityLengthOf(a: string, b: string)
    requires '/' !in a && '?' !in a && '#' !in a
    requires b == [] || b[0] == '/' || b[0] == '?' || b[0] == '#'
    ensures AuthorityLength(a + b) == |a|
  {
    if a == [] {
      assert a + b == b;
    } else {
      assert (a + b)[1..] == a[1..] + b;
      AuthorityLengthOf(a[1..], b);
    }
  }

  /** A host `parse_url` takes as it is: non-empty, without a colon, a
      delimiter, user info or brackets. */
  predicate HostText(h: string) {
    h != "" && forall i :: 0 <= i < |h| ==> h[i] !in ":/?#@[]"
  }

  /** The authority `host:port`: a port of up to five digits is taken when it
      is at most 65535, and makes the whole URL fail above that. */
  lemma SplitAuthorityPort(scheme: string, host: string, port: string, rest: string)
    requires HostText(host) && 1 <= |port| <= 5 && AllDigits(port)
    requires rest == [] || rest[0] == '/' || rest[0] == '?' || rest[0] == '#'
    ensures SplitAuthority(scheme, host + ":" + port + rest) ==
      if DigitsValue(port) > 65535 then Rejected
      else Parsed(UrlParts(Some(scheme), Some(host), Some(DigitsValue(port)), PathAndQuery(rest).0, PathAndQuery(rest).1))
  {
    var a := host + ":" + port;
    HostPortAuthority(host, port, rest);
    assert (a + rest)[..AuthorityLength(a + rest)] == a;
    assert (a + rest)[AuthorityLength(a + rest)..] == rest;
  }

  lemma HostPortAuthority(host: string, port: string, rest: string)
    requires HostText(host) && AllDigits(port)
    requires rest == [] || rest[0] == '/' || rest[0] == '?' || rest[0] == '#'
    ensures AuthorityLength(host + ":" + port + rest) == |host + ":" + port|
    ensures SplitFirst(':', host + ":" + port) == (host, Some(port))
    ensures '@' !in host + ":" + port && '[' !in host + ":" + port && ']' !in host + ":" + port
    ensures ':' !in port
  {
    var a := host + ":" + port;
    HostChars(host);
    DigitChars(port);
    assert forall i :: 0 <= i < |a| ==> a[i] != '/' && a[i] != '?' && a[i] != '#' && a[i] != '@' && a[i] != '[' && a[i] != ']' by {
      forall i | 0 <= i < |a| ensures a[i] != '/' && a[i] != '?' && a[i] != '#' && a[i] != '@' && a[i] != '[' && a[i] != ']' {
        if i < |host| {
          assert a[i] == host[i];
        } else if i > |host| {
          assert a[i] == port[i - |host| - 1];
        }
      }
    }
    AuthorityLengthOf(a, rest);
    SplitFirstAt(':', host, port);
    assert host + [':'] + port == a;
  }

  lemma HostChars(host: string)
    requires HostText(host)
    ensures ':' !in host && '/' !in host && '?' !in host && '#' !in host
    ensures '@' !in host && '[' !in host && ']' !in host
  {
    forall i | 0 <= i < |host|
      ensures host[i] != ':' && host[i] != '/' && host[i] != '?' && host[i] != '#'
      ensures host[i] != '@' && host[i] != '[' && host[i] != ']'
    {
      assert host[i] !in ":/?#@[]";
    }
  }

  lemma DigitChars(s: string)
    requires AllDigits(s)
    ensures ':' !in s && '/' !in s && '?' !in s && '#' !in s
    ensures '@' !in s && '[' !in s && ']' !in s && Clean(s)
  {
    forall i | 0 <= i < |s|
      ensures s[i] != ':' && s[i] != '/' && s[i] != '?' && s[i] != '#'
      ensures s[i] != '@' && s[i] != '[' && s[i] != ']' && !IsControl(s[i])
    {
      assert IsDigit(s[i]);
    }
  }

  function Pow10(k: nat): nat {
    if k == 0 then 1 else 10 * Pow10(k - 1)
  }

  lemma {:induction false} NatDigitsBelow(n: nat, k: nat)
    requires 1 <= k && n < Pow10(k)
    ensures |NatDigits(n)| <= k
    decreases k
  {
    if n >= 10 {
      assert k > 1 by {
        assert Pow10(1) == 10;
      }
      NatDigitsBelow(n / 10, k - 1);
    }
  }

  /** The text of the full URL has no control character or `#`. */
  lemma FullUrlClean(scheme: string, host: string, d: string, path: string, q: string)
    requires AllSchemeChars(scheme) && HostText(host) && NoControl(host) && AllDigits(d)
    requires '#' !in path && NoControl(path) && Clean(q)
    ensures Clean(scheme + "://" + host + ":" + d + path + "?" + q)
  {
    assert Clean(scheme) by {
      forall i | 0 <= i < |scheme| ensures !IsControl(scheme[i]) && scheme[i] != '#' {
        assert IsSchemeChar(scheme[i]);
      }
    }
    HostChars(host);
    DigitChars(d);
    assert Clean("://") && Clean(":") && Clean("?");
    CleanConcat(scheme, "://");
    CleanConcat(scheme + "://", host);
    CleanConcat(scheme + "://" + host, ":");
    CleanConcat(scheme + "://" + host + ":", d);
    CleanConcat(scheme + "://" + host + ":" + d, path);
    CleanConcat(scheme + "://" + host + ":" + d + path, "?");
    CleanConcat(scheme + "://" + host + ":" + d + path + "?", q);
  }

  /** `parse_url` of the full URL. */
  lemma FullUrlSplit(scheme: string, host: string, d: string, path: string, q: string)
    requires scheme != "" && AllSchemeChars(scheme) && HostText(host) && NoControl(host)
    requires 1 <= |d| <= 5 && AllDigits(d) && DigitsValue(d) <= 65535
    requires path != "" && path[0] == '/' && '?' !in path && '#' !in path && NoControl(path) && Clean(q)
    ensures SplitUrl(scheme + "://" + host + ":" + d + path + "?" + q)
      == Parsed(UrlParts(Some(scheme), Some(host), Some(DigitsValue(d)), StrPath(path), QueryText(q)))
  {
    var rest := path + "?" + q;
    var auth := host + ":" + d + rest;
    FullUrlAssoc(scheme, host, d, path, q);
    FullUrlClean(scheme, host, d, path, q);
    assert NoControl(scheme + "://" + auth);
    HostFirst(host, ":" + d + rest);
    SplitSchemeForm(scheme, auth);
    SplitAuthorityPort(scheme, host, d, rest);
    PathThenQuery(path, q);
  }

  /** An authority that starts with a host does not start with `/`. */
  lemma HostFirst(host: string, tail: string)
    requires HostText(host)
    ensures !StartsWith(host + tail, "/")
  {
    assert (host + tail)[0] == host[0];
  }

  lemma FullUrlAssoc(scheme: string, host: string, d: string, path: string, q: string)
    ensures scheme + "://" + host + ":" + d + path + "?" + q == scheme + "://" + (host + ":" + d + (path + "?" + q))
  {
  }

  /** A path without `?` followed by `?query` splits at that mark. */
  lemma PathThenQuery(path: string, q: string)
    requires path != "" && '?' !in path && '#' !in path && Clean(q)
    ensures PathAndQuery(path + "?" + q) == (StrPath(path), QueryText(q))
  {
    var rest := path + "?" + q;
    assert '#' !in rest by {
      forall i | 0 <= i < |rest| ensures rest[i] != '#' {
        if i > |path| {
          assert rest[i] == q[i - |path| - 1];
        }
      }
    }
    assert SplitFirst('#', rest).0 == rest;
    SplitFirstAt('?', path, q);
    assert path + ['?'] + q == rest;
  }

  /** A full URL `scheme://host:port/path?query` with a flat query splits into
      exactly those parts. */
  lemma UrlRoundTripBuild(scheme: string, host: string, port: nat, path: string,
                          es: seq<(Key, Value)>, queryIndexes: Option<bool>)
    requires scheme != "" && AllSchemeChars(scheme)
    requires HostText(host) && NoControl(host)
    requires 0 < port <= 65535
    requires path != "" && path[0] == '/' && '?' !in path && '#' !in path && NoControl(path)
    requires es != [] && PlainParams(es)
    ensures Build(UrlString(scheme + "://" + host + ":" + Decimal(port) + path + "?" + Implode("&", PlainPairs(es))), queryIndexes)
      == Ok(Url(Some(scheme), Some(host), Some(port), Explode('/', path), es, FlagOr(queryIndexes, false), true))
  {
    var q := Implode("&", PlainPairs(es));
    PlainTextClean(es);
    FullUrlParts(scheme, host, port, path, q);
    PlainRoundTrip(es, FlagOr(queryIndexes, false), true);
    assert QueryOf(QueryText(q)) == Ok(es);
    assert Initial(StrPath(path)) == Explode('/', path);
  }

  lemma FullUrlParts(scheme: string, host: string, port: nat, path: string, q: string)
    requires scheme != "" && AllSchemeChars(scheme)
    requires HostText(host) && NoControl(host)
    requires 0 < port <= 65535
    requires path != "" && path[0] == '/' && '?' !in path && '#' !in path && NoControl(path) && Clean(q)
    ensures Parts(UrlString(scheme + "://" + host + ":" + Decimal(port) + path + "?" + q))
      == Ok(UrlParts(Some(scheme), Some(host), Some(port), StrPath(path), QueryText(q)))
  {
    PortDigits(port);
    DigitPortParts(scheme, host, Decimal(port), path, q);
  }

  lemma DigitPortParts(scheme: string, host: string, d: string, path: string, q: string)
    requires scheme != "" && AllSchemeChars(scheme)
    requires HostText(host) && NoControl(host)
    requires 1 <= |d| <= 5 && AllDigits(d) && DigitsValue(d) <= 65535
    requires path != "" && path[0] == '/' && '?' !in path && '#' !in path && NoControl(path) && Clean(q)
    ensures Parts(UrlString(scheme + "://" + host + ":" + d + path + "?" + q))
      == Ok(UrlParts(Some(scheme), Some(host), Some(DigitsValue(d)), StrPath(path), QueryText(q)))
  {
    FullUrlSplit(scheme, host, d, path, q);
    FullUrlAssoc(scheme, host, d, path, q);
    NotSchemeOnly(scheme, host + ":" + d + (path + "?" + q));
  }

  /** Text after `scheme://` keeps a string from being scheme-only. */
  lemma NotSchemeOnly(scheme: string, tail: string)
    requires |tail| >= 2
    ensures SchemeOnly(scheme + "://" + tail).None?
  {
    var s := scheme + "://" + tail;
    assert s[|scheme|] == ':';
    SchemeOnlyNone(s, |scheme|);
  }

  /** A port prints as one to five digits that read back as the port. */
  lemma PortDigits(port: nat)
    requires 0 < port <= 65535
    ensures 1 <= |Decimal(port)| <= 5 && AllDigits(Decimal(port)) && DigitsValue(Decimal(port)) == port
  {
    DigitsValueNatDigits(port);
    assert Pow10(5) == 100000;
    NatDigitsBelow(port, 5);
  }

  /** That URL prints back character for character. */
  lemma UrlRoundTripRender(scheme: string, host: string, port: nat, path: string,
                           es: seq<(Key, Value)>, indexes: bool)
    requires Truthy(scheme) && Truthy(host)
    requires 0 < port
    requires path != "" && path[0] == '/'
    requires es != [] && PlainParams(es)
    ensures RenderUrl(Url(Some(scheme), Some(host), Some(port), Explode('/', path), es, indexes, true))
      == Ok(scheme + "://" + host + ":" + Decimal(port) + path + "?" + Implode("&", PlainPairs(es)))
  {
    FullUrlText(scheme, host, port, path, Implode("&", PlainPairs(es)), es, indexes);
    PlainRoundTrip(es, indexes, true);
  }

  lemma FullUrlText(scheme: string, host: string, port: nat, path: string, q: string,
                    es: seq<(Key, Value)>, indexes: bool)
    requires Truthy(scheme) && Truthy(host)
    requires 0 < port
    requires path != "" && path[0] == '/'
    requires es != []
    ensures UrlText(Url(Some(scheme), Some(host), Some(port), Explode('/', path), es, indexes, true), q)
      == scheme + "://" + host + ":" + Decimal(port) + path + "?" + q
  {
    var u := Url(Some(scheme), Some(host), Some(port), Explode('/', path), es, indexes, true);
    PathTextOfString(path);
    assert SchemePrefix(u.scheme) == scheme + "://";
    assert HostPort(u.host, u.port) == host + ":" + Decimal(port);
    assert PathText(u.segments) == path;
    assert QueryMark(u);
    TextAssoc(scheme, host, Decimal(port), path, q);
  }

  lemma TextAssoc(scheme: string, host: string, d: string, path: string, q: string)
    ensures (scheme + "://") + (host + ":" + d) + path + "?" + q == scheme + "://" + host + ":" + d + path + "?" + q
  {
  }

  // ---------------------------------------------------------------------------
  // The resource tests

  const FooBaz: seq<(Key, Value)> := [(StrKey("foo"), Str("bar")), (StrKey("baz"), Str("qux"))]

  lemma FooBazPlain()
    ensures PlainParams(FooBaz) && Implode("&", PlainPairs(FooBaz)) == "foo=bar&baz=qux"
  {
    FooBazEntries();
    ImplodeTwo("&", PlainPairs(FooBaz));
    FooBazLiteral();
  }

  lemma FooBazEntries()
    ensures PlainParams(FooBaz) && PlainPairs(FooBaz) == ["foo" + "=" + "bar", "baz" + "=" + "qux"]
  {
    var es := FooBaz;
    assert NormalizeKey("foo") == StrKey("foo") && NormalizeKey("baz") == StrKey("baz");
    assert Unreserved("foo") && Unreserved("bar") && Unreserved("baz") && Unreserved("qux");
    assert PlainEntry(es[0]) && PlainEntry(es[1]);
  }

  lemma FooBazLiteral()
    ensures "foo" + "=" + "bar" + "&" + ("baz" + "=" + "qux") == "foo=bar&baz=qux"
  {
  }

  lemma ExampleParts()
    ensures AllSchemeChars("http") && HostText("example.com") && NoControl("example.com")
    ensures NoControl("/a/index.html") && '?' !in "/a/index.html" && '#' !in "/a/index.html"
    ensures Decimal(80) == "80"
  {
    assert NatDigits(80) == NatDigits(8) + [DigitChar(0)];
  }

  lemma ExampleSegments()
    ensures Explode('/', "/a/index.html") == ["", "a", "index.html"]
  {
    var a, b := "a", "index.html";
    assert '/' !in a && '/' !in b;
    AbsoluteTwo(a, b);
    assert "/" + a + "/" + b == "/a/index.html";
  }

  lemma AbsoluteTwo(a: string, b: string)
    requires '/' !in a && '/' !in b
    ensures Explode('/', "/" + a + "/" + b) == ["", a, b]
  {
    ExplodeNoSep('/', b);
    ExplodeSplit('/', a, b);
    ExplodeSplit('/', "", a + "/" + b);
    assert "" + ['/'] + (a + "/" + b) == "/" + a + "/" + b;
  }

  lemma ExampleText()
    ensures "http" + "://" + "example.com" + ":" + "80" + "/a/index.html" + "?" + "foo=bar&baz=qux"
      == "http://example.com:80/a/index.html?foo=bar&baz=qux"
  {
    HostLiteral();
    PortLiteral();
    PathLiteral();
    QueryLiteral();
  }

  lemma HostLiteral()
    ensures "http" + "://" + "example.com" == "http://example.com"
  {
  }

  lemma PortLiteral()
    ensures "http://example.com" + ":" + "80" == "http://example.com:80"
  {
  }

  lemma PathLiteral()
    ensures "http://example.com:80" + "/a/index.html" == "http://example.com:80/a/index.html"
  {
  }

  lemma QueryLiteral()
    ensures "http://example.com:80/a/index.html" + "?" + "foo=bar&baz=qux"
      == "http://example.com:80/a/index.html?foo=bar&baz=qux"
  {
  }

  /** `http://example.com:80/a/index.html?foo=bar&baz=qux` splits into its five
      parts and prints back unchanged. */
  lemma FullUrlExample()
    ensures Build(UrlString("http://example.com:80/a/index.html?foo=bar&baz=qux"), None)
      == Ok(Url(Some("http"), Some("example.com"), Some(80), ["", "a", "index.html"], FooBaz, false, true))
    ensures RenderUrl(Url(Some("http"), Some("example.com"), Some(80), ["", "a", "index.html"], FooBaz, false, true))
      == Ok("http://example.com:80/a/index.html?foo=bar&baz=qux")
  {
    FooBazPlain();
    ExampleParts();
    ExampleSegments();
    ExampleText();
    UrlRoundTripBuild("http", "example.com", 80, "/a/index.html", FooBaz, None);
    UrlRoundTripRender("http", "example.com", 80, "/a/index.html", FooBaz, false);
  }

  /** `https://` keeps only its scheme and prints back unchanged. */
  lemma SchemeExample(url: string)
    requires url == "https://"
    ensures Build(UrlString(url), None) == Ok(Url(Some("https"), None, None, [], [], false, true))
    ensures RenderUrl(Url(Some("https"), None, None, [], [], false, true)) == Ok(url)
  {
    var name := "https";
    assert forall i :: 0 <= i < |name| ==> IsWordChar(name[i]);
    assert Truthy(name);
    SchemeOnlyResource(name, false, None);
    HttpsLiteral();
    assert FlagOr(None, false) == false;
  }

  lemma HttpsLiteral()
    ensures "https" + "://" + "" == "https://" && "https" + "://" == "https://"
  {
  }

  /** `/foo/bar` keeps its leading empty segment and prints back unchanged. */
  lemma AbsolutePathExample(url: string)
    requires url == "/foo/bar"
    ensures Build(UrlString(url), None) == Ok(Url(None, None, None, ["", "foo", "bar"], [], false, true))
    ensures RenderUrl(Url(None, None, None, ["", "foo", "bar"], [], false, true)) == Ok(url)
  {
    var a, b := "foo", "bar";
    assert Unreserved(a) && Unreserved(b);
    assert url == "/" + a + "/" + b;
    PlainSegments(a, b);
    PathOnlyResource(url, None);
    AbsoluteTwo(a, b);
  }

  /** `foo/bar` has no leading empty segment and prints as `/foo/bar`. */
  lemma RelativePathExample(url: string)
    requires url == "foo/bar"
    ensures Build(UrlString(url), None) == Ok(Url(None, None, None, ["foo", "bar"], [], false, true))
    ensures RenderUrl(Url(None, None, None, ["foo", "bar"], [], false, true)) == Ok("/" + url)
  {
    var a, b := "foo", "bar";
    assert Unreserved(a) && Unreserved(b);
    assert url == a + "/" + b;
    PlainSegments(a, b);
    PathOnlyResource(url, None);
    RelativeTwo(a, b);
  }

  /** A path reference: no control character, no `:`, `?` or `#`, and not
      starting with `//`. */
  predicate PathRef(s: string) {
    NoControl(s) && !StartsWith(s, "//") && ':' !in s && '?' !in s && '#' !in s
  }

  predicate PathChar(c: char) {
    IsUnreservedChar(c) || c == '/'
  }

  lemma PathCharsRef(s: string)
    requires forall i :: 0 <= i < |s| ==> PathChar(s[i])
    requires |s| < 2 || s[0] != '/' || s[1] != '/'
    ensures PathRef(s)
  {
    forall i | 0 <= i < |s| ensures !IsControl(s[i]) && s[i] != ':' && s[i] != '?' && s[i] != '#' {
      PathCharFacts(s[i]);
    }
    assert !StartsWith(s, "//") by {
      if |s| >= 2 {
        assert s[..2][0] == s[0] && s[..2][1] == s[1];
      }
    }
  }

  lemma PathCharFacts(c: char)
    requires PathChar(c)
    ensures !IsControl(c) && c != ':' && c != '?' && c != '#'
  {
  }

  /** Two unreserved segments joined by `/`, with or without a leading `/`,
      form a path reference. */
  lemma PlainSegments(a: string, b: string)
    requires a != "" && Unreserved(a) && Unreserved(b)
    ensures '/' !in a && '/' !in b
    ensures PathRef(a + "/" + b) && PathRef("/" + a + "/" + b)
  {
    assert '/' !in a by {
      forall i | 0 <= i < |a| ensures a[i] != '/' {
        assert IsUnreservedChar(a[i]);
      }
    }
    assert '/' !in b by {
      forall i | 0 <= i < |b| ensures b[i] != '/' {
        assert IsUnreservedChar(b[i]);
      }
    }
    var s := a + "/" + b;
    forall i | 0 <= i < |s| ensures PathChar(s[i]) {
      if i < |a| {
        assert s[i] == a[i] && IsUnreservedChar(a[i]);
      } else if i > |a| {
        assert s[i] == b[i - |a| - 1] && IsUnreservedChar(b[i - |a| - 1]);
      }
    }
    var t := "/" + s;
    forall i | 0 <= i < |t| ensures PathChar(t[i]) {
      if i > 0 {
        assert t[i] == s[i - 1];
      }
    }
    assert t[1] == a[0] && s[0] == a[0];
    PathCharsRef(s);
    PathCharsRef(t);
  }


  lemma RelativeTwo(a: string, b: string)
    requires '/' !in a && '/' !in b
    ensures Explode('/', a + "/" + b) == [a, b]
  {
    ExplodeNoSep('/', b);
    ExplodeSplit('/', a, b);
  }

  /** `?foo=bar&baz=qux` holds only the query, printed without `?`. */
  lemma QueryExample(url: string)
    requires url == "?foo=bar&baz=qux"
    ensures Build(UrlString(url), None) == Ok(Url(None, None, None, [], FooBaz, false, true))
    ensures RenderUrl(Url(None, None, None, [], FooBaz, false, true)) == Ok(url[1..])
  {
    FooBazPlain();
    var text := Implode("&", PlainPairs(FooBaz));
    assert url[1..] == text;
    assert url == "?" + url[1..];
    QueryOnlyResource(FooBaz, None);
  }

  /** A clean query text alone builds the resource holding its parsed query. */
  lemma QueryTextBuild(text: string, queryIndexes: Option<bool>)
    requires Clean(text) && ParseSpec(text).Ok?
    ensures Build(UrlString("?" + text), queryIndexes)
      == Ok(Url(None, None, None, [], ParseSpec(text).value, FlagOr(queryIndexes, false), true))
  {
    var parts := UrlParts(None, None, None, NullPath, QueryText(text));
    QueryOnlySplit(text);
    SchemeOnlyLeading("?" + text);
    PartsOfSplit("?" + text, parts);
    BuildOfParts(UrlString("?" + text), queryIndexes, parts, ParseSpec(text).value);
    assert Initial(NullPath) == [];
  }

  const FooList: seq<(Key, Value)> := [(StrKey("foo"), Arr([(IntKey(0), Str("bar")), (IntKey(1), Str("baz"))]))]

  lemma FooListParse(text: string)
    requires text == "foo[]=bar&foo[]=baz"
    ensures Clean(text) && ParseSpec(text) == Ok(FooList)
  {
    FooListText(text);
    FooListValue();
  }

  lemma FooListText(text: string)
    requires text == "foo[]=bar&foo[]=baz"
    ensures Clean(text) && text == Implode("&", AppendPairs("foo", ["bar", "baz"]))
  {
    var pairs := AppendPairs("foo", ["bar", "baz"]);
    ImplodeTwo("&", pairs);
    var p0, p1 := pairs[0], pairs[1];
    assert p0 == "foo" + "[]=" + "bar";
    assert p1 == "foo" + "[]=" + "baz";
    assert p0 == "foo[]=bar" && p1 == "foo[]=baz";
    assert p0 + "&" + p1 == text;
  }

  lemma ImplodeTwo(sep: string, parts: seq<string>)
    requires |parts| == 2
    ensures Implode(sep, parts) == parts[0] + sep + parts[1]
  {
    assert parts[1..] == [parts[1]];
  }

  lemma FooListValue()
    ensures ParseSpec(Implode("&", AppendPairs("foo", ["bar", "baz"]))) == Ok(FooList)
  {
    FooListPieces();
    ParseList("foo", ["bar", "baz"]);
  }

  lemma FooListPieces()
    ensures Unreserved("foo") && NormalizeKey("foo") == StrKey("foo")
    ensures forall i :: 0 <= i < |["bar", "baz"]| ==> '&' !in ["bar", "baz"][i]
    ensures FooList == [(NormalizeKey("foo"), Arr(ListOf(StrValues(["bar", "baz"]))))]
  {
    var vs := ["bar", "baz"];
    assert '&' !in vs[0] && '&' !in vs[1];
    assert NormalizeKey("foo") == StrKey("foo");
    assert ListOf(StrValues(vs)) == [(IntKey(0), Str("bar")), (IntKey(1), Str("baz"))];
  }

  lemma FooListBuild()
    ensures BuildQuery(FooList, false, true) == Ok("foo%5B%5D=bar&foo%5B%5D=baz")
  {
    var vs := ["bar", "baz"];
    assert ListOf(StrValues(vs)) == [(IntKey(0), Str("bar")), (IntKey(1), Str("baz"))];
    ListPairOk("foo", vs, false);
    FooListLine();
    var line := Implode("&", ListPairs("foo", vs, false));
    BuildQuerySingle(StrKey("foo"), Arr(ListOf(StrValues(vs))), false, true);
  }

  /** One entry serialises to the pair it builds. */
  lemma BuildQuerySingle(k: Key, v: Value, indexes: bool, encodeKeys: bool)
    requires BuildPair(k, v, indexes, encodeKeys).Ok?
    ensures BuildQuery([(k, v)], indexes, encodeKeys) == BuildPair(k, v, indexes, encodeKeys)
  {
    var pair := BuildPair(k, v, indexes, encodeKeys).value;
    var top := Arr([(k, v)]);
    assert BuildPairs(None, top, 1, indexes, encodeKeys) == Ok([]);
    assert BuildPairs(None, top, 0, indexes, encodeKeys) == Ok([pair] + []);
    assert [pair] + [] == [pair];
  }

  lemma FooListLine()
    ensures Implode("&", ListPairs("foo", ["bar", "baz"], false)) == "foo%5B%5D=bar&foo%5B%5D=baz"
  {
    assert Unreserved("foo") && Unreserved("bar") && Unreserved("baz");
    ListPairsTwo("foo", "bar", "baz");
    JoinPairs("foo", "bar", "baz");
  }

  /** Two unreserved elements under an unreserved key print unencoded. */
  lemma ListPairsTwo(k: string, a: string, b: string)
    requires Unreserved(k) && Unreserved(a) && Unreserved(b)
    ensures Implode("&", ListPairs(k, [a, b], false)) == k + "%5B%5D" + "=" + a + "&" + (k + "%5B%5D" + "=" + b)
  {
    UrlEncodeUnreserved(k);
    UrlEncodeUnreserved(a);
    UrlEncodeUnreserved(b);
    ImplodeTwo("&", ListPairs(k, [a, b], false));
  }

  lemma JoinPairs(k: string, a: string, b: string)
    requires k == "foo" && a == "bar" && b == "baz"
    ensures k + "%5B%5D" + "=" + a + "&" + (k + "%5B%5D" + "=" + b) == "foo%5B%5D=bar&foo%5B%5D=baz"
  {
  }

  /** `?foo[]=bar&foo[]=baz` parses into one list under `foo`, printed with its
      brackets urlencoded. */
  lemma QueryArrayExample(url: string)
    requires url == "?foo[]=bar&foo[]=baz"
    ensures Build(UrlString(url), None) == Ok(Url(None, None, None, [], FooList, false, true))
    ensures RenderUrl(Url(None, None, None, [], FooList, false, true)) == Ok("foo%5B%5D=bar&foo%5B%5D=baz")
  {
    var text := url[1..];
    assert url == "?" + text;
    FooListParse(text);
    QueryTextBuild(text, None);
    FooListBuild();
    QueryOnlyNoMark(FooList, false, true);
  }
}
