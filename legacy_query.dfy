/** The string-level URL and query composition of the version 1 client
    (`restclient.php`, `execute`): `http_build_query`, the rewrite that strips
    list indexes from a query, the separator before a GET query, the format
    suffix and the base URL prefix. */
module LegacyQuery {
  import opened PhpString
  import opened PhpArray
  import opened Errors
  import opened Parameters

  // ---------------------------------------------------------------------------
  // http_build_query

  /** The name a parameter gets: its key at the top level (an int as written,
      a string urlencoded), and `parent%5Bkey%5D` below it. */
  function QueryName(parent: Option<string>, k: Key): string {
    var own := match k case IntKey(n) => Decimal(n) case StrKey(s) => UrlEncode(s);
    match parent
    case None => own
    case Some(p) => p + "%5B" + own + "%5D"
  }

  /** The `name=value` pairs `http_build_query` writes for a value under
      `name`: none for a null, one for a scalar, and those of its entries for
      an array (none when it is empty). */
  function ValuePairs(name: string, v: Value): seq<string>
    decreases v, if v.Arr? then |v.entries| + 1 else 0
  {
    match v
    case Null => []
    case Str(s) => [name + "=" + UrlEncode(s)]
    case Int(n) => [name + "=" + Decimal(n)]
    case Arr(_) => EntryPairs(Some(name), v, 0)
  }

  /** The pairs of entries `i..` of the array `v`, in order. */
  function EntryPairs(parent: Option<string>, v: Value, i: nat): seq<string>
    requires v.Arr? && i <= |v.entries|
    decreases v, |v.entries| - i
  {
    if i == |v.entries| then []
    else ValuePairs(QueryName(parent, v.entries[i].0), v.entries[i].1) + EntryPairs(parent, v, i + 1)
  }

  /** `http_build_query($params)` with the default separator `&`. */
  function HttpBuildQuery(es: seq<(Key, Value)>): string {
    Implode("&", EntryPairs(None, Arr(es), 0))
  }

  /** A list of strings under a string key is written with indexes, exactly as
      the version 2 builder writes it with indexes. */
  lemma ListQuery(k: string, vs: seq<string>)
    ensures HttpBuildQuery([(StrKey(k), Arr(ListOf(StrValues(vs))))]) == Implode("&", ListPairs(k, vs, true))
  {
    var list := Arr(ListOf(StrValues(vs)));
    var top := Arr([(StrKey(k), list)]);
    ListQueryFrom(k, vs, 0);
    assert ListPairs(k, vs, true)[0..] == ListPairs(k, vs, true);
    assert EntryPairs(None, top, 1) == [];
    assert QueryName(None, StrKey(k)) == UrlEncode(k);
    assert ValuePairs(UrlEncode(k), list) == EntryPairs(Some(UrlEncode(k)), list, 0);
    assert EntryPairs(None, top, 0) == ValuePairs(UrlEncode(k), list) + [];
    assert EntryPairs(None, top, 0) == ListPairs(k, vs, true);
  }

  lemma {:induction false} ListQueryFrom(k: string, vs: seq<string>, i: nat)
    requires i <= |vs|
    ensures EntryPairs(Some(UrlEncode(k)), Arr(ListOf(StrValues(vs))), i) == ListPairs(k, vs, true)[i..]
    decreases |vs| - i
  {
    var pairs := ListPairs(k, vs, true);
    if i < |vs| {
      ListQueryFrom(k, vs, i + 1);
      ListEntry(k, vs, i);
      SuffixCons(pairs, i);
    } else {
      ListEnd(k, vs);
    }
  }

  lemma ListEnd(k: string, vs: seq<string>)
    ensures EntryPairs(Some(UrlEncode(k)), Arr(ListOf(StrValues(vs))), |vs|) == ListPairs(k, vs, true)[|vs|..]
  {
  }

  /** Entry `i` of the list gives exactly the `i`-th indexed pair. */
  lemma ListEntry(k: string, vs: seq<string>, i: nat)
    requires i < |vs|
    ensures EntryPairs(Some(UrlEncode(k)), Arr(ListOf(StrValues(vs))), i)
         == [ListPairs(k, vs, true)[i]] + EntryPairs(Some(UrlEncode(k)), Arr(ListOf(StrValues(vs))), i + 1)
  {
    var v := Arr(ListOf(StrValues(vs)));
    assert v.entries[i] == (IntKey(i), Str(vs[i]));
    IndexedName(UrlEncode(k), Decimal(i), UrlEncode(vs[i]));
    assert ValuePairs(QueryName(Some(UrlEncode(k)), IntKey(i)), Str(vs[i])) == [ListPairs(k, vs, true)[i]];
  }

  lemma IndexedName(p: string, d: string, x: string)
    ensures p + "%5B" + d + "%5D" + "=" + x == p + ("%5B" + d + "%5D") + "=" + x
  {
  }

  // ---------------------------------------------------------------------------
  // preg_replace("/%5B[0-9]+%5D=/simU", "%5B%5D=", ...)

  predicate OpenAt(s: string, i: nat) {
    i + 3 <= |s| && s[i] == '%' && s[i + 1] == '5' && (s[i + 2] == 'B' || s[i + 2] == 'b')
  }

  predicate CloseAt(s: string, i: nat) {
    i + 4 <= |s| && s[i] == '%' && s[i + 1] == '5' && (s[i + 2] == 'D' || s[i + 2] == 'd') && s[i + 3] == '='
  }

  /** The number of digits from position `i` on. */
  function DigitRun(s: string, i: nat): (n: nat)
    requires i <= |s|
    ensures i + n <= |s| && (forall j :: i <= j < i + n ==> IsDigit(s[j]))
    ensures i + n == |s| || !IsDigit(s[i + n])
    decreases |s| - i
  {
    if i < |s| && IsDigit(s[i]) then 1 + DigitRun(s, i + 1) else 0
  }

  /** The length of a match of `%5B[0-9]+%5D=` (letters in either case) at the
      start of `s`, 0 when there is none. The lazy `+` ends where the digits
      do, since only a `%` may follow them. */
  function MatchLen(s: string): (n: nat)
    ensures n <= |s|
    ensures n > 0 ==> n >= 8 && s[n - 1] == '='
  {
    if OpenAt(s, 0) then
      var d := DigitRun(s, 3);
      if d > 0 && CloseAt(s, 3 + d) then 7 + d else 0
    else 0
  }

  /** The rewrite, left to right, each match replaced and scanning resumed
      after it. */
  function Unindex(s: string): string
    decreases |s|
  {
    if s == [] then []
    else
      var n := MatchLen(s);
      if n > 0 then "%5B%5D=" + Unindex(s[n..]) else [s[0]] + Unindex(s[1..])
  }

  /** Text without `=` holds no match and is left as it is. */
  lemma {:induction false} UnindexNoEquals(s: string)
    requires '=' !in s
    ensures Unindex(s) == s
    decreases |s|
  {
    if s != [] {
      assert MatchLen(s) == 0;
      UnindexNoEquals(s[1..]);
    }
  }

  /** Text without `%` starts no match: it is copied, and the rewrite goes on
      after it. */
  lemma {:induction false} UnindexSkip(k: string, rest: string)
    requires '%' !in k
    ensures Unindex(k + rest) == k + Unindex(rest)
    decreases |k|
  {
    if k != [] {
      var s := k + rest;
      assert s[0] == k[0] && !OpenAt(s, 0);
      assert s[1..] == k[1..] + rest;
      UnindexSkip(k[1..], rest);
    } else {
      assert k + rest == rest;
    }
  }

  /** A match never runs over an `&`, so whatever follows one plays no part. */
  lemma MatchBeforeAmp(x: string, b: string)
    ensures MatchLen(x + "&" + b) == MatchLen(x)
  {
    var s := x + "&" + b;
    assert s[|x|] == '&';
    assert forall j :: 0 <= j < |x| ==> s[j] == x[j];
    if |x| >= 3 {
      assert OpenAt(s, 0) == OpenAt(x, 0);
      if OpenAt(x, 0) {
        DigitRunPrefix(x, "&" + b, 3);
        var d := DigitRun(x, 3);
        assert CloseAt(s, 3 + d) == CloseAt(x, 3 + d);
      }
    } else {
      assert !OpenAt(s, 0) && !OpenAt(x, 0);
    }
  }

  lemma {:induction false} DigitRunPrefix(x: string, t: string, i: nat)
    requires i <= |x| && t != [] && !IsDigit(t[0])
    ensures DigitRun(x + t, i) == DigitRun(x, i)
    decreases |x| - i
  {
    var s := x + t;
    if i < |x| {
      assert s[i] == x[i];
      if IsDigit(x[i]) {
        DigitRunPrefix(x, t, i + 1);
      }
    } else {
      assert s[i] == t[0];
    }
  }

  /** The rewrite works pair by pair across the `&` separators. */
  lemma {:induction false} UnindexSplit(x: string, b: string)
    ensures Unindex(x + "&" + b) == Unindex(x) + "&" + Unindex(b)
    decreases |x|
  {
    var s := x + "&" + b;
    if x == [] {
      assert s == "&" + b && s[0] == '&' && s[1..] == b;
    } else {
      MatchBeforeAmp(x, b);
      var n := MatchLen(x);
      var m := if n > 0 then n else 1;
      var head := if n > 0 then "%5B%5D=" else [x[0]];
      assert s[0] == x[0];
      assert s[m..] == x[m..] + "&" + b;
      assert Unindex(s) == head + Unindex(s[m..]);
      assert Unindex(x) == head + Unindex(x[m..]);
      UnindexSplit(x[m..], b);
      AmpAssoc(head, Unindex(x[m..]), Unindex(b));
    }
  }

  lemma AmpAssoc(h: string, x: string, b: string)
    ensures h + (x + "&" + b) == h + x + "&" + b
  {
  }

  /** The rewrite of a joined query is the join of the rewritten pairs. */
  lemma {:induction false} UnindexJoin(pairs: seq<string>, out: seq<string>)
    requires |out| == |pairs| && forall i :: 0 <= i < |pairs| ==> out[i] == Unindex(pairs[i])
    ensures Unindex(Implode("&", pairs)) == Implode("&", out)
    decreases |pairs|
  {
    if |pairs| > 1 {
      UnindexJoin(pairs[1..], out[1..]);
      UnindexSplit(pairs[0], Implode("&", pairs[1..]));
    } else if pairs == [] {
      assert Implode("&", pairs) == [];
    }
  }

  /** One indexed pair: the digits between the brackets go, the rest stays. */
  lemma UnindexPair(k: string, d: string, w: string)
    requires '%' !in k && d != "" && AllDigits(d) && '=' !in w
    ensures Unindex(k + "%5B" + d + "%5D=" + w) == k + "%5B%5D=" + w
  {
    var t := "%5B" + d + "%5D=" + w;
    PairAssoc(k, d, w);
    UnindexSkip(k, t);
    IndexedMatch(d, w);
    UnindexNoEquals(w);
    assert Unindex(t) == "%5B%5D=" + Unindex(w);
  }

  lemma PairAssoc(k: string, d: string, w: string)
    ensures k + "%5B" + d + "%5D=" + w == k + ("%5B" + d + "%5D=" + w)
    ensures k + "%5B%5D=" + w == k + ("%5B%5D=" + w)
  {
  }

  /** An index in brackets is one whole match, followed by what comes after the `=`. */
  lemma IndexedMatch(d: string, w: string)
    requires d != "" && AllDigits(d)
    ensures MatchLen("%5B" + d + "%5D=" + w) == 7 + |d|
    ensures ("%5B" + d + "%5D=" + w)[7 + |d|..] == w
  {
    var t := "%5B" + d + "%5D=" + w;
    assert t[3 + |d|] == '%' && !IsDigit(t[3 + |d|]);
    assert forall j :: 3 <= j < 3 + |d| ==> t[j] == d[j - 3];
    DigitRunAll(t, 3, |d|);
    assert CloseAt(t, 3 + |d|);
    assert t[7 + |d|..] == w;
  }

  lemma {:induction false} DigitRunAll(s: string, i: nat, n: nat)
    requires i + n < |s| && !IsDigit(s[i + n]) && forall j :: i <= j < i + n ==> IsDigit(s[j])
    ensures DigitRun(s, i) == n
    decreases n
  {
    if n > 0 {
      DigitRunAll(s, i + 1, n - 1);
    }
  }

  /** Non-indexed queries: the indexes http_build_query gives a list of strings
      under a plain key are removed, which leaves exactly the pairs the version
      2 builder writes without indexes. */
  lemma UnindexList(k: string, vs: seq<string>)
    requires Unreserved(k)
    ensures Unindex(Implode("&", ListPairs(k, vs, true))) == Implode("&", ListPairs(k, vs, false))
  {
    UrlEncodeUnreserved(k);
    UnreservedText(k);
    assert '%' !in k by {
      forall j | 0 <= j < |k| ensures k[j] != '%' {
        assert IsUnreservedChar(k[j]);
      }
    }
    var p, q := ListPairs(k, vs, true), ListPairs(k, vs, false);
    forall i | 0 <= i < |vs| ensures q[i] == Unindex(p[i]) {
      var w := UrlEncode(vs[i]);
      NoEqualsEncoded(vs[i]);
      var d := Decimal(i);
      assert d == NatDigits(i);
      SuffixText(k, d, w);
      UnindexPair(k, d, w);
    }
    UnindexJoin(p, q);
  }

  /** The two ways the list pair text is grouped are the same text. */
  lemma SuffixText(k: string, d: string, w: string)
    ensures k + ("%5B" + d + "%5D") + "=" + w == k + "%5B" + d + "%5D=" + w
    ensures k + "%5B%5D" + "=" + w == k + "%5B%5D=" + w
  {
  }

  lemma NoEqualsEncoded(s: string)
    ensures '=' !in UrlEncode(s)
  {
    UrlEncodeChars(s);
    forall j | 0 <= j < |UrlEncode(s)| ensures UrlEncode(s)[j] != '=' {
      assert IsEncodedChar(UrlEncode(s)[j]);
    }
  }

  /** The two clients agree on a list under a plain key: stripping the indexes
      from http_build_query's output gives what the version 2 builder writes
      without indexes. */
  lemma ClientsAgreeOnLists(k: string, vs: seq<string>)
    requires Unreserved(k)
    ensures BuildPair(StrKey(k), Arr(ListOf(StrValues(vs))), false, true) ==
      Ok(Unindex(HttpBuildQuery([(StrKey(k), Arr(ListOf(StrValues(vs))))])))
  {
    ListQuery(k, vs);
    UnindexList(k, vs);
    ListPairOk(k, vs, false);
  }

  // ---------------------------------------------------------------------------
  // The URL

  /** `$url .= '.' . $format` when the format option is set. */
  function WithFormat(url: string, format: Option<string>): string {
    if format.Some? && Truthy(format.value) then url + "." + format.value else url
  }

  /** `strpos($url, '?')`: the position of the first `?`, if any. */
  function FirstIndex(s: string, c: char): (r: Option<nat>)
    ensures r.None? <==> c !in s
    ensures r.Some? ==> r.value < |s| && s[r.value] == c && c !in s[..r.value]
  {
    if s == [] then None
    else if s[0] == c then Some(0)
    else match FirstIndex(s[1..], c)
      case None => None
      case Some(i) => assert s[..i + 1] == [s[0]] + s[1..][..i]; Some(i + 1)
  }

  /** The separator before a GET query as written: `&` when `strpos` finds a
      `?`, but its position 0 is falsy, so a URL that starts with `?` gets a
      second `?`. */
  function SeparatorAsWritten(url: string): string {
    match FirstIndex(url, '?')
    case Some(i) => if i > 0 then "&" else "?"
    case None => "?"
  }

  /** The separator as evidently intended: `&` when the URL already holds a
      query, `?` otherwise. */
  function Separator(url: string): string {
    if '?' in url then "&" else "?"
  }

  /** The two agree except on a URL that starts with `?`. */
  lemma SeparatorsAgree(url: string)
    ensures SeparatorAsWritten(url) == Separator(url) <==> url == "" || url[0] != '?'
  {
  }

  /** As written, a relative URL that is only a query gets a second `?`:
      `?x=1` with the query `y=2` becomes `?x=1?y=2`. */
  lemma QueryOnlyUrl(rest: string, q: string)
    ensures var url := "?" + rest;
      SeparatorAsWritten(url) == "?" && CountChar(url + SeparatorAsWritten(url) + q, '?') >= 2
  {
    var url := "?" + rest;
    assert FirstIndex(url, '?') == Some(0);
    CountCharConcat(url, "?", '?');
    CountCharConcat(url + "?", q, '?');
    assert url[0] == '?';
    assert CountChar(url, '?') >= 1;
  }

  lemma QueryOnlyExample(url: string, q: string)
    requires url == "?x=1" && q == "y=2"
    ensures AppendQueryAsWritten(url, q) == "?x=1?y=2"
    ensures RequestUrl(None, None, url, "GET", q) == "?x=1?y=2"
  {
    assert FirstIndex(url, '?') == Some(0);
  }

  /** `$url . separator . $query`, as written. */
  function AppendQueryAsWritten(url: string, q: string): string {
    url + SeparatorAsWritten(url) + q
  }

  /** `$url . separator . $query`, with the intended separator. */
  function AppendQuery(url: string, q: string): string {
    url + Separator(url) + q
  }

  /** Appending as written gives the intended URL exactly when the URL does not
      start with `?`. */
  lemma AppendQueriesAgree(url: string, q: string)
    ensures AppendQueryAsWritten(url, q) == AppendQuery(url, q) <==> url == "" || url[0] != '?'
  {
    SeparatorsAgree(url);
    var a, b := AppendQueryAsWritten(url, q), AppendQuery(url, q);
    if SeparatorAsWritten(url) != Separator(url) {
      assert a[|url|] == SeparatorAsWritten(url)[0] && b[|url|] == Separator(url)[0];
    }
  }

  /** Appending a query without `?` never adds a second `?`: the result holds
      as many as the URL did, or exactly one. */
  lemma AppendQueryOneMark(url: string, q: string)
    requires '?' !in q
    ensures CountChar(AppendQuery(url, q), '?') == if '?' in url then CountChar(url, '?') else 1
  {
    CountCharConcat(url, Separator(url), '?');
    CountCharConcat(url + Separator(url), q, '?');
    CountCharNone(q, '?');
    if '?' !in url {
      CountCharNone(url, '?');
    }
  }

  lemma {:induction false} CountCharConcat(a: string, b: string, c: char)
    ensures CountChar(a + b, c) == CountChar(a, c) + CountChar(b, c)
  {
    if a == [] {
      assert a + b == b;
    } else {
      assert (a + b)[0] == a[0] && (a + b)[1..] == a[1..] + b;
      CountCharConcat(a[1..], b, c);
    }
  }

  lemma {:induction false} CountCharNone(s: string, c: char)
    requires c !in s
    ensures CountChar(s, c) == 0
  {
    if s != [] {
      assert c !in s[1..];
      CountCharNone(s[1..], c);
    }
  }

  /** The base URL prefix: a truthy base is put in front, with a `/` between
      them only when the base does not end with one and the URL does not start
      with one (an empty URL counts as not starting with one). */
  function WithBase(base: Option<string>, url: string): string {
    if base.Some? && Truthy(base.value) then
      var b := base.value;
      if (url == "" || url[0] != '/') && b[|b| - 1] != '/' then b + "/" + url else b + url
    else url
  }

  /** With a base URL the result is the base, then the URL, and there is
      always a `/` where they meet: the slash is inserted exactly when neither
      side supplies it. */
  lemma BaseJoin(b: string, url: string)
    requires Truthy(b)
    ensures var r := WithBase(Some(b), url);
      (r == b + "/" + url <==> (url == "" || url[0] != '/') && b[|b| - 1] != '/')
      && (r == b + url <==> !((url == "" || url[0] != '/') && b[|b| - 1] != '/'))
      && (b[|b| - 1] == '/' || r[|b|] == '/')
  {
    var r := WithBase(Some(b), url);
    if (url == "" || url[0] != '/') && b[|b| - 1] != '/' {
      assert r == b + "/" + url;
      assert r[|b|] == '/';
      assert |r| != |b + url|;
    } else if b[|b| - 1] != '/' {
      assert r == b + url && r[|b|] == url[0];
      assert |r| != |b + "/" + url|;
    } else {
      assert |r| != |b + "/" + url|;
    }
  }

  /** Without a (truthy) base URL the URL is used as it is. */
  lemma NoBase(base: Option<string>, url: string)
    requires base.None? || !Truthy(base.value)
    ensures WithBase(base, url) == url
  {
  }

  /** The URL `execute` requests: the format suffix, then for a GET a truthy
      query after the separator as written, then the base URL in front. */
  function RequestUrl(base: Option<string>, format: Option<string>, url: string, verb: string, q: string): string {
    var u := WithFormat(url, format);
    WithBase(base, if verb == "GET" && Truthy(q) then AppendQueryAsWritten(u, q) else u)
  }

  /** The URL as meant: the same, with the intended separator. */
  function CorrectedRequestUrl(base: Option<string>, format: Option<string>, url: string, verb: string, q: string): string {
    var u := WithFormat(url, format);
    WithBase(base, if verb == "GET" && Truthy(q) then AppendQuery(u, q) else u)
  }

  /** The URL requested as written is the one meant unless a GET appends a
      query to a URL that, with its format suffix, starts with `?`. */
  lemma RequestUrlsAgree(base: Option<string>, format: Option<string>, url: string, verb: string, q: string)
    ensures var u := WithFormat(url, format);
      !(verb == "GET" && Truthy(q) && u != [] && u[0] == '?') ==>
        RequestUrl(base, format, url, verb, q) == CorrectedRequestUrl(base, format, url, verb, q)
  {
    AppendQueriesAgree(WithFormat(url, format), q);
  }
}
