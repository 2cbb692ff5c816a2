/** `Params`: a URL query string or form body, held as a PHP array of
    parameters, parsed from a query string and serialised back with nested
    arrays written as bracketed keys. */
module Parameters {
  import opened PhpString
  import opened PhpArray
  import opened Errors

  /** The TypeError urlencode raises, under strict types, for an int key. */
  const UrlencodeIntKey := "urlencode(): Argument #1 ($string) must be of type string, int given"
  const BracketOnString := "[] operator not supported for strings"
  const ScalarAsArray := "Cannot use a scalar value as an array"

  // ---------------------------------------------------------------------------
  // Serialisation (`_build_query`, `_build_pair`)

  /** A key as it is written before `=`: urlencoded when keys are encoded. */
  function EncodedKey(k: Key, encodeKeys: bool): Result<string> {
    if !encodeKeys then Ok(KeyString(k))
    else match k
      case StrKey(s) => Ok(UrlEncode(s))
      case IntKey(_) => Fail(TypeError(UrlencodeIntKey))
  }

  /** A scalar as it is written after `=`: strings urlencoded, ints in decimal,
      null as nothing. */
  function ValueText(v: Value): string
    requires !v.Arr?
  {
    match v
    case Str(s) => UrlEncode(s)
    case Int(n) => Decimal(n)
    case Null => ""
  }

  /** The key under which the element with key `i` of the array held at `key`
      is written: `key[i]` with indexes, `key[]` without. */
  function ChildKey(key: Key, i: Key, indexes: bool): Key {
    StrKey(KeyString(key) + (if indexes then "[" + KeyString(i) + "]" else "[]"))
  }

  /** `_build_pair(key, v)`: `key=value` for a scalar, the `&`-joined pairs of
      its elements under derived keys for an array. */
  function BuildPair(key: Key, v: Value, indexes: bool, encodeKeys: bool): Result<string>
    decreases v, if v.Arr? then |v.entries| + 1 else 0
  {
    match v
    case Arr(es) =>
      (match BuildPairs(Some(key), v, 0, indexes, encodeKeys)
       case Ok(pairs) => Ok(Implode("&", pairs))
       case Fail(e) => Fail(e))
    case _ =>
      match EncodedKey(key, encodeKeys)
      case Ok(k) => Ok(k + "=" + ValueText(v))
      case Fail(e) => Fail(e)
  }

  /** The pairs of entries `i..` of the array `v`, in order: under their own
      keys at the top level (`parent == None`), under keys derived from
      `parent` below it. The first failure is the one raised. */
  function BuildPairs(parent: Option<Key>, v: Value, i: nat, indexes: bool, encodeKeys: bool): Result<seq<string>>
    requires v.Arr? && i <= |v.entries|
    decreases v, |v.entries| - i
  {
    if i == |v.entries| then Ok([])
    else
      var e := v.entries[i];
      var key := match parent case None => e.0 case Some(p) => ChildKey(p, e.0, indexes);
      match BuildPair(key, e.1, indexes, encodeKeys)
      case Fail(err) => Fail(err)
      case Ok(pair) =>
        match BuildPairs(parent, v, i + 1, indexes, encodeKeys)
        case Fail(err) => Fail(err)
        case Ok(rest) => Ok([pair] + rest)
  }

  /** `(string) $params`. */
  function BuildQuery(es: seq<(Key, Value)>, indexes: bool, encodeKeys: bool): Result<string> {
    match BuildPairs(None, Arr(es), 0, indexes, encodeKeys)
    case Ok(pairs) => Ok(Implode("&", pairs))
    case Fail(e) => Fail(e)
  }

  /** The arrays that serialise: with encoded keys, an int key may only hold an
      array (its elements get string keys); urlencode refuses the int itself. */
  predicate Serializable(es: seq<(Key, Value)>, encodeKeys: bool) {
    !encodeKeys || forall i :: 0 <= i < |es| && es[i].0.IntKey? ==> es[i].1.Arr?
  }

  /** Serialising fails exactly when an int key holds a scalar and keys are encoded. */
  lemma BuildQueryOk(es: seq<(Key, Value)>, indexes: bool, encodeKeys: bool)
    ensures BuildQuery(es, indexes, encodeKeys).Ok? <==> Serializable(es, encodeKeys)
  {
    TopPairsOk(es, 0, indexes, encodeKeys);
  }

  lemma {:induction false} TopPairsOk(es: seq<(Key, Value)>, i: nat, indexes: bool, encodeKeys: bool)
    requires i <= |es|
    ensures BuildPairs(None, Arr(es), i, indexes, encodeKeys).Ok? <==>
      (!encodeKeys || forall j :: i <= j < |es| && es[j].0.IntKey? ==> es[j].1.Arr?)
    decreases |es| - i
  {
    if i < |es| {
      TopPairsOk(es, i + 1, indexes, encodeKeys);
      PairsStepOk(None, Arr(es), i, indexes, encodeKeys);
      if es[i].0.StrKey? || es[i].1.Arr? || !encodeKeys {
        PairOk(es[i].0, es[i].1, indexes, encodeKeys);
      } else {
        ScalarIntKeyFails(es[i].0, es[i].1, indexes);
      }
    }
  }

  /** The pairs from entry `i` build exactly when entry `i` and the pairs
      after it do. */
  lemma PairsStepOk(parent: Option<Key>, v: Value, i: nat, indexes: bool, encodeKeys: bool)
    requires v.Arr? && i < |v.entries|
    ensures var e := v.entries[i];
      var key := match parent case None => e.0 case Some(p) => ChildKey(p, e.0, indexes);
      (BuildPairs(parent, v, i, indexes, encodeKeys).Ok?
       <==> BuildPair(key, e.1, indexes, encodeKeys).Ok? && BuildPairs(parent, v, i + 1, indexes, encodeKeys).Ok?)
  {
  }

  /** An int key holding a scalar does not serialise when keys are encoded. */
  lemma ScalarIntKeyFails(key: Key, v: Value, indexes: bool)
    requires key.IntKey? && !v.Arr?
    ensures BuildPair(key, v, indexes, true).Fail?
  {
  }

  /** A pair under a string key, or holding an array, always serialises. */
  lemma {:induction false} PairOk(key: Key, v: Value, indexes: bool, encodeKeys: bool)
    requires key.StrKey? || v.Arr? || !encodeKeys
    ensures BuildPair(key, v, indexes, encodeKeys).Ok?
    decreases v, if v.Arr? then |v.entries| + 1 else 0
  {
    if v.Arr? {
      NestedPairsOk(key, v, 0, indexes, encodeKeys);
    }
  }

  lemma {:induction false} NestedPairsOk(parent: Key, v: Value, i: nat, indexes: bool, encodeKeys: bool)
    requires v.Arr? && i <= |v.entries|
    ensures BuildPairs(Some(parent), v, i, indexes, encodeKeys).Ok?
    decreases v, |v.entries| - i
  {
    if i < |v.entries| {
      PairOk(ChildKey(parent, v.entries[i].0, indexes), v.entries[i].1, indexes, encodeKeys);
      NestedPairsOk(parent, v, i + 1, indexes, encodeKeys);
    }
  }

  predicate Unreserved(s: string) {
    forall i :: 0 <= i < |s| ==> IsUnreservedChar(s[i])
  }

  /** Unreserved text holds none of the characters that delimit a query. */
  lemma UnreservedText(s: string)
    requires Unreserved(s)
    ensures '=' !in s && ']' !in s && '&' !in s && '\n' !in s && '[' !in s
  {
    forall j | 0 <= j < |s| ensures s[j] != '=' && s[j] != ']' && s[j] != '&' && s[j] != '\n' && s[j] != '[' {
      assert IsUnreservedChar(s[j]);
    }
  }

  /** The suffix a list element's key gets: `[i]` or `[]`, urlencoded. */
  function ListSuffix(i: nat, indexes: bool): string {
    if indexes then "%5B" + Decimal(i) + "%5D" else "%5B%5D"
  }

  /** The pairs a list of strings under key `k` produces: one per element, in order. */
  function ListPairs(k: string, vs: seq<string>, indexes: bool): (pairs: seq<string>)
    ensures |pairs| == |vs|
  {
    seq(|vs|, i requires 0 <= i < |vs| => UrlEncode(k) + ListSuffix(i, indexes) + "=" + UrlEncode(vs[i]))
  }

  function StrValues(vs: seq<string>): (r: seq<Value>)
    ensures |r| == |vs| && forall i :: 0 <= i < |vs| ==> r[i] == Str(vs[i])
  {
    seq(|vs|, i requires 0 <= i < |vs| => Str(vs[i]))
  }

  /** A list of strings under a string key is written as one `key[]=value`
      (or `key[i]=value`) pair per element, brackets encoded; an empty element
      still gives its pair. */
  lemma ListPairOk(k: string, vs: seq<string>, indexes: bool)
    ensures BuildPair(StrKey(k), Arr(ListOf(StrValues(vs))), indexes, true) ==
      Ok(Implode("&", ListPairs(k, vs, indexes)))
  {
    ListPairsFrom(k, vs, 0, indexes);
    assert ListPairs(k, vs, indexes)[0..] == ListPairs(k, vs, indexes);
  }

  lemma {:induction false} ListPairsFrom(k: string, vs: seq<string>, i: nat, indexes: bool)
    requires i <= |vs|
    ensures BuildPairs(Some(StrKey(k)), Arr(ListOf(StrValues(vs))), i, indexes, true) ==
      Ok(ListPairs(k, vs, indexes)[i..])
    decreases |vs| - i
  {
    if i < |vs| {
      ListPairsFrom(k, vs, i + 1, indexes);
      var v := Arr(ListOf(StrValues(vs)));
      var pairs := ListPairs(k, vs, indexes);
      ListPairAt(k, vs, i, indexes);
      SuffixCons(pairs, i);
      assert BuildPairs(Some(StrKey(k)), v, i, indexes, true) == Ok([pairs[i]] + pairs[i + 1..]);
    } else {
      assert ListPairs(k, vs, indexes)[i..] == [];
    }
  }

  /** Element `i` of a list of strings is written as the `i`-th pair. */
  lemma ListPairAt(k: string, vs: seq<string>, i: nat, indexes: bool)
    requires i < |vs|
    ensures var v := Arr(ListOf(StrValues(vs)));
      v.entries[i] == (IntKey(i), Str(vs[i]))
      && BuildPair(ChildKey(StrKey(k), IntKey(i), indexes), Str(vs[i]), indexes, true) == Ok(ListPairs(k, vs, indexes)[i])
  {
    EncodedListKey(k, i, indexes);
    var key := ChildKey(StrKey(k), IntKey(i), indexes);
    assert EncodedKey(key, true) == Ok(UrlEncode(KeyString(key)));
  }

  /** The urlencoded key of element `i` of a list under `k`. */
  lemma EncodedListKey(k: string, i: nat, indexes: bool)
    ensures UrlEncode(KeyString(ChildKey(StrKey(k), IntKey(i), indexes))) == UrlEncode(k) + ListSuffix(i, indexes)
  {
    var suffix := if indexes then "[" + Decimal(i) + "]" else "[]";
    assert KeyString(ChildKey(StrKey(k), IntKey(i), indexes)) == k + suffix;
    UrlEncodeAppend(k, suffix);
    EncodedBrackets();
    if indexes {
      UrlEncodeAppend("[" + Decimal(i), "]");
      UrlEncodeAppend("[", Decimal(i));
      DecimalUnreserved(i);
      UrlEncodeUnreserved(Decimal(i));
    }
  }

  // ---------------------------------------------------------------------------
  // Nested arrays without INDEXES

  /** The pieces `_build_pair` writes, without `INDEXES` and with keys encoded,
      for the value `v` under the encoded key `prefix`: a scalar is one
      `prefix=value` piece; an array adds `%5B%5D` to the prefix at each level
      whatever its own keys are, and puts its elements' pieces side by side;
      an empty array is one empty piece. */
  function FlatPairs(prefix: string, v: Value): (pieces: seq<string>)
    ensures pieces != []
    decreases v, 1
  {
    match v
    case Arr(es) => if es == [] then [""] else FlatEntries(prefix + "%5B%5D", v, 0)
    case _ => [prefix + "=" + ValueText(v)]
  }

  function FlatEntries(prefix: string, v: Value, i: nat): (pieces: seq<string>)
    requires v.Arr? && i <= |v.entries|
    ensures pieces == [] <==> i == |v.entries|
    decreases v, 0, |v.entries| - i
  {
    if i == |v.entries| then [] else FlatPairs(prefix, v.entries[i].1) + FlatEntries(prefix, v, i + 1)
  }

  /** Without `INDEXES`, a value at any depth under a string key is written as
      its flat pieces joined by `&`: every nested level becomes `%5B%5D`, and
      the keys below the top are dropped. */
  lemma {:induction false} NestedPairOk(k: string, v: Value)
    ensures BuildPair(StrKey(k), v, false, true) == Ok(Implode("&", FlatPairs(UrlEncode(k), v)))
    decreases v, 1
  {
    if v.Arr? && v.entries != [] {
      NestedPairsFrom(k, v, 0);
    }
  }

  lemma {:induction false} NestedPairsFrom(k: string, v: Value, i: nat)
    requires v.Arr? && i <= |v.entries|
    ensures BuildPairs(Some(StrKey(k)), v, i, false, true).Ok?
    ensures var pairs := BuildPairs(Some(StrKey(k)), v, i, false, true).value;
      (pairs == [] <==> i == |v.entries|)
      && Implode("&", pairs) == Implode("&", FlatEntries(UrlEncode(k) + "%5B%5D", v, i))
    decreases v, 0, |v.entries| - i
  {
    if i < |v.entries| {
      var c := v.entries[i].1;
      var prefix := UrlEncode(k) + "%5B%5D";
      assert ChildKey(StrKey(k), v.entries[i].0, false) == StrKey(k + "[]");
      UrlEncodeAppend(k, "[]");
      EncodedBrackets();
      NestedPairOk(k + "[]", c);
      NestedPairsFrom(k, v, i + 1);
      var pair := BuildPair(StrKey(k + "[]"), c, false, true).value;
      var rest := BuildPairs(Some(StrKey(k)), v, i + 1, false, true).value;
      assert BuildPairs(Some(StrKey(k)), v, i, false, true).value == [pair] + rest;
      ImplodeCons("&", pair, rest);
      ImplodeAppend("&", FlatPairs(prefix, c), FlatEntries(prefix, v, i + 1));
    }
  }

  lemma ImplodeCons(sep: string, x: string, rest: seq<string>)
    ensures Implode(sep, [x] + rest) == if rest == [] then x else x + sep + Implode(sep, rest)
  {
    assert ([x] + rest)[1..] == rest;
  }

  /** Joining two non-empty runs of pieces is joining each and the two results. */
  lemma {:induction false} ImplodeAppend(sep: string, a: seq<string>, b: seq<string>)
    requires a != []
    ensures Implode(sep, a + b) == if b == [] then Implode(sep, a) else Implode(sep, a) + sep + Implode(sep, b)
    decreases |a|
  {
    if b == [] {
      assert a + b == a;
    } else if |a| == 1 {
      ImplodeCons(sep, a[0], b);
      assert a + b == [a[0]] + b;
    } else {
      ImplodeAppend(sep, a[1..], b);
      assert (a + b)[1..] == a[1..] + b;
    }
  }

  /** The nested example: `['foo' => ['bar' => ['baz' => 'qux']]]` prints as
      `foo%5B%5D%5B%5D=qux`. */
  lemma NestedExample(foo: string, bar: string, baz: string, qux: string)
    requires foo == "foo" && bar == "bar" && baz == "baz" && qux == "qux"
    ensures BuildQuery([(StrKey(foo), Arr([(StrKey(bar), Arr([(StrKey(baz), Str(qux))]))]))], false, true)
      == Ok("foo%5B%5D%5B%5D=qux")
  {
    var inner := Arr([(StrKey(baz), Str(qux))]);
    var v := Arr([(StrKey(bar), inner)]);
    var es := [(StrKey(foo), v)];
    NestedPairOk(foo, v);
    UrlEncodeUnreserved(foo);
    UrlEncodeUnreserved(qux);
    var p1 := UrlEncode(foo) + "%5B%5D";
    var p2 := p1 + "%5B%5D";
    var pair := p2 + "=" + qux;
    assert FlatPairs(p2, Str(qux)) == [pair];
    assert FlatEntries(p2, inner, 0) == [pair] + FlatEntries(p2, inner, 1);
    assert FlatPairs(p1, inner) == [pair];
    assert FlatEntries(p1, v, 0) == [pair] + FlatEntries(p1, v, 1);
    assert FlatPairs(UrlEncode(foo), v) == [pair];
    NestedExampleText(p2, foo, qux);
    assert BuildPairs(None, Arr(es), 0, false, true) == Ok([pair]) by {
      assert BuildPairs(None, Arr(es), 1, false, true) == Ok([]);
    }
  }

  lemma NestedExampleText(p2: string, foo: string, qux: string)
    requires foo == "foo" && qux == "qux" && p2 == foo + "%5B%5D" + "%5B%5D"
    ensures p2 + "=" + qux == "foo%5B%5D%5B%5D=qux"
  {
  }

  lemma EncodedBrackets()
    ensures UrlEncode("[") == "%5B" && UrlEncode("]") == "%5D" && UrlEncode("[]") == "%5B%5D"
  {
    EncodeAscii('[');
    EncodeAscii(']');
    assert HexDigit(5) == '5' && HexDigit(11) == 'B' && HexDigit(13) == 'D';
    UrlEncodeAppend("[", "]");
    assert "[" + "]" == "[]";
  }

  /** urlencode of one reserved ASCII character other than space: `%XX`. */
  lemma EncodeAscii(c: char)
    requires c as int < 0x80 && !IsUnreservedChar(c) && c != ' '
    ensures UrlEncode([c]) == ['%', HexDigit(c as int / 16), HexDigit(c as int % 16)]
  {
    assert [c][1..] == [];
    assert Utf8(c) == [c as int];
    assert EncodeBytes([c as int]) == EncodeByte(c as int) + EncodeBytes([]);
  }

  lemma DecimalUnreserved(n: nat)
    ensures Unreserved(Decimal(n))
  {
    var d := Decimal(n);
    assert forall j :: 0 <= j < |d| ==> IsDigit(d[j]);
  }

  // ---------------------------------------------------------------------------
  // Parsing (`_parse_query`)

  /** The maximal run of digits at the end of `s`. */
  function TrailingDigits(s: string): (n: nat)
    ensures n <= |s|
  {
    if s == [] || !IsDigit(s[|s| - 1]) then 0 else TrailingDigits(s[..|s| - 1]) + 1
  }

  /** What follows the last newline of `s` (all of `s` when it has none). */
  function AfterLastNewline(s: string): (r: string)
    ensures |r| <= |s|
  {
    if s == [] || s[|s| - 1] == '\n' then []
    else AfterLastNewline(s[..|s| - 1]) + [s[|s| - 1]]
  }

  /** `preg_match('/(.+)\[(\d*)\]$/', key, m)`: the name and the index of a
      bracketed key, `(m[1], m[2])`. `$` also matches before a final newline,
      which is therefore ignored. */
  function BracketKey(k: string): Option<(string, string)> {
    if |k| > 0 && k[|k| - 1] == '\n' then BracketAtEnd(k[..|k| - 1]) else BracketAtEnd(k)
  }

  /** The match when it has to end at the end of `s`: `[digits]` closes `s`,
      and the name is the non-empty text before the bracket on its line (`.`
      matches anything but a newline). */
  function BracketAtEnd(s: string): Option<(string, string)> {
    if s == [] || s[|s| - 1] != ']' then None
    else
      var head := s[..|s| - 1];
      var d := TrailingDigits(head);
      if d == |head| || head[|head| - 1 - d] != '[' then None
      else
        var name := AfterLastNewline(head[..|head| - 1 - d]);
        if name == "" then None else Some((name, head[|head| - d..]))
  }

  /** A name (no newline) followed by `[digits]`, on the last line of the key
      or before a final newline, matches with that name and index. */
  lemma BracketKeyMatches(pre: string, name: string, index: string, tail: string)
    requires pre == "" || pre[|pre| - 1] == '\n'
    requires name != "" && '\n' !in name && AllDigits(index)
    requires tail == "" || tail == "\n"
    ensures BracketKey(pre + name + "[" + index + "]" + tail) == Some((name, index))
  {
    var s := pre + name + "[" + index + "]";
    assert pre + name + "[" + index + "]" + tail == s + tail;
    if tail == "\n" {
      assert (s + tail)[..|s + tail| - 1] == s;
    } else {
      assert s + tail == s;
    }
    BracketAtEndMatches(pre, name, index);
  }

  lemma BracketAtEndMatches(pre: string, name: string, index: string)
    requires pre == "" || pre[|pre| - 1] == '\n'
    requires name != "" && '\n' !in name && AllDigits(index)
    ensures BracketAtEnd(pre + name + "[" + index + "]") == Some((name, index))
  {
    var line := pre + name;
    var head := line + "[" + index;
    var s := head + "]";
    assert s[|s| - 1] == ']';
    assert s[..|s| - 1] == head;
    TrailingDigitsOf(line + "[", index);
    IndexedParts(line, index);
    AfterLastNewlineOf(pre, name);
  }

  /** `line[index` splits back into its line, its bracket and its index. */
  lemma IndexedParts(line: string, index: string)
    ensures var head := line + "[" + index;
      head[|head| - 1 - |index|] == '[' && head[..|head| - 1 - |index|] == line
      && head[|head| - |index|..] == index
  {
    var head := line + "[" + index;
    assert head == line + ("[" + index);
  }

  lemma {:induction false} TrailingDigitsOf(pre: string, digits: string)
    requires AllDigits(digits) && (pre == [] || !IsDigit(pre[|pre| - 1]))
    ensures TrailingDigits(pre + digits) == |digits|
    decreases |digits|
  {
    var s := pre + digits;
    if digits == [] {
      assert s == pre;
    } else {
      assert s[..|s| - 1] == pre + digits[..|digits| - 1];
      TrailingDigitsOf(pre, digits[..|digits| - 1]);
    }
  }

  lemma {:induction false} AfterLastNewlineOf(pre: string, line: string)
    requires pre == "" || pre[|pre| - 1] == '\n'
    requires '\n' !in line
    ensures AfterLastNewline(pre + line) == line
    decreases |line|
  {
    var s := pre + line;
    if line == [] {
      assert s == pre;
    } else {
      assert s[..|s| - 1] == pre + line[..|line| - 1];
      assert s[|s| - 1] == line[|line| - 1];
      AfterLastNewlineOf(pre, line[..|line| - 1]);
      assert line[..|line| - 1] + [line[|line| - 1]] == line;
    }
  }

  /** A key that does not end in `]` (nor `]` and a newline) is not bracketed. */
  lemma BracketKeyNone(k: string)
    requires ']' !in k
    ensures BracketKey(k) == None
  {
  }

  /** `$params[$key] = $value`, `$params[$name][] = $value` or
      `$params[$name][$index] = $value` for one `key=value` pair; a pair
      without `=` has the value null. Values and keys are not urldecoded. */
  function Assign(params: seq<(Key, Value)>, pair: string): Result<seq<(Key, Value)>> {
    var split := SplitFirst('=', pair);
    AssignKey(params, split.0, PairValue(split.1))
  }

  function PairValue(rest: Option<string>): Value {
    if rest.Some? then Str(rest.value) else Null
  }

  function AssignKey(params: seq<(Key, Value)>, key: string, value: Value): Result<seq<(Key, Value)>> {
    match BracketKey(key)
    case None => Ok(Put(params, NormalizeKey(key), value))
    case Some(m) => AssignElement(params, NormalizeKey(m.0), m.1, value)
  }

  /** `$params[$k][] = $value` (empty index) or `$params[$k][$index] = $value`:
      a missing or null entry becomes an array; a string or an int cannot be
      indexed this way. */
  function AssignElement(params: seq<(Key, Value)>, k: Key, index: string, value: Value): Result<seq<(Key, Value)>> {
    var held: Option<Value> := Get(params, k);
    if held.Some? && held.value.Str? then
      if index == "" then Fail(EngineError(BracketOnString)) else Fail(Unmodelled("write to a string offset"))
    else if held.Some? && held.value.Int? then Fail(EngineError(ScalarAsArray))
    else
      var arr := HeldList(params, k);
      var updated := if index == "" then Push(arr, value) else Put(arr, NormalizeKey(index), value);
      Ok(Put(params, k, Arr(updated)))
  }

  /** The list an assignment `…[]` or `…[i]` adds to: the array held at `k`,
      or a new one. */
  function HeldList(params: seq<(Key, Value)>, k: Key): seq<(Key, Value)> {
    var held: Option<Value> := Get(params, k);
    if held.Some? && held.value.Arr? then held.value.entries else []
  }

  /** Assigning the pairs in order, stopping at the first error. */
  function AssignAll(params: seq<(Key, Value)>, pairs: seq<string>): Result<seq<(Key, Value)>>
    decreases |pairs|
  {
    if pairs == [] then Ok(params)
    else match Assign(params, pairs[0])
      case Fail(e) => Fail(e)
      case Ok(p) => AssignAll(p, pairs[1..])
  }

  /** `_parse_query(query)`: the `&`-separated pairs assigned into an empty array. */
  function ParseSpec(query: string): Result<seq<(Key, Value)>> {
    AssignAll([], Explode('&', query))
  }

  /** The `array_reduce` over the pairs, one assignment at a time. */
  method ParseQuery(query: string) returns (r: Result<seq<(Key, Value)>>)
    ensures r == ParseSpec(query)
  {
    var pairs := Explode('&', query);
    var params: seq<(Key, Value)> := [];
    var i := 0;
    while i < |pairs|
      invariant 0 <= i <= |pairs|
      invariant AssignAll([], pairs) == AssignAll(params, pairs[i..])
    {
      assert pairs[i..][1..] == pairs[i + 1..];
      var step := Assign(params, pairs[i]);
      if step.Fail? {
        return Fail(step.error);
      }
      params := step.value;
      i := i + 1;
    }
    return Ok(params);
  }

  /** A plain `key=value` pair sets the key, replacing an earlier value in place. */
  lemma AssignPlain(params: seq<(Key, Value)>, key: string, value: string)
    requires '=' !in key && ']' !in key
    ensures Assign(params, key + "=" + value) == Ok(Put(params, NormalizeKey(key), Str(value)))
  {
    SplitFirstAt('=', key, value);
  }

  /** `name[]=value` appends to the list held at `name`, creating it when the
      key is absent or null. */
  lemma AssignAppend(params: seq<(Key, Value)>, name: string, value: string)
    requires '=' !in name && '\n' !in name && name != ""
    requires Get(params, NormalizeKey(name)).None? || Get(params, NormalizeKey(name)) == Some(Null)
      || Get(params, NormalizeKey(name)).value.Arr?
    ensures Assign(params, name + "[]=" + value) ==
      Ok(Put(params, NormalizeKey(name), Arr(Push(HeldList(params, NormalizeKey(name)), Str(value)))))
  {
    AppendKeySplit(name, value);
  }

  /** `name[]=value` splits at its first `=` into the key `name[]`, which
      names `name` with an empty index. */
  lemma AppendKeySplit(name: string, value: string)
    requires '=' !in name && '\n' !in name && name != ""
    ensures SplitFirst('=', name + "[]=" + value) == (name + "[]", Some(value))
    ensures BracketKey(name + "[]") == Some((name, ""))
  {
    assert name + "[]=" + value == (name + "[]") + "=" + value;
    SplitFirstAt('=', name + "[]", value);
    EmptyIndexKey(name);
  }

  lemma EmptyIndexKey(name: string)
    requires name != "" && '\n' !in name
    ensures BracketKey(name + "[]") == Some((name, ""))
  {
    BracketKeyMatches("", name, "", "");
    assert "" + name + "[" + "" + "]" + "" == name + "[]";
  }

  /** `name[]=value` on a key that already holds a string is an error. */
  lemma AssignAppendToString(params: seq<(Key, Value)>, name: string, value: string)
    requires '=' !in name && '\n' !in name && name != ""
    requires Get(params, NormalizeKey(name)).Some? && Get(params, NormalizeKey(name)).value.Str?
    ensures Assign(params, name + "[]=" + value) == Fail(EngineError(BracketOnString))
  {
    AppendKeySplit(name, value);
  }

  /** Parsing always yields a PHP array: distinct, normalised keys. */
  lemma ParseDistinct(query: string)
    requires ParseSpec(query).Ok?
    ensures DistinctKeys(ParseSpec(query).value)
  {
    AssignAllDistinct([], Explode('&', query));
  }

  lemma {:induction false} AssignAllDistinct(params: seq<(Key, Value)>, pairs: seq<string>)
    requires DistinctKeys(params) && AssignAll(params, pairs).Ok?
    ensures DistinctKeys(AssignAll(params, pairs).value)
    decreases |pairs|
  {
    if pairs != [] {
      AssignDistinct(params, pairs[0]);
      AssignAllDistinct(Assign(params, pairs[0]).value, pairs[1..]);
    }
  }

  lemma AssignDistinct(params: seq<(Key, Value)>, pair: string)
    requires DistinctKeys(params) && Assign(params, pair).Ok?
    ensures DistinctKeys(Assign(params, pair).value)
  {
    var split := SplitFirst('=', pair);
    var value := PairValue(split.1);
    match BracketKey(split.0)
    case None =>
      PutDistinct(params, NormalizeKey(split.0), value);
    case Some(m) =>
      var k := NormalizeKey(m.0);
      var arr := HeldList(params, k);
      var updated := if m.1 == "" then Push(arr, value) else Put(arr, NormalizeKey(m.1), value);
      PutDistinct(params, k, Arr(updated));
  }

  /** The empty query is one pair with an empty key and no `=`: it parses to
      `['' => null]`, not to the empty array. */
  lemma ParseEmpty()
    ensures ParseSpec("") == Ok([(StrKey(""), Null)])
  {
    assert Explode('&', "") == [""];
    assert SplitFirst('=', "") == ("", None);
    assert BracketKey("") == None;
    assert NormalizeKey("") == StrKey("");
    var empty: seq<(Key, Value)> := [];
    assert !HasKey(empty, StrKey(""));
    assert Put(empty, StrKey(""), Null) == [(StrKey(""), Null)];
    assert AssignKey(empty, "", Null) == Ok([(StrKey(""), Null)]);
  }

  /** A later plain pair for a key replaces the earlier one. Keys are not
      urldecoded, so this covers the encoded brackets serialising writes:
      `foo%5B%5D=bar&foo%5B%5D=baz` parses to `['foo%5B%5D' => 'baz']`, not to
      a list. */
  lemma ParseOverwrite(key: string, v1: string, v2: string)
    requires '=' !in key && ']' !in key && '&' !in key && '&' !in v1 && '&' !in v2
    ensures ParseSpec(key + "=" + v1 + "&" + key + "=" + v2) == Ok([(NormalizeKey(key), Str(v2))])
  {
    var p1 := key + "=" + v1;
    var p2 := key + "=" + v2;
    assert key + "=" + v1 + "&" + key + "=" + v2 == p1 + "&" + p2;
    ExplodeTwo(p1, p2);
    OverwriteSteps(key, v1, v2);
  }

  lemma ExplodeTwo(p1: string, p2: string)
    requires '&' !in p1 && '&' !in p2
    ensures Explode('&', p1 + "&" + p2) == [p1, p2]
  {
    ExplodeSplit('&', p1, p2);
    ExplodeNoSep('&', p2);
  }

  lemma OverwriteSteps(key: string, v1: string, v2: string)
    requires '=' !in key && ']' !in key
    ensures AssignAll([], [key + "=" + v1, key + "=" + v2]) == Ok([(NormalizeKey(key), Str(v2))])
  {
    var empty: seq<(Key, Value)> := [];
    var a1 := [(NormalizeKey(key), Str(v1))];
    var a2 := [(NormalizeKey(key), Str(v2))];
    AssignPlain(empty, key, v1);
    assert Put(empty, NormalizeKey(key), Str(v1)) == a1;
    AssignPlain(a1, key, v2);
    assert Put(a1, NormalizeKey(key), Str(v2)) == a2;
    AssignAllSteps([empty, a1, a2], [key + "=" + v1, key + "=" + v2]);
  }

  /** The `name[]=value` pairs that append each value in turn. */
  function AppendPairs(name: string, vs: seq<string>): (pairs: seq<string>)
    ensures |pairs| == |vs|
  {
    seq(|vs|, i requires 0 <= i < |vs| => name + "[]=" + vs[i])
  }

  /** `name[]=v0&name[]=v1&...` parses to one list holding the values in order,
      under the keys 0, 1, ... */
  lemma ParseList(name: string, vs: seq<string>)
    requires name != "" && Unreserved(name) && forall i :: 0 <= i < |vs| ==> '&' !in vs[i]
    requires vs != []
    ensures ParseSpec(Implode("&", AppendPairs(name, vs))) ==
      Ok([(NormalizeKey(name), Arr(ListOf(StrValues(vs))))])
  {
    UnreservedText(name);
    var pairs := AppendPairs(name, vs);
    var k := NormalizeKey(name);
    AppendPairsExplode(name, vs);
    var states := seq(|vs| + 1, j requires 0 <= j <= |vs| =>
      if j == 0 then [] else [(k, Arr(ListOf(StrValues(vs[..j]))))]);
    forall j | 0 <= j < |pairs| ensures Assign(states[j], pairs[j]) == Ok(states[j + 1]) {
      if j == 0 {
        ParseListStart(name, vs);
      } else {
        ParseListStep(name, vs, j);
      }
    }
    AssignAllSteps(states, pairs);
    assert vs[..|vs|] == vs;
  }

  /** Assignments that lead from each state to the next lead from the first
      state to the last. */
  lemma AssignAllSteps(states: seq<seq<(Key, Value)>>, pairs: seq<string>)
    requires |states| == |pairs| + 1
    requires forall j :: 0 <= j < |pairs| ==> Assign(states[j], pairs[j]) == Ok(states[j + 1])
    ensures AssignAll(states[0], pairs) == Ok(states[|pairs|])
  {
    AssignAllFrom(states, pairs, 0);
    assert pairs[0..] == pairs;
  }

  /** The steps from `i` on take `states[i]` to the last state. */
  lemma {:induction false} AssignAllFrom(states: seq<seq<(Key, Value)>>, pairs: seq<string>, i: nat)
    requires |states| == |pairs| + 1 && i <= |pairs|
    requires forall j :: 0 <= j < |pairs| ==> Assign(states[j], pairs[j]) == Ok(states[j + 1])
    ensures AssignAll(states[i], pairs[i..]) == Ok(states[|pairs|])
    decreases |pairs| - i
  {
    if i < |pairs| {
      assert Assign(states[i], pairs[i]) == Ok(states[i + 1]);
      assert pairs[i..][0] == pairs[i] && pairs[i..][1..] == pairs[i + 1..];
      AssignAllFrom(states, pairs, i + 1);
    }
  }

  lemma AppendPairsExplode(name: string, vs: seq<string>)
    requires '&' !in name && forall i :: 0 <= i < |vs| ==> '&' !in vs[i]
    requires vs != []
    ensures Explode('&', Implode("&", AppendPairs(name, vs))) == AppendPairs(name, vs)
  {
    var pairs := AppendPairs(name, vs);
    forall i | 0 <= i < |pairs| ensures '&' !in pairs[i] {
      assert pairs[i] == name + "[]=" + vs[i];
    }
    ExplodeImplode('&', pairs);
  }

  /** The first `name[]=v0` starts the list. */
  lemma ParseListStart(name: string, vs: seq<string>)
    requires name != "" && '=' !in name && '\n' !in name
    requires vs != []
    ensures Assign([], AppendPairs(name, vs)[0]) == Ok([(NormalizeKey(name), Arr(ListOf(StrValues(vs[..1]))))])
  {
    var k := NormalizeKey(name);
    var empty: seq<(Key, Value)> := [];
    assert AppendPairs(name, vs)[0] == name + "[]=" + vs[0];
    AssignAppend(empty, name, vs[0]);
    NextIndexList(StrValues(vs[..0]));
    assert Push(HeldList(empty, k), Str(vs[0])) == ListOf(StrValues(vs[..1]));
    assert Put(empty, k, Arr(ListOf(StrValues(vs[..1])))) == [(k, Arr(ListOf(StrValues(vs[..1]))))];
  }

  /** A further `name[]=vi` extends the list by one. */
  lemma ParseListStep(name: string, vs: seq<string>, i: nat)
    requires name != "" && '=' !in name && '\n' !in name
    requires 1 <= i < |vs|
    ensures Assign([(NormalizeKey(name), Arr(ListOf(StrValues(vs[..i]))))], AppendPairs(name, vs)[i])
      == Ok([(NormalizeKey(name), Arr(ListOf(StrValues(vs[..i + 1]))))])
  {
    assert AppendPairs(name, vs)[i] == name + "[]=" + vs[i];
    assert vs[..i + 1] == vs[..i] + [vs[i]];
    AppendToList(name, vs[..i], vs[i]);
  }

  /** `name[]=v` on the list `ws` under `name` gives the list `ws + [v]`. */
  lemma AppendToList(name: string, ws: seq<string>, v: string)
    requires name != "" && '=' !in name && '\n' !in name
    ensures Assign([(NormalizeKey(name), Arr(ListOf(StrValues(ws))))], name + "[]=" + v)
      == Ok([(NormalizeKey(name), Arr(ListOf(StrValues(ws + [v]))))])
  {
    var k := NormalizeKey(name);
    var held := ListOf(StrValues(ws));
    SingleHeld(k, held, Arr(ListOf(StrValues(ws + [v]))));
    AssignAppend([(k, Arr(held))], name, v);
    StrValuesSnoc(ws, v);
    PushList(StrValues(ws), Str(v));
  }

  /** A one-entry array holding the list `held` under `k`. */
  lemma SingleHeld(k: Key, held: seq<(Key, Value)>, x: Value)
    ensures Get([(k, Arr(held))], k) == Some(Arr(held))
    ensures HeldList([(k, Arr(held))], k) == held
    ensures Put([(k, Arr(held))], k, x) == [(k, x)]
  {
  }

  lemma StrValuesSnoc(ws: seq<string>, v: string)
    ensures StrValues(ws + [v]) == StrValues(ws) + [Str(v)]
  {
  }


  // ---------------------------------------------------------------------------
  // Round trip on flat parameters

  /** A flat parameter whose key and value need no encoding. */
  predicate PlainEntry(e: (Key, Value)) {
    e.0.StrKey? && ValidKey(e.0) && Unreserved(e.0.s) && e.1.Str? && Unreserved(e.1.s)
  }

  predicate PlainParams(es: seq<(Key, Value)>) {
    DistinctKeys(es) && forall i :: 0 <= i < |es| ==> PlainEntry(es[i])
  }

  /** The `key=value` pairs of plain parameters. */
  function PlainPairs(es: seq<(Key, Value)>): (pairs: seq<string>)
    requires forall i :: 0 <= i < |es| ==> PlainEntry(es[i])
    ensures |pairs| == |es|
  {
    seq(|es|, i requires 0 <= i < |es| && PlainEntry(es[i]) => es[i].0.s + "=" + es[i].1.s)
  }

  /** Non-empty plain parameters serialise as their `key=value` pairs joined with
      `&`, whatever the flags, and that text parses back to the same array. */
  lemma PlainRoundTrip(es: seq<(Key, Value)>, indexes: bool, encodeKeys: bool)
    requires es != [] && PlainParams(es)
    ensures BuildQuery(es, indexes, encodeKeys) == Ok(Implode("&", PlainPairs(es)))
    ensures ParseSpec(Implode("&", PlainPairs(es))) == Ok(es)
  {
    var pairs := PlainPairs(es);
    PlainBuild(es, 0, indexes, encodeKeys);
    assert pairs[0..] == pairs;
    forall i | 0 <= i < |pairs| ensures '&' !in pairs[i] {
      assert pairs[i] == es[i].0.s + "=" + es[i].1.s;
    }
    ExplodeImplode('&', pairs);
    PlainParse(es, 0);
    assert es[..0] == [] && pairs[0..] == pairs;
  }

  lemma {:induction false} PlainBuild(es: seq<(Key, Value)>, i: nat, indexes: bool, encodeKeys: bool)
    requires i <= |es| && forall j :: 0 <= j < |es| ==> PlainEntry(es[j])
    ensures BuildPairs(None, Arr(es), i, indexes, encodeKeys) == Ok(PlainPairs(es)[i..])
    decreases |es| - i
  {
    if i < |es| {
      PlainBuild(es, i + 1, indexes, encodeKeys);
      PlainPair(es[i], indexes, encodeKeys);
      SuffixCons(PlainPairs(es), i);
    }
  }

  /** A plain entry serialises as `key=value`, neither part changed. */
  lemma PlainPair(e: (Key, Value), indexes: bool, encodeKeys: bool)
    requires PlainEntry(e)
    ensures BuildPair(e.0, e.1, indexes, encodeKeys) == Ok(e.0.s + "=" + e.1.s)
  {
    UrlEncodeUnreserved(e.0.s);
    UrlEncodeUnreserved(e.1.s);
  }

  lemma {:induction false} PlainParse(es: seq<(Key, Value)>, i: nat)
    requires i <= |es| && PlainParams(es)
    ensures AssignAll(es[..i], PlainPairs(es)[i..]) == Ok(es)
    decreases |es| - i
  {
    var pairs := PlainPairs(es);
    if i == |es| {
      assert es[..i] == es;
      assert pairs[i..] == [];
    } else {
      var k := es[i].0.s;
      UnreservedText(k);
      AssignPlain(es[..i], k, es[i].1.s);
      assert NormalizeKey(k) == es[i].0;
      assert !HasKey(es[..i], es[i].0);
      assert es[..i] + [(es[i].0, es[i].1)] == es[..i + 1];
      assert pairs[i..][1..] == pairs[i + 1..];
      PlainParse(es, i + 1);
    }
  }

  // ---------------------------------------------------------------------------
  // The object

  function FlagOr(flag: Option<bool>, default: bool): bool {
    match flag case Some(b) => b case None => default
  }

  class Params {
    var indexes: bool
    var encodeKeys: bool
    var entries: seq<(Key, Value)>

    /** `new Params(array, INDEXES, ENCODE_KEYS)`: unset flags keep their
        defaults, no indexes and encoded keys. */
    constructor(entries: seq<(Key, Value)>, indexes: Option<bool>, encodeKeys: Option<bool>)
      ensures this.entries == entries
      ensures this.indexes == FlagOr(indexes, false) && this.encodeKeys == FlagOr(encodeKeys, true)
    {
      this.indexes := FlagOr(indexes, false);
      this.encodeKeys := FlagOr(encodeKeys, true);
      this.entries := entries;
    }

    /** `new Params(string, INDEXES, ENCODE_KEYS)`: the string is parsed first,
        and an error while parsing is raised from the constructor. */
    static method FromQuery(query: string, indexes: Option<bool>, encodeKeys: Option<bool>) returns (r: Result<Params>)
      ensures ParseSpec(query).Fail? ==> r == Fail(ParseSpec(query).error)
      ensures ParseSpec(query).Ok? ==>
        (r.Ok? && fresh(r.value) && r.value.entries == ParseSpec(query).value
         && r.value.indexes == FlagOr(indexes, false) && r.value.encodeKeys == FlagOr(encodeKeys, true))
    {
      var parsed := ParseQuery(query);
      if parsed.Fail? {
        return Fail(parsed.error);
      }
      var p := new Params(parsed.value, indexes, encodeKeys);
      return Ok(p);
    }

    function ToString(): Result<string>
      reads this
    {
      BuildQuery(entries, indexes, encodeKeys)
    }

    function Count(): nat
      reads this
    {
      |entries|
    }

    /** `merge`: a copy of this object (its flags) holding
        `array_merge_recursive` of both arrays; neither operand changes. */
    method Merge(other: Params) returns (merged: Params)
      ensures fresh(merged)
      ensures merged.entries == ArrayMergeRecursive(entries, other.entries)
      ensures merged.indexes == indexes && merged.encodeKeys == encodeKeys
    {
      merged := new Params(ArrayMergeRecursive(entries, other.entries), Some(indexes), Some(encodeKeys));
    }
  }
}
