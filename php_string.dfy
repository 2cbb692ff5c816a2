/** The PHP string built-ins the client relies on.
    A PHP string is a byte string; here it is a sequence of Unicode scalar
    values whose bytes are their UTF-8 encoding. Every operation below splits,
    trims or compares on ASCII characters only, and UTF-8 never uses an ASCII
    byte inside a multi-byte character, so these agree with PHP's byte-level
    behaviour; `UrlEncode` works on the UTF-8 bytes explicitly. */
module PhpString {

  /** PHP truthiness of a string: `''` and `'0'` are false, everything else true. */
  predicate Truthy(s: string) {
    s != "" && s != "0"
  }

  predicate IsDigit(c: char) { '0' <= c <= '9' }

  predicate IsAlpha(c: char) { 'a' <= c <= 'z' || 'A' <= c <= 'Z' }

  /** PCRE `\w` in a pattern without the `u` modifier: ASCII letters, digits, `_`. */
  predicate IsWordChar(c: char) { IsAlpha(c) || IsDigit(c) || c == '_' }

  predicate AllDigits(s: string) {
    forall i :: 0 <= i < |s| ==> IsDigit(s[i])
  }

  // ---------------------------------------------------------------------------
  // explode / implode on a one-character separator

  function CountChar(s: string, c: char): nat {
    if s == [] then 0 else (if s[0] == c then 1 else 0) + CountChar(s[1..], c)
  }

  /** `explode(sep, s)`: the pieces between the separators, empty pieces kept. */
  function Explode(sep: char, s: string): (parts: seq<string>)
    ensures |parts| == CountChar(s, sep) + 1
    ensures forall i :: 0 <= i < |parts| ==> sep !in parts[i]
  {
    if s == [] then [""]
    else
      var rest := Explode(sep, s[1..]);
      if s[0] == sep then [""] + rest
      else [[s[0]] + rest[0]] + rest[1..]
  }

  /** `implode(sep, parts)`. */
  function Implode(sep: string, parts: seq<string>): string {
    if parts == [] then ""
    else if |parts| == 1 then parts[0]
    else parts[0] + sep + Implode(sep, parts[1..])
  }

  lemma {:induction false} ImplodeExplode(sep: char, s: string)
    ensures Implode([sep], Explode(sep, s)) == s
  {
    if s != [] {
      ImplodeExplode(sep, s[1..]);
      var rest := Explode(sep, s[1..]);
      if s[0] == sep {
        assert Explode(sep, s) == [""] + rest;
      } else {
        var parts := Explode(sep, s);
        assert parts == [[s[0]] + rest[0]] + rest[1..];
        if |rest| == 1 {
          assert Implode([sep], parts) == [s[0]] + rest[0];
        } else {
          assert parts[1..] == rest[1..];
          assert Implode([sep], rest) == rest[0] + [sep] + Implode([sep], rest[1..]);
        }
      }
    }
  }

  lemma {:induction false} ExplodeImplode(sep: char, parts: seq<string>)
    requires |parts| >= 1
    requires forall i :: 0 <= i < |parts| ==> sep !in parts[i]
    ensures Explode(sep, Implode([sep], parts)) == parts
  {
    if |parts| == 1 {
      ExplodeNoSep(sep, parts[0]);
    } else {
      ExplodeImplode(sep, parts[1..]);
      ExplodeSplit(sep, parts[0], Implode([sep], parts[1..]));
    }
  }

  lemma {:induction false} ExplodeNoSep(sep: char, s: string)
    requires sep !in s
    ensures Explode(sep, s) == [s]
  {
    if s != [] {
      assert sep !in s[1..];
      ExplodeNoSep(sep, s[1..]);
      assert [s[0]] + s[1..] == s;
    }
  }

  /** Splitting `a + sep + b` where `a` holds no separator. */
  lemma {:induction false} ExplodeSplit(sep: char, a: string, b: string)
    requires sep !in a
    ensures Explode(sep, a + [sep] + b) == [a] + Explode(sep, b)
  {
    if a == [] {
      assert a + [sep] + b == [sep] + b;
      assert ([sep] + b)[1..] == b;
    } else {
      assert (a + [sep] + b)[1..] == a[1..] + [sep] + b;
      assert sep !in a[1..];
      ExplodeSplit(sep, a[1..], b);
      assert [a[0]] + a[1..] == a;
    }
  }

  /** `explode(sep, s, 2)`: the text before the first separator and, when there
      is one, the text after it. */
  function SplitFirst(sep: char, s: string): (r: (string, Option<string>))
    ensures r.1.None? <==> sep !in s
    ensures r.1.None? ==> r.0 == s
    ensures r.1.Some? ==> s == r.0 + [sep] + r.1.value && sep !in r.0
  {
    if s == [] then ("", None)
    else if s[0] == sep then ("", Some(s[1..]))
    else
      var rest := SplitFirst(sep, s[1..]);
      ([s[0]] + rest.0, rest.1)
  }

  /** The first separator of `a + sep + b` is the one after `a` when `a` has none. */
  lemma {:induction false} SplitFirstAt(sep: char, a: string, b: string)
    requires sep !in a
    ensures SplitFirst(sep, a + [sep] + b) == (a, Some(b))
  {
    if a == [] {
      assert a + [sep] + b == [sep] + b;
    } else {
      assert (a + [sep] + b)[1..] == a[1..] + [sep] + b;
      assert sep !in a[1..];
      SplitFirstAt(sep, a[1..], b);
      assert [a[0]] + a[1..] == a;
    }
  }

  /** explode distributes over a join: the pieces of `a + sep + b` are those
      of `a` followed by those of `b`. */
  lemma {:induction false} ExplodeJoin(sep: char, a: string, b: string)
    ensures Explode(sep, a + [sep] + b) == Explode(sep, a) + Explode(sep, b)
  {
    if a == [] {
      assert a + [sep] + b == [sep] + b;
      assert ([sep] + b)[1..] == b;
    } else {
      assert (a + [sep] + b)[1..] == a[1..] + [sep] + b;
      ExplodeJoin(sep, a[1..], b);
    }
  }

  datatype Option<+T> = None | Some(value: T)

  // ---------------------------------------------------------------------------
  // trim, strpos(…) === 0, case mapping

  /** The characters PHP's `trim` strips by default: space, tab, LF, CR, NUL, VT. */
  predicate IsTrimSpace(c: char) {
    c == ' ' || c == '\t' || c == '\n' || c == '\r' || c == '\0' || c == '\U{000B}'
  }

  function TrimLeft(s: string): (r: string)
    ensures |r| <= |s| && r == s[|s| - |r|..]
    ensures r == [] || !IsTrimSpace(r[0])
    ensures forall i :: 0 <= i < |s| - |r| ==> IsTrimSpace(s[i])
  {
    if s != [] && IsTrimSpace(s[0]) then TrimLeft(s[1..]) else s
  }

  function TrimRight(s: string): (r: string)
    ensures |r| <= |s| && r == s[..|r|]
    ensures r == [] || !IsTrimSpace(r[|r| - 1])
    ensures forall i :: |r| <= i < |s| ==> IsTrimSpace(s[i])
  {
    if s != [] && IsTrimSpace(s[|s| - 1]) then TrimRight(s[..|s| - 1]) else s
  }

  /** `trim(s)`: `s` without the leading and trailing trim characters. */
  function Trim(s: string): (r: string)
    ensures exists i, j ::
      (0 <= i <= j <= |s| && r == s[i..j]
       && (forall k :: 0 <= k < i ==> IsTrimSpace(s[k]))
       && (forall k :: j <= k < |s| ==> IsTrimSpace(s[k])))
    ensures r == [] || (!IsTrimSpace(r[0]) && !IsTrimSpace(r[|r| - 1]))
  {
    var l := TrimLeft(s);
    var r := TrimRight(l);
    assert r == s[|s| - |l|..|s| - |l| + |r|];
    r
  }

  /** `strlen(trim(s)) == 0` holds exactly for strings of trim characters only. */
  lemma TrimEmptyIff(s: string)
    ensures Trim(s) == "" <==> forall k :: 0 <= k < |s| ==> IsTrimSpace(s[k])
  {
    if forall k :: 0 <= k < |s| ==> IsTrimSpace(s[k]) {
      TrimLeftAllSpace(s);
    }
  }

  lemma {:induction false} TrimLeftAllSpace(s: string)
    requires forall k :: 0 <= k < |s| ==> IsTrimSpace(s[k])
    ensures TrimLeft(s) == ""
  {
    if s != [] {
      TrimLeftAllSpace(s[1..]);
    }
  }

  /** `strpos(s, p) === 0`. */
  predicate StartsWith(s: string, p: string) {
    |p| <= |s| && s[..|p|] == p
  }

  function AsciiUpper(c: char): char {
    if 'a' <= c <= 'z' then (c as int - 32) as char else c
  }

  function AsciiLower(c: char): char {
    if 'A' <= c <= 'Z' then (c as int + 32) as char else c
  }

  /** `strtoupper` (ASCII only since PHP 8.2, as is the C locale before). */
  function ToUpper(s: string): (r: string)
    ensures |r| == |s|
    ensures forall i :: 0 <= i < |s| ==> !('a' <= r[i] <= 'z')
    ensures forall i :: 0 <= i < |s| && !('a' <= s[i] <= 'z') ==> r[i] == s[i]
  {
    if s == [] then [] else [AsciiUpper(s[0])] + ToUpper(s[1..])
  }

  /** `strtolower`. */
  function ToLower(s: string): (r: string)
    ensures |r| == |s|
    ensures forall i :: 0 <= i < |s| ==> !('A' <= r[i] <= 'Z')
    ensures forall i :: 0 <= i < |s| && !('A' <= s[i] <= 'Z') ==> r[i] == s[i]
  {
    if s == [] then [] else [AsciiLower(s[0])] + ToLower(s[1..])
  }

  lemma {:induction false} ToUpperIdempotent(s: string)
    ensures ToUpper(ToUpper(s)) == ToUpper(s)
  {
    if s != [] {
      ToUpperIdempotent(s[1..]);
    }
  }

  /** `str_replace(from, to, s)` for single characters. */
  function ReplaceChar(s: string, from: char, to: char): (r: string)
    ensures |r| == |s|
    ensures from != to ==> from !in r
    ensures forall i :: 0 <= i < |s| && s[i] != from ==> r[i] == s[i]
  {
    if s == [] then [] else [if s[0] == from then to else s[0]] + ReplaceChar(s[1..], from, to)
  }

  // ---------------------------------------------------------------------------
  // integers as decimal text

  function DigitChar(d: nat): char
    requires d < 10
  {
    ('0' as int + d) as char
  }

  function DigitValue(c: char): nat
    requires IsDigit(c)
  {
    c as int - '0' as int
  }

  /** The decimal digits of `n`, most significant first, without leading zeros. */
  function NatDigits(n: nat): (r: string)
    ensures |r| >= 1 && AllDigits(r)
    ensures r[0] == '0' ==> n == 0 && r == "0"
    decreases n
  {
    if n < 10 then [DigitChar(n)] else NatDigits(n / 10) + [DigitChar(n % 10)]
  }

  function DigitsValue(s: string): nat
    requires AllDigits(s)
  {
    if s == [] then 0 else DigitsValue(s[..|s| - 1]) * 10 + DigitValue(s[|s| - 1])
  }

  lemma {:induction false} DigitsValueNatDigits(n: nat)
    ensures DigitsValue(NatDigits(n)) == n
    decreases n
  {
    if n >= 10 {
      DigitsValueNatDigits(n / 10);
      var r := NatDigits(n);
      assert r[..|r| - 1] == NatDigits(n / 10);
    }
  }

  lemma DivMod10(w: nat, d: nat)
    requires d < 10
    ensures (w * 10 + d) / 10 == w && (w * 10 + d) % 10 == d
  {
  }

  /** `(string) $n` for a PHP int. */
  function Decimal(n: int): string {
    if n < 0 then "-" + NatDigits(-n) else NatDigits(n)
  }

  const IntMin: int := -0x8000_0000_0000_0000
  const IntMax: int := 0x7fff_ffff_ffff_ffff

  /** The strings PHP treats as integer array keys: `0`, or an optional `-`
      followed by a non-zero digit and more digits, within the 64-bit range. */
  function CanonicalInt(s: string): (r: Option<int>)
    ensures r.Some? ==> IntMin <= r.value <= IntMax
  {
    if |s| >= 1 && AllDigits(s) && (s[0] != '0' || s == "0") then
      var v := DigitsValue(s);
      if v <= IntMax then Some(v) else None
    else if |s| >= 2 && s[0] == '-' && AllDigits(s[1..]) && s[1] != '0' then
      var v: int := -(DigitsValue(s[1..]) as int);
      if IntMin <= v then Some(v) else None
    else None
  }

  /** The decimal text of a 64-bit int is a canonical integer string for that int. */
  lemma CanonicalIntDecimal(n: int)
    requires IntMin <= n <= IntMax
    ensures CanonicalInt(Decimal(n)) == Some(n)
  {
    if n < 0 {
      CanonicalNegative(-n);
    } else {
      DigitsValueNatDigits(n);
    }
  }

  lemma CanonicalNegative(m: nat)
    requires 0 < m <= -IntMin
    ensures CanonicalInt("-" + NatDigits(m)) == Some(-(m as int))
  {
    var d := NatDigits(m);
    var s := "-" + d;
    DigitsValueNatDigits(m);
    assert s[0] == '-' && !IsDigit(s[0]);
    assert s[1..] == d;
    assert d[0] != '0';
  }

  /** A canonical integer string is the decimal text of its value. */
  lemma DecimalCanonicalInt(s: string)
    requires CanonicalInt(s).Some?
    ensures Decimal(CanonicalInt(s).value) == s
  {
    if |s| >= 1 && AllDigits(s) && (s[0] != '0' || s == "0") {
      NatDigitsDigitsValue(s);
    } else {
      NatDigitsDigitsValue(s[1..]);
      assert s == "-" + s[1..];
    }
  }

  lemma {:induction false} NatDigitsDigitsValue(s: string)
    requires |s| >= 1 && AllDigits(s) && (s[0] != '0' || s == "0")
    ensures NatDigits(DigitsValue(s)) == s
    decreases |s|
  {
    var init := s[..|s| - 1];
    var v := DigitsValue(s);
    if |s| == 1 {
      assert init == [];
      assert DigitsValue(init) == 0;
      assert v == DigitValue(s[0]);
    } else {
      NatDigitsDigitsValue(init);
      var w := DigitsValue(init);
      assert v == w * 10 + DigitValue(s[|s| - 1]);
      assert w >= 1;
      DivMod10(w, DigitValue(s[|s| - 1]));
      assert s == init + [s[|s| - 1]];
    }
  }

  // ---------------------------------------------------------------------------
  // urlencode (section 17.13.4.1 of HTML 4.01, as PHP's urlencode writes it)

  /** The UTF-8 encoding of one Unicode scalar value. */
  function Utf8(c: char): (bytes: seq<nat>)
    ensures 1 <= |bytes| <= 4
    ensures forall i :: 0 <= i < |bytes| ==> bytes[i] < 256
    ensures (c as int < 0x80) <==> (|bytes| == 1 && bytes[0] < 0x80)
    ensures c as int < 0x80 ==> bytes == [c as int]
    ensures forall i :: 0 <= i < |bytes| && c as int >= 0x80 ==> bytes[i] >= 0x80
  {
    var n := c as int;
    if n < 0x80 then [n]
    else if n < 0x800 then [0xC0 + n / 0x40, 0x80 + n % 0x40]
    else if n < 0x10000 then [0xE0 + n / 0x1000, 0x80 + (n / 0x40) % 0x40, 0x80 + n % 0x40]
    else [0xF0 + n / 0x40000, 0x80 + (n / 0x1000) % 0x40, 0x80 + (n / 0x40) % 0x40, 0x80 + n % 0x40]
  }

  function Utf8Bytes(s: string): seq<nat> {
    if s == [] then [] else Utf8(s[0]) + Utf8Bytes(s[1..])
  }

  /** The bytes urlencode writes unchanged: ASCII letters, digits, `-`, `_`, `.`. */
  predicate IsUnreservedByte(b: nat) {
    (0x30 <= b <= 0x39) || (0x41 <= b <= 0x5A) || (0x61 <= b <= 0x7A)
    || b == 0x2D || b == 0x5F || b == 0x2E
  }

  predicate IsUnreservedChar(c: char) {
    IsUnreservedByte(c as int)
  }

  function HexDigit(d: nat): char
    requires d < 16
  {
    if d < 10 then ('0' as int + d) as char else ('A' as int + d - 10) as char
  }

  function HexValue(c: char): nat {
    if '0' <= c <= '9' then c as int - '0' as int
    else if 'A' <= c <= 'F' then c as int - 'A' as int + 10
    else if 'a' <= c <= 'f' then c as int - 'a' as int + 10
    else 0
  }

  predicate IsHexChar(c: char) {
    '0' <= c <= '9' || 'A' <= c <= 'F' || 'a' <= c <= 'f'
  }

  function EncodeByte(b: nat): string
    requires b < 256
  {
    if IsUnreservedByte(b) then [b as char]
    else if b == 0x20 then "+"
    else ['%', HexDigit(b / 16), HexDigit(b % 16)]
  }

  function EncodeBytes(bs: seq<nat>): string
    requires forall i :: 0 <= i < |bs| ==> bs[i] < 256
  {
    if bs == [] then "" else EncodeByte(bs[0]) + EncodeBytes(bs[1..])
  }

  /** `urlencode(s)`. */
  function UrlEncode(s: string): string {
    if s == [] then "" else EncodeBytes(Utf8(s[0])) + UrlEncode(s[1..])
  }

  /** The characters that urlencode can produce. */
  predicate IsEncodedChar(c: char) {
    IsUnreservedChar(c) || c == '+' || c == '%'
  }

  lemma {:induction false} EncodeBytesChars(bs: seq<nat>)
    requires forall i :: 0 <= i < |bs| ==> bs[i] < 256
    ensures forall i :: 0 <= i < |EncodeBytes(bs)| ==> IsEncodedChar(EncodeBytes(bs)[i])
  {
    if bs != [] {
      EncodeBytesChars(bs[1..]);
    }
  }

  /** Every character of `urlencode(s)` is unreserved, `+` or `%` (and the
      `%`-escape digits are upper-case hex, which is unreserved), so in
      particular it never holds `&`, `=`, `[` or `]`. */
  lemma {:induction false} UrlEncodeChars(s: string)
    ensures forall i :: 0 <= i < |UrlEncode(s)| ==> IsEncodedChar(UrlEncode(s)[i])
  {
    if s != [] {
      EncodeBytesChars(Utf8(s[0]));
      UrlEncodeChars(s[1..]);
    }
  }

  /** urlencode works character by character. */
  lemma {:induction false} UrlEncodeAppend(a: string, b: string)
    ensures UrlEncode(a + b) == UrlEncode(a) + UrlEncode(b)
  {
    if a != [] {
      assert (a + b)[0] == a[0];
      assert (a + b)[1..] == a[1..] + b;
      UrlEncodeAppend(a[1..], b);
    } else {
      assert a + b == b;
    }
  }

  /** Strings of unreserved characters are left unchanged. */
  lemma {:induction false} UrlEncodeUnreserved(s: string)
    requires forall i :: 0 <= i < |s| ==> IsUnreservedChar(s[i])
    ensures UrlEncode(s) == s
  {
    if s != [] {
      UrlEncodeUnreserved(s[1..]);
      assert Utf8(s[0]) == [s[0] as int];
      assert EncodeBytes([s[0] as int]) == EncodeByte(s[0] as int) + EncodeBytes([]);
      assert [s[0]] + s[1..] == s;
    }
  }

  /** `urldecode`, as the byte string it yields: `+` is a space, `%XX` a byte,
      any other character its own code. */
  function UrlDecodeBytes(t: string): seq<nat> {
    if t == [] then []
    else if t[0] == '+' then [0x20] + UrlDecodeBytes(t[1..])
    else if t[0] == '%' && |t| >= 3 && IsHexChar(t[1]) && IsHexChar(t[2]) then
      [HexValue(t[1]) * 16 + HexValue(t[2])] + UrlDecodeBytes(t[3..])
    else [t[0] as int] + UrlDecodeBytes(t[1..])
  }

  lemma {:induction false} UrlDecodeEncodeByte(b: nat, rest: string)
    requires b < 256
    ensures UrlDecodeBytes(EncodeByte(b) + rest) == [b] + UrlDecodeBytes(rest)
  {
    var e := EncodeByte(b);
    if IsUnreservedByte(b) {
      assert (e + rest)[1..] == rest;
    } else if b == 0x20 {
      assert (e + rest)[1..] == rest;
    } else {
      assert (e + rest)[3..] == rest;
      assert HexValue(HexDigit(b / 16)) == b / 16;
      assert HexValue(HexDigit(b % 16)) == b % 16;
    }
  }

  lemma SuffixCons<T>(s: seq<T>, i: nat)
    requires i < |s|
    ensures s[i..] == [s[i]] + s[i + 1..]
  {
  }

  lemma UpdateLeft<T>(x: seq<T>, y: seq<T>, i: nat, v: T)
    requires i < |x|
    ensures (x + y)[i := v] == x[i := v] + y
  {
  }

  lemma AppendAssoc<T>(x: seq<T>, y: seq<T>, z: seq<T>)
    ensures x + y + z == x + (y + z)
  {
  }

  lemma {:induction false} UrlDecodeEncodeBytes(bs: seq<nat>, rest: string)
    requires forall i :: 0 <= i < |bs| ==> bs[i] < 256
    ensures UrlDecodeBytes(EncodeBytes(bs) + rest) == bs + UrlDecodeBytes(rest)
  {
    if bs != [] {
      var tail := EncodeBytes(bs[1..]) + rest;
      UrlDecodeEncodeBytes(bs[1..], rest);
      AppendAssoc(EncodeByte(bs[0]), EncodeBytes(bs[1..]), rest);
      UrlDecodeEncodeByte(bs[0], tail);
      AppendAssoc([bs[0]], bs[1..], UrlDecodeBytes(rest));
      assert bs == [bs[0]] + bs[1..];
    } else {
      assert EncodeBytes(bs) + rest == rest;
    }
  }

  /** urldecode undoes urlencode: decoding yields exactly the UTF-8 bytes of `s`. */
  lemma {:induction false} UrlDecodeEncode(s: string)
    ensures UrlDecodeBytes(UrlEncode(s)) == Utf8Bytes(s)
  {
    if s != [] {
      UrlDecodeEncode(s[1..]);
      UrlDecodeEncodeBytes(Utf8(s[0]), UrlEncode(s[1..]));
    }
  }
}
