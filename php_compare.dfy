/** PHP 8's loose comparison `==` on the scalars the client compares, and
    `in_array` without its strict flag, which is built on it. */
module PhpCompare {
  import opened PhpString

  datatype Scalar = SNull | SInt(i: int) | SStr(s: string)

  /** The whitespace a numeric string may have around it. */
  predicate IsNumericSpace(c: char) {
    c == ' ' || c == '\t' || c == '\n' || c == '\r' || c == '\U{000B}' || c == '\U{000C}'
  }

  function StripLeading(s: string): (r: string)
    ensures |r| <= |s| && r == s[|s| - |r|..]
    ensures r == [] || !IsNumericSpace(r[0])
  {
    if s != [] && IsNumericSpace(s[0]) then StripLeading(s[1..]) else s
  }

  function StripTrailing(s: string): (r: string)
    ensures |r| <= |s| && r == s[..|r|]
    ensures r == [] || !IsNumericSpace(r[|r| - 1])
  {
    if s != [] && IsNumericSpace(s[|s| - 1]) then StripTrailing(s[..|s| - 1]) else s
  }

  /** The value of an integer numeric string: optional whitespace, an optional
      sign and at least one digit, then optional whitespace; `None` for any other
      string. */
  function IntegerNumeric(s: string): (r: Option<int>)
    ensures s == "" ==> r.None?
  {
    var t := StripTrailing(StripLeading(s));
    if |t| >= 1 && AllDigits(t) then Some(DigitsValue(t))
    else if |t| >= 2 && (t[0] == '+' || t[0] == '-') && AllDigits(t[1..]) then
      var v: int := DigitsValue(t[1..]);
      Some(if t[0] == '-' then -v else v)
    else None
  }

  /** `int == string`: numerically when the string is numeric, otherwise as the
      int's decimal text against the string. */
  predicate IntEqStr(m: int, s: string) {
    match IntegerNumeric(s)
    case Some(v) => m == v
    case None => Decimal(m) == s
  }

  /** `a == b`. */
  predicate LooseEq(a: Scalar, b: Scalar) {
    match (a, b)
    case (SNull, SNull) => true
    case (SNull, SInt(n)) => n == 0
    case (SInt(n), SNull) => n == 0
    case (SNull, SStr(s)) => s == ""
    case (SStr(s), SNull) => s == ""
    case (SInt(m), SInt(n)) => m == n
    case (SInt(m), SStr(s)) => IntEqStr(m, s)
    case (SStr(s), SInt(m)) => IntEqStr(m, s)
    case (SStr(s), SStr(t)) =>
      if IntegerNumeric(s).Some? && IntegerNumeric(t).Some? then IntegerNumeric(s) == IntegerNumeric(t)
      else s == t
  }

  /** `in_array(v, xs)`, scanning from the front. */
  predicate InArray(v: Scalar, xs: seq<Scalar>) {
    xs != [] && (LooseEq(v, xs[0]) || InArray(v, xs[1..]))
  }

  /** `in_array` finds a value exactly when some element is loosely equal to it. */
  lemma {:induction false} InArrayIff(v: Scalar, xs: seq<Scalar>)
    ensures InArray(v, xs) <==> exists i :: 0 <= i < |xs| && LooseEq(v, xs[i])
  {
    if xs != [] {
      InArrayIff(v, xs[1..]);
      if exists i :: 0 <= i < |xs| && LooseEq(v, xs[i]) {
        var i :| 0 <= i < |xs| && LooseEq(v, xs[i]);
        if i > 0 {
          assert xs[1..][i - 1] == xs[i];
        }
      }
      if InArray(v, xs[1..]) {
        var j :| 0 <= j < |xs| - 1 && LooseEq(v, xs[1..][j]);
        assert xs[j + 1] == xs[1..][j];
      }
    }
  }

  lemma LooseEqSymmetric(a: Scalar, b: Scalar)
    ensures LooseEq(a, b) <==> LooseEq(b, a)
  {
  }

  lemma LooseEqReflexive(a: Scalar)
    ensures LooseEq(a, a)
  {
  }

  /** Against a string that is not numeric, `==` on strings is plain equality. */
  lemma LooseEqNonNumeric(s: string, t: string)
    requires IntegerNumeric(t).None?
    ensures LooseEq(SStr(s), SStr(t)) <==> s == t
  {
  }

  /** A name that starts with a letter or `_` (such as a PHP method or option
      name) is loosely equal to an element only when that element is the same
      string, so `in_array` on it is plain membership. */
  lemma {:induction false} InArrayOfName(name: string, xs: seq<Scalar>)
    requires name != [] && (IsAlpha(name[0]) || name[0] == '_')
    ensures InArray(SStr(name), xs) <==> SStr(name) in xs
  {
    NameNotNumeric(name);
    if xs != [] {
      InArrayOfName(name, xs[1..]);
      match xs[0]
      case SInt(m) =>
        if m < 0 {
          assert Decimal(m)[0] == '-';
        } else {
          assert IsDigit(Decimal(m)[0]);
        }
      case _ =>
      assert xs == [xs[0]] + xs[1..];
    }
  }

  lemma NameNotNumeric(name: string)
    requires name != [] && (IsAlpha(name[0]) || name[0] == '_')
    ensures IntegerNumeric(name).None?
  {
    var t := StripTrailing(StripLeading(name));
    assert StripLeading(name) == name;
    if |t| >= 1 {
      assert t[0] == name[0];
    }
  }

  /** Loose equality is not transitive: null equals both `0` and `''`, which
      differ from each other. */
  lemma NotTransitive()
    ensures LooseEq(SNull, SInt(0)) && LooseEq(SNull, SStr(""))
    ensures !LooseEq(SInt(0), SStr(""))
  {
  }
}
