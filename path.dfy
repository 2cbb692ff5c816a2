/** A URL path: an ordered list of segments, split on and joined with `/`. */
module Paths {
  import opened PhpString

  /** What `Path` accepts: null, a string (split on `/`) or a list of segments. */
  datatype PathArg = NullPath | StrPath(s: string) | ListPath(segments: seq<string>)

  /** PHP truthiness of the argument: null, `''`, `'0'` and `[]` are false. */
  predicate ArgTruthy(arg: PathArg) {
    match arg
    case NullPath => false
    case StrPath(s) => Truthy(s)
    case ListPath(segs) => segs != []
  }

  /** The segments `append` adds for an argument. */
  function Segments(arg: PathArg): seq<string> {
    match arg
    case NullPath => []
    case StrPath(s) => Explode('/', s)
    case ListPath(segs) => segs
  }

  /** The segments a new `Path` starts with: none unless the argument is truthy. */
  function Initial(arg: PathArg): seq<string> {
    if ArgTruthy(arg) then Segments(arg) else []
  }

  function Render(parts: seq<string>): string {
    Implode("/", parts)
  }

  predicate Absolute(parts: seq<string>) {
    |parts| > 0 && parts[0] == ""
  }

  class Path {
    var parts: seq<string>

    constructor(arg: PathArg)
      ensures parts == Initial(arg)
    {
      parts := [];
      if ArgTruthy(arg) {
        parts := Segments(arg);
      }
    }

    /** `append` with a string, list or null: the new segments go after the old
        ones, and the path itself is returned. */
    method Append(arg: PathArg) returns (r: Path)
      modifies this
      ensures parts == old(parts) + Segments(arg)
      ensures r == this
    {
      parts := parts + Segments(arg);
      r := this;
    }

    /** `append` with another `Path` (which may be this one). */
    method AppendPath(other: Path) returns (r: Path)
      modifies this
      ensures parts == old(parts) + old(other.parts)
      ensures r == this
    {
      parts := parts + other.parts;
      r := this;
    }

    function ToString(): string
      reads this
    {
      Render(parts)
    }

    function Count(): nat
      reads this
    {
      |parts|
    }

    predicate IsAbsolute()
      reads this
    {
      Absolute(parts)
    }

    predicate Bool()
      reads this
    {
      |parts| > 0
    }
  }

  /** A path built from a truthy string prints back as that string, empty
      segments included. */
  lemma StringRoundTrip(s: string)
    requires Truthy(s)
    ensures Render(Initial(StrPath(s))) == s
  {
    ImplodeExplode('/', s);
  }

  /** Null, `''`, `'0'` and `[]` give a path with no segments, which prints as `''`. */
  lemma FalsyIsEmpty(arg: PathArg)
    requires !ArgTruthy(arg)
    ensures Initial(arg) == [] && Render(Initial(arg)) == ""
  {
  }

  /** A path from a truthy string has one segment more than the string has `/`. */
  lemma CountOfString(s: string)
    requires Truthy(s)
    ensures |Initial(StrPath(s))| == CountChar(s, '/') + 1
  {
  }

  /** A path from a truthy string is absolute exactly when the string starts with `/`. */
  lemma AbsoluteOfString(s: string)
    requires Truthy(s)
    ensures Absolute(Initial(StrPath(s))) <==> s[0] == '/'
  {
    var parts := Explode('/', s);
    if s[0] != '/' {
      assert parts[0] == [s[0]] + Explode('/', s[1..])[0];
    }
  }

  /** Appending segments to a non-empty path joins the two renderings with `/`. */
  lemma {:induction false} RenderAppend(p: seq<string>, q: seq<string>)
    requires p != [] && q != []
    ensures Render(p + q) == Render(p) + "/" + Render(q)
  {
    if |p| > 1 {
      RenderAppend(p[1..], q);
      assert (p + q)[1..] == p[1..] + q;
    }
  }
}
