/** `Headers`: HTTP header fields as a PHP array from name to value, printed
    one `Name: value` line per field. */
module HeaderFields {
  import opened PhpString
  import opened PhpArray

  /** `sprintf("%s: %s", $k, $v)`. */
  function Line(e: (Key, string)): string {
    KeyString(e.0) + ": " + e.1
  }

  function Lines(entries: seq<(Key, string)>): (lines: seq<string>)
    ensures |lines| == |entries|
    ensures forall i :: 0 <= i < |entries| ==> lines[i] == Line(entries[i])
  {
    if entries == [] then [] else [Line(entries[0])] + Lines(entries[1..])
  }

  lemma LineNoNewline(e: (Key, string))
    requires '\n' !in KeyString(e.0) && '\n' !in e.1
    ensures '\n' !in Line(e)
  {
    var l := Line(e);
    forall j | 0 <= j < |l| ensures l[j] != '\n' {
      if j < |KeyString(e.0)| {
        assert l[j] == KeyString(e.0)[j];
      } else if j >= |KeyString(e.0)| + 2 {
        assert l[j] == e.1[j - |KeyString(e.0)| - 2];
      }
    }
  }

  /** `(string) $headers`: the lines joined with newlines. */
  function Render(entries: seq<(Key, string)>): string {
    Implode("\n", Lines(entries))
  }

  /** Fields without newlines can be recovered from the printed form: splitting
      it on newlines gives back one `Name: value` line per field, in order. */
  lemma RenderLines(entries: seq<(Key, string)>)
    requires entries != []
    requires forall i :: 0 <= i < |entries| ==> '\n' !in KeyString(entries[i].0) && '\n' !in entries[i].1
    ensures Explode('\n', Render(entries)) == Lines(entries)
  {
    var lines := Lines(entries);
    forall i | 0 <= i < |lines| ensures '\n' !in lines[i] {
      LineNoNewline(entries[i]);
    }
    ExplodeImplode('\n', lines);
  }

  class Headers {
    var entries: seq<(Key, string)>

    /** Every key once, as in any PHP array. */
    predicate Valid()
      reads this
    {
      DistinctKeys(entries)
    }

    /** `new Headers(array)`: the entries assigned one by one. */
    constructor(headers: seq<(Key, string)>)
      ensures entries == PutAll([], headers)
      ensures Valid()
    {
      entries := [];
      new;
      var i := 0;
      while i < |headers|
        invariant 0 <= i <= |headers|
        invariant PutAll([], headers) == PutAll(entries, headers[i..])
        invariant DistinctKeys(entries)
      {
        assert headers[i..][1..] == headers[i + 1..];
        PutDistinct(entries, headers[i].0, headers[i].1);
        entries := Put(entries, headers[i].0, headers[i].1);
        i := i + 1;
      }
    }

    function ToString(): string
      reads this
    {
      Render(entries)
    }

    function Count(): nat
      reads this
    {
      |entries|
    }

    /** `has_key(name)`: the name is looked up as PHP stores it, exactly and
        case-sensitively. */
    predicate HasName(name: string)
      reads this
    {
      HasKey(entries, NormalizeKey(name))
    }

    /** `$headers[name]`, `None` for a missing field. */
    function Field(name: string): Option<string>
      reads this
    {
      Get(entries, NormalizeKey(name))
    }

    /** `$headers[name] = value`. */
    method Set(name: string, value: string)
      modifies this
      requires Valid()
      ensures entries == Put(old(entries), NormalizeKey(name), value)
      ensures Valid()
    {
      PutDistinct(entries, NormalizeKey(name), value);
      entries := Put(entries, NormalizeKey(name), value);
    }

    /** `merge`: a new object holding `array_merge` of both field arrays, so
        the argument's value wins for a name both hold. */
    method Merge(other: Headers) returns (merged: Headers)
      requires Valid()
      ensures fresh(merged)
      ensures merged.entries == ArrayMerge(entries, other.entries)
      ensures merged.Valid()
    {
      ArrayMergeDistinct(entries, other.entries);
      PutAllArray(ArrayMerge(entries, other.entries));
      merged := new Headers(ArrayMerge(entries, other.entries));
    }
  }

  /** Merged headers: a name the argument holds takes the argument's value, any
      other name keeps this object's. */
  lemma MergeField(a: seq<(Key, string)>, b: seq<(Key, string)>, name: string)
    requires DistinctKeys(b) && NormalizeKey(name).StrKey?
    ensures Get(ArrayMerge(a, b), NormalizeKey(name)) ==
      if HasKey(b, NormalizeKey(name)) then Get(b, NormalizeKey(name)) else Get(a, NormalizeKey(name))
  {
    ArrayMergeGet(a, b, NormalizeKey(name));
  }

  /** The two fields of the header test print as two lines in insertion order. */
  lemma RenderExample(fields: seq<(Key, string)>)
    requires fields == [(StrKey("Content-Type"), "application/json"), (StrKey("Accept"), "application/json")]
    ensures Render(fields) == "Content-Type: application/json\nAccept: application/json"
  {
    var e1, e2 := fields[0], fields[1];
    assert fields == [e1, e2];
    RenderTwo(e1, e2);
    LineExample("Content-Type", "application/json");
    LineExample("Accept", "application/json");
    JoinExample(Line(e1), Line(e2));
  }

  lemma LineExample(k: string, v: string)
    ensures Line((StrKey(k), v)) == k + ": " + v
  {
  }

  lemma JoinExample(a: string, b: string)
    requires a == "Content-Type" + ": " + "application/json" && b == "Accept" + ": " + "application/json"
    ensures a + "\n" + b == "Content-Type: application/json\nAccept: application/json"
  {
    ContentTypeLiteral();
    AcceptLiteral();
    JoinLiteral();
  }

  lemma ContentTypeLiteral()
    ensures "Content-Type" + ": " + "application/json" == "Content-Type: application/json"
  {
  }

  lemma AcceptLiteral()
    ensures "Accept" + ": " + "application/json" == "Accept: application/json"
  {
  }

  lemma JoinLiteral()
    ensures "Content-Type: application/json" + "\n" + "Accept: application/json"
      == "Content-Type: application/json\nAccept: application/json"
  {
  }

  lemma RenderTwo(e1: (Key, string), e2: (Key, string))
    ensures Render([e1, e2]) == Line(e1) + "\n" + Line(e2)
  {
    assert [e1, e2][1..] == [e2];
    assert Lines([e1, e2]) == [Line(e1), Line(e2)];
    var ls := [Line(e1), Line(e2)];
    assert ls[1..] == [Line(e2)];
    assert Implode("\n", ls[1..]) == Line(e2);
    assert Implode("\n", ls) == Line(e1) + "\n" + Line(e2);
  }

  /** Names are case-sensitive: `Content-Type` is present, `content-type` is not. */
  lemma NamesCaseSensitive()
    ensures var es := [(StrKey("Content-Type"), "application/json")];
      HasKey(es, NormalizeKey("Content-Type")) && !HasKey(es, NormalizeKey("content-type"))
  {
    assert NormalizeKey("Content-Type") == StrKey("Content-Type");
    assert NormalizeKey("content-type") == StrKey("content-type");
    assert StrKey("content-type") != StrKey("Content-Type");
  }
}
