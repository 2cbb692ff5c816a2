/** The `Param` attribute: the key and type a client method's parameter must
    have, its default, and the values allowed for it. */
module ParamAttributes {
  import opened PhpString
  import opened PhpArray
  import opened PhpCompare

  datatype ParamType = IntType | FloatType | StringType | ArrayType

  /** The type as the attribute stores it. */
  function TypeName(t: ParamType): string {
    match t
    case IntType => "int"
    case FloatType => "float"
    case StringType => "string"
    case ArrayType => "array"
  }

  /** What `allowed` holds: a single value, or an array of values. */
  datatype AllowedValue = Plain(v: Scalar) | Listed(values: seq<Scalar>)

  /** `allowed` as passed: a value, or the name of a backed enum together
      with the values of its cases in declaration order. */
  datatype AllowedArg = Given(a: AllowedValue) | EnumClass(name: string, caseValues: seq<Scalar>)

  /** The type and key of the first of `int`, `float`, `string` and `array`
      that is set; none when no key is given. */
  function Selected(intKey: Option<string>, floatKey: Option<string>, stringKey: Option<string>, arrayKey: Option<string>)
    : (r: Option<(ParamType, string)>)
    ensures r.None? <==> intKey.None? && floatKey.None? && stringKey.None? && arrayKey.None?
    ensures intKey.Some? ==> r == Some((IntType, intKey.value))
    ensures intKey.None? && floatKey.Some? ==> r == Some((FloatType, floatKey.value))
    ensures intKey.None? && floatKey.None? && stringKey.Some? ==> r == Some((StringType, stringKey.value))
    ensures intKey.None? && floatKey.None? && stringKey.None? && arrayKey.Some? ==> r == Some((ArrayType, arrayKey.value))
  {
    if intKey.Some? then Some((IntType, intKey.value))
    else if floatKey.Some? then Some((FloatType, floatKey.value))
    else if stringKey.Some? then Some((StringType, stringKey.value))
    else if arrayKey.Some? then Some((ArrayType, arrayKey.value))
    else None
  }

  /** An enum class is replaced by the list of its case values. */
  function Stored(arg: AllowedArg): AllowedValue {
    match arg
    case Given(a) => a
    case EnumClass(_, cs) => Listed(cs)
  }

  /** `is_allowed($value)` against what `allowed` holds: anything when it is
      unset, membership by loose comparison in an array, and nothing for any
      other value. */
  predicate Allows(allowed: AllowedValue, value: Scalar) {
    match allowed
    case Plain(v) => v == SNull
    case Listed(vs) => InArray(value, vs)
  }

  lemma AllowsCases(allowed: AllowedValue, value: Scalar)
    ensures allowed == Plain(SNull) ==> Allows(allowed, value)
    ensures allowed.Plain? && allowed.v != SNull ==> !Allows(allowed, value)
    ensures allowed.Listed? ==>
      (Allows(allowed, value) <==> exists i :: 0 <= i < |allowed.values| && LooseEq(value, allowed.values[i]))
  {
    if allowed.Listed? {
      InArrayIff(value, allowed.values);
    }
  }

  /** With an enum class, exactly the values loosely equal to a case value
      are allowed. */
  lemma EnumAllowed(name: string, cases: seq<Scalar>, value: Scalar)
    ensures Allows(Stored(EnumClass(name, cases)), value) <==> exists i :: 0 <= i < |cases| && LooseEq(value, cases[i])
  {
    InArrayIff(value, cases);
  }

  /** The comparison is loose: the string `"1"` passes an allowed list
      holding the int `1`, and an empty list allows nothing. */
  lemma LooseMembership(one: string)
    requires one == "1"
    ensures Allows(Listed([SInt(1)]), SStr(one))
    ensures !Allows(Listed([]), SStr(one))
  {
    assert StripLeading(one) == one;
    assert StripTrailing(one) == one;
    assert AllDigits(one);
    assert one[..0] == [] && DigitsValue([]) == 0;
    assert DigitsValue(one) == 1;
    assert IntegerNumeric(one) == Some(1);
    assert LooseEq(SStr(one), SInt(1));
    assert InArray(SStr(one), [SInt(1)]);
  }

  class Param {
    /** `key` and `type`; unset when the constructor was given no key. */
    var selected: Option<(ParamType, string)>
    var default: Value
    var allowed: AllowedValue

    /** `new Param(int:, float:, string:, array:, default:, allowed:)`. */
    constructor(intKey: Option<string>, floatKey: Option<string>, stringKey: Option<string>, arrayKey: Option<string>,
                default: Value, allowed: AllowedArg)
      ensures selected == Selected(intKey, floatKey, stringKey, arrayKey)
      ensures this.default == default
      ensures this.allowed == Stored(allowed)
    {
      if intKey.Some? {
        selected := Some((IntType, intKey.value));
      } else if floatKey.Some? {
        selected := Some((FloatType, floatKey.value));
      } else if stringKey.Some? {
        selected := Some((StringType, stringKey.value));
      } else if arrayKey.Some? {
        selected := Some((ArrayType, arrayKey.value));
      } else {
        selected := None;
      }
      this.default := default;
      if allowed.EnumClass? {
        this.allowed := Listed(allowed.caseValues);
      } else {
        this.allowed := allowed.a;
      }
    }

    /** `is_allowed($value)`. */
    predicate IsAllowed(value: Scalar)
      reads this
    {
      Allows(allowed, value)
    }
  }
}
