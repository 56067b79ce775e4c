/** JavaScript values as the request handlers see them, and the two
    presence tests the handlers apply to them. */
module JsValue {
  import opened Optional

  /** A field of a parsed request body.  `Undefined` is a field that is absent;
      numbers are taken as reals (a finite JavaScript number, with -0 and 0
      coinciding) plus the one non-finite value that matters for truthiness. */
  datatype Value =
    | Undefined
    | Null
    | Bool(b: bool)
    | Num(x: real)
    | NaN
    | Str(s: string)
    | Obj(handle: nat)   // an object or array, compared by identity

  /** The falsy values a parsed request body can carry.  ToBoolean (section
      7.1.2 of ECMA-262) also makes -0 and 0n falsy; -0 is `Num(0.0)` here, and
      a parsed body holds no BigInt. */
  const FalsyValues: set<Value> := {Undefined, Null, Bool(false), Num(0.0), NaN, Str("")}

  /** JavaScript's ToBoolean (section 7.1.2 of ECMA-262), the negation of
      `!v`: false exactly for undefined, null, false, 0, NaN and "", so that
      `!v` is true exactly for those values. */
  predicate Truthy(v: Value)
    ensures Truthy(v) <==> v !in FalsyValues
  {
    match v
    case Undefined => false
    case Null => false
    case Bool(b) => b
    case Num(x) => x != 0.0
    case NaN => false
    case Str(s) => s != ""
    case Obj(_) => true
  }

  /** The test `v !== undefined`: the field was supplied, whatever its value. */
  predicate Supplied(v: Value)
    ensures Truthy(v) ==> Supplied(v)
  {
    v != Undefined
  }

  /** `!id` on a route parameter, which Express gives as a string or not at all. */
  predicate IdPresent(id: Option<string>)
    ensures IdPresent(id) <==> Truthy(if id.Some? then Str(id.value) else Undefined)
  {
    id.Some? && id.value != ""
  }

  /** Truthiness is strictly stronger than being supplied: every truthy value is
      supplied, and exactly the five falsy values other than undefined are
      supplied but not truthy. */
  lemma TruthyVersusSupplied(v: Value)
    ensures Truthy(v) ==> Supplied(v)
    ensures Supplied(v) && !Truthy(v) <==>
            v == Null || v == Bool(false) || v == Num(0.0) || v == NaN || v == Str("")
  {
  }
}
