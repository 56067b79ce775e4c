/** The partial-update builder of `updateProduct`: a `SET` clause per supplied
    field, an alias for the attribute `name`, and a placeholder value per
    supplied field.  The builder itself is the method `BuildUpdate`; the
    functions below specify what it produces, and the lemmas show that the
    expression reads back as exactly the clauses that were built. */
module UpdateExpression {
  import opened Optional
  import opened JsValue

  const NameClause := "#name = :name"
  const PriceClause := "price = :price"
  const Separator := ", "
  const SetKeyword := "SET "

  /** The clause list, one clause per supplied field, the name clause first. */
  function Clauses(name: Value, price: Value): (cs: seq<string>)
    ensures NameClause in cs <==> Supplied(name)
    ensures PriceClause in cs <==> Supplied(price)
    ensures forall c :: c in cs ==> c == NameClause || c == PriceClause
    ensures |cs| == (if Supplied(name) then 1 else 0) + (if Supplied(price) then 1 else 0)
    ensures Supplied(name) ==> cs[0] == NameClause
    ensures cs == [] <==> !Supplied(name) && !Supplied(price)
  {
    (if Supplied(name) then [NameClause] else []) + (if Supplied(price) then [PriceClause] else [])
  }

  /** The total length of the clauses. */
  function ClauseLength(cs: seq<string>): nat
  {
    if cs == [] then 0 else |cs[0]| + ClauseLength(cs[1..])
  }

  /** `Array.prototype.join(", ")` on the clause list: the clauses with one
      separator between each two neighbours and none at either end. */
  function JoinClauses(cs: seq<string>): (s: string)
    ensures cs != [] ==> |s| == ClauseLength(cs) + |Separator| * (|cs| - 1)
    ensures cs != [] ==> s[..|cs[0]|] == cs[0]
    ensures cs == [] ==> s == ""
  {
    if cs == [] then ""
    else if |cs| == 1 then cs[0]
    else cs[0] + Separator + JoinClauses(cs[1..])
  }

  /** The `UpdateExpression`: `SET ` followed by the joined clauses.  Once a
      field is supplied it reads back as exactly the clauses of the supplied
      fields, which are never empty. */
  function Expression(name: Value, price: Value): (e: string)
    ensures |e| >= |SetKeyword| && e[..|SetKeyword|] == SetKeyword
    ensures Supplied(name) || Supplied(price) ==> ParseSet(e) == Some(Clauses(name, price))
  {
    var cs := Clauses(name, price);
    var e := SetKeyword + JoinClauses(cs);
    assert e[|SetKeyword|..] == JoinClauses(cs);
    if cs == [] then e
    else
      assert ',' !in NameClause && ',' !in PriceClause;
      SplitJoin(cs);
      e
  }

  /** `ExpressionAttributeNames` as the builder fills it: the alias `#name`
      for the attribute `name`, present only when `name` was supplied. */
  function AttributeNames(name: Value): (m: map<string, string>)
    ensures "#name" in m <==> Supplied(name)
    ensures forall k :: k in m ==> k == "#name" && m[k] == "name"
  {
    if Supplied(name) then map["#name" := "name"] else map[]
  }

  /** `ExpressionAttributeValues` as the builder fills it: `:name` and `:price`
      bound to the supplied values, and nothing else. */
  function AttributeValues(name: Value, price: Value): (m: map<string, Value>)
    ensures ":name" in m <==> Supplied(name)
    ensures ":price" in m <==> Supplied(price)
    ensures ":name" in m ==> m[":name"] == name
    ensures ":price" in m ==> m[":price"] == price
    ensures m.Keys <= {":name", ":price"}
  {
    var withName := if Supplied(name) then map[":name" := name] else map[];
    if Supplied(price) then withName[":price" := price] else withName
  }

  /** The builder as the handler runs it: an array of clauses pushed to and two
      dictionaries assigned into, field by field, then the clauses joined. */
  method BuildUpdate(name: Value, price: Value)
    returns (expression: string, names: map<string, string>, values: map<string, Value>)
    ensures expression == Expression(name, price)
    ensures names == AttributeNames(name)
    ensures values == AttributeValues(name, price)
  {
    var updateExpressions: seq<string> := [];
    names := map[];
    values := map[];
    if name != Undefined {
      updateExpressions := updateExpressions + [NameClause];
      names := names["#name" := "name"];
      values := values[":name" := name];
    }
    if price != Undefined {
      updateExpressions := updateExpressions + [PriceClause];
      values := values[":price" := price];
    }
    assert updateExpressions == Clauses(name, price);
    expression := SetKeyword + JoinClauses(updateExpressions);
  }

  /** Reading an expression back: cut at every `", "`, left to right.  This is
      the inverse of `JoinClauses` on non-empty lists of clauses that hold
      no comma. */
  function SplitClauses(s: string): (cs: seq<string>)
    ensures |cs| >= 1
    decreases |s|
  {
    if |s| < 2 then [s]
    else if s[..2] == Separator then [""] + SplitClauses(s[2..])
    else
      var rest := SplitClauses(s[1..]);
      [[s[0]] + rest[0]] + rest[1..]
  }

  /** The clause list of a `SET` expression, or None if it is not one. */
  function ParseSet(e: string): Option<seq<string>>
  {
    if |e| >= |SetKeyword| && e[..|SetKeyword|] == SetKeyword
    then Some(SplitClauses(e[|SetKeyword|..]))
    else None
  }

  /** A clause with no comma is read back whole. */
  lemma {:induction false} SplitCommaFree(c: string)
    requires ',' !in c
    ensures SplitClauses(c) == [c]
  {
    if |c| >= 2 {
      assert c[0] in c;
      assert forall i :: 0 <= i < |c[1..]| ==> c[1..][i] in c;
      SplitCommaFree(c[1..]);
      assert [c[0]] + c[1..] == c;
    }
  }

  /** A comma-free clause followed by the separator is cut off exactly there. */
  lemma {:induction false} SplitAfterClause(c: string, t: string)
    requires ',' !in c
    ensures SplitClauses(c + Separator + t) == [c] + SplitClauses(t)
  {
    var s := c + Separator + t;
    if c == [] {
      assert s[..2] == Separator && s[2..] == t;
    } else {
      assert s[0] == c[0] && c[0] in c;
      assert s[..2] != Separator;
      assert forall i :: 0 <= i < |c[1..]| ==> c[1..][i] in c;
      assert s[1..] == c[1..] + Separator + t;
      SplitAfterClause(c[1..], t);
      assert [c[0]] + c[1..] == c;
    }
  }

  /** Splitting undoes joining, for a non-empty list of comma-free clauses. */
  lemma {:induction false} SplitJoin(cs: seq<string>)
    requires cs != []
    requires forall c :: c in cs ==> ',' !in c
    ensures SplitClauses(JoinClauses(cs)) == cs
  {
    if |cs| == 1 {
      SplitCommaFree(cs[0]);
    } else {
      assert cs[0] in cs;
      assert forall c :: c in cs[1..] ==> c in cs;
      SplitAfterClause(cs[0], JoinClauses(cs[1..]));
      SplitJoin(cs[1..]);
      assert [cs[0]] + cs[1..] == cs;
    }
  }

  /** Every placeholder the clauses use is bound, and every binding is used:
      `#name` and `:name` exactly when the name clause is present, `:price`
      exactly when the price clause is. */
  lemma PlaceholdersMatchClauses(name: Value, price: Value)
    ensures "#name" in AttributeNames(name) <==> NameClause in Clauses(name, price)
    ensures ":name" in AttributeValues(name, price) <==> NameClause in Clauses(name, price)
    ensures ":price" in AttributeValues(name, price) <==> PriceClause in Clauses(name, price)
  {
  }
}
