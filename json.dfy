/**
 * The values `JSON.parse` produces, and the JavaScript property reads and
 * `Object.keys` calls the checks perform on them. The parser itself is not
 * part of this model: a parsed document is an input, and a text that does
 * not parse (where `JSON.parse` throws) is an absent document.
 */
module Json {
  import opened Wrappers
  import opened Arrays
  import opened Strings

  /** A parsed JSON value. An object keeps its members in source order, duplicates included. */
  datatype Json =
    | JNull
    | JBool(b: bool)
    | JNumber(literal: string)
    | JString(s: string)
    | JArray(items: seq<Json>)
    | JObject(members: seq<(string, Json)>)

  function Name(m: (string, Json)): string {
    m.0
  }

  /**
   * The value `JSON.parse` keeps for `key`: a later duplicate overwrites an
   * earlier one, so it is the value of the last member with that name.
   */
  function Lookup(members: seq<(string, Json)>, key: string): (r: Option<Json>)
    ensures r.None? <==> forall i | 0 <= i < |members| :: members[i].0 != key
    ensures r.Some? ==> (key, r.value) in members
  {
    if |members| == 0 then None
    else
      var last := members[|members| - 1];
      if last.0 == key then Some(last.1) else Lookup(members[..|members| - 1], key)
  }

  /** A later member with the same name wins; a member with another name changes nothing. */
  lemma {:induction false} LookupLastWins(members: seq<(string, Json)>, name: string, value: Json, key: string)
    ensures Lookup(members + [(name, value)], key) == if name == key then Some(value) else Lookup(members, key)
  {
    var all := members + [(name, value)];
    assert all[..|all| - 1] == members;
  }

  /**
   * `Object.keys` of a parsed object: each name once, where it first
   * appeared (a duplicate updates the existing property in place). This is
   * JavaScript's order for names that are not array indices; JavaScript
   * lists index names (`"0"`, `"7"`) before the others, in numeric order.
   */
  function Keys(members: seq<(string, Json)>): (r: seq<string>)
    ensures NoDuplicates(r)
    ensures forall k :: k in r <==> Lookup(members, k).Some?
  {
    var names := Map(members, Name);
    assert forall k :: k in names <==> exists i | 0 <= i < |members| :: members[i].0 == k;
    UniqueValues(names)
  }

  /**
   * `v[key]` where `v` is the value of an expression that may be undefined
   * (`None`): reading a property of `undefined` or `null` throws a
   * TypeError, and a missing member of an object is undefined. For every
   * other value the model reads undefined; JavaScript would give an array's
   * element or a string's character for an index key, and `length`.
   */
  function Member(v: Option<Json>, key: string): (r: Eval<Option<Json>>)
    ensures r.Throws? <==> v.None? || v == Some(JNull)
    ensures v.Some? && v.value.JObject? ==> r == Returns(Lookup(v.value.members, key))
  {
    match v
    case None => Throws
    case Some(JNull) => Throws
    case Some(JObject(members)) => Returns(Lookup(members, key))
    case Some(_) => Returns(None)
  }

  /** `Member` after an expression that may itself have thrown. */
  function MemberOf(e: Eval<Option<Json>>, key: string): (r: Eval<Option<Json>>)
    ensures e.Throws? ==> r.Throws?
    ensures e.Returns? ==> r == Member(e.value, key)
  {
    match e
    case Throws => Throws
    case Returns(v) => Member(v, key)
  }

  /**
   * `Object.keys(v)`: throws for `undefined` and `null`, and gives the
   * member names of an object. For every other value the model gives no
   * names; JavaScript would list the indices of an array or a string.
   */
  function ObjectKeys(v: Option<Json>): (r: Eval<seq<string>>)
    ensures r.Throws? <==> v.None? || v == Some(JNull)
    ensures v.Some? && v.value.JObject? ==> r == Returns(Keys(v.value.members))
  {
    match v
    case None => Throws
    case Some(JNull) => Throws
    case Some(JObject(members)) => Returns(Keys(members))
    case Some(_) => Returns([])
  }

  /** The expression returned an object. */
  predicate ReturnsObject(e: Eval<Option<Json>>) {
    e.Returns? && e.value.Some? && e.value.value.JObject?
  }

  function ObjectMembers(e: Eval<Option<Json>>): seq<(string, Json)>
    requires ReturnsObject(e)
  {
    e.value.value.members
  }

  /** JavaScript truthiness of a value that may be undefined. */
  predicate Truthy(v: Option<Json>) {
    match v
    case None => false
    case Some(JNull) => false
    case Some(JBool(b)) => b
    case Some(JNumber(literal)) => !IsZeroLiteral(literal)
    case Some(JString(s)) => s != ""
    case Some(_) => true
  }

  /** A number literal whose value is zero: only signs, zeros and a point before any exponent (`0`, `-0`, `0.00`, `0e5`). */
  predicate IsZeroLiteral(literal: string) {
    var mantissa := BeforeExponent(literal);
    forall i | 0 <= i < |mantissa| :: mantissa[i] in "-0."
  }

  function BeforeExponent(literal: string): (r: string)
    ensures |r| <= |literal| && r == literal[..|r|]
  {
    if |literal| == 0 || literal[0] in "eE" then "" else [literal[0]] + BeforeExponent(literal[1..])
  }

  /**
   * What a value becomes inside a template literal: `undefined`, `null`,
   * booleans and strings as JavaScript writes them, a number as its
   * literal (JavaScript would print the number's canonical text instead,
   * `1.5` for `1.50`), an array as its items joined by `,` (a null item
   * gives nothing), and an object as `[object Object]`.
   */
  function TemplateText(v: Option<Json>): (r: string)
    ensures v.None? ==> r == "undefined"
    ensures v == Some(JNull) ==> r == "null"
    ensures v.Some? && v.value.JString? ==> r == v.value.s
  {
    match v
    case None => "undefined"
    case Some(j) => ValueText(j)
  }

  function ValueText(j: Json): string
    decreases j
  {
    match j
    case JNull => "null"
    case JBool(b) => if b then "true" else "false"
    case JNumber(literal) => literal
    case JString(s) => s
    case JArray(items) => Join(seq(|items|, i requires 0 <= i < |items| => if items[i].JNull? then "" else ValueText(items[i])), ",")
    case JObject(_) => "[object Object]"
  }

  /** A name is an own key exactly when the object has a member with that name. */
  lemma KeysAreMemberNames(members: seq<(string, Json)>, k: string)
    ensures k in Keys(members) <==> exists i | 0 <= i < |members| :: members[i].0 == k
  {
  }

  /** The model lists keys in the order of their first appearance in the document. */
  lemma KeysInDocumentOrder(members: seq<(string, Json)>)
    ensures InFirstOccurrenceOrder(Map(members, Name), Keys(members))
  {
    UniqueValuesFirstOccurrenceOrder(Map(members, Name));
  }
}
