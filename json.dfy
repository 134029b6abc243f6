/**
 * The parsed document as Jackson's JsonNode tree, and the JsonNode accessors
 * the parser uses (path, has, asText, isArray/size/get).  Object fields keep
 * their document order.  The same datatype carries the example values the
 * parser builds (Java Map/List/String/Long/Double/Boolean), where JNull is
 * Java's null.
 */
module Json {
  import opened Wrappers
  import opened JavaString

  datatype Json =
    | JNull
    | JBool(b: bool)
    | JInt(i: int)         // an integral number node
    | JNum(lit: string)    // a floating-point number node, kept as its literal text
    | JStr(s: string)
    | JArr(items: seq<Json>)
    | JObj(fields: seq<(string, Json)>)

  /** The value of the first field named `key`. */
  function Lookup(fields: seq<(string, Json)>, key: string): Option<Json> {
    if fields == [] then None
    else if fields[0].0 == key then Some(fields[0].1)
    else Lookup(fields[1..], key)
  }

  /** Lookup finds a field exactly when one carries the key, and then the first such. */
  lemma {:induction false} LookupFinds(fields: seq<(string, Json)>, key: string)
    ensures Lookup(fields, key).Some? <==> exists i :: 0 <= i < |fields| && fields[i].0 == key
    ensures Lookup(fields, key).Some? ==>
      exists i :: 0 <= i < |fields| && fields[i] == (key, Lookup(fields, key).value) &&
        forall j :: 0 <= j < i ==> fields[j].0 != key
  {
    if fields != [] && fields[0].0 != key {
      LookupFinds(fields[1..], key);
      if Lookup(fields, key).Some? {
        var i :| 0 <= i < |fields[1..]| && fields[1..][i] == (key, Lookup(fields, key).value) &&
          forall j :: 0 <= j < i ==> fields[1..][j].0 != key;
        assert fields[i + 1] == (key, Lookup(fields, key).value);
        forall j | 0 <= j < i + 1
          ensures fields[j].0 != key
        {
          if j > 0 { assert fields[j] == fields[1..][j - 1]; }
        }
      } else {
        forall i | 0 <= i < |fields|
          ensures fields[i].0 != key
        {
          if i > 0 { assert fields[i] == fields[1..][i - 1]; }
        }
      }
    }
  }

  /** node.path(key) / node.get(key): a missing node is None; non-objects have no fields. */
  function Get(n: Json, key: string): Option<Json> {
    if n.JObj? then Lookup(n.fields, key) else None
  }

  /** path(key) applied to a node that may itself be missing. */
  function Path(o: Option<Json>, key: string): Option<Json> {
    if o.Some? then Get(o.value, key) else None
  }

  /** node.has(key). */
  predicate Has(n: Json, key: string) {
    Get(n, key).Some?
  }

  /** !node.isMissingNode() && !node.isNull(). */
  predicate Present(o: Option<Json>) {
    o.Some? && !o.value.JNull?
  }

  /** node.isArray() && node.size() > 0. */
  predicate IsNonEmptyArray(o: Option<Json>) {
    o.Some? && o.value.JArr? && |o.value.items| > 0
  }

  /** The text of a present, non-null node: asText() of a value node, "" of a container. */
  function NodeText(n: Json): string
    requires !n.JNull?
  {
    match n
    case JBool(b) => if b then "true" else "false"
    case JInt(i) => IntToString(i)
    case JNum(lit) => lit
    case JStr(s) => s
    case _ => ""
  }

  /** node.asText(default): the default for a missing or null node. */
  function AsText(o: Option<Json>, default: string): (r: string)
    ensures !Present(o) ==> r == default
    ensures o.Some? && o.value.JStr? ==> r == o.value.s
  {
    if Present(o) then NodeText(o.value) else default
  }

  /** node.asText(null): None for a missing or null node. */
  function AsTextOrNull(o: Option<Json>): (r: Option<string>)
    ensures r.Some? <==> Present(o)
  {
    if Present(o) then Some(NodeText(o.value)) else None
  }

  // ----- size and texts: the termination measure of the schema walk -----

  function Size(n: Json): nat {
    match n
    case JArr(items) => 1 + SizeItems(items)
    case JObj(fields) => 1 + SizeFields(fields)
    case _ => 1
  }

  function SizeItems(items: seq<Json>): nat {
    if items == [] then 0 else Size(items[0]) + SizeItems(items[1..])
  }

  function SizeFields(fields: seq<(string, Json)>): nat {
    if fields == [] then 0 else SizeField(fields[0]) + SizeFields(fields[1..])
  }

  function SizeField(f: (string, Json)): nat {
    1 + Size(f.1)
  }

  function SizeOpt(o: Option<Json>): nat {
    if o.Some? then Size(o.value) else 0
  }

  /** Every text asText("") can read anywhere in the tree. */
  function Texts(n: Json): set<string> {
    match n
    case JArr(items) => {""} + TextsItems(items)
    case JObj(fields) => {""} + TextsFields(fields)
    case JNull => {""}
    case _ => {NodeText(n)}
  }

  function TextsItems(items: seq<Json>): set<string> {
    if items == [] then {} else Texts(items[0]) + TextsItems(items[1..])
  }

  function TextsFields(fields: seq<(string, Json)>): set<string> {
    if fields == [] then {} else TextsField(fields[0]) + TextsFields(fields[1..])
  }

  function TextsField(f: (string, Json)): set<string> {
    Texts(f.1)
  }

  function TextsOpt(o: Option<Json>): set<string> {
    if o.Some? then Texts(o.value) else {}
  }

  lemma {:induction false} AsTextInTexts(n: Json)
    ensures AsText(Some(n), "") in Texts(n)
  {
  }

  lemma {:induction false} LookupShrinks(fields: seq<(string, Json)>, key: string)
    ensures Lookup(fields, key).Some? ==>
      Size(Lookup(fields, key).value) < SizeFields(fields) &&
      Texts(Lookup(fields, key).value) <= TextsFields(fields)
  {
    if fields != [] && fields[0].0 != key {
      LookupShrinks(fields[1..], key);
    }
  }

  /** A child reached through path(key) is smaller than its parent, and reads no new text. */
  lemma GetShrinks(n: Json, key: string)
    ensures Get(n, key).Some? ==>
      Size(Get(n, key).value) < Size(n) && Texts(Get(n, key).value) <= Texts(n)
  {
    if n.JObj? {
      LookupShrinks(n.fields, key);
    }
  }

  lemma {:induction false} FirstItemShrinks(items: seq<Json>)
    requires items != []
    ensures Size(items[0]) < Size(JArr(items)) && Texts(items[0]) <= Texts(JArr(items))
  {
  }

  // ----- LinkedHashMap -----

  /** LinkedHashMap.put: a new key goes last; an existing key keeps its place and takes the new value. */
  function Put(m: seq<(string, Json)>, key: string, v: Json): (r: seq<(string, Json)>)
    ensures Lookup(r, key) == Some(v)
    ensures forall k :: k != key ==> Lookup(r, k) == Lookup(m, k)
    ensures Lookup(m, key).None? ==> r == m + [(key, v)]
    ensures Lookup(m, key).Some? ==> |r| == |m| && forall i :: 0 <= i < |m| ==> r[i].0 == m[i].0
  {
    if m == [] then [(key, v)]
    else if m[0].0 == key then [(key, v)] + m[1..]
    else [m[0]] + Put(m[1..], key, v)
  }

  function Keys(m: seq<(string, Json)>): (r: seq<string>)
    ensures |r| == |m| && forall i :: 0 <= i < |m| ==> r[i] == m[i].0
  {
    if m == [] then [] else [m[0].0] + Keys(m[1..])
  }
}
