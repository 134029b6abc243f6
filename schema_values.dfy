/**
 * SwaggerParser's example-value builder: from a schema node to an example
 * value tree (buildValueFromOpenApi3Schema / buildValueFromSwagger2Schema,
 * scalarFromSchema, scalarFromParam, pickExample, jsonNodeToJava, lastRefName).
 *
 * `Build` is the specification; `BuildValue` is the imperative walk with a
 * shared, mutable ref stack (add on the way down, remove on the way up, a copy
 * per property), proved equal to it.
 */
module SchemaValues {
  import opened Wrappers
  import opened JavaString
  import opened Json

  /** OpenAPI 3 resolves `$ref` under components.schemas and follows allOf/oneOf/anyOf; Swagger 2 resolves under definitions. */
  datatype Flavor = OpenApi3 | Swagger2

  /** `List.of(null)` throws; it is the only exception the walk can raise. */
  const NullPointer: string := "NullPointerException"

  /** An object schema nested deeper than this yields an empty map. */
  const MaxObjectDepth: int := 8

  // ----- jsonNodeToJava -----

  predicate InLongRange(i: int) {
    -0x8000_0000_0000_0000 <= i < 0x8000_0000_0000_0000
  }

  /**
   * jsonNodeToJava: a node becomes the matching Java value.  An integer too
   * large for a long is a BigInteger node, which falls through to asText()
   * and so becomes its decimal string.
   */
  function ToValue(n: Json): Json {
    match n
    case JInt(i) => if InLongRange(i) then n else JStr(IntToString(i))
    case JArr(items) => JArr(ToValueItems(items))
    case JObj(fields) => JObj(ToValueFields(fields))
    case _ => n
  }

  function ToValueItems(items: seq<Json>): (r: seq<Json>)
    ensures |r| == |items|
  {
    if items == [] then [] else [ToValue(items[0])] + ToValueItems(items[1..])
  }

  function ToValueFields(fields: seq<(string, Json)>): (r: seq<(string, Json)>)
    ensures Keys(r) == Keys(fields)
  {
    if fields == [] then [] else [ToValueField(fields[0])] + ToValueFields(fields[1..])
  }

  function ToValueField(f: (string, Json)): (string, Json) {
    (f.0, ToValue(f.1))
  }

  /** Every integer in the tree fits in a Java long. */
  predicate LongsOnly(n: Json) {
    match n
    case JInt(i) => InLongRange(i)
    case JArr(items) => LongsOnlyItems(items)
    case JObj(fields) => LongsOnlyFields(fields)
    case _ => true
  }

  predicate LongsOnlyItems(items: seq<Json>) {
    items != [] ==> LongsOnly(items[0]) && LongsOnlyItems(items[1..])
  }

  predicate LongsOnlyFields(fields: seq<(string, Json)>) {
    fields != [] ==> LongsOnlyField(fields[0]) && LongsOnlyFields(fields[1..])
  }

  predicate LongsOnlyField(f: (string, Json)) {
    LongsOnly(f.1)
  }

  /** jsonNodeToJava copies the tree verbatim, unless an integer exceeds a long. */
  lemma {:induction false} ToValueCopies(n: Json)
    requires LongsOnly(n)
    ensures ToValue(n) == n
  {
    match n
    case JArr(items) => ToValueCopiesItems(items);
    case JObj(fields) => ToValueCopiesFields(fields);
    case _ =>
  }

  lemma {:induction false} ToValueCopiesItems(items: seq<Json>)
    requires LongsOnlyItems(items)
    ensures ToValueItems(items) == items
  {
    if items != [] {
      ToValueCopies(items[0]);
      ToValueCopiesItems(items[1..]);
    }
  }

  lemma {:induction false} ToValueCopiesFields(fields: seq<(string, Json)>)
    requires LongsOnlyFields(fields)
    ensures ToValueFields(fields) == fields
  {
    if fields != [] {
      ToValueCopiesField(fields[0]);
      ToValueCopiesFields(fields[1..]);
    }
  }

  lemma {:induction false} ToValueCopiesField(f: (string, Json))
    requires LongsOnlyField(f)
    ensures ToValueField(f) == f
  {
    ToValueCopies(f.1);
  }

  /** What jsonNodeToJava returns always fits a long, so converting twice changes nothing. */
  lemma {:induction false} ToValueLongsOnly(n: Json)
    ensures LongsOnly(ToValue(n))
  {
    match n
    case JArr(items) => ToValueLongsOnlyItems(items);
    case JObj(fields) => ToValueLongsOnlyFields(fields);
    case _ =>
  }

  lemma {:induction false} ToValueLongsOnlyItems(items: seq<Json>)
    ensures LongsOnlyItems(ToValueItems(items))
  {
    if items != [] {
      ToValueLongsOnly(items[0]);
      ToValueLongsOnlyItems(items[1..]);
      assert ToValueItems(items)[1..] == ToValueItems(items[1..]);
    }
  }

  lemma {:induction false} ToValueLongsOnlyFields(fields: seq<(string, Json)>)
    ensures LongsOnlyFields(ToValueFields(fields))
  {
    if fields != [] {
      ToValueLongsOnlyField(fields[0]);
      ToValueLongsOnlyFields(fields[1..]);
      assert ToValueFields(fields)[1..] == ToValueFields(fields[1..]);
    }
  }

  lemma {:induction false} ToValueLongsOnlyField(f: (string, Json))
    ensures LongsOnlyField(ToValueField(f))
  {
    ToValueLongsOnly(f.1);
  }

  // ----- lastRefName -----

  /** Java's split on "/" before trailing empty pieces are dropped: every piece between slashes. */
  function SplitSlashes(s: string): (r: seq<string>)
    ensures |r| > 0
  {
    if '/' !in s then [s]
    else
      var i := IndexOfSlash(s);
      [s[..i]] + SplitSlashes(s[i + 1..])
  }

  function IndexOfSlash(s: string): (i: nat)
    requires '/' in s
    ensures i < |s| && s[i] == '/' && '/' !in s[..i]
  {
    if s[0] == '/' then 0 else 1 + IndexOfSlash(s[1..])
  }

  function DropTrailingEmpty(parts: seq<string>): (r: seq<string>)
    ensures r <= parts
    ensures r == [] || r[|r| - 1] != ""
  {
    if parts == [] || parts[|parts| - 1] != "" then parts
    else DropTrailingEmpty(parts[..|parts| - 1])
  }

  /** String.split("/"): the input itself when it holds no slash, else the pieces without trailing empties. */
  function JavaSplitSlash(s: string): seq<string> {
    if '/' !in s then [s] else DropTrailingEmpty(SplitSlashes(s))
  }

  /** lastRefName: the last element of ref.split("/"), or "" when there is none. */
  function LastRefName(ref: string): string {
    var parts := JavaSplitSlash(ref);
    if |parts| > 0 then parts[|parts| - 1] else ""
  }

  /** Everything after the last slash of `s`. */
  function AfterLastSlash(s: string): (r: string)
    ensures '/' !in r
  {
    if '/' !in s then s else AfterLastSlash(s[IndexOfSlash(s) + 1..])
  }

  /** `s` without its trailing run of slashes. */
  function StripTrailingSlashes(s: string): (r: string)
    ensures r <= s
    ensures r == [] || r[|r| - 1] != '/'
  {
    if s != [] && s[|s| - 1] == '/' then StripTrailingSlashes(s[..|s| - 1]) else s
  }

  lemma {:induction false} SplitSlashesLast(s: string)
    ensures SplitSlashes(s)[|SplitSlashes(s)| - 1] == AfterLastSlash(s)
  {
    if '/' in s {
      SplitSlashesLast(s[IndexOfSlash(s) + 1..]);
    }
  }

  lemma {:induction false} SplitSlashesAppendSlash(s: string)
    ensures SplitSlashes(s + "/") == SplitSlashes(s) + [""]
  {
    var t := s + "/";
    IndexOfSlashPrefix(s, "/");
    if '/' in s {
      var i := IndexOfSlash(s);
      assert IndexOfSlash(t) == i;
      assert t[..i] == s[..i];
      var rest := s[i + 1..];
      assert t[i + 1..] == rest + "/";
      SplitSlashesAppendSlash(rest);
      calc {
        SplitSlashes(t);
        [s[..i]] + SplitSlashes(rest + "/");
        [s[..i]] + (SplitSlashes(rest) + [""]);
        ([s[..i]] + SplitSlashes(rest)) + [""];
      }
    } else {
      assert IndexOfSlash(t) == |s|;
      assert t[..|s|] == s;
      assert t[|s| + 1..] == "";
      assert '/' !in "";
    }
  }

  lemma {:induction false} IndexOfSlashPrefix(s: string, t: string)
    requires '/' in t
    ensures '/' in s + t
    ensures '/' in s ==> IndexOfSlash(s + t) == IndexOfSlash(s)
    ensures '/' !in s ==> IndexOfSlash(s + t) == |s| + IndexOfSlash(t)
  {
    assert (s + t)[|s| + IndexOfSlash(t)] == '/';
    if s != [] {
      if s[0] != '/' {
        assert (s + t)[1..] == s[1..] + t;
        IndexOfSlashPrefix(s[1..], t);
      }
    }
  }

  /**
   * lastRefName is the last slash-free segment that is not empty: trailing
   * slashes are ignored (Java's split drops trailing empty strings), and a
   * reference made only of slashes has no name.
   */
  lemma {:induction false} LastRefNameIsLastSegment(ref: string)
    ensures LastRefName(ref) == AfterLastSlash(StripTrailingSlashes(ref))
    ensures '/' !in LastRefName(ref)
  {
    if '/' !in ref {
      assert StripTrailingSlashes(ref) == ref;
    } else {
      LastSegmentOfSplit(ref);
    }
  }

  lemma {:induction false} LastSegmentOfSplit(s: string)
    ensures var d := DropTrailingEmpty(SplitSlashes(s));
      (if |d| > 0 then d[|d| - 1] else "") == AfterLastSlash(StripTrailingSlashes(s))
    decreases |s|
  {
    if s != [] && s[|s| - 1] == '/' {
      var t := s[..|s| - 1];
      assert s == t + "/";
      SplitSlashesAppendSlash(t);
      assert SplitSlashes(s)[..|SplitSlashes(s)| - 1] == SplitSlashes(t);
      assert DropTrailingEmpty(SplitSlashes(s)) == DropTrailingEmpty(SplitSlashes(t));
      LastSegmentOfSplit(t);
    } else {
      SplitSlashesLast(s);
      if s == [] {
        assert SplitSlashes(s) == [""];
      } else {
        assert AfterLastSlash(s) != "" by { AfterLastSlashNonEmpty(s); }
      }
    }
  }

  lemma {:induction false} AfterLastSlashNonEmpty(s: string)
    requires s != [] && s[|s| - 1] != '/'
    ensures AfterLastSlash(s) != ""
    ensures AfterLastSlash(s)[|AfterLastSlash(s)| - 1] == s[|s| - 1]
  {
    if '/' in s {
      var i := IndexOfSlash(s);
      assert s[i + 1..][|s[i + 1..]| - 1] == s[|s| - 1];
      AfterLastSlashNonEmpty(s[i + 1..]);
    }
  }

  /** "#/components/schemas/Pet" and "#/definitions/Pet" both name "Pet". */
  lemma {:induction false} LastRefNameOfPath(prefix: string, name: string)
    requires name != "" && '/' !in name
    ensures LastRefName(prefix + "/" + name) == name
  {
    var s := prefix + "/" + name;
    LastRefNameIsLastSegment(s);
    assert StripTrailingSlashes(s) == s;
    AfterLastSlashOfSuffix(prefix, name);
  }

  lemma {:induction false} AfterLastSlashOfSuffix(prefix: string, name: string)
    requires '/' !in name
    ensures AfterLastSlash(prefix + "/" + name) == name
    decreases |prefix|
  {
    var s := prefix + "/" + name;
    assert s == prefix + ("/" + name);
    IndexOfSlashPrefix(prefix, "/" + name);
    var i := IndexOfSlash(s);
    if '/' in prefix {
      var j := IndexOfSlash(prefix);
      assert i == j;
      assert s[i + 1..] == prefix[j + 1..] + "/" + name;
      AfterLastSlashOfSuffix(prefix[j + 1..], name);
    } else {
      assert i == |prefix|;
      assert s[i + 1..] == name;
    }
  }

  // ----- pickExample, scalarFromSchema, scalarFromParam -----

  /** pickExample: a present, non-null `example` wins. */
  function PickExample(node: Json): (r: Option<Json>)
    ensures r.Some? <==> Present(Get(node, "example"))
  {
    var ex := Get(node, "example");
    if Present(ex) then Some(ToValue(ex.value)) else None
  }

  /** The example string a schema's `format` selects for `type: string`. */
  function StringForFormat(format: string): string {
    if format == "date-time" then "2026-01-31T12:00:00Z"
    else if format == "date" then "2026-01-31"
    else if format == "uuid" then "11111111-1111-1111-1111-111111111111"
    else if format == "email" then "user@example.com"
    else if format == "uri" || format == "url" then "https:/example.com/"
    else if format == "password" then "Passw0rd!"
    else "text"
  }

  /**
   * The two tables of example strings: a schema's `format` and a form
   * parameter's `format` select the same constants, except that only a
   * schema knows uri, url and password; every other format gives "text".
   */
  lemma FormatStrings(format: string)
    ensures format == "date-time" ==>
      StringForFormat(format) == ParamStringForFormat(format) == "2026-01-31T12:00:00Z"
    ensures format == "date" ==> StringForFormat(format) == ParamStringForFormat(format) == "2026-01-31"
    ensures format == "uuid" ==>
      StringForFormat(format) == ParamStringForFormat(format) == "11111111-1111-1111-1111-111111111111"
    ensures format == "email" ==> StringForFormat(format) == ParamStringForFormat(format) == "user@example.com"
    ensures format in {"uri", "url"} ==>
      StringForFormat(format) == "https:/example.com/" && ParamStringForFormat(format) == "text"
    ensures format == "password" ==> StringForFormat(format) == "Passw0rd!" && ParamStringForFormat(format) == "text"
    ensures format !in {"date-time", "date", "uuid", "email", "uri", "url", "password"} ==>
      StringForFormat(format) == ParamStringForFormat(format) == "text"
  {
  }

  /** scalarFromSchema: enum[0], then default, then a constant for the type and format. */
  function ScalarFromSchema(schema: Json): Json {
    var en := Get(schema, "enum");
    var def := Get(schema, "default");
    var ty := AsText(Get(schema, "type"), "");
    var format := AsText(Get(schema, "format"), "");
    if IsNonEmptyArray(en) then ToValue(en.value.items[0])
    else if Present(def) then ToValue(def.value)
    else if ty == "integer" then JInt(5)
    else if ty == "number" then JNum("1.5")
    else if ty == "boolean" then JBool(true)
    else if ty == "string" then JStr(StringForFormat(format))
    else JStr("text")
  }

  /** The example string a form parameter's `format` selects for `type: string` (no uri or password here). */
  function ParamStringForFormat(format: string): string {
    if format == "date-time" then "2026-01-31T12:00:00Z"
    else if format == "date" then "2026-01-31"
    else if format == "uuid" then "11111111-1111-1111-1111-111111111111"
    else if format == "email" then "user@example.com"
    else "text"
  }

  /** scalarFromParam: example, then enum[0], then default, then a constant for the type or format. */
  function ScalarFromParam(param: Json): Json {
    var en := Get(param, "enum");
    var def := Get(param, "default");
    var ty := AsText(Get(param, "type"), "");
    var format := AsText(Get(param, "format"), "");
    var example := PickExample(param);
    if example.Some? then example.value
    else if IsNonEmptyArray(en) then ToValue(en.value.items[0])
    else if Present(def) then ToValue(def.value)
    else if ty == "integer" || format == "int32" || format == "int64" then JInt(5)
    else if ty == "number" || format == "float" || format == "double" then JNum("1.5")
    else if ty == "boolean" then JBool(true)
    else if ty == "string" then JStr(ParamStringForFormat(format))
    else JStr("text")
  }

  /**
   * The synthesised scalars: the precedence enum > default > typed constant,
   * and the constant for each type.
   */
  lemma ScalarPrecedence(schema: Json)
    ensures IsNonEmptyArray(Get(schema, "enum")) ==>
      ScalarFromSchema(schema) == ToValue(Get(schema, "enum").value.items[0])
    ensures !IsNonEmptyArray(Get(schema, "enum")) && Present(Get(schema, "default")) ==>
      ScalarFromSchema(schema) == ToValue(Get(schema, "default").value)
    ensures !IsNonEmptyArray(Get(schema, "enum")) && !Present(Get(schema, "default")) ==>
      var ty := AsText(Get(schema, "type"), "");
      && (ty == "integer" ==> ScalarFromSchema(schema) == JInt(5))
      && (ty == "number" ==> ScalarFromSchema(schema) == JNum("1.5"))
      && (ty == "boolean" ==> ScalarFromSchema(schema) == JBool(true))
      && (ty !in {"integer", "number", "boolean"} ==> ScalarFromSchema(schema).JStr?)
      && (ty == "string" ==> ScalarFromSchema(schema) == JStr(StringForFormat(AsText(Get(schema, "format"), ""))))
      && (ty !in {"integer", "number", "boolean", "string"} ==> ScalarFromSchema(schema) == JStr("text"))
  {
  }

  /**
   * The scalar for a form parameter: an example wins, then enum[0], then
   * default, then a constant chosen by `type` or `format`.
   */
  lemma ParamScalarPrecedence(param: Json)
    ensures PickExample(param).Some? ==> ScalarFromParam(param) == PickExample(param).value
    ensures PickExample(param).None? && IsNonEmptyArray(Get(param, "enum")) ==>
      ScalarFromParam(param) == ToValue(Get(param, "enum").value.items[0])
    ensures PickExample(param).None? && !IsNonEmptyArray(Get(param, "enum")) && Present(Get(param, "default")) ==>
      ScalarFromParam(param) == ToValue(Get(param, "default").value)
    ensures PickExample(param).None? && !IsNonEmptyArray(Get(param, "enum")) && !Present(Get(param, "default")) ==>
      var ty := AsText(Get(param, "type"), "");
      var format := AsText(Get(param, "format"), "");
      var isInt := ty == "integer" || format == "int32" || format == "int64";
      var isNum := ty == "number" || format == "float" || format == "double";
      && (isInt ==> ScalarFromParam(param) == JInt(5))
      && (!isInt && isNum ==> ScalarFromParam(param) == JNum("1.5"))
      && (!isInt && !isNum && ty == "boolean" ==> ScalarFromParam(param) == JBool(true))
      && (!isInt && !isNum && ty == "string" && format == "date" ==> ScalarFromParam(param) == JStr("2026-01-31"))
      && (!isInt && !isNum && ty == "string" ==> ScalarFromParam(param) == JStr(ParamStringForFormat(format)))
      && (!isInt && !isNum && ty !in {"boolean", "string"} ==> ScalarFromParam(param) == JStr("text"))
  {
  }

  // ----- the walk -----

  /** The schema a `$ref` name resolves to. */
  function ResolveRef(flavor: Flavor, root: Json, name: string): Option<Json> {
    match flavor
    case OpenApi3 => Path(Path(Get(root, "components"), "schemas"), name)
    case Swagger2 => Path(Get(root, "definitions"), name)
  }

  /** The first member of the first non-empty allOf, oneOf or anyOf. */
  function FirstComposed(schema: Json): Option<Json> {
    var allOf := Get(schema, "allOf");
    var oneOf := Get(schema, "oneOf");
    var anyOf := Get(schema, "anyOf");
    if IsNonEmptyArray(allOf) then Some(allOf.value.items[0])
    else if IsNonEmptyArray(oneOf) then Some(oneOf.value.items[0])
    else if IsNonEmptyArray(anyOf) then Some(anyOf.value.items[0])
    else None
  }

  /** The ref-stack key of a schema: `$ref` read with asText(""). */
  function RefKey(schema: Json): string {
    AsText(Get(schema, "$ref"), "")
  }

  predicate IsObjectSchema(schema: Json) {
    AsText(Get(schema, "type"), "") == "object" || Has(schema, "properties")
  }

  predicate IsArraySchema(schema: Json) {
    AsText(Get(schema, "type"), "") == "array"
  }

  /** The texts not yet on the ref stack: each `$ref` followed removes one. */
  function Unvisited(root: Json, texts: set<string>, stack: set<string>): nat {
    |(Texts(root) + texts) - stack|
  }

  lemma {:induction false} UnvisitedMono(root: Json, t1: set<string>, t2: set<string>, stack: set<string>)
    requires t1 <= t2
    ensures Unvisited(root, t1, stack) <= Unvisited(root, t2, stack)
  {
    var a := (Texts(root) + t1) - stack;
    var b := (Texts(root) + t2) - stack;
    assert b == a + (b - a);
  }

  lemma {:induction false} UnvisitedShrinks(root: Json, t1: set<string>, t2: set<string>, stack: set<string>, key: string)
    requires t1 <= Texts(root) && key in t2 && key !in stack
    ensures Unvisited(root, t1, stack + {key}) < Unvisited(root, t2, stack)
  {
    var a := (Texts(root) + t1) - (stack + {key});
    var b := (Texts(root) + t2) - stack;
    assert a + {key} <= b;
    assert b == (a + {key}) + (b - (a + {key}));
  }

  lemma {:induction false} ResolveRefInRoot(flavor: Flavor, root: Json, name: string)
    ensures TextsOpt(ResolveRef(flavor, root, name)) <= Texts(root)
  {
    GetShrinks(root, "components");
    GetShrinks(root, "definitions");
    var c := Get(root, "components");
    if c.Some? {
      GetShrinks(c.value, "schemas");
      var s := Get(c.value, "schemas");
      if s.Some? { GetShrinks(s.value, name); }
    }
    var d := Get(root, "definitions");
    if d.Some? { GetShrinks(d.value, name); }
  }

  lemma {:induction false} RefKeyInTexts(schema: Json)
    requires Has(schema, "$ref")
    ensures RefKey(schema) in Texts(schema)
  {
    GetShrinks(schema, "$ref");
    AsTextInTexts(Get(schema, "$ref").value);
  }

  lemma {:induction false} FirstComposedShrinks(schema: Json)
    ensures FirstComposed(schema).Some? ==>
      Size(FirstComposed(schema).value) < Size(schema) &&
      Texts(FirstComposed(schema).value) <= Texts(schema)
  {
    GetShrinks(schema, "allOf");
    GetShrinks(schema, "oneOf");
    GetShrinks(schema, "anyOf");
    var a := Get(schema, "allOf");
    var o := Get(schema, "oneOf");
    var y := Get(schema, "anyOf");
    if IsNonEmptyArray(a) { FirstItemShrinks(a.value.items); }
    if IsNonEmptyArray(o) { FirstItemShrinks(o.value.items); }
    if IsNonEmptyArray(y) { FirstItemShrinks(y.value.items); }
  }

  /** The branch the walk takes for a schema, in the order the code tries them. */
  datatype Step =
    | NoSchema                                      // missing or null: "text"
    | UseExample(example: Json)                     // pickExample found one
    | Cycle                                         // the $ref is already on this descent: empty map
    | FollowRef(key: string, target: Option<Json>)  // resolve the $ref one level deeper
    | Compose(first: Json)                          // OpenAPI 3 allOf/oneOf/anyOf: the first member
    | TooDeep                                       // object beyond depth 8: empty map
    | Properties(fields: seq<(string, Json)>)       // object with a properties object
    | NoProperties                                  // object without one: empty map
    | Items(items: Option<Json>)                    // array
    | Scalar                                        // scalarFromSchema

  /**
   * Which branch buildValueFrom{OpenApi3,Swagger2}Schema takes.  Every
   * recursive branch goes to a smaller schema, or (for a `$ref`) adds a
   * text of the document to the stack.
   */
  function StepOf(flavor: Flavor, root: Json, schema: Option<Json>, depth: int, stack: set<string>): (r: Step)
    ensures r.NoSchema? <==> !Present(schema)
    ensures r.FollowRef? ==> r.key in TextsOpt(schema) && r.key !in stack && TextsOpt(r.target) <= Texts(root)
    ensures r.Compose? ==> Size(r.first) < SizeOpt(schema) && Texts(r.first) <= TextsOpt(schema)
    ensures r.Properties? ==> SizeFields(r.fields) < SizeOpt(schema) && TextsFields(r.fields) <= TextsOpt(schema)
    ensures r.Items? ==> SizeOpt(r.items) < SizeOpt(schema) && TextsOpt(r.items) <= TextsOpt(schema)
  {
    if !Present(schema) then NoSchema
    else
      var s := schema.value;
      var example := PickExample(s);
      if example.Some? then UseExample(example.value)
      else if Has(s, "$ref") && RefKey(s) in stack then Cycle
      else if Has(s, "$ref") && LastRefName(RefKey(s)) != "" then
        RefKeyInTexts(s);
        ResolveRefInRoot(flavor, root, LastRefName(RefKey(s)));
        FollowRef(RefKey(s), ResolveRef(flavor, root, LastRefName(RefKey(s))))
      else if flavor == OpenApi3 && FirstComposed(s).Some? then
        FirstComposedShrinks(s);
        Compose(FirstComposed(s).value)
      else if IsObjectSchema(s) then
        var props := Get(s, "properties");
        if depth > MaxObjectDepth then TooDeep
        else if props.Some? && props.value.JObj? then
          GetShrinks(s, "properties");
          Properties(props.value.fields)
        else NoProperties
      else if IsArraySchema(s) then
        GetShrinks(s, "items");
        Items(Get(s, "items"))
      else Scalar
  }

  /**
   * buildValueFrom{OpenApi3,Swagger2}Schema: the example value of a schema,
   * or the NullPointerException List.of(null) throws.
   */
  function Build(flavor: Flavor, root: Json, schema: Option<Json>, depth: int, stack: set<string>): (r: Result<Json, string>)
    ensures r.Err? ==> r.error == NullPointer
    decreases Unvisited(root, TextsOpt(schema), stack), SizeOpt(schema)
  {
    match StepOf(flavor, root, schema, depth, stack)
    case NoSchema => Ok(JStr("text"))
    case UseExample(v) => Ok(v)
    case Cycle => Ok(JObj([]))
    case FollowRef(key, target) =>
      UnvisitedShrinks(root, TextsOpt(target), TextsOpt(schema), stack, key);
      Build(flavor, root, target, depth + 1, stack + {key})
    case Compose(first) =>
      UnvisitedMono(root, Texts(first), TextsOpt(schema), stack);
      Build(flavor, root, Some(first), depth + 1, stack)
    case TooDeep => Ok(JObj([]))
    case Properties(fields) =>
      UnvisitedMono(root, TextsFields(fields), TextsOpt(schema), stack);
      (match BuildProps(flavor, root, fields, depth + 1, stack, [])
       case Ok(m) => Ok(JObj(m))
       case Err(e) => Err(e))
    case NoProperties => Ok(JObj([]))
    case Items(items) =>
      UnvisitedMono(root, TextsOpt(items), TextsOpt(schema), stack);
      (match Build(flavor, root, items, depth + 1, stack)
       case Err(e) => Err(e)
       case Ok(v) => if v.JNull? then Err(NullPointer) else Ok(JArr([v])))
    case Scalar => Ok(ScalarFromSchema(schema.value))
  }

  /** The properties loop: each property's value is put into `acc` in declaration order. */
  function BuildProps(flavor: Flavor, root: Json, fields: seq<(string, Json)>, depth: int,
                      stack: set<string>, acc: seq<(string, Json)>): (r: Result<seq<(string, Json)>, string>)
    ensures r.Err? ==> r.error == NullPointer
    decreases Unvisited(root, TextsFields(fields), stack), SizeFields(fields)
  {
    if fields == [] then Ok(acc)
    else
      FieldsHeadShrinks(fields);
      UnvisitedMono(root, Texts(fields[0].1), TextsFields(fields), stack);
      UnvisitedMono(root, TextsFields(fields[1..]), TextsFields(fields), stack);
      match Build(flavor, root, Some(fields[0].1), depth, stack)
      case Err(e) => Err(e)
      case Ok(v) => BuildProps(flavor, root, fields[1..], depth, stack, Put(acc, fields[0].0, v))
  }

  lemma FieldsHeadShrinks(fields: seq<(string, Json)>)
    requires fields != []
    ensures Size(fields[0].1) < SizeFields(fields) && SizeFields(fields[1..]) < SizeFields(fields)
    ensures Texts(fields[0].1) <= TextsFields(fields) && TextsFields(fields[1..]) <= TextsFields(fields)
  {
    assert TextsField(fields[0]) == Texts(fields[0].1);
    assert SizeField(fields[0]) == 1 + Size(fields[0].1);
  }

  // ----- what the walk promises -----

  /** The branches in the order the code tries them: the first four. */
  lemma BuildBranches(flavor: Flavor, root: Json, schema: Option<Json>, depth: int, stack: set<string>)
    ensures !Present(schema) ==> Build(flavor, root, schema, depth, stack) == Ok(JStr("text"))
    ensures Present(schema) && PickExample(schema.value).Some? ==>
      Build(flavor, root, schema, depth, stack) == Ok(PickExample(schema.value).value)
    ensures Present(schema) && PickExample(schema.value).None? &&
            Has(schema.value, "$ref") && RefKey(schema.value) in stack ==>
      Build(flavor, root, schema, depth, stack) == Ok(JObj([]))
    ensures Present(schema) && PickExample(schema.value).None? &&
            Has(schema.value, "$ref") && RefKey(schema.value) !in stack &&
            LastRefName(RefKey(schema.value)) != "" ==>
      var key := RefKey(schema.value);
      Build(flavor, root, schema, depth, stack) ==
        Build(flavor, root, ResolveRef(flavor, root, LastRefName(key)), depth + 1, stack + {key})
  {
  }

  /** Composition is followed in OpenAPI 3 only: a Swagger 2 schema with only allOf is a scalar. */
  lemma CompositionOnlyInOpenApi3(root: Json, s: Json, depth: int, stack: set<string>)
    requires !s.JNull? && PickExample(s).None? && !Has(s, "$ref")
    requires FirstComposed(s).Some? && !IsObjectSchema(s) && !IsArraySchema(s)
    ensures Build(OpenApi3, root, Some(s), depth, stack) == Build(OpenApi3, root, FirstComposed(s), depth + 1, stack)
    ensures Build(Swagger2, root, Some(s), depth, stack) == Ok(ScalarFromSchema(s))
  {
    assert StepOf(OpenApi3, root, Some(s), depth, stack) == Compose(FirstComposed(s).value);
    assert StepOf(Swagger2, root, Some(s), depth, stack) == Scalar;
  }

  /** An object schema deeper than 8 levels is cut off with an empty map. */
  lemma DeepObjectIsEmpty(flavor: Flavor, root: Json, s: Json, depth: int, stack: set<string>)
    requires !s.JNull? && PickExample(s).None?
    requires Has(s, "$ref") ==> RefKey(s) !in stack && LastRefName(RefKey(s)) == ""
    requires flavor == OpenApi3 ==> FirstComposed(s).None?
    requires IsObjectSchema(s) && depth > MaxObjectDepth
    ensures Build(flavor, root, Some(s), depth, stack) == Ok(JObj([]))
  {
  }

  /** An object schema within the depth limit: the properties' map, or an empty map without properties. */
  lemma ObjectStep(flavor: Flavor, root: Json, s: Json, depth: int, stack: set<string>)
    requires !s.JNull? && PickExample(s).None?
    requires Has(s, "$ref") ==> RefKey(s) !in stack && LastRefName(RefKey(s)) == ""
    requires flavor == OpenApi3 ==> FirstComposed(s).None?
    requires IsObjectSchema(s) && depth <= MaxObjectDepth
    ensures var props := Get(s, "properties");
      Build(flavor, root, Some(s), depth, stack) ==
        if props.Some? && props.value.JObj? then
          var m := BuildProps(flavor, root, props.value.fields, depth + 1, stack, []);
          if m.Err? then Err(m.error) else Ok(JObj(m.value))
        else Ok(JObj([]))
  {
  }

  /** An array schema yields a one-element list, unless the element is Java null (List.of throws). */
  lemma ArrayHasOneElement(flavor: Flavor, root: Json, s: Json, depth: int, stack: set<string>)
    requires !s.JNull? && PickExample(s).None?
    requires Has(s, "$ref") ==> RefKey(s) !in stack && LastRefName(RefKey(s)) == ""
    requires flavor == OpenApi3 ==> FirstComposed(s).None?
    requires !IsObjectSchema(s) && IsArraySchema(s)
    ensures var item := Build(flavor, root, Get(s, "items"), depth + 1, stack);
      Build(flavor, root, Some(s), depth, stack) ==
        if item.Err? then item
        else if item.value.JNull? then Err(NullPointer)
        else Ok(JArr([item.value]))
  {
  }

  predicate DistinctKeys(fields: seq<(string, Json)>) {
    forall i, j :: 0 <= i < j < |fields| ==> fields[i].0 != fields[j].0
  }

  /** Property `i` built from `stack`, as the loop sees it. */
  function BuildField(flavor: Flavor, root: Json, fields: seq<(string, Json)>, i: nat, depth: int, stack: set<string>): Result<Json, string>
    requires i < |fields|
  {
    Build(flavor, root, Some(fields[i].1), depth, stack)
  }

  /**
   * The properties loop: every property is built from the same stack (each
   * gets its own copy), and the map lists the properties in document order,
   * one entry each; it fails exactly when one of the properties fails.
   */
  /** The fold fails exactly when building some property's value fails. */
  lemma {:induction false} PropsFail(flavor: Flavor, root: Json, fields: seq<(string, Json)>, depth: int,
                                     stack: set<string>, acc: seq<(string, Json)>)
    ensures BuildProps(flavor, root, fields, depth, stack, acc).Err? <==>
      exists i :: 0 <= i < |fields| && BuildField(flavor, root, fields, i, depth, stack).Err?
    decreases |fields|
  {
    if fields != [] {
      var b := BuildField(flavor, root, fields, 0, depth, stack);
      if b.Ok? {
        var tail := fields[1..];
        PropsFail(flavor, root, tail, depth, stack, Put(acc, fields[0].0, b.value));
        forall i | 0 <= i < |tail|
          ensures BuildField(flavor, root, tail, i, depth, stack) == BuildField(flavor, root, fields, i + 1, depth, stack)
        {
          assert tail[i] == fields[i + 1];
        }
        if exists i :: 0 <= i < |fields| && BuildField(flavor, root, fields, i, depth, stack).Err? {
          var i :| 0 <= i < |fields| && BuildField(flavor, root, fields, i, depth, stack).Err?;
          assert BuildField(flavor, root, tail, i - 1, depth, stack).Err?;
        }
      }
    }
  }

  /** Put appends when the key is new: the step of the fold, with what the rest of the fold needs. */
  lemma PutFresh(fields: seq<(string, Json)>, acc: seq<(string, Json)>, v: Json)
    requires fields != [] && DistinctKeys(fields)
    requires forall i :: 0 <= i < |fields| ==> Lookup(acc, fields[i].0).None?
    ensures Put(acc, fields[0].0, v) == acc + [(fields[0].0, v)]
    ensures DistinctKeys(fields[1..])
    ensures forall i :: 0 <= i < |fields[1..]| ==> Lookup(Put(acc, fields[0].0, v), fields[1..][i].0).None?
  {
    forall i | 0 <= i < |fields[1..]|
      ensures Lookup(Put(acc, fields[0].0, v), fields[1..][i].0).None?
    {
      assert fields[1..][i] == fields[i + 1];
    }
  }

  /** One step of the properties fold. */
  lemma PropsStep(flavor: Flavor, root: Json, fields: seq<(string, Json)>, depth: int,
                  stack: set<string>, acc: seq<(string, Json)>)
    requires fields != []
    ensures var b := Build(flavor, root, Some(fields[0].1), depth, stack);
      BuildProps(flavor, root, fields, depth, stack, acc) ==
        if b.Err? then Err(b.error) else BuildProps(flavor, root, fields[1..], depth, stack, Put(acc, fields[0].0, b.value))
  {
  }

  /** `out` is `acc` followed by one entry per property, in order, each holding the value built for it. */
  predicate Extends(flavor: Flavor, root: Json, fields: seq<(string, Json)>, depth: int, stack: set<string>,
                    acc: seq<(string, Json)>, out: seq<(string, Json)>)
    decreases |fields|
  {
    if fields == [] then out == acc
    else
      var b := Build(flavor, root, Some(fields[0].1), depth, stack);
      b.Ok? && Extends(flavor, root, fields[1..], depth, stack, acc + [(fields[0].0, b.value)], out)
  }

  /** Extends, index by index. */
  lemma {:induction false} ExtendsAt(flavor: Flavor, root: Json, fields: seq<(string, Json)>, depth: int,
                                     stack: set<string>, acc: seq<(string, Json)>, out: seq<(string, Json)>)
    requires Extends(flavor, root, fields, depth, stack, acc, out)
    ensures |out| == |acc| + |fields| && out[..|acc|] == acc
    ensures forall i :: 0 <= i < |fields| ==>
      out[|acc| + i].0 == fields[i].0 && BuildField(flavor, root, fields, i, depth, stack) == Ok(out[|acc| + i].1)
    decreases |fields|
  {
    if fields != [] {
      var b := Build(flavor, root, Some(fields[0].1), depth, stack);
      var acc' := acc + [(fields[0].0, b.value)];
      ExtendsAt(flavor, root, fields[1..], depth, stack, acc', out);
      assert out[..|acc|] == out[..|acc'|][..|acc|];
      forall i | 0 < i < |fields|
        ensures out[|acc| + i].0 == fields[i].0 && BuildField(flavor, root, fields, i, depth, stack) == Ok(out[|acc| + i].1)
      {
        assert fields[1..][i - 1] == fields[i] && |acc'| + (i - 1) == |acc| + i;
      }
    }
  }

  /** Extends from an empty map: the same keys, and each value the one built for its property. */
  lemma ExtendsFromEmpty(flavor: Flavor, root: Json, fields: seq<(string, Json)>, depth: int,
                         stack: set<string>, out: seq<(string, Json)>)
    requires Extends(flavor, root, fields, depth, stack, [], out)
    ensures Keys(out) == Keys(fields)
    ensures forall i :: 0 <= i < |fields| ==> BuildField(flavor, root, fields, i, depth, stack) == Ok(out[i].1)
  {
    var none: seq<(string, Json)> := [];
    ExtendsAt(flavor, root, fields, depth, stack, none, out);
    assert forall i :: 0 <= i < |fields| ==> out[i] == out[|none| + i];
  }

  /** A successful fold is `acc` extended by every property in order. */
  lemma {:induction false} PropsInOrder(flavor: Flavor, root: Json, fields: seq<(string, Json)>, depth: int,
                                        stack: set<string>, acc: seq<(string, Json)>)
    requires DistinctKeys(fields)
    requires forall i :: 0 <= i < |fields| ==> Lookup(acc, fields[i].0).None?
    ensures var r := BuildProps(flavor, root, fields, depth, stack, acc);
      r.Ok? ==> Extends(flavor, root, fields, depth, stack, acc, r.value)
    decreases |fields|
  {
    if fields != [] {
      var b := Build(flavor, root, Some(fields[0].1), depth, stack);
      PropsStep(flavor, root, fields, depth, stack, acc);
      if b.Ok? {
        PutFresh(fields, acc, b.value);
        PropsInOrder(flavor, root, fields[1..], depth, stack, acc + [(fields[0].0, b.value)]);
      }
    }
  }

  /**
   * An object schema with properties (and no example, `$ref` or composition
   * in front of it) yields a map with the same keys in the same order, each
   * built one level deeper from the same ref stack.
   */
  lemma ObjectKeepsPropertyOrder(flavor: Flavor, root: Json, s: Json, depth: int, stack: set<string>)
    requires !s.JNull? && PickExample(s).None? && !Has(s, "$ref")
    requires flavor == OpenApi3 ==> FirstComposed(s).None?
    requires IsObjectSchema(s) && depth <= MaxObjectDepth
    requires Get(s, "properties").Some? && Get(s, "properties").value.JObj?
    requires DistinctKeys(Get(s, "properties").value.fields)
    ensures var props := Get(s, "properties").value.fields;
      var r := Build(flavor, root, Some(s), depth, stack);
      r.Ok? ==>
        && r.value.JObj?
        && Keys(r.value.fields) == Keys(props)
        && forall i :: 0 <= i < |props| ==>
             BuildField(flavor, root, props, i, depth + 1, stack) == Ok(r.value.fields[i].1)
  {
    var props := Get(s, "properties").value.fields;
    var m := BuildProps(flavor, root, props, depth + 1, stack, []);
    assert StepOf(flavor, root, Some(s), depth, stack) == Properties(props);
    var r := Build(flavor, root, Some(s), depth, stack);
    assert r == if m.Err? then Err(m.error) else Ok(JObj(m.value));
    PropsInOrder(flavor, root, props, depth + 1, stack, []);
    if m.Ok? {
      ExtendsFromEmpty(flavor, root, props, depth + 1, stack, m.value);
      assert r.value.fields == m.value;
    }
  }

  // ----- the imperative walk -----

  /** The `Set<String> refStack` threaded through the walk: the `$ref`s on the current descent. */
  class RefStack {
    var refs: set<string>

    constructor (init: set<string>)
      ensures refs == init
    {
      refs := init;
    }

    /** Set.add: false when the key was already there. */
    method Add(key: string) returns (added: bool)
      modifies this
      ensures added <==> key !in old(refs)
      ensures refs == old(refs) + {key}
    {
      added := key !in refs;
      refs := refs + {key};
    }

    method Remove(key: string)
      modifies this
      ensures refs == old(refs) - {key}
    {
      refs := refs - {key};
    }
  }

  /**
   * The recursive walk as the code runs it, on a mutable stack: it computes
   * `Build` of the stack it was given, and leaves the stack as it found it.
   * This part handles a missing schema and the example.
   */
  method BuildValue(flavor: Flavor, root: Json, schema: Option<Json>, depth: int, stack: RefStack)
    returns (r: Result<Json, string>)
    modifies stack
    ensures stack.refs == old(stack.refs)
    ensures r == Build(flavor, root, schema, depth, old(stack.refs))
    decreases Unvisited(root, TextsOpt(schema), stack.refs), SizeOpt(schema), 4
  {
    if !Present(schema) {
      assert StepOf(flavor, root, schema, depth, stack.refs) == NoSchema;
      return Ok(JStr("text"));
    }
    var s := schema.value;
    var example := PickExample(s);
    if example.Some? {
      assert StepOf(flavor, root, schema, depth, stack.refs) == UseExample(example.value);
      return Ok(example.value);
    }
    if Has(s, "$ref") {
      r := BuildRef(flavor, root, s, depth, stack);
    } else {
      r := BuildShape(flavor, root, s, depth, stack);
    }
  }

  /**
   * A `$ref`: an empty map when it is already on the stack, else the target
   * walked with the ref pushed, and popped again afterwards.
   */
  method BuildRef(flavor: Flavor, root: Json, s: Json, depth: int, stack: RefStack)
    returns (r: Result<Json, string>)
    requires !s.JNull? && PickExample(s).None? && Has(s, "$ref")
    modifies stack
    ensures stack.refs == old(stack.refs)
    ensures r == Build(flavor, root, Some(s), depth, old(stack.refs))
    decreases Unvisited(root, Texts(s), stack.refs), Size(s), 3
  {
    ghost var refs0 := stack.refs;
    var key := RefKey(s);
    var added := stack.Add(key);
    if !added {
      assert StepOf(flavor, root, Some(s), depth, refs0) == Cycle;
      return Ok(JObj([]));
    }
    if LastRefName(key) != "" {
      r := BuildTarget(flavor, root, s, depth, stack, refs0);
      return r;
    }
    stack.Remove(key);
    assert stack.refs == refs0;
    r := BuildShape(flavor, root, s, depth, stack);
  }

  /** The target of a `$ref` just pushed: walked one level deeper, then the ref is popped. */
  method BuildTarget(flavor: Flavor, root: Json, s: Json, depth: int, stack: RefStack, ghost refs0: set<string>)
    returns (r: Result<Json, string>)
    requires !s.JNull? && PickExample(s).None? && Has(s, "$ref")
    requires RefKey(s) !in refs0 && stack.refs == refs0 + {RefKey(s)} && LastRefName(RefKey(s)) != ""
    modifies stack
    ensures stack.refs == refs0
    ensures r == Build(flavor, root, Some(s), depth, refs0)
    decreases Unvisited(root, Texts(s), refs0), Size(s), 2
  {
    var key := RefKey(s);
    var resolved := ResolveRef(flavor, root, LastRefName(key));
    BuildBranches(flavor, root, Some(s), depth, refs0);
    RefKeyInTexts(s);
    ResolveRefInRoot(flavor, root, LastRefName(key));
    UnvisitedShrinks(root, TextsOpt(resolved), Texts(s), refs0, key);
    r := BuildValue(flavor, root, resolved, depth + 1, stack);
    stack.Remove(key);
  }

  /** The rest of the walk: composition (OpenAPI 3), object, array, scalar. */
  method BuildShape(flavor: Flavor, root: Json, s: Json, depth: int, stack: RefStack)
    returns (r: Result<Json, string>)
    requires !s.JNull? && PickExample(s).None?
    requires Has(s, "$ref") ==> RefKey(s) !in stack.refs && LastRefName(RefKey(s)) == ""
    modifies stack
    ensures stack.refs == old(stack.refs)
    ensures r == Build(flavor, root, Some(s), depth, old(stack.refs))
    decreases Unvisited(root, Texts(s), stack.refs), Size(s), 2
  {
    ghost var step := StepOf(flavor, root, Some(s), depth, stack.refs);
    if flavor == OpenApi3 {
      var first := FirstComposed(s);
      if first.Some? {
        assert step == Compose(first.value);
        UnvisitedMono(root, Texts(first.value), Texts(s), stack.refs);
        r := BuildValue(flavor, root, first, depth + 1, stack);
        return r;
      }
    }
    if IsObjectSchema(s) {
      r := BuildObject(flavor, root, s, depth, stack);
    } else if IsArraySchema(s) {
      r := BuildArray(flavor, root, s, depth, stack);
    } else {
      assert step == Scalar;
      r := Ok(ScalarFromSchema(s));
    }
  }

  /** An object schema: an empty map beyond depth 8, else one entry per property. */
  method BuildObject(flavor: Flavor, root: Json, s: Json, depth: int, stack: RefStack)
    returns (r: Result<Json, string>)
    requires !s.JNull? && PickExample(s).None?
    requires Has(s, "$ref") ==> RefKey(s) !in stack.refs && LastRefName(RefKey(s)) == ""
    requires flavor == OpenApi3 ==> FirstComposed(s).None?
    requires IsObjectSchema(s)
    ensures r == Build(flavor, root, Some(s), depth, stack.refs)
    decreases Unvisited(root, Texts(s), stack.refs), Size(s), 1
  {
    if depth > MaxObjectDepth {
      DeepObjectIsEmpty(flavor, root, s, depth, stack.refs);
      return Ok(JObj([]));
    }
    ObjectStep(flavor, root, s, depth, stack.refs);
    var props := Get(s, "properties");
    if props.Some? && props.value.JObj? {
      GetShrinks(s, "properties");
      UnvisitedMono(root, TextsFields(props.value.fields), Texts(s), stack.refs);
      var built := BuildProperties(flavor, root, props.value.fields, depth + 1, stack);
      r := if built.Err? then Err(built.error) else Ok(JObj(built.value));
    } else {
      r := Ok(JObj([]));
    }
  }

  /** An array schema: a one-element list of the items' value; List.of(null) throws. */
  method BuildArray(flavor: Flavor, root: Json, s: Json, depth: int, stack: RefStack)
    returns (r: Result<Json, string>)
    requires !s.JNull? && PickExample(s).None?
    requires Has(s, "$ref") ==> RefKey(s) !in stack.refs && LastRefName(RefKey(s)) == ""
    requires flavor == OpenApi3 ==> FirstComposed(s).None?
    requires !IsObjectSchema(s) && IsArraySchema(s)
    modifies stack
    ensures stack.refs == old(stack.refs)
    ensures r == Build(flavor, root, Some(s), depth, old(stack.refs))
    decreases Unvisited(root, Texts(s), stack.refs), Size(s), 1
  {
    var items := Get(s, "items");
    ArrayHasOneElement(flavor, root, s, depth, stack.refs);
    GetShrinks(s, "items");
    UnvisitedMono(root, TextsOpt(items), Texts(s), stack.refs);
    var item := BuildValue(flavor, root, items, depth + 1, stack);
    if item.Err? {
      r := item;
    } else if item.value.JNull? {
      r := Err(NullPointer);
    } else {
      r := Ok(JArr([item.value]));
    }
  }

  /** props.fields().forEachRemaining(...): each property walked with a fresh copy of the stack. */
  method BuildProperties(flavor: Flavor, root: Json, fields: seq<(string, Json)>, depth: int, stack: RefStack)
    returns (r: Result<seq<(string, Json)>, string>)
    ensures r == BuildProps(flavor, root, fields, depth, stack.refs, [])
    decreases Unvisited(root, TextsFields(fields), stack.refs), SizeFields(fields), 0
  {
    var built: seq<(string, Json)> := [];
    var rest := fields;
    while rest != []
      invariant BuildProps(flavor, root, fields, depth, stack.refs, []) ==
                BuildProps(flavor, root, rest, depth, stack.refs, built)
      invariant TextsFields(rest) <= TextsFields(fields) && SizeFields(rest) <= SizeFields(fields)
      decreases |rest|
    {
      var field := rest[0];
      FieldsHeadShrinks(rest);
      UnvisitedMono(root, Texts(field.1), TextsFields(fields), stack.refs);
      PropsStep(flavor, root, rest, depth, stack.refs, built);
      var copy := new RefStack(stack.refs);
      var v := BuildValue(flavor, root, Some(field.1), depth, copy);
      if v.Err? {
        return Err(v.error);
      }
      built := Put(built, field.0, v.value);
      rest := rest[1..];
    }
    return Ok(built);
  }
}
