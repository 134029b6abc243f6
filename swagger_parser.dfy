/**
 * SwaggerParser: the base URL of an OpenAPI 3 or Swagger 2 document, and one
 * row per operation with an example request body, sorted by (path, method).
 */
module SwaggerParser {
  import opened Wrappers
  import opened JavaString
  import opened Json
  import opened JsonWriter
  import opened SchemaValues
  import opened Model

  // ----- base URL -----

  /** "https://x".length(): normalizeBaseUrl never strips a URL down below this. */
  const MinUrlLength: int := 9

  /**
   * The slashes normalizeBaseUrl's loop removes: the trailing run of '/',
   * but never below MinUrlLength chars.
   */
  function StripSlashes(t: string): (r: string)
    ensures r <= t
    ensures forall i :: |r| <= i < |t| ==> t[i] == '/'
    ensures |r| <= MinUrlLength || r[|r| - 1] != '/'
    ensures |r| < |t| ==> |r| >= MinUrlLength
  {
    if |t| > MinUrlLength && t[|t| - 1] == '/' then StripSlashes(t[..|t| - 1]) else t
  }

  /** The four properties of StripSlashes single out its result. */
  lemma {:induction false} StripSlashesUnique(t: string, r: string)
    requires r <= t
    requires forall i :: |r| <= i < |t| ==> t[i] == '/'
    requires |r| <= MinUrlLength || r[|r| - 1] != '/'
    requires |r| < |t| ==> |r| >= MinUrlLength
    ensures r == StripSlashes(t)
  {
    var r0 := StripSlashes(t);
    assert |r| == |r0|;
    assert r == t[..|r|] && r0 == t[..|r0|];
  }

  /** normalizeBaseUrl: trimmed, then trailing slashes stripped (the URI check changes nothing). */
  function NormalizedBaseUrl(s: string): string {
    StripSlashes(Trim(s))
  }

  method NormalizeBaseUrl(s: string) returns (r: string)
    ensures r == NormalizedBaseUrl(s)
  {
    r := Trim(s);
    if r == "" {
      return "";
    }
    while EndsWith(r, "/") && |r| > MinUrlLength
      invariant StripSlashes(r) == NormalizedBaseUrl(s)
      decreases |r|
    {
      r := r[..|r| - 1];
    }
  }

  /** "/" put in front when missing. */
  function Rooted(t: string): (r: string)
    ensures r != [] && r[0] == '/'
  {
    if StartsWith(t, "/") then t else "/" + t
  }

  /** normalizePath: "" for blank input, else trimmed, rooted, and one trailing '/' dropped. */
  function NormalizePath(p: string): (r: string)
    ensures IsBlank(p) ==> r == ""
    ensures r == "" || r[0] == '/'
  {
    if IsBlank(p) then ""
    else
      var rooted := Rooted(Trim(p));
      if EndsWith(rooted, "/") then rooted[..|rooted| - 1] else rooted
  }

  /**
   * normalizePath removes at most one trailing slash: the result is the
   * trimmed, rooted text, or that text less its final '/'.
   */
  lemma NormalizePathShape(p: string)
    requires !IsBlank(p)
    ensures NormalizePath(p) == Rooted(Trim(p)) || NormalizePath(p) + "/" == Rooted(Trim(p))
  {
    var rooted := Rooted(Trim(p));
    if EndsWith(rooted, "/") {
      assert rooted[..|rooted| - 1] + "/" == rooted;
    }
  }

  /** A path already in normal form comes back unchanged. */
  lemma NormalizePathKeepsNormal(p: string)
    requires p != [] && p[0] == '/' && p[|p| - 1] != '/' && Trim(p) == p
    ensures NormalizePath(p) == p
  {
    assert !IsWhitespace(p[0]);
  }

  /** Only one slash goes: "//" normalises to "/", not "". */
  lemma NormalizePathDoubleSlash()
    ensures NormalizePath("//") == "/"
  {
    var p: string := "//";
    assert p[0] == '/' && !IsWhitespace(p[0]) && !IsBlank(p);
    assert !IsTrimmable(p[0]) && TrimStart(p) == p;
    assert !IsTrimmable(p[1]) && TrimEnd(p) == p;
    assert Rooted(Trim(p)) == p;
    assert p[..1] == "/";
  }

  /** The `url` of the first server, normalised; "" when there is none. */
  function ServerUrl(root: Json): string {
    var servers := Get(root, "servers");
    if IsNonEmptyArray(servers) then NormalizedBaseUrl(AsText(Get(servers.value.items[0], "url"), "")) else ""
  }

  /** schemes[0] as text, or "". */
  function FirstScheme(root: Json): string {
    var schemes := Get(root, "schemes");
    if IsNonEmptyArray(schemes) then AsText(Some(schemes.value.items[0]), "") else ""
  }

  /** The Swagger 2 base URL from host, basePath and the first scheme. */
  function HostUrl(root: Json): string {
    var host := AsText(Get(root, "host"), "");
    var basePath := AsText(Get(root, "basePath"), "");
    var scheme := FirstScheme(root);
    NormalizedBaseUrl((if scheme == "" then "https" else scheme) + "://" + host + NormalizePath(basePath))
  }

  /** detectBaseUrl. */
  function DetectBaseUrl(root: Json): string {
    if root.JNull? then ""
    else if ServerUrl(root) != "" then ServerUrl(root)
    else if AsText(Get(root, "host"), "") != "" then HostUrl(root)
    else ""
  }

  /**
   * Base URL precedence: a non-empty normalised servers[0].url, else
   * scheme://host + basePath (scheme "https" when none is listed) for a
   * non-empty host, else "".
   */
  lemma BaseUrlPrecedence(root: Json)
    requires !root.JNull?
    ensures ServerUrl(root) != "" ==> DetectBaseUrl(root) == ServerUrl(root)
    ensures ServerUrl(root) == "" && AsText(Get(root, "host"), "") != "" ==>
      var scheme := if FirstScheme(root) == "" then "https" else FirstScheme(root);
      DetectBaseUrl(root) ==
        NormalizedBaseUrl(scheme + "://" + AsText(Get(root, "host"), "") + NormalizePath(AsText(Get(root, "basePath"), "")))
    ensures ServerUrl(root) == "" && AsText(Get(root, "host"), "") == "" ==> DetectBaseUrl(root) == ""
  {
  }

  /** An OpenAPI 3 server URL loses its trailing slash. */
  lemma ServerUrlExample()
    ensures DetectBaseUrl(JObj([("servers", JArr([JObj([("url", JStr("https://api.example.com/v1/"))])]))]))
      == "https://api.example.com/v1"
  {
    var u := "https://api.example.com/v1/";
    var root := JObj([("servers", JArr([JObj([("url", JStr(u))])]))]);
    assert Get(root, "servers") == Some(JArr([JObj([("url", JStr(u))])]));
    assert AsText(Get(JObj([("url", JStr(u))]), "url"), "") == u;
    assert TrimStart(u) == u && TrimEnd(u) == u;
    assert StripSlashes(u[..|u| - 1]) == u[..|u| - 1];
  }

  // ----- operations -----

  const HttpMethods: set<string> := {"get", "post", "put", "delete", "patch", "head", "options"}

  /** isHttpMethod: the key's lower-case form is one of the seven methods. */
  predicate IsHttpMethod(m: string) {
    ToLower(m) in HttpMethods
  }

  /** The method column's values: the seven names upper-cased (Locale.ROOT). */
  const UpperHttpMethods: set<string> := set l | l in HttpMethods :: ToUpper(l)

  lemma UpperOfLower(s: string)
    ensures ToUpper(ToLower(s)) == ToUpper(s)
  {
    assert forall i :: 0 <= i < |s| ==> UpperChar(LowerChar(s[i])) == UpperChar(s[i]);
  }

  /** A key accepted by isHttpMethod upper-cases to one of the seven method names, upper-cased. */
  lemma HttpMethodUpper(m: string)
    requires IsHttpMethod(m)
    ensures ToUpper(m) in UpperHttpMethods
  {
    UpperOfLower(m);
    assert ToUpper(ToLower(m)) in UpperHttpMethods;
  }

  /** emptyToNull: the trimmed text, or null when nothing is left. */
  function EmptyToNull(s: string): (r: Option<string>)
    ensures r.None? <==> Trim(s) == ""
    ensures r.Some? ==> r.value == Trim(s)
  {
    var t := Trim(s);
    if t == "" then None else Some(t)
  }

  /** The summary text: `summary`, or `description` when the summary text is empty. */
  function SummaryText(op: Json): string {
    var summary := AsText(Get(op, "summary"), "");
    if summary == "" then AsText(Get(op, "description"), "") else summary
  }

  // ----- bodies -----

  /** The content type and the body template of an operation; either may be Java null. */
  datatype BodyInfo = BodyInfo(contentType: Option<string>, template: Option<string>)

  const NoBody: BodyInfo := BodyInfo(None, None)
  const FormUrlEncoded: string := "application/x-www-form-urlencoded"

  /** String.valueOf on an example value: maps as {k=v, ...}, lists as [a, b], null as "null". */
  function JavaToString(v: Json): string {
    match v
    case JNull => "null"
    case JBool(b) => if b then "true" else "false"
    case JInt(i) => IntToString(i)
    case JNum(lit) => lit
    case JStr(s) => s
    case JArr(items) => "[" + JavaToStringItems(items) + "]"
    case JObj(fields) => "{" + JavaToStringFields(fields) + "}"
  }

  function JavaToStringItems(items: seq<Json>): string {
    if items == [] then ""
    else if |items| == 1 then JavaToString(items[0])
    else JavaToString(items[0]) + ", " + JavaToStringItems(items[1..])
  }

  function JavaToStringFields(fields: seq<(string, Json)>): string {
    if fields == [] then ""
    else if |fields| == 1 then JavaToStringField(fields[0])
    else JavaToStringField(fields[0]) + ", " + JavaToStringFields(fields[1..])
  }

  function JavaToStringField(f: (string, Json)): string {
    f.0 + "=" + JavaToString(f.1)
  }

  /** The `key=value` pairs of a form, in insertion order. */
  function FormPairs(form: seq<(string, Json)>): (r: seq<string>)
    ensures |r| == |form|
    ensures forall i :: 0 <= i < |form| ==> r[i] == form[i].0 + "=" + JavaToString(form[i].1)
  {
    if form == [] then [] else [form[0].0 + "=" + JavaToString(form[0].1)] + FormPairs(form[1..])
  }

  /** formUrlEncode / formUrlEncodeUnsafe: the pairs joined by '&', nothing escaped. */
  function FormEncoded(form: seq<(string, Json)>): string {
    Join("&", FormPairs(form))
  }

  method FormUrlEncode(form: seq<(string, Json)>) returns (s: string)
    ensures s == FormEncoded(form)
  {
    s := "";
    var i := 0;
    while i < |form|
      invariant 0 <= i <= |form|
      invariant s == Join("&", FormPairs(form[..i]))
      invariant i > 0 ==> |s| > 0
    {
      ghost var done := FormPairs(form[..i]);
      var pair := form[i].0 + "=" + JavaToString(form[i].1);
      if |s| > 0 {
        s := s + "&";
      }
      s := s + pair;
      JoinSnoc("&", done, pair);
      FormPairsSnoc(form, i);
      i := i + 1;
    }
    assert form[..i] == form;
  }

  lemma FormPairsSnoc(form: seq<(string, Json)>, i: nat)
    requires i < |form|
    ensures FormPairs(form[..i + 1]) == FormPairs(form[..i]) + [form[i].0 + "=" + JavaToString(form[i].1)]
  {
  }

  /** The pieces of `s` between occurrences of `sep`. */
  function SplitOn(s: string, sep: char): (r: seq<string>)
    ensures |r| > 0
  {
    if sep !in s then [s]
    else
      var i := IndexOf(s, sep);
      [s[..i]] + SplitOn(s[i + 1..], sep)
  }

  function IndexOf(s: string, c: char): (i: nat)
    requires c in s
    ensures i < |s| && s[i] == c && c !in s[..i]
  {
    if s[0] == c then 0 else 1 + IndexOf(s[1..], c)
  }

  /** A form decoder: split on '&', then each pair at its first '='. */
  function DecodeForm(s: string): seq<(string, string)> {
    DecodePairs(SplitOn(s, '&'))
  }

  function DecodePairs(pairs: seq<string>): (r: seq<(string, string)>)
    ensures |r| == |pairs|
  {
    if pairs == [] then [] else [DecodePair(pairs[0])] + DecodePairs(pairs[1..])
  }

  /** One `key=value` pair, split at its first '='; no '=' is a key with an empty value. */
  function DecodePair(p: string): (string, string) {
    if '=' in p then (p[..IndexOf(p, '=')], p[IndexOf(p, '=') + 1..]) else (p, "")
  }

  /** A key without '=' comes back whole, and so does the value, '=' or not. */
  lemma DecodePairSplits(k: string, v: string)
    requires '=' !in k
    ensures DecodePair(k + "=" + v) == (k, v)
  {
    var p := k + "=" + v;
    assert p[|k|] == '=';
    var i := IndexOf(p, '=');
    assert p[..i] == k && p[i + 1..] == v;
  }

  /** The form's entries as the text pairs the encoder writes. */
  function PairTexts(form: seq<(string, Json)>): (r: seq<(string, string)>)
    ensures |r| == |form|
    ensures forall i :: 0 <= i < |form| ==> r[i] == (form[i].0, JavaToString(form[i].1))
  {
    if form == [] then [] else [(form[0].0, JavaToString(form[0].1))] + PairTexts(form[1..])
  }

  lemma {:induction false} SplitJoin(parts: seq<string>, sep: char)
    requires parts != []
    requires forall i :: 0 <= i < |parts| ==> sep !in parts[i]
    ensures SplitOn(Join([sep], parts), sep) == parts
  {
    if |parts| > 1 {
      var s := Join([sep], parts);
      assert s == parts[0] + [sep] + Join([sep], parts[1..]);
      assert s[|parts[0]|] == sep;
      assert sep in s;
      var i := IndexOf(s, sep);
      assert s[..i] == parts[0];
      assert s[i + 1..] == Join([sep], parts[1..]);
      SplitJoin(parts[1..], sep);
    } else {
      assert Join([sep], parts) == parts[0];
    }
  }

  /**
   * The encoding is not escaped, so it decodes back to the form exactly when
   * keys carry no '&' or '=' and values no '&'.
   */
  lemma FormRoundTrip(form: seq<(string, Json)>)
    requires form != []
    requires forall i :: 0 <= i < |form| ==> '&' !in form[i].0 && '=' !in form[i].0 && '&' !in JavaToString(form[i].1)
    ensures DecodeForm(FormEncoded(form)) == PairTexts(form)
  {
    var pairs := FormPairs(form);
    forall i | 0 <= i < |pairs|
      ensures '&' !in pairs[i]
    {
      assert pairs[i] == form[i].0 + "=" + JavaToString(form[i].1);
    }
    SplitJoin(pairs, '&');
    DecodeFormPairs(form, pairs);
  }

  lemma {:induction false} DecodeFormPairs(form: seq<(string, Json)>, pairs: seq<string>)
    requires pairs == FormPairs(form)
    requires forall i :: 0 <= i < |form| ==> '=' !in form[i].0
    ensures DecodePairs(pairs) == PairTexts(form)
  {
    if form != [] {
      DecodePairSplits(form[0].0, JavaToString(form[0].1));
      assert FormPairs(form[1..]) == pairs[1..];
      DecodeFormPairs(form[1..], pairs[1..]);
    }
  }

  /** serializeBody: null stays null; JSON for a JSON content type; a form string or map for form-urlencoded; JSON otherwise. */
  function SerializeBody(contentType: string, body: Json): (r: Option<string>)
    ensures r.None? <==> body.JNull?
    ensures !body.JNull? && Contains(ToLower(contentType), "json") ==> r == Some(Write(body))
    ensures !Contains(ToLower(contentType), "json") && Contains(ToLower(contentType), "x-www-form-urlencoded") ==>
      && (body.JStr? ==> r == Some(body.s))
      && (body.JObj? ==> r == Some(FormEncoded(body.fields)))
    ensures !body.JNull? && !Contains(ToLower(contentType), "json") &&
            !(Contains(ToLower(contentType), "x-www-form-urlencoded") && (body.JStr? || body.JObj?)) ==>
      r == Some(Write(body))
  {
    var ct := ToLower(contentType);
    if body.JNull? then None
    else if Contains(ct, "json") then Some(Write(body))
    else if Contains(ct, "x-www-form-urlencoded") && body.JStr? then Some(body.s)
    else if Contains(ct, "x-www-form-urlencoded") && body.JObj? then Some(FormEncoded(body.fields))
    else Some(Write(body))
  }

  /**
   * A form-urlencoded body built from a map reads back, pair by pair, as the
   * map's keys and value texts (the conditions of FormRoundTrip).
   */
  lemma SerializedFormReads(contentType: string, fields: seq<(string, Json)>)
    requires !Contains(ToLower(contentType), "json") && Contains(ToLower(contentType), "x-www-form-urlencoded")
    requires fields != []
    requires forall i :: 0 <= i < |fields| ==>
      '&' !in fields[i].0 && '=' !in fields[i].0 && '&' !in JavaToString(fields[i].1)
    ensures SerializeBody(contentType, JObj(fields)).Some?
    ensures DecodeForm(SerializeBody(contentType, JObj(fields)).value) == PairTexts(fields)
  {
    FormBodyEncoded(contentType, fields);
    FormRoundTrip(fields);
  }

  lemma FormBodyEncoded(contentType: string, fields: seq<(string, Json)>)
    requires !Contains(ToLower(contentType), "json") && Contains(ToLower(contentType), "x-www-form-urlencoded")
    ensures SerializeBody(contentType, JObj(fields)) == Some(FormEncoded(fields))
  {
    var body := JObj(fields);
    assert body.JObj? && body.fields == fields;
  }

  /** The media type OpenAPI 3 picks: application/json when listed, else the first key. */
  function PickContentKey(content: seq<(string, Json)>): (r: Option<string>)
    ensures r.None? <==> content == []
    ensures r.Some? ==> Lookup(content, r.value).Some?
    ensures Lookup(content, "application/json").Some? ==> r == Some("application/json")
    ensures Lookup(content, "application/json").None? && content != [] ==> r == Some(content[0].0)
  {
    if Lookup(content, "application/json").Some? then Some("application/json")
    else if content != [] then Some(content[0].0)
    else None
  }

  /** extractBodyOpenApi3: a template never comes without a content type. */
  function BodyOpenApi3(root: Json, op: Json): (r: Result<BodyInfo, string>)
    ensures r.Ok? && r.value.template.Some? ==> r.value.contentType.Some?
  {
    var rb := Get(op, "requestBody");
    var content := if Present(rb) then Get(rb.value, "content") else None;
    if !Present(rb) || !(content.Some? && content.value.JObj?) then Ok(NoBody)
    else
      var ct := PickContentKey(content.value.fields);
      if ct.None? then Ok(NoBody)
      else
        var schema := Path(Get(content.value, ct.value), "schema");
        if !Present(schema) then Ok(BodyInfo(ct, None))
        else
          match Build(OpenApi3, root, schema, 0, {})
          case Err(e) => Err(e)
          case Ok(v) => Ok(BodyInfo(ct, SerializeBody(ct.value, v)))
  }

  /** in: body, ignoring case. */
  predicate IsBodyParam(p: Json) {
    EqualsIgnoreCase("body", AsText(Get(p, "in"), ""))
  }

  /** in: formData, ignoring case. */
  predicate IsFormParam(p: Json) {
    EqualsIgnoreCase("formData", AsText(Get(p, "in"), ""))
  }

  /** The first `in: body` parameter. */
  function FirstBodyParam(params: seq<Json>): (r: Option<nat>)
    ensures r.Some? ==> r.value < |params| && IsBodyParam(params[r.value])
    ensures r.Some? ==> forall k :: 0 <= k < r.value ==> !IsBodyParam(params[k])
    ensures r.None? ==> forall k :: 0 <= k < |params| ==> !IsBodyParam(params[k])
  {
    if params == [] then None
    else if IsBodyParam(params[0]) then Some(0)
    else match FirstBodyParam(params[1..])
      case None => None
      case Some(i) => Some(i + 1)
  }

  /** The first body parameter is the one at `i` when `i` is one and none comes before it. */
  lemma FirstBodyParamAt(params: seq<Json>, i: nat)
    requires i < |params| && IsBodyParam(params[i])
    requires forall k :: 0 <= k < i ==> !IsBodyParam(params[k])
    ensures FirstBodyParam(params) == Some(i)
  {
    var first := FirstBodyParam(params);
  }

  /** The formData loop: each named form parameter's example put into the map in order. */
  function FormFields(params: seq<Json>, acc: seq<(string, Json)>): seq<(string, Json)> {
    if params == [] then acc
    else
      var p := params[0];
      var name := AsText(Get(p, "name"), "");
      if IsFormParam(p) && name != "" then FormFields(params[1..], Put(acc, name, ScalarFromParam(p)))
      else FormFields(params[1..], acc)
  }

  /** The form is empty exactly when no formData parameter has a non-empty name. */
  lemma {:induction false} FormFieldsEmpty(params: seq<Json>, acc: seq<(string, Json)>)
    ensures FormFields(params, acc) == [] <==>
      acc == [] && forall k :: 0 <= k < |params| ==> !(IsFormParam(params[k]) && AsText(Get(params[k], "name"), "") != "")
  {
    if params != [] {
      FormFieldsEmpty(params[1..], Put(acc, AsText(Get(params[0], "name"), ""), ScalarFromParam(params[0])));
      FormFieldsEmpty(params[1..], acc);
      forall k | 1 <= k < |params|
        ensures params[1..][k - 1] == params[k]
      {
      }
    }
  }

  method CollectForm(params: seq<Json>) returns (form: seq<(string, Json)>)
    ensures form == FormFields(params, [])
  {
    form := [];
    var i := 0;
    while i < |params|
      invariant 0 <= i <= |params|
      invariant FormFields(params, []) == FormFields(params[i..], form)
    {
      assert params[i..][1..] == params[i + 1..];
      var name := AsText(Get(params[i], "name"), "");
      if IsFormParam(params[i]) {
        if name != "" {
          form := Put(form, name, ScalarFromParam(params[i]));
        }
      }
      i := i + 1;
    }
  }

  /** pickConsumes: an exact application/json (any case) when listed, else the first entry; op level before root level. */
  function PickConsumes(op: Json, root: Json): (r: Option<string>)
    ensures !IsNonEmptyArray(Get(op, "consumes")) && !IsNonEmptyArray(Get(root, "consumes")) ==> r.None?
    ensures IsNonEmptyArray(Get(op, "consumes")) ==>
      var items := Get(op, "consumes").value.items;
      && ((exists i :: 0 <= i < |items| && IsJsonMediaType(items[i])) ==> r == Some("application/json"))
      && (!(exists i :: 0 <= i < |items| && IsJsonMediaType(items[i])) ==> r == AsTextOrNull(Some(items[0])))
    ensures !IsNonEmptyArray(Get(op, "consumes")) && IsNonEmptyArray(Get(root, "consumes")) ==>
      var items := Get(root, "consumes").value.items;
      && ((exists i :: 0 <= i < |items| && IsJsonMediaType(items[i])) ==> r == Some("application/json"))
      && (!(exists i :: 0 <= i < |items| && IsJsonMediaType(items[i])) ==> r == AsTextOrNull(Some(items[0])))
  {
    var opLevel := Get(op, "consumes");
    var consumes := if IsNonEmptyArray(opLevel) then opLevel else Get(root, "consumes");
    if IsNonEmptyArray(consumes) then
      var items := consumes.value.items;
      if exists i :: 0 <= i < |items| && IsJsonMediaType(items[i]) then Some("application/json")
      else AsTextOrNull(Some(items[0]))
    else None
  }

  predicate IsJsonMediaType(c: Json) {
    EqualsIgnoreCase("application/json", AsText(Some(c), ""))
  }

  /** The body of the first `in: body` parameter: its schema's example, under the consumed type or application/json. */
  function BodyFromParam(root: Json, op: Json, param: Json): (r: Result<BodyInfo, string>)
    ensures r.Ok? ==> r.value.contentType.Some?
  {
    var ct := PickConsumes(op, root).GetOr("application/json");
    match Build(Swagger2, root, Get(param, "schema"), 0, {})
    case Err(e) => Err(e)
    case Ok(v) => Ok(BodyInfo(Some(ct), SerializeBody(ct, v)))
  }

  /** The body of a non-empty form: key=value&... for form-urlencoded (the default), else serialised as a map. */
  function BodyFromForm(root: Json, op: Json, form: seq<(string, Json)>): (r: BodyInfo)
    ensures r.contentType.Some? && r.template.Some?
  {
    var ct := PickConsumes(op, root).GetOr(FormUrlEncoded);
    if EqualsIgnoreCase(FormUrlEncoded, ct) then BodyInfo(Some(ct), Some(FormEncoded(form)))
    else BodyInfo(Some(ct), SerializeBody(ct, JObj(form)))
  }

  /** extractBodySwagger2: whenever there is a body, there is a content type. */
  function BodySwagger2(root: Json, op: Json): (r: Result<BodyInfo, string>)
    ensures r.Ok? && r.value != NoBody ==> r.value.contentType.Some?
  {
    var params := Get(op, "parameters");
    if !IsNonEmptyArray(params) then Ok(NoBody)
    else
      var items := params.value.items;
      match FirstBodyParam(items)
      case Some(i) => BodyFromParam(root, op, items[i])
      case None =>
        var form := FormFields(items, []);
        if form == [] then Ok(NoBody) else Ok(BodyFromForm(root, op, form))
  }

  /**
   * Swagger 2: the first `in: body` parameter decides the body, whatever
   * formData parameters there are; form parameters count only without one.
   */
  lemma BodyParamBeatsForm(root: Json, op: Json, i: nat)
    requires IsNonEmptyArray(Get(op, "parameters"))
    requires var items := Get(op, "parameters").value.items;
      i < |items| && IsBodyParam(items[i]) && forall k :: 0 <= k < i ==> !IsBodyParam(items[k])
    ensures BodySwagger2(root, op) == BodyFromParam(root, op, Get(op, "parameters").value.items[i])
  {
    var items := Get(op, "parameters").value.items;
    FirstBodyParamAt(items, i);
  }

  method ExtractBodyOpenApi3(root: Json, op: Json) returns (r: Result<BodyInfo, string>)
    ensures r == BodyOpenApi3(root, op)
  {
    var rb := Get(op, "requestBody");
    if !Present(rb) {
      return Ok(NoBody);
    }
    var content := Get(rb.value, "content");
    if !(content.Some? && content.value.JObj?) {
      return Ok(NoBody);
    }
    var ct := PickContentKey(content.value.fields);
    if ct.None? {
      return Ok(NoBody);
    }
    var schema := Path(Get(content.value, ct.value), "schema");
    if !Present(schema) {
      return Ok(BodyInfo(ct, None));
    }
    var stack := new RefStack({});
    var v := BuildValue(OpenApi3, root, schema, 0, stack);
    if v.Err? {
      return Err(v.error);
    }
    return Ok(BodyInfo(ct, SerializeBody(ct.value, v.value)));
  }

  method ExtractBodyParam(root: Json, op: Json, param: Json) returns (r: Result<BodyInfo, string>)
    ensures r == BodyFromParam(root, op, param)
  {
    var ct := PickConsumes(op, root).GetOr("application/json");
    var stack := new RefStack({});
    var v := BuildValue(Swagger2, root, Get(param, "schema"), 0, stack);
    if v.Err? {
      r := Err(v.error);
    } else {
      r := Ok(BodyInfo(Some(ct), SerializeBody(ct, v.value)));
    }
  }

  method ExtractFormBody(root: Json, op: Json, form: seq<(string, Json)>) returns (r: BodyInfo)
    ensures r == BodyFromForm(root, op, form)
  {
    var ct := PickConsumes(op, root).GetOr(FormUrlEncoded);
    if EqualsIgnoreCase(FormUrlEncoded, ct) {
      var encoded := FormUrlEncode(form);
      r := BodyInfo(Some(ct), Some(encoded));
    } else {
      r := BodyInfo(Some(ct), SerializeBody(ct, JObj(form)));
    }
  }

  method ExtractBodySwagger2(root: Json, op: Json) returns (r: Result<BodyInfo, string>)
    ensures r == BodySwagger2(root, op)
  {
    var params := Get(op, "parameters");
    if !IsNonEmptyArray(params) {
      return Ok(NoBody);
    }
    var items := params.value.items;
    var i := 0;
    while i < |items|
      invariant 0 <= i <= |items|
      invariant forall k :: 0 <= k < i ==> !IsBodyParam(items[k])
    {
      if IsBodyParam(items[i]) {
        FirstBodyParamAt(items, i);
        r := ExtractBodyParam(root, op, items[i]);
        return;
      }
      i := i + 1;
    }
    assert FirstBodyParam(items).None? by {
      var first := FirstBodyParam(items);
    }
    var form := CollectForm(items);
    if form == [] {
      return Ok(NoBody);
    }
    var body := ExtractFormBody(root, op, form);
    return Ok(body);
  }

  // ----- rows -----

  function BodyOf(root: Json, isOpenApi3: bool, op: Json): (r: Result<BodyInfo, string>)
    ensures r.Ok? && r.value.template.Some? ==> r.value.contentType.Some?
  {
    if isOpenApi3 then BodyOpenApi3(root, op) else BodySwagger2(root, op)
  }

  /** The row of one operation. */
  function RowOf(root: Json, isOpenApi3: bool, path: string, verb: string, op: Json): (r: Result<EndpointRow, string>)
    ensures r.Ok? && r.value.bodyTemplate.Some? ==> r.value.contentType.Some?
  {
    match BodyOf(root, isOpenApi3, op)
    case Err(e) => Err(e)
    case Ok(body) =>
      Ok(EndpointRow(ToUpper(verb), path, EmptyToNull(AsText(Get(op, "operationId"), "")),
                     EmptyToNull(SummaryText(op)), body.contentType, body.template))
  }

  /**
   * operationId and summary are trimmed, and empty becomes null; the
   * description stands in only when the summary text is empty.
   */
  lemma RowTexts(root: Json, isOpenApi3: bool, path: string, verb: string, op: Json)
    requires RowOf(root, isOpenApi3, path, verb, op).Ok?
    ensures var row := RowOf(root, isOpenApi3, path, verb, op).value;
      && row.httpMethod == ToUpper(verb) && row.path == path
      && (row.operationId.Some? ==> row.operationId.value == Trim(AsText(Get(op, "operationId"), "")) != "")
      && (Trim(AsText(Get(op, "operationId"), "")) != "" ==>
            row.operationId == Some(Trim(AsText(Get(op, "operationId"), ""))))
      && (AsText(Get(op, "summary"), "") != "" ==> row.summary == EmptyToNull(AsText(Get(op, "summary"), "")))
      && (AsText(Get(op, "summary"), "") == "" ==> row.summary == EmptyToNull(AsText(Get(op, "description"), "")))
  {
  }

  method ExtractRow(root: Json, isOpenApi3: bool, path: string, verb: string, op: Json)
    returns (r: Result<EndpointRow, string>)
    ensures r == RowOf(root, isOpenApi3, path, verb, op)
  {
    var opId := AsText(Get(op, "operationId"), "");
    var summary := AsText(Get(op, "summary"), "");
    if summary == "" {
      summary := AsText(Get(op, "description"), "");
    }
    assert summary == SummaryText(op);
    var body;
    if isOpenApi3 {
      body := ExtractBodyOpenApi3(root, op);
    } else {
      body := ExtractBodySwagger2(root, op);
    }
    assert body == BodyOf(root, isOpenApi3, op);
    if body.Err? {
      r := Err(body.error);
    } else {
      r := Ok(EndpointRow(ToUpper(verb), path, EmptyToNull(opId), EmptyToNull(summary),
                          body.value.contentType, body.value.template));
    }
  }

  /** The rows of one path entry's operations, appended to `acc` in document order. */
  function OperationRows(root: Json, isOpenApi3: bool, path: string, ops: seq<(string, Json)>,
                         acc: seq<EndpointRow>): Result<seq<EndpointRow>, string>
  {
    if ops == [] then Ok(acc)
    else if !IsHttpMethod(ops[0].0) then OperationRows(root, isOpenApi3, path, ops[1..], acc)
    else match RowOf(root, isOpenApi3, path, ops[0].0, ops[0].1)
      case Err(e) => Err(e)
      case Ok(row) => OperationRows(root, isOpenApi3, path, ops[1..], acc + [row])
  }

  /** The rows of all path entries, in document order; a path entry that is not an object has none. */
  function PathRows(root: Json, isOpenApi3: bool, entries: seq<(string, Json)>, acc: seq<EndpointRow>): Result<seq<EndpointRow>, string> {
    if entries == [] then Ok(acc)
    else if !entries[0].1.JObj? then PathRows(root, isOpenApi3, entries[1..], acc)
    else match OperationRows(root, isOpenApi3, entries[0].0, entries[0].1.fields, acc)
      case Err(e) => Err(e)
      case Ok(acc') => PathRows(root, isOpenApi3, entries[1..], acc')
  }

  /** The rows before sorting: every HTTP-method key of every object under `paths`. */
  function UnsortedRows(root: Json): Result<seq<EndpointRow>, string> {
    var paths := Get(root, "paths");
    if root.JNull? || !(paths.Some? && paths.value.JObj?) then Ok([])
    else PathRows(root, Has(root, "openapi"), paths.value.fields, [])
  }

  /** extractEndpoints: the rows, stably sorted by (path, method). */
  function Endpoints(root: Json): Result<seq<EndpointRow>, string> {
    match UnsortedRows(root)
    case Err(e) => Err(e)
    case Ok(rows) => Ok(SortRows(rows))
  }

  /** The inner loop of extractEndpoints: the rows of one path entry's HTTP-method keys, appended to `out`. */
  method AppendOperationRows(root: Json, isOpenApi3: bool, path: string, ops: seq<(string, Json)>, out: seq<EndpointRow>)
    returns (r: Result<seq<EndpointRow>, string>)
    ensures r == OperationRows(root, isOpenApi3, path, ops, out)
  {
    var rows := out;
    var rest := ops;
    while rest != []
      invariant OperationRows(root, isOpenApi3, path, ops, out) == OperationRows(root, isOpenApi3, path, rest, rows)
    {
      OperationRowsStep(root, isOpenApi3, path, rest, rows);
      var verb := rest[0].0;
      if IsHttpMethod(verb) {
        var row := ExtractRow(root, isOpenApi3, path, verb, rest[0].1);
        if row.Err? {
          return Err(row.error);
        }
        rows := rows + [row.value];
      }
      rest := rest[1..];
    }
    return Ok(rows);
  }

  /** The outer loop of extractEndpoints: every path entry that is an object, in document order. */
  method CollectRows(root: Json, isOpenApi3: bool, entries: seq<(string, Json)>)
    returns (r: Result<seq<EndpointRow>, string>)
    ensures r == PathRows(root, isOpenApi3, entries, [])
  {
    var rows: seq<EndpointRow> := [];
    var rest := entries;
    while rest != []
      invariant PathRows(root, isOpenApi3, entries, []) == PathRows(root, isOpenApi3, rest, rows)
    {
      PathRowsStep(root, isOpenApi3, rest, rows);
      var methodsNode := rest[0].1;
      if methodsNode.JObj? {
        var more := AppendOperationRows(root, isOpenApi3, rest[0].0, methodsNode.fields, rows);
        if more.Err? {
          return Err(more.error);
        }
        rows := more.value;
      }
      rest := rest[1..];
    }
    return Ok(rows);
  }

  method ExtractEndpoints(root: Json) returns (r: Result<seq<EndpointRow>, string>)
    ensures r == Endpoints(root)
  {
    var paths := Get(root, "paths");
    if root.JNull? || !(paths.Some? && paths.value.JObj?) {
      return Ok([]);
    }
    var found := CollectRows(root, Has(root, "openapi"), paths.value.fields);
    if found.Err? {
      return Err(found.error);
    }
    return Ok(SortRows(found.value));
  }

  // ----- properties of the rows -----

  /** What every row satisfies: a known method name, and a template only with a content type. */
  predicate GoodRow(row: EndpointRow) {
    && row.httpMethod in UpperHttpMethods
    && (row.bodyTemplate.Some? ==> row.contentType.Some?)
  }

  lemma RowOfGood(root: Json, isOpenApi3: bool, path: string, verb: string, op: Json)
    requires IsHttpMethod(verb)
    ensures RowOf(root, isOpenApi3, path, verb, op).Ok? ==> GoodRow(RowOf(root, isOpenApi3, path, verb, op).value)
  {
    var row := RowOf(root, isOpenApi3, path, verb, op);
    if row.Ok? {
      HttpMethodUpper(verb);
      assert row.value.httpMethod == ToUpper(verb);
    }
  }

  /** Number of HTTP-method keys of one path entry. */
  function CountOps(ops: seq<(string, Json)>): nat {
    if ops == [] then 0 else (if IsHttpMethod(ops[0].0) then 1 else 0) + CountOps(ops[1..])
  }

  /** Number of operations under object path entries. */
  function CountPathOps(entries: seq<(string, Json)>): nat {
    if entries == [] then 0
    else (if entries[0].1.JObj? then CountOps(entries[0].1.fields) else 0) + CountPathOps(entries[1..])
  }

  predicate AllGood(rows: seq<EndpointRow>) {
    forall k :: 0 <= k < |rows| ==> GoodRow(rows[k])
  }

  lemma AllGoodSnoc(rows: seq<EndpointRow>, row: EndpointRow)
    requires AllGood(rows) && GoodRow(row)
    ensures AllGood(rows + [row])
  {
  }

  /** One step of the operations fold. */
  lemma OperationRowsStep(root: Json, isOpenApi3: bool, path: string, ops: seq<(string, Json)>, acc: seq<EndpointRow>)
    requires ops != []
    ensures var row := RowOf(root, isOpenApi3, path, ops[0].0, ops[0].1);
      OperationRows(root, isOpenApi3, path, ops, acc) ==
        if !IsHttpMethod(ops[0].0) then OperationRows(root, isOpenApi3, path, ops[1..], acc)
        else if row.Err? then Err(row.error)
        else OperationRows(root, isOpenApi3, path, ops[1..], acc + [row.value])
  {
  }

  /** One step of the path-entries fold. */
  lemma PathRowsStep(root: Json, isOpenApi3: bool, entries: seq<(string, Json)>, acc: seq<EndpointRow>)
    requires entries != []
    ensures PathRows(root, isOpenApi3, entries, acc) ==
      if !entries[0].1.JObj? then PathRows(root, isOpenApi3, entries[1..], acc)
      else
        var mid := OperationRows(root, isOpenApi3, entries[0].0, entries[0].1.fields, acc);
        if mid.Err? then Err(mid.error) else PathRows(root, isOpenApi3, entries[1..], mid.value)
  {
  }

  /** The operations fold adds one good row per HTTP-method key. */
  lemma {:induction false} OperationRowsGood(root: Json, isOpenApi3: bool, path: string, ops: seq<(string, Json)>, acc: seq<EndpointRow>)
    requires AllGood(acc)
    ensures var r := OperationRows(root, isOpenApi3, path, ops, acc);
      r.Ok? ==> |r.value| == |acc| + CountOps(ops) && AllGood(r.value)
  {
    if ops != [] {
      OperationRowsStep(root, isOpenApi3, path, ops, acc);
      if !IsHttpMethod(ops[0].0) {
        OperationRowsGood(root, isOpenApi3, path, ops[1..], acc);
      } else {
        RowOfGood(root, isOpenApi3, path, ops[0].0, ops[0].1);
        var row := RowOf(root, isOpenApi3, path, ops[0].0, ops[0].1);
        if row.Ok? {
          AllGoodSnoc(acc, row.value);
          OperationRowsGood(root, isOpenApi3, path, ops[1..], acc + [row.value]);
        }
      }
    }
  }

  /** The path-entries fold adds one good row per operation of each object entry. */
  lemma {:induction false} PathRowsGood(root: Json, isOpenApi3: bool, entries: seq<(string, Json)>, acc: seq<EndpointRow>)
    requires AllGood(acc)
    ensures var r := PathRows(root, isOpenApi3, entries, acc);
      r.Ok? ==> |r.value| == |acc| + CountPathOps(entries) && AllGood(r.value)
  {
    if entries != [] {
      PathRowsStep(root, isOpenApi3, entries, acc);
      if !entries[0].1.JObj? {
        PathRowsGood(root, isOpenApi3, entries[1..], acc);
      } else {
        OperationRowsGood(root, isOpenApi3, entries[0].0, entries[0].1.fields, acc);
        var mid := OperationRows(root, isOpenApi3, entries[0].0, entries[0].1.fields, acc);
        if mid.Ok? {
          PathRowsGood(root, isOpenApi3, entries[1..], mid.value);
        }
      }
    }
  }

  /**
   * extractEndpoints: one row per HTTP-method key of each object path entry
   * (non-object entries and other keys give none), each with an upper-case
   * method name and no template without a content type; sorted by
   * (path, method), a permutation of the rows in document order, and stable.
   */
  lemma EndpointsCorrect(root: Json)
    requires Endpoints(root).Ok?
    ensures var rows := Endpoints(root).value;
      var found := UnsortedRows(root).value;
      && |rows| == (if root.JNull? || !(Get(root, "paths").Some? && Get(root, "paths").value.JObj?) then 0
                    else CountPathOps(Get(root, "paths").value.fields))
      && (forall k :: 0 <= k < |rows| ==> GoodRow(rows[k]))
      && SortedRows(rows)
      && multiset(rows) == multiset(found)
      && forall path, verb :: SameKey(rows, path, verb) == SameKey(found, path, verb)
  {
    var found := UnsortedRows(root).value;
    var paths := Get(root, "paths");
    if !root.JNull? && paths.Some? && paths.value.JObj? {
      PathRowsGood(root, Has(root, "openapi"), paths.value.fields, []);
    }
    SortRowsCorrect(found);
    var rows := SortRows(found);
    forall k | 0 <= k < |rows|
      ensures GoodRow(rows[k])
    {
      assert rows[k] in multiset(found);
      var j :| 0 <= j < |found| && found[j] == rows[k];
    }
  }

  // ----- List.sort with Comparator.comparing(path).thenComparing(method) -----

  /** String.compareTo(a, b) <= 0: lexicographic by char, a proper prefix first. */
  predicate StrLe(a: string, b: string) {
    a == [] || (b != [] && (a[0] < b[0] || (a[0] == b[0] && StrLe(a[1..], b[1..]))))
  }

  lemma {:induction false} StrLeTotal(a: string, b: string)
    ensures StrLe(a, b) || StrLe(b, a)
    ensures StrLe(a, b) && StrLe(b, a) ==> a == b
  {
    if a != [] && b != [] && a[0] == b[0] {
      StrLeTotal(a[1..], b[1..]);
      if StrLe(a, b) && StrLe(b, a) {
        assert a == [a[0]] + a[1..] && b == [b[0]] + b[1..];
      }
    }
  }

  lemma {:induction false} StrLeTrans(a: string, b: string, c: string)
    requires StrLe(a, b) && StrLe(b, c)
    ensures StrLe(a, c)
  {
    if a != [] && b != [] && c != [] && a[0] == b[0] && b[0] == c[0] {
      StrLeTrans(a[1..], b[1..], c[1..]);
    }
  }

  lemma {:induction false} StrLeRefl(a: string)
    ensures StrLe(a, a)
  {
    if a != [] {
      StrLeRefl(a[1..]);
    }
  }

  /** The comparator: by path, then by method. */
  predicate RowLe(x: EndpointRow, y: EndpointRow) {
    (StrLe(x.path, y.path) && x.path != y.path) || (x.path == y.path && StrLe(x.httpMethod, y.httpMethod))
  }

  lemma RowLeTotal(x: EndpointRow, y: EndpointRow)
    ensures RowLe(x, y) || RowLe(y, x)
    ensures RowLe(x, y) && RowLe(y, x) ==> x.path == y.path && x.httpMethod == y.httpMethod
  {
    StrLeTotal(x.path, y.path);
    StrLeTotal(x.httpMethod, y.httpMethod);
  }

  lemma RowLeTrans(x: EndpointRow, y: EndpointRow, z: EndpointRow)
    requires RowLe(x, y) && RowLe(y, z)
    ensures RowLe(x, z)
  {
    if x.path == y.path && y.path == z.path {
      StrLeTrans(x.httpMethod, y.httpMethod, z.httpMethod);
    } else if x.path != y.path && y.path != z.path {
      StrLeTrans(x.path, y.path, z.path);
      StrLeTotal(x.path, y.path);
    }
  }

  predicate SortedRows(s: seq<EndpointRow>) {
    forall i, j :: 0 <= i < j < |s| ==> RowLe(s[i], s[j])
  }

  /** The rows with the given path and method, in order: what a stable sort keeps in place. */
  function SameKey(s: seq<EndpointRow>, path: string, verb: string): seq<EndpointRow> {
    if s == [] then []
    else (if s[0].path == path && s[0].httpMethod == verb then [s[0]] else []) + SameKey(s[1..], path, verb)
  }

  /** Put `x` in front of the first row it does not follow. */
  function Insert(x: EndpointRow, s: seq<EndpointRow>): seq<EndpointRow> {
    if s == [] || RowLe(x, s[0]) then [x] + s else [s[0]] + Insert(x, s[1..])
  }

  /** A stable insertion sort: the contract of List.sort with this comparator. */
  function SortRows(s: seq<EndpointRow>): seq<EndpointRow> {
    if s == [] then [] else Insert(s[0], SortRows(s[1..]))
  }

  /** Insert adds `x` and keeps every other row. */
  lemma {:induction false} InsertPerm(x: EndpointRow, s: seq<EndpointRow>)
    ensures multiset(Insert(x, s)) == multiset(s) + multiset{x}
  {
    if s != [] && !RowLe(x, s[0]) {
      InsertPerm(x, s[1..]);
      assert s == [s[0]] + s[1..];
    }
  }

  lemma {:induction false} InsertSorted(x: EndpointRow, s: seq<EndpointRow>)
    requires SortedRows(s)
    ensures SortedRows(Insert(x, s))
  {
    var r := Insert(x, s);
    if s == [] || RowLe(x, s[0]) {
      forall i, j | 0 <= i < j < |r|
        ensures RowLe(r[i], r[j])
      {
        if i == 0 && j > 1 {
          RowLeTrans(x, s[0], s[j - 1]);
        }
      }
    } else {
      var t := Insert(x, s[1..]);
      InsertSorted(x, s[1..]);
      InsertPerm(x, s[1..]);
      RowLeTotal(x, s[0]);
      forall i, j | 0 <= i < j < |r|
        ensures RowLe(r[i], r[j])
      {
        assert r[j] == t[j - 1];
        if i > 0 {
          assert r[i] == t[i - 1];
        } else {
          assert r[j] in multiset(t);
          if r[j] != x {
            assert r[j] in multiset(s[1..]);
            var k :| 0 <= k < |s[1..]| && s[1..][k] == r[j];
            assert s[k + 1] == r[j];
          }
        }
      }
    }
  }

  lemma SameKeyCons(a: EndpointRow, t: seq<EndpointRow>, path: string, verb: string)
    ensures SameKey([a] + t, path, verb) == (if a.path == path && a.httpMethod == verb then [a] else []) + SameKey(t, path, verb)
  {
    assert ([a] + t)[1..] == t;
  }

  lemma {:induction false} InsertSameKey(x: EndpointRow, s: seq<EndpointRow>, path: string, verb: string)
    ensures SameKey(Insert(x, s), path, verb) ==
      (if x.path == path && x.httpMethod == verb then [x] else []) + SameKey(s, path, verb)
  {
    if s != [] && !RowLe(x, s[0]) {
      StrLeRefl(x.httpMethod);
      InsertSameKey(x, s[1..], path, verb);
      SameKeyCons(s[0], Insert(x, s[1..]), path, verb);
      SameKeyCons(s[0], s[1..], path, verb);
      assert s == [s[0]] + s[1..];
    } else {
      SameKeyCons(x, s, path, verb);
    }
  }

  /** The sort orders by (path, method), keeps every row, and keeps rows with equal keys in their order. */
  lemma {:induction false} SortRowsCorrect(s: seq<EndpointRow>)
    ensures SortedRows(SortRows(s))
    ensures multiset(SortRows(s)) == multiset(s)
    ensures forall path, verb :: SameKey(SortRows(s), path, verb) == SameKey(s, path, verb)
  {
    if s != [] {
      SortRowsCorrect(s[1..]);
      InsertSorted(s[0], SortRows(s[1..]));
      InsertPerm(s[0], SortRows(s[1..]));
      assert s == [s[0]] + s[1..];
      forall path, verb
        ensures SameKey(SortRows(s), path, verb) == SameKey(s, path, verb)
      {
        InsertSameKey(s[0], SortRows(s[1..]), path, verb);
        SameKeyCons(s[0], s[1..], path, verb);
      }
    }
  }
}
