/**
 * UiRequests: the parts of the plugin's tab that turn a table row into an
 * HTTP request (base URL, bearer token, body), clean a pasted token, find
 * one in the proxy history, and filter the table.
 */
module UiRequests {
  import opened Wrappers
  import opened JavaString
  import opened Model
  import opened EndpointsTable
  import opened SqlmapCommandBuilder

  const DefaultHost: string := "http://example.com"
  /** What joinUrlSafe() returns when the joined URL does not parse. */
  const FallbackUrl: string := "http://example.com/"

  // ----- path placeholders -----

  /** Where the first path segment of `p` ends: the first '/', or the end. */
  function SegmentEnd(p: string): (k: nat)
    ensures k <= |p|
    ensures forall i :: 0 <= i < k ==> p[i] != '/'
    ensures k < |p| ==> p[k] == '/'
  {
    if p == [] || p[0] == '/' then 0 else 1 + SegmentEnd(p[1..])
  }

  /** The last '}' of `p` at an index in [2, k), if any. */
  function LastCloseBelow(p: string, k: nat): (j: Option<nat>)
    requires k <= |p|
    ensures j.Some? ==> 2 <= j.value < k && p[j.value] == '}'
    ensures j.Some? ==> forall i :: j.value < i < k ==> p[i] != '}'
    ensures j.None? ==> forall i :: 2 <= i < k ==> p[i] != '}'
  {
    if k <= 2 then None
    else if p[k - 1] == '}' then Some(k - 1)
    else LastCloseBelow(p, k - 1)
  }

  /**
   * Where a match of the regex \{[^/]+} that starts at p[0] ends: the greedy
   * [^/]+ runs to the end of the segment and backs off to its last '}'.
   */
  function PlaceholderEnd(p: string): Option<nat>
    requires p != [] && p[0] == '{'
  {
    LastCloseBelow(p, SegmentEnd(p))
  }

  /** replaceAll("\\{[^/]+}", "1"): each match, left to right, becomes 1. */
  function ReplacePlaceholders(p: string): string
    decreases |p|
  {
    if p == [] then []
    else if p[0] == '{' && PlaceholderEnd(p).Some? then
      "1" + ReplacePlaceholders(p[PlaceholderEnd(p).value + 1..])
    else [p[0]] + ReplacePlaceholders(p[1..])
  }

  lemma {:induction false} LastCloseAgrees(p: string, q: string, k: nat)
    requires k <= |p| && k <= |q| && p[..k] == q[..k]
    ensures LastCloseBelow(p, k) == LastCloseBelow(q, k)
    decreases k
  {
    if k > 2 {
      assert p[k - 1] == p[..k][k - 1] == q[..k][k - 1] == q[k - 1];
      assert p[..k - 1] == p[..k][..k - 1];
      assert q[..k - 1] == q[..k][..k - 1];
      LastCloseAgrees(p, q, k - 1);
    }
  }

  /** A placeholder never reaches past a '/': the text after the segment does not change the match. */
  lemma PlaceholderInSegment(a: string, b: string)
    requires a != [] && a[0] == '{' && '/' !in a
    ensures PlaceholderEnd(a + "/" + b) == PlaceholderEnd(a)
  {
    var p := a + "/" + b;
    assert forall i :: 0 <= i < |a| ==> a[i] != '/';
    assert SegmentEnd(a) == |a|;
    assert SegmentEnd(p) == |a| by {
      assert p[|a|] == '/';
      assert forall i :: 0 <= i < |a| ==> p[i] == a[i];
    }
    assert p[..|a|] == a[..|a|];
    LastCloseAgrees(p, a, |a|);
  }

  /** One step of replaceAll(): a match at the front becomes 1, any other char is kept. */
  lemma ReplaceStep(p: string)
    requires p != []
    ensures p[0] == '{' && PlaceholderEnd(p).Some? ==>
      ReplacePlaceholders(p) == "1" + ReplacePlaceholders(p[PlaceholderEnd(p).value + 1..])
    ensures !(p[0] == '{' && PlaceholderEnd(p).Some?) ==>
      ReplacePlaceholders(p) == [p[0]] + ReplacePlaceholders(p[1..])
  {
  }

  lemma ReplaceJoin(x: string, y: string, z: string)
    ensures x + (y + "/" + z) == (x + y) + "/" + z
  {
  }

  /** Placeholders are replaced segment by segment: a '/' separates what is replaced before and after it. */
  lemma {:induction false} ReplaceBySegment(a: string, b: string)
    requires '/' !in a
    ensures ReplacePlaceholders(a + "/" + b) == ReplacePlaceholders(a) + "/" + ReplacePlaceholders(b)
    decreases |a|
  {
    var p := a + "/" + b;
    if a == [] {
      assert p == "/" + b && p[1..] == b;
      assert ReplacePlaceholders(p) == "/" + ReplacePlaceholders(b);
    } else if a[0] == '{' && PlaceholderEnd(a).Some? {
      PlaceholderInSegment(a, b);
      var j := PlaceholderEnd(a).value;
      var tail := a[j + 1..];
      assert p[j + 1..] == tail + "/" + b;
      assert forall i :: j + 1 <= i < |a| ==> a[i] != '/';
      assert '/' !in tail;
      ReplaceBySegment(tail, b);
      ReplaceStep(p);
      ReplaceStep(a);
      ReplaceJoin("1", ReplacePlaceholders(tail), ReplacePlaceholders(b));
    } else {
      if a[0] == '{' {
        PlaceholderInSegment(a, b);
      }
      var tail := a[1..];
      assert p[0] == a[0] && p[1..] == tail + "/" + b;
      assert forall i :: 1 <= i < |a| ==> a[i] != '/';
      assert '/' !in tail;
      ReplaceBySegment(tail, b);
      ReplaceStep(p);
      ReplaceStep(a);
      ReplaceJoin([a[0]], ReplacePlaceholders(tail), ReplacePlaceholders(b));
    }
  }

  /** A path with no '}' is left as it is. */
  lemma {:induction false} ReplaceWithoutClose(p: string)
    requires '}' !in p
    ensures ReplacePlaceholders(p) == p
    decreases |p|
  {
    if p != [] {
      assert forall i :: 1 <= i < |p| ==> p[i] != '}';
      assert '}' !in p[1..];
      ReplaceWithoutClose(p[1..]);
      assert p == [p[0]] + p[1..];
    }
  }

  /** A whole segment {name}, name non-empty, becomes 1 (greedily, even when name holds braces). */
  lemma WholeSegmentReplaced(name: string)
    requires name != [] && '/' !in name
    ensures ReplacePlaceholders("{" + name + "}") == "1"
  {
    var p := "{" + name + "}";
    assert forall i :: 1 <= i < |p| - 1 ==> p[i] == name[i - 1] != '/';
    assert SegmentEnd(p) == |p|;
    assert p[|p| - 1] == '}';
    assert PlaceholderEnd(p) == Some(|p| - 1);
    assert p[|p|..] == [];
  }

  // ----- joinUrlSafe -----

  /** The base part of joinUrlSafe(): trimmed, at most one trailing '/' dropped, empty made http://example.com. */
  function UrlBase(base: string): (b: string)
    ensures b != []
    ensures Trim(base) == [] || Trim(base) == "/" ==> b == DefaultHost
    ensures |Trim(base)| > 1 && EndsWith(Trim(base), "/") ==> b + "/" == Trim(base)
    ensures Trim(base) != [] && !EndsWith(Trim(base), "/") ==> b == Trim(base)
  {
    var t := Trim(base);
    var stripped := if EndsWith(t, "/") then t[..|t| - 1] else t;
    assert EndsWith(t, "/") ==> stripped + "/" == t;
    if stripped == [] then DefaultHost else stripped
  }

  /** The path part of joinUrlSafe(): trimmed, given a leading '/', placeholders replaced. */
  function UrlPath(path: string): (p: string)
    ensures p != [] && p[0] == '/'
  {
    var t := Trim(path);
    var rooted := if StartsWith(t, "/") then t else "/" + t;
    assert rooted == "/" + rooted[1..];
    ReplaceBySegment([], rooted[1..]);
    assert [] + "/" + rooted[1..] == rooted;
    ReplacePlaceholders(rooted)
  }

  /**
   * joinUrlSafe(): base and path joined, or http://example.com/ when
   * java.net.URI rejects the result; `uriValid` stands for that check.
   */
  function JoinUrlSafe(base: string, path: string, uriValid: string -> bool): (url: string)
    ensures uriValid(UrlBase(base) + UrlPath(path)) ==> url == UrlBase(base) + UrlPath(path)
    ensures !uriValid(UrlBase(base) + UrlPath(path)) ==> url == FallbackUrl
  {
    var joined := UrlBase(base) + UrlPath(path);
    if uriValid(joined) then joined else FallbackUrl
  }

  /** A joined URL is the base, then a '/' that the path always begins with. */
  lemma JoinedUrlShape(base: string, path: string, uriValid: string -> bool)
    requires uriValid(UrlBase(base) + UrlPath(path))
    ensures UrlBase(base) <= JoinUrlSafe(base, path, uriValid)
    ensures JoinUrlSafe(base, path, uriValid)[|UrlBase(base)|] == '/'
  {
    var url := JoinUrlSafe(base, path, uriValid);
    assert url[..|UrlBase(base)|] == UrlBase(base);
  }

  // ----- the request for a row -----

  const AuthorizationHeader: string := "Authorization"
  const ContentTypeHeader: string := "Content-Type"
  const DefaultContentType: string := "application/json"

  /** The content type sent with a body: the row's, trimmed, or application/json. */
  function BodyContentType(r: EndpointRow): (ct: string)
    ensures ct != []
    ensures Trim(Safe(r.contentType)) != [] ==> ct == Trim(Safe(r.contentType))
  {
    var t := Trim(Safe(r.contentType));
    if t == [] then DefaultContentType else t
  }

  /** The URL of the request: an empty base field means http://example.com, then joinUrlSafe(). */
  function RowUrl(baseText: string, path: string, uriValid: string -> bool): string {
    var base := if Trim(baseText) == [] then DefaultHost else Trim(baseText);
    JoinUrlSafe(base, path, uriValid)
  }

  /** The bearer header, present when the trimmed token area is not empty. */
  function AuthHeaders(tokenText: string): (hs: seq<(string, string)>)
    ensures |hs| <= 1
    ensures hs != [] <==> Trim(tokenText) != []
    ensures hs != [] ==> hs[0] == (AuthorizationHeader, "Bearer " + Trim(tokenText))
  {
    var token := Trim(tokenText);
    if token == [] then [] else [(AuthorizationHeader, "Bearer " + token)]
  }

  /** The Content-Type header, present exactly when the row has a body template. */
  function BodyHeaders(r: EndpointRow): (hs: seq<(string, string)>)
    ensures |hs| <= 1
    ensures hs != [] <==> HasBody(r)
    ensures hs != [] ==> hs[0] == (ContentTypeHeader, BodyContentType(r))
  {
    if HasBody(r) then [(ContentTypeHeader, BodyContentType(r))] else []
  }

  /** The request body: the template when it is not blank, else empty. */
  function BodyText(r: EndpointRow): (body: string)
    ensures HasBody(r) ==> body == r.bodyTemplate.value
    ensures !HasBody(r) ==> body == ""
  {
    if HasBody(r) then r.bodyTemplate.value else ""
  }

  /**
   * The request buildHttpRequest() makes for `r` from the base URL field and
   * the token area: method upper-cased, a bearer header when there is a
   * token, and the body template with its content type when it is not blank.
   */
  function RequestFor(baseText: string, tokenText: string, r: EndpointRow, uriValid: string -> bool): HttpRequest {
    HttpRequest(ToUpper(r.httpMethod), RowUrl(baseText, r.path, uriValid),
      AuthHeaders(tokenText) + BodyHeaders(r), BodyText(r))
  }

  /** What the request holds, header by header. */
  lemma RequestContents(baseText: string, tokenText: string, r: EndpointRow, uriValid: string -> bool)
    ensures var req := RequestFor(baseText, tokenText, r, uriValid);
      && req.httpMethod == ToUpper(r.httpMethod)
      && |req.headers| == (if Trim(tokenText) == [] then 0 else 1) + (if HasBody(r) then 1 else 0)
      && (Trim(tokenText) != [] ==> req.headers[0] == (AuthorizationHeader, "Bearer " + Trim(tokenText)))
      && (HasBody(r) ==> req.headers[|req.headers| - 1] == (ContentTypeHeader, BodyContentType(r)))
      && (HasBody(r) ==> req.body == r.bodyTemplate.value)
      && (!HasBody(r) ==> req.body == "")
  {
    var a, b := AuthHeaders(tokenText), BodyHeaders(r);
    assert |a + b| == |a| + |b|;
    if b != [] {
      assert (a + b)[|a + b| - 1] == b[0];
    }
  }

  /** An empty base URL field means http://example.com. */
  lemma BlankBaseUsesDefaultHost(baseText: string, path: string, uriValid: string -> bool)
    requires Trim(baseText) == []
    requires uriValid(DefaultHost + UrlPath(path))
    ensures RowUrl(baseText, path, uriValid) == DefaultHost + UrlPath(path)
  {
    var t := Trim(DefaultHost);
    assert DefaultHost[0] == 'h' && DefaultHost[|DefaultHost| - 1] == 'm';
    TrimNoop(DefaultHost);
    assert !EndsWith(t, "/");
  }

  /** The bearer header is among the -H values sqlmap reads back from the default command. */
  lemma DefaultCommandCarriesToken(baseText: string, tokenText: string, r: EndpointRow, uriValid: string -> bool)
    requires Trim(tokenText) != []
    ensures HeaderLine((AuthorizationHeader, "Bearer " + Trim(tokenText))) in
      InvocationOf(RequestFor(baseText, tokenText, r, uriValid), DefaultOptions).headers
  {
    var req := RequestFor(baseText, tokenText, r, uriValid);
    var h := (AuthorizationHeader, "Bearer " + Trim(tokenText));
    assert req.headers == AuthHeaders(tokenText) + BodyHeaders(r);
    assert h in req.headers;
    AuthorizationPasses(h.1);
    PassedHeaderRead(req, DefaultOptions, h);
  }

  /** The bearer header is kept by the default header filter. */
  lemma AuthorizationPasses(value: string)
    ensures PassesHeader(DefaultOptions, (AuthorizationHeader, value))
  {
    AuthorizationLowered(AuthorizationHeader);
  }

  lemma AuthorizationLowered(s: string)
    requires s == "Authorization"
    ensures ToLower(s) == "authorization"
  {
    var n := ToLower(s);
    assert n[0] == 'a';
    assert forall i :: 1 <= i < |s| ==> n[i] == s[i];
  }

  /** For a method that takes a body, a row's body template is what sqlmap reads back as --data. */
  lemma DefaultCommandCarriesBody(baseText: string, tokenText: string, r: EndpointRow, uriValid: string -> bool)
    requires HasBody(r) && AllowsBody(ToUpper(r.httpMethod))
    ensures InvocationOf(RequestFor(baseText, tokenText, r, uriValid), DefaultOptions).data == Some(r.bodyTemplate.value)
  {
    ToUpperIdempotent(r.httpMethod);
  }

  lemma {:induction false} ToUpperIdempotent(s: string)
    ensures ToUpper(ToUpper(s)) == ToUpper(s)
  {
    var u := ToUpper(s);
    assert forall i :: 0 <= i < |u| ==> ToUpper(u)[i] == UpperChar(UpperChar(s[i])) == u[i];
  }

  // ----- bearer tokens -----

  /** The chars the regex class \s matches: space, \t, \n, \u000B, \f, \r. */
  predicate IsRegexSpace(c: char) {
    c == ' ' || ('\t' <= c <= '\r')
  }

  /** A greedy \s* at the front. */
  function DropSpaces(s: string): (r: string)
    ensures |r| <= |s| && r == s[|s| - |r|..]
    ensures r == [] || !IsRegexSpace(r[0])
  {
    if s != [] && IsRegexSpace(s[0]) then DropSpaces(s[1..]) else s
  }

  /** What replaceFirst("(?i)^bearer\\s+", "") leaves when it matches. */
  function AfterBearer(s: string): Option<string> {
    if |s| > 6 && ToLower(s[..6]) == "bearer" && IsRegexSpace(s[6]) then Some(DropSpaces(s[7..]))
    else None
  }

  /** What replaceFirst("(?i)^authorization\\s*:\\s*bearer\\s+", "") leaves when it matches. */
  function AfterAuthorization(s: string): Option<string> {
    if |s| >= 13 && ToLower(s[..13]) == "authorization" then
      var t := DropSpaces(s[13..]);
      if t != [] && t[0] == ':' then AfterBearer(DropSpaces(t[1..])) else None
    else None
  }

  /** The clipboard text made a token: trimmed, then the header prefix, then a bearer prefix, removed once each. */
  function CleanClipboardToken(clip: Option<string>): string {
    var raw := if clip.Some? then clip.value else "";
    var c := Trim(raw);
    var c1 := if AfterAuthorization(c).Some? then AfterAuthorization(c).value else c;
    if AfterBearer(c1).Some? then AfterBearer(c1).value else c1
  }

  /** A run of chars that \s matches. */
  predicate AllSpaces(sp: string) {
    forall i :: 0 <= i < |sp| ==> IsRegexSpace(sp[i])
  }

  lemma {:induction false} DropSpacesOver(sp: string, t: string)
    requires AllSpaces(sp)
    requires t == [] || !IsRegexSpace(t[0])
    ensures DropSpaces(sp + t) == t
    decreases |sp|
  {
    if sp == [] {
      assert sp + t == t;
    } else {
      assert (sp + t)[1..] == sp[1..] + t;
      DropSpacesOver(sp[1..], t);
    }
  }

  /** "bearer" in any case, then at least one space, is removed from the front. */
  lemma BearerPrefixRemoved(b: string, sp: string, t: string)
    requires ToLower(b) == "bearer"
    requires sp != [] && AllSpaces(sp)
    requires t == [] || !IsRegexSpace(t[0])
    ensures AfterBearer(b + sp + t) == Some(t)
  {
    var s := b + sp + t;
    assert |b| == 6;
    assert s[..6] == b;
    assert s[6] == sp[0];
    assert s[7..] == sp[1..] + t;
    DropSpacesOver(sp[1..], t);
  }

  /** "authorization" in any case, spaces, ':' and spaces are removed, and what follows is read for "bearer". */
  lemma AuthorizationPrefixRemoved(a: string, sp1: string, sp2: string, rest: string)
    requires ToLower(a) == "authorization"
    requires AllSpaces(sp1) && AllSpaces(sp2)
    requires rest == [] || !IsRegexSpace(rest[0])
    ensures AfterAuthorization(a + (sp1 + (":" + (sp2 + rest)))) == AfterBearer(rest)
  {
    var afterColon := sp2 + rest;
    var s := a + (sp1 + (":" + afterColon));
    assert |a| == 13;
    assert s[..13] == a;
    assert s[13..] == sp1 + (":" + afterColon);
    DropSpacesOver(sp1, ":" + afterColon);
    assert (":" + afterColon)[1..] == afterColon;
    DropSpacesOver(sp2, rest);
  }

  /**
   * A pasted "Authorization: Bearer <token>" header, in any letter case and
   * with any spacing the regex allows, leaves just the token.
   */
  lemma HeaderPasteGivesToken(a: string, sp1: string, sp2: string, b: string, sp3: string, t: string)
    requires ToLower(a) == "authorization" && ToLower(b) == "bearer"
    requires AllSpaces(sp1) && AllSpaces(sp2) && sp3 != [] && AllSpaces(sp3)
    requires t != [] && Trim(t) == t && AfterBearer(t).None?
    ensures CleanClipboardToken(Some(a + sp1 + ":" + sp2 + b + sp3 + t)) == t
  {
    var rest := b + sp3 + t;
    var s := a + (sp1 + (":" + (sp2 + rest)));
    assert a + sp1 + ":" + sp2 + b + sp3 + t == s;
    assert !IsTrimmable(t[0]) && !IsTrimmable(t[|t| - 1]);
    assert LowerChar(a[0]) == ToLower(a)[0] == 'a';
    assert LowerChar(b[0]) == ToLower(b)[0] == 'b';
    assert s[0] == a[0] && s[|s| - 1] == t[|t| - 1];
    TrimNoop(s);
    AuthorizationPrefixRemoved(a, sp1, sp2, rest);
    BearerPrefixRemoved(b, sp3, t);
  }

  /** A trimmed token with neither prefix is kept as it is. */
  lemma PlainTokenKept(t: string)
    requires Trim(t) == t && AfterAuthorization(t).None? && AfterBearer(t).None?
    ensures CleanClipboardToken(Some(t)) == t
  {
  }

  /** A null clipboard gives the empty token. */
  lemma NullClipboardEmpty()
    ensures CleanClipboardToken(None) == ""
  {
    assert Trim("") == "";
  }

  // ----- the proxy history -----

  /** The token one header carries: an Authorization header whose trimmed value starts with "bearer ", in any case. */
  function HeaderToken(h: (string, string)): (t: Option<string>)
    ensures t.Some? ==> ToLower(h.0) == "authorization"
  {
    if ToLower(h.0) == "authorization" then
      var v := Trim(h.1);
      if StartsWith(ToLower(v), "bearer ") then Some(Trim(v[7..])) else None
    else None
  }

  /** The first header of a request that carries a token. */
  function HeadersToken(hs: seq<(string, string)>): Option<string> {
    if hs == [] then None
    else if HeaderToken(hs[0]).Some? then HeaderToken(hs[0])
    else HeadersToken(hs[1..])
  }

  /** The token of the newest request (the last entry) that carries one. */
  function HistoryToken(history: seq<seq<(string, string)>>): Option<string> {
    if history == [] then None
    else if HeadersToken(history[|history| - 1]).Some? then HeadersToken(history[|history| - 1])
    else HistoryToken(history[..|history| - 1])
  }

  /** A request's token is that of its first header that has one; none when no header has one. */
  lemma {:induction false} HeadersTokenFirst(hs: seq<(string, string)>, j: int)
    requires 0 <= j <= |hs|
    requires forall k :: 0 <= k < j ==> HeaderToken(hs[k]).None?
    ensures j < |hs| && HeaderToken(hs[j]).Some? ==> HeadersToken(hs) == HeaderToken(hs[j])
    ensures j == |hs| ==> HeadersToken(hs).None?
    decreases j
  {
    if j > 0 {
      HeadersTokenFirst(hs[1..], j - 1);
    }
  }

  /** The history's token is that of its newest request that has one; none when no request has one. */
  lemma {:induction false} HistoryTokenNewest(history: seq<seq<(string, string)>>, i: int)
    requires -1 <= i < |history|
    requires forall k :: i < k < |history| ==> HeadersToken(history[k]).None?
    ensures 0 <= i && HeadersToken(history[i]).Some? ==> HistoryToken(history) == HeadersToken(history[i])
    ensures i == -1 ==> HistoryToken(history).None?
    decreases |history| - i
  {
    if |history| > 0 && i < |history| - 1 {
      var older := history[..|history| - 1];
      assert forall k :: i < k < |older| ==> older[k] == history[k];
      HistoryTokenNewest(older, i);
      assert 0 <= i ==> older[i] == history[i];
    }
  }

  /** The inner loop of loadTokenFromBurpHistory(): the headers of one request, in order, up to the first bearer token. */
  method ScanHeaders(headers: seq<(string, string)>) returns (token: Option<string>)
    ensures token == HeadersToken(headers)
  {
    var j := 0;
    while j < |headers|
      invariant 0 <= j <= |headers|
      invariant forall k :: 0 <= k < j ==> HeaderToken(headers[k]).None?
    {
      var h := headers[j];
      if ToLower(h.0) == "authorization" {
        var v := Trim(h.1);
        if StartsWith(ToLower(v), "bearer ") {
          token := Some(Trim(v[7..]));
          assert HeaderToken(h) == token;
          HeadersTokenFirst(headers, j);
          return;
        }
      }
      j := j + 1;
    }
    HeadersTokenFirst(headers, j);
    token := None;
  }

  // ----- the row filter -----

  /** The search text as the filter uses it. */
  function FilterQuery(searchText: string): string {
    ToLower(Trim(searchText))
  }

  /** The text a query is looked for in: method, path, operationId and summary, lower-cased. */
  function Haystack(r: EndpointRow): string {
    ToLower(r.httpMethod + " " + r.path + " " + Safe(r.operationId) + " " + Safe(r.summary))
  }

  /** The filter applyFilters() installs, for method selection `m` and query `q`. */
  predicate RowFilter(row: Option<EndpointRow>, m: string, q: string) {
    && row.Some?
    && (m == "ALL" || EqualsIgnoreCase(row.value.httpMethod, m))
    && (q == [] || Contains(Haystack(row.value), q))
  }

  /** Whether the table shows its row `id`. */
  predicate Shown(table: EndpointsTableModel, id: int, m: string, q: string)
    reads table
  {
    RowFilter(table.GetAt(id), m, q)
  }

  lemma {:induction false} PrefixContains(s: string, t: string, u: string)
    requires t <= s && Contains(t, u)
    ensures Contains(s, u)
    decreases |t|
  {
    if !(u <= t) {
      assert t[1..] <= s[1..];
      PrefixContains(s[1..], t[1..], u);
    }
  }

  lemma {:induction false} ContainsTransitive(s: string, t: string, u: string)
    requires Contains(s, t) && Contains(t, u)
    ensures Contains(s, u)
    decreases |s|
  {
    if t <= s {
      PrefixContains(s, t, u);
    } else {
      ContainsTransitive(s[1..], t, u);
    }
  }

  /** Typing more narrows the table: a row shown for a longer query is shown for any part of it. */
  lemma FilterNarrows(row: Option<EndpointRow>, m: string, q1: string, q2: string)
    requires Contains(q2, q1)
    requires RowFilter(row, m, q2)
    ensures RowFilter(row, m, q1)
  {
    if q1 != [] && q2 != [] {
      ContainsTransitive(Haystack(row.value), q2, q1);
    }
  }

  lemma {:induction false} ContainsMiddle(a: string, b: string, c: string)
    ensures Contains(a + b + c, b)
    decreases |a|
  {
    if a == [] {
      assert a + b + c == b + c;
    } else {
      assert (a + b + c)[1..] == a[1..] + b + c;
      ContainsMiddle(a[1..], b, c);
    }
  }

  lemma {:induction false} ToLowerAppend(a: string, b: string)
    ensures ToLower(a + b) == ToLower(a) + ToLower(b)
  {
    assert forall i :: 0 <= i < |a + b| ==> ToLower(a + b)[i] == (ToLower(a) + ToLower(b))[i];
  }

  /** Searching for a row's own path, under "ALL", finds that row. */
  lemma OwnPathFindsRow(r: EndpointRow)
    ensures RowFilter(Some(r), "ALL", ToLower(r.path))
  {
    var pre := r.httpMethod + " ";
    var post := " " + Safe(r.operationId) + " " + Safe(r.summary);
    assert r.httpMethod + " " + r.path + " " + Safe(r.operationId) + " " + Safe(r.summary) == pre + r.path + post;
    ToLowerAppend(pre + r.path, post);
    ToLowerAppend(pre, r.path);
    ContainsMiddle(ToLower(pre), ToLower(r.path), ToLower(post));
  }

  /** Under "ALL" with an empty query every present row is shown, and an absent one never is. */
  lemma EmptyFilterShowsAll(table: EndpointsTableModel, id: int)
    ensures Shown(table, id, "ALL", "") <==> 0 <= id < |table.data|
  {
  }

  // ----- the tab's state -----

  /**
   * Swagger2SqlmapUi, reduced to the two text fields the request builder
   * reads: the base URL field and the token area.
   */
  class Swagger2SqlmapUi {
    var baseUrlText: string
    var tokenText: string
    const uriValid: string -> bool

    constructor (uriValid: string -> bool)
      ensures baseUrlText == "" && tokenText == "" && this.uriValid == uriValid
    {
      baseUrlText := "";
      tokenText := "";
      this.uriValid := uriValid;
    }

    /** buildHttpRequest(): the request for `r` from the fields as they are now. */
    method BuildHttpRequest(r: EndpointRow) returns (req: HttpRequest)
      ensures req == RequestFor(baseUrlText, tokenText, r, uriValid)
    {
      var base := Trim(baseUrlText);
      if base == [] {
        base := DefaultHost;
      }
      var full := JoinUrlSafe(base, r.path, uriValid);
      assert full == RowUrl(baseUrlText, r.path, uriValid);
      req := HttpRequest(ToUpper(r.httpMethod), full, [], "");
      var token := Trim(tokenText);
      if token != [] {
        req := req.(headers := req.headers + [(AuthorizationHeader, "Bearer " + token)]);
      }
      assert req.headers == AuthHeaders(tokenText);
      if r.bodyTemplate.Some? && !IsBlank(r.bodyTemplate.value) {
        var ct := Trim(Safe(r.contentType));
        if ct == [] {
          ct := DefaultContentType;
        }
        assert ct == BodyContentType(r);
        req := req.(headers := req.headers + [(ContentTypeHeader, ct)]);
        req := req.(body := r.bodyTemplate.value);
      }
      assert req.headers == AuthHeaders(tokenText) + BodyHeaders(r);
      assert req.body == BodyText(r);
    }

    /** insertTokenFromClipboard(): the token area gets the cleaned clipboard text. */
    method InsertTokenFromClipboard(clip: Option<string>)
      modifies this
      ensures tokenText == CleanClipboardToken(clip)
      ensures baseUrlText == old(baseUrlText)
    {
      var raw := if clip.Some? then clip.value else "";
      var c := Trim(raw);
      if AfterAuthorization(c).Some? {
        c := AfterAuthorization(c).value;
      }
      if AfterBearer(c).Some? {
        c := AfterBearer(c).value;
      }
      tokenText := c;
    }

    /**
     * loadTokenFromBurpHistory(): newest request first, each header in
     * order; the first bearer Authorization value found goes into the token
     * area, and the area is left alone when there is none.
     */
    method LoadTokenFromBurpHistory(history: seq<seq<(string, string)>>) returns (found: bool)
      modifies this
      ensures found == HistoryToken(history).Some?
      ensures tokenText == if found then HistoryToken(history).value else old(tokenText)
      ensures baseUrlText == old(baseUrlText)
    {
      var i := |history| - 1;
      while i >= 0
        invariant -1 <= i < |history|
        invariant forall k :: i < k < |history| ==> HeadersToken(history[k]).None?
        invariant tokenText == old(tokenText) && baseUrlText == old(baseUrlText)
        decreases i
      {
        var token := ScanHeaders(history[i]);
        if token.Some? {
          HistoryTokenNewest(history, i);
          tokenText := token.value;
          found := true;
          return;
        }
        i := i - 1;
      }
      HistoryTokenNewest(history, i);
      found := false;
    }
  }
}
