# swagger2sqlmap, modelled in Dafny

swagger2sqlmap is a Burp Suite extension. It reads a Swagger 2 or OpenAPI 3
document and lists one row per operation, with its method, path, operationId,
summary, content type and a generated body template. For each row it builds
an HTTP request and a `sqlmap` command line, and it can export those command
lines as `.sh`, `.py` and `.ps1` scripts.

This project models that core:

- **SwaggerParser**: base-URL detection, the endpoint rows, body extraction for both
  document flavours, and the example-value builder that follows `$ref`, `allOf`/`oneOf`/`anyOf`,
  objects and arrays. It also covers form encoding and the final sort by path and method.
- **SqlmapCommandBuilder**: the argument list `build` produces, `toShellCommand` with its
  POSIX single-quote quoting, and `splitExtraArgs`.
- **SqlmapScriptExporter**: the three script texts and their quoting helpers.
- **EndpointsTableModel**: a class whose row list `setData` replaces.
- **Swagger2SqlmapUi** helpers:
  - `joinUrlSafe` and the header and body logic of `buildHttpRequest`;
  - the row filter;
  - the clipboard token clean-up;
  - the scan of the proxy history for the newest Bearer token.

Files:

- `wrappers.dfy`: `Option` and `Result`.
- `java_string.dfy`: the `java.lang.String` operations the source uses.
- `json.dfy`: the Jackson tree, with `path`, `asText` and `has`.
- `json_writer.dfy`: compact JSON serialisation.
- `endpoint_row.dfy`: the `EndpointRow` record and the request value.
- `swagger_parser.dfy` and `schema_values.dfy`: the parser.
- `command_builder.dfy`: the command builder.
- `shell_syntax.dfy`: a reader of POSIX shell words, used to state that the quoting round-trips.
- `script_exporter.dfy`: the exporter.
- `endpoints_table.dfy`: the table model.
- `ui_requests.dfy`: the UI helpers.

Most loops in the source are methods with loop invariants. Each is proved equal to a
specification function, and the properties are lemmas about those functions.
Two loops are modelled only as recursive functions over values: the array and
object copies in `jsonNodeToJava` (`SchemaValues.ToValueItems`,
`SchemaValues.ToValueFields`) and the scan of `consumes` in `pickConsumes`
(`SwaggerParser.PickConsumes`).
Exceptions become `Err` values. `null` becomes `None`.

## Model

| member | source | states |
|---|---|---|
| JavaString.Trim | src/main/java/swagger2sqlmap/swagger/SwaggerParser.java:121 | String.trim(): the result never starts or ends with a char at or below U+0020 and is no longer than the input |
| JavaString.TrimSlice | src/main/java/swagger2sqlmap/swagger/SwaggerParser.java:121 | String.trim() returns the contiguous slice of the input left after dropping the chars at or below U+0020 from both ends: everything before and after the slice is such a char, and the slice's own end chars are not |
| JavaString.TrimNoop | src/main/java/swagger2sqlmap/swagger/SwaggerParser.java:121 | trim() leaves a string whose end chars are above U+0020 unchanged |
| JavaString.ToLower | src/main/java/swagger2sqlmap/swagger/SwaggerParser.java:113 | toLowerCase(Locale.ROOT) maps each char, keeping the length |
| JavaString.ToUpper | src/main/java/swagger2sqlmap/swagger/SwaggerParser.java:94 | toUpperCase(Locale.ROOT) maps each char, keeping the length |
| JavaString.JoinSnoc | src/main/java/swagger2sqlmap/swagger/SwaggerParser.java:470-478 | String.join gains exactly the separator and the new part when a part is added |
| Json.LookupFinds | src/main/java/swagger2sqlmap/swagger/SwaggerParser.java:37 | JsonNode.path(key) finds a field exactly when one has that key, and returns the first such field |
| Json.AsText | src/main/java/swagger2sqlmap/swagger/SwaggerParser.java:39 | asText(default) gives the default for a missing or null node and a string node's own text |
| Json.Put | src/main/java/swagger2sqlmap/swagger/SwaggerParser.java:278 | LinkedHashMap.put: the key maps to the new value, other keys are unchanged, a new key is appended at the end, and an existing key keeps its position |
| SwaggerParser.StripSlashes | src/main/java/swagger2sqlmap/swagger/SwaggerParser.java:124-126 | the loop drops only trailing '/' chars and stops at the first non-slash or at the "https://x" length |
| SwaggerParser.StripSlashesUnique | src/main/java/swagger2sqlmap/swagger/SwaggerParser.java:124-126 | any prefix meeting those conditions is the one StripSlashes returns, so the characterisation is exact |
| SwaggerParser.NormalizeBaseUrl | src/main/java/swagger2sqlmap/swagger/SwaggerParser.java:119-133 | the while loop computes trim followed by the slash stripping |
| SwaggerParser.NormalizePath | src/main/java/swagger2sqlmap/swagger/SwaggerParser.java:135-141 | a blank basePath gives "", and any non-empty result starts with '/' (a basePath of "/" also gives "") |
| SwaggerParser.NormalizePathShape | src/main/java/swagger2sqlmap/swagger/SwaggerParser.java:135-141 | a non-blank path is the trimmed, rooted path with at most one trailing '/' removed |
| SwaggerParser.NormalizePathKeepsNormal | src/main/java/swagger2sqlmap/swagger/SwaggerParser.java:135-141 | a trimmed, rooted path without a trailing '/' is returned unchanged |
| SwaggerParser.NormalizePathDoubleSlash | src/main/java/swagger2sqlmap/swagger/SwaggerParser.java:139 | only one trailing slash is removed, so "//" becomes "/" |
| SwaggerParser.BaseUrlPrecedence | src/main/java/swagger2sqlmap/swagger/SwaggerParser.java:33-61 | servers[0].url wins when non-empty after normalisation; otherwise scheme (default https) + "://" + host + basePath; otherwise "" |
| SwaggerParser.ServerUrlExample | src/main/java/swagger2sqlmap/swagger/SwaggerParser.java:37-41 | an OpenAPI 3 server URL loses its trailing slash |
| SwaggerParser.UpperOfLower | src/main/java/swagger2sqlmap/swagger/SwaggerParser.java:94 | upper-casing after lower-casing equals upper-casing |
| SwaggerParser.HttpMethodUpper | src/main/java/swagger2sqlmap/swagger/SwaggerParser.java:111-117 | every key isHttpMethod accepts upper-cases to one of GET, POST, PUT, DELETE, PATCH, HEAD, OPTIONS |
| SwaggerParser.EmptyToNull | src/main/java/swagger2sqlmap/swagger/SwaggerParser.java:143-147 | null exactly when the trimmed text is empty, else the trimmed text |
| SwaggerParser.FormPairs | src/main/java/swagger2sqlmap/swagger/SwaggerParser.java:470-478 | one "key=value" entry per form field, in insertion order |
| SwaggerParser.FormUrlEncode | src/main/java/swagger2sqlmap/swagger/SwaggerParser.java:470-478 | the loop builds the '&'-joined pairs |
| SwaggerParser.FormPairsSnoc | src/main/java/swagger2sqlmap/swagger/SwaggerParser.java:470-478 | one more field adds exactly its own pair at the end |
| SwaggerParser.FormRoundTrip | src/main/java/swagger2sqlmap/swagger/SwaggerParser.java:470-478 | splitting the encoded form on '&' and '=' gives back each key and value text, provided keys hold neither '&' nor '=' and values hold no '&' |
| SwaggerParser.DecodePairSplits | src/main/java/swagger2sqlmap/swagger/SwaggerParser.java:475 | a pair is split at its first '=' |
| SwaggerParser.SplitJoin | src/main/java/swagger2sqlmap/swagger/SwaggerParser.java:474 | splitting a join on a separator that no part holds gives the parts back |
| SwaggerParser.SerializeBody | src/main/java/swagger2sqlmap/swagger/SwaggerParser.java:444-468 | a null body gives no template; a content type containing "json" (any case) gives the JSON text; otherwise a form-urlencoded type passes a string body through and encodes an object body as name=value pairs joined by '&'; every other body is written as JSON text |
| SwaggerParser.SerializedFormReads | src/main/java/swagger2sqlmap/swagger/SwaggerParser.java:456-460 | an object body under a form-urlencoded type serialises to text that splits back into the field names and their asText values |
| SwaggerParser.PickContentKey | src/main/java/swagger2sqlmap/swagger/SwaggerParser.java:160-163 | nothing exactly when content is empty; the chosen key is always a key of content; application/json when it is a key, otherwise the first media type |
| SwaggerParser.BodyOpenApi3 | src/main/java/swagger2sqlmap/swagger/SwaggerParser.java:153-173 | a template always comes with a content type |
| SwaggerParser.ExtractBodyOpenApi3 | src/main/java/swagger2sqlmap/swagger/SwaggerParser.java:153-173 | the method computes BodyOpenApi3 |
| SwaggerParser.FirstBodyParam | src/main/java/swagger2sqlmap/swagger/SwaggerParser.java:180-181 | the index of the first `in: body` parameter, with none before it, or none at all |
| SwaggerParser.FirstBodyParamAt | src/main/java/swagger2sqlmap/swagger/SwaggerParser.java:180-191 | the first body parameter is the one FirstBodyParam finds |
| SwaggerParser.FormFieldsEmpty | src/main/java/swagger2sqlmap/swagger/SwaggerParser.java:194-204 | no form fields are collected exactly when no parameter is a named formData parameter |
| SwaggerParser.CollectForm | src/main/java/swagger2sqlmap/swagger/SwaggerParser.java:194-203 | the loop computes FormFields |
| SwaggerParser.PickConsumes | src/main/java/swagger2sqlmap/swagger/SwaggerParser.java:495-505 | a non-empty operation consumes list is used, otherwise a non-empty root list; in the list used, application/json (any case) wins when listed, else the first entry; nothing when neither list has entries |
| SwaggerParser.BodyFromParam | src/main/java/swagger2sqlmap/swagger/SwaggerParser.java:181-189 | a body parameter always yields a content type |
| SwaggerParser.BodyFromForm | src/main/java/swagger2sqlmap/swagger/SwaggerParser.java:204-215 | form parameters always yield both a content type and a template |
| SwaggerParser.BodySwagger2 | src/main/java/swagger2sqlmap/swagger/SwaggerParser.java:175-218 | any body found carries a content type |
| SwaggerParser.BodyParamBeatsForm | src/main/java/swagger2sqlmap/swagger/SwaggerParser.java:179-215 | the first body parameter decides the body even when formData parameters exist |
| SwaggerParser.ExtractBodyParam | src/main/java/swagger2sqlmap/swagger/SwaggerParser.java:181-189 | the method computes BodyFromParam |
| SwaggerParser.ExtractFormBody | src/main/java/swagger2sqlmap/swagger/SwaggerParser.java:204-215 | the method computes BodyFromForm |
| SwaggerParser.ExtractBodySwagger2 | src/main/java/swagger2sqlmap/swagger/SwaggerParser.java:175-218 | the method computes BodySwagger2 |
| SwaggerParser.BodyOf | src/main/java/swagger2sqlmap/swagger/SwaggerParser.java:91 | whichever flavour is used, a template comes with a content type |
| SwaggerParser.RowOf | src/main/java/swagger2sqlmap/swagger/SwaggerParser.java:87-100 | a row with a body template has a content type |
| SwaggerParser.RowTexts | src/main/java/swagger2sqlmap/swagger/SwaggerParser.java:87-100 | method upper-cased, path kept, operationId is the trimmed text when that is non-empty and null otherwise (both directions), summary falling back to description |
| SwaggerParser.ExtractRow | src/main/java/swagger2sqlmap/swagger/SwaggerParser.java:87-100 | the method computes RowOf |
| SwaggerParser.RowOfGood | src/main/java/swagger2sqlmap/swagger/SwaggerParser.java:85-100 | each row has an upper-case HTTP method and a content type whenever it has a template |
| SwaggerParser.OperationRowsGood | src/main/java/swagger2sqlmap/swagger/SwaggerParser.java:80-101 | one row per HTTP-method key of a path item, every row good |
| SwaggerParser.PathRowsGood | src/main/java/swagger2sqlmap/swagger/SwaggerParser.java:73-102 | one row per HTTP-method key over all path items, every row good |
| SwaggerParser.AppendOperationRows | src/main/java/swagger2sqlmap/swagger/SwaggerParser.java:80-101 | the inner loop computes OperationRows |
| SwaggerParser.CollectRows | src/main/java/swagger2sqlmap/swagger/SwaggerParser.java:73-102 | the outer loop computes PathRows |
| SwaggerParser.ExtractEndpoints | src/main/java/swagger2sqlmap/swagger/SwaggerParser.java:63-109 | the method computes Endpoints |
| SwaggerParser.EndpointsCorrect | src/main/java/swagger2sqlmap/swagger/SwaggerParser.java:63-109 | the result has one good row per operation (none without a paths object), sorted by path then method, a permutation of the rows found that keeps the order of equal keys |
| SwaggerParser.StrLeTotal | src/main/java/swagger2sqlmap/swagger/SwaggerParser.java:105 | String.compareTo order is total and antisymmetric |
| SwaggerParser.StrLeTrans | src/main/java/swagger2sqlmap/swagger/SwaggerParser.java:105 | String.compareTo order is transitive |
| SwaggerParser.RowLeTotal | src/main/java/swagger2sqlmap/swagger/SwaggerParser.java:104-106 | the (path, method) comparator is total, and rows it ties have equal keys |
| SwaggerParser.RowLeTrans | src/main/java/swagger2sqlmap/swagger/SwaggerParser.java:104-106 | the (path, method) comparator is transitive |
| SwaggerParser.InsertPerm | src/main/java/swagger2sqlmap/swagger/SwaggerParser.java:104-106 | inserting a row adds exactly that row to the multiset |
| SwaggerParser.InsertSorted | src/main/java/swagger2sqlmap/swagger/SwaggerParser.java:104-106 | inserting into a sorted list keeps it sorted |
| SwaggerParser.InsertSameKey | src/main/java/swagger2sqlmap/swagger/SwaggerParser.java:104-106 | insertion places a row before the equal-keyed rows it precedes in the input (stability) |
| SwaggerParser.SortRowsCorrect | src/main/java/swagger2sqlmap/swagger/SwaggerParser.java:104-106 | List.sort result: sorted, a permutation, stable |
| SchemaValues.ToValueCopies | src/main/java/swagger2sqlmap/swagger/SwaggerParser.java:425-442 | jsonNodeToJava copies a tree whose integers fit a long |
| SchemaValues.ToValueLongsOnly | src/main/java/swagger2sqlmap/swagger/SwaggerParser.java:425-442 | after jsonNodeToJava every integer fits a long (larger ones became text) |
| SchemaValues.ToValueFields | src/main/java/swagger2sqlmap/swagger/SwaggerParser.java:432-437 | an object's keys are kept in order |
| SchemaValues.LastRefNameIsLastSegment | src/main/java/swagger2sqlmap/swagger/SwaggerParser.java:489-493 | lastRefName is the text after the last '/' once trailing '/' are dropped (String.split discards trailing empty parts) |
| SchemaValues.LastSegmentOfSplit | src/main/java/swagger2sqlmap/swagger/SwaggerParser.java:489-493 | the last part of split("/") without trailing empties is that segment |
| SchemaValues.LastRefNameOfPath | src/main/java/swagger2sqlmap/swagger/SwaggerParser.java:489-493 | "#/components/schemas/Pet" resolves to "Pet" for any prefix |
| SchemaValues.PickExample | src/main/java/swagger2sqlmap/swagger/SwaggerParser.java:415-423 | an example is used exactly when the node has a present "example" |
| SchemaValues.ScalarPrecedence | src/main/java/swagger2sqlmap/swagger/SwaggerParser.java:349-384 | enum[0] first, then default, then by type: integer 5, number 1.5, boolean true, string the constant its format selects, any other type "text" |
| SchemaValues.ParamScalarPrecedence | src/main/java/swagger2sqlmap/swagger/SwaggerParser.java:386-413 | a form parameter's scalar: an example first, then enum[0], then default, then integer/int32/int64 give 5, number/float/double give 1.5, boolean gives true, string gives the constant its format selects, any other type gives "text" |
| SchemaValues.FormatStrings | src/main/java/swagger2sqlmap/swagger/SwaggerParser.java:372-412 | the format constants: date-time "2026-01-31T12:00:00Z", date "2026-01-31", uuid "11111111-1111-1111-1111-111111111111", email "user@example.com" in both tables; uri or url "https:/example.com/" and password "Passw0rd!" for a schema only; "text" otherwise |
| SchemaValues.StepOf | src/main/java/swagger2sqlmap/swagger/SwaggerParser.java:225-295 | every recursive step of the builder descends into a smaller schema or follows an unvisited $ref |
| SchemaValues.Build | src/main/java/swagger2sqlmap/swagger/SwaggerParser.java:225-337 | the builder terminates on every document, and its only failure is the NullPointerException of List.of(null) |
| SchemaValues.BuildBranches | src/main/java/swagger2sqlmap/swagger/SwaggerParser.java:229-250 | no schema gives "text"; an example wins; a $ref already on the stack gives {}; an unvisited $ref resolves one level deeper with the ref pushed |
| SchemaValues.CompositionOnlyInOpenApi3 | src/main/java/swagger2sqlmap/swagger/SwaggerParser.java:252-264 | OpenAPI 3 follows the first allOf/oneOf/anyOf member; Swagger 2 falls to the scalar |
| SchemaValues.DeepObjectIsEmpty | src/main/java/swagger2sqlmap/swagger/SwaggerParser.java:269-270 | an object below the depth limit yields {} |
| SchemaValues.ObjectStep | src/main/java/swagger2sqlmap/swagger/SwaggerParser.java:269-284 | an object yields its properties built one level deeper, or {} without a properties object |
| SchemaValues.ArrayHasOneElement | src/main/java/swagger2sqlmap/swagger/SwaggerParser.java:287-291 | an array yields a one-element list of its item, and a null item throws |
| SchemaValues.PropsFail | src/main/java/swagger2sqlmap/swagger/SwaggerParser.java:274-280 | building properties fails exactly when some property's value fails |
| SchemaValues.PropsInOrder | src/main/java/swagger2sqlmap/swagger/SwaggerParser.java:274-280 | the LinkedHashMap holds every property in schema order with its built value |
| SchemaValues.ObjectKeepsPropertyOrder | src/main/java/swagger2sqlmap/swagger/SwaggerParser.java:268-284 | the example object has the schema's property keys, in order, each mapped to its own built value |
| SchemaValues.RefStack.Add | src/main/java/swagger2sqlmap/swagger/SwaggerParser.java:239 | Set.add reports whether the key was new and adds it |
| SchemaValues.RefStack.Remove | src/main/java/swagger2sqlmap/swagger/SwaggerParser.java:246-249 | the key leaves the set |
| SchemaValues.BuildValue | src/main/java/swagger2sqlmap/swagger/SwaggerParser.java:225-295 | the recursive method over a mutable ref set computes Build and leaves the set as it found it |
| SchemaValues.BuildRef | src/main/java/swagger2sqlmap/swagger/SwaggerParser.java:234-250 | the $ref branch computes Build and removes the name from the set again before returning |
| SchemaValues.BuildTarget | src/main/java/swagger2sqlmap/swagger/SwaggerParser.java:242-248 | the resolved target is built with the ref pushed, which is then removed |
| SchemaValues.BuildShape | src/main/java/swagger2sqlmap/swagger/SwaggerParser.java:252-295 | composition, object, array and scalar dispatch computes Build |
| SchemaValues.BuildObject | src/main/java/swagger2sqlmap/swagger/SwaggerParser.java:269-284 | the object branch computes Build |
| SchemaValues.BuildArray | src/main/java/swagger2sqlmap/swagger/SwaggerParser.java:287-291 | the array branch computes Build |
| SchemaValues.BuildProperties | src/main/java/swagger2sqlmap/swagger/SwaggerParser.java:274-280 | the property loop computes BuildProps |
| SqlmapCommandBuilder.PassedHeaders | src/main/java/swagger2sqlmap/sqlmap/SqlmapCommandBuilder.java:35-53 | a "Name: value" line for exactly the headers that pass; none when headers are off |
| SqlmapCommandBuilder.HeadersOff | src/main/java/swagger2sqlmap/sqlmap/SqlmapCommandBuilder.java:35 | includeHeaders false adds no -H argument |
| SqlmapCommandBuilder.AppendHeaders | src/main/java/swagger2sqlmap/sqlmap/SqlmapCommandBuilder.java:37-52 | the header loop appends HeaderArgs |
| SqlmapCommandBuilder.Build | src/main/java/swagger2sqlmap/sqlmap/SqlmapCommandBuilder.java:12-105 | build() produces Argv with the defaults standing in for null options |
| SqlmapCommandBuilder.AppendSwitches | src/main/java/swagger2sqlmap/sqlmap/SqlmapCommandBuilder.java:65-96 | the switches in source order, each present exactly when its option is set |
| SqlmapCommandBuilder.FlagStep | src/main/java/swagger2sqlmap/sqlmap/SqlmapCommandBuilder.java:65-84 | a flag reads back as set exactly when it was emitted |
| SqlmapCommandBuilder.ValueStep | src/main/java/swagger2sqlmap/sqlmap/SqlmapCommandBuilder.java:68-96 | a valued switch reads back as its value, or absent |
| SqlmapCommandBuilder.SwitchesRead | src/main/java/swagger2sqlmap/sqlmap/SqlmapCommandBuilder.java:65-96 | reading the switches back gives batch, random-agent, level, risk, threads, force-ssl, tamper and technique as the options set them |
| SqlmapCommandBuilder.HeadersRead | src/main/java/swagger2sqlmap/sqlmap/SqlmapCommandBuilder.java:35-53 | reading the -H arguments back gives exactly the passed header lines |
| SqlmapCommandBuilder.ArgvReads | src/main/java/swagger2sqlmap/sqlmap/SqlmapCommandBuilder.java:12-105 | the argument list parses back into URL, method (only when not GET), headers, body (only with a body-carrying method and a non-blank body), switches and extra args |
| SqlmapCommandBuilder.SegmentsRead | src/main/java/swagger2sqlmap/sqlmap/SqlmapCommandBuilder.java:29-102 | each argument group reads back on its own |
| SqlmapCommandBuilder.DefaultsSwitches | src/main/java/swagger2sqlmap/sqlmap/SqlmapCommandBuilder.java:207-222 | defaults(): --batch, --random-agent, --level 3, --risk 2, nothing else, no extra args |
| SqlmapCommandBuilder.DefaultArgvReads | src/main/java/swagger2sqlmap/sqlmap/SqlmapCommandBuilder.java:207-222 | with the defaults the argument list always reads back |
| SqlmapCommandBuilder.ShellQuote | src/main/java/swagger2sqlmap/sqlmap/SqlmapCommandBuilder.java:117-123 | a quoted argument is non-empty and has no trimmable char at either end |
| SqlmapCommandBuilder.ShellQuoteReads | src/main/java/swagger2sqlmap/sqlmap/SqlmapCommandBuilder.java:117-123 | a POSIX shell reads a quoted argument back as exactly the argument |
| SqlmapCommandBuilder.ToShellCommand | src/main/java/swagger2sqlmap/sqlmap/SqlmapCommandBuilder.java:107-115 | the loop builds the space-joined quoted arguments |
| SqlmapCommandBuilder.CommandLineAppend | src/main/java/swagger2sqlmap/sqlmap/SqlmapCommandBuilder.java:110-113 | one more argument adds a space (not before the first) and its quoted form |
| SqlmapCommandBuilder.CommandLineReads | src/main/java/swagger2sqlmap/sqlmap/SqlmapCommandBuilder.java:107-123 | a POSIX shell splits the command line back into exactly the argument list |
| SqlmapCommandBuilder.JoinedWordsRead | src/main/java/swagger2sqlmap/sqlmap/SqlmapCommandBuilder.java:107-123 | the shell reader appends every argument in order |
| SqlmapCommandBuilder.SplitExtraArgs | src/main/java/swagger2sqlmap/sqlmap/SqlmapCommandBuilder.java:159-183 | the loop computes ExtraArgTokens |
| SqlmapCommandBuilder.ExtraArgTokensNonEmpty | src/main/java/swagger2sqlmap/sqlmap/SqlmapCommandBuilder.java:159-183 | splitExtraArgs never yields an empty argument |
| SqlmapCommandBuilder.ExtraArgsReadCommandLine | src/main/java/swagger2sqlmap/sqlmap/SqlmapCommandBuilder.java:159-183 | splitExtraArgs of a command line toShellCommand produced gives back its non-empty arguments |
| SqlmapCommandBuilder.TrimCommandLine | src/main/java/swagger2sqlmap/sqlmap/SqlmapCommandBuilder.java:163 | such a command line survives splitExtraArgs' trim() unchanged |
| ShellSyntax.SingleQuotedWord | src/main/java/swagger2sqlmap/sqlmap/SqlmapScriptExporter.java:106-109 | the exporter's always-quoting shellQuote reads back as one word, the text itself |
| ShellSyntax.SingleQuotedReads | src/main/java/swagger2sqlmap/sqlmap/SqlmapScriptExporter.java:108 | 'a'"'"'b' quoting reads back as its text, whatever follows |
| ScriptExporter.EchoLineReads | src/main/java/swagger2sqlmap/sqlmap/SqlmapScriptExporter.java:44 | the .sh banner line runs echo with the banner as its single argument |
| ScriptExporter.PyQuoteEscapes | src/main/java/swagger2sqlmap/sqlmap/SqlmapScriptExporter.java:114 | the two chained replace calls escape '\\' and '\'' char by char |
| ScriptExporter.PyQuoteRoundTrip | src/main/java/swagger2sqlmap/sqlmap/SqlmapScriptExporter.java:111-115 | for text without CR, LF or NUL, Python reads pyQuote's literal back as the text |
| ScriptExporter.PyQuoteBreaksOnNewline | src/main/java/swagger2sqlmap/sqlmap/SqlmapScriptExporter.java:111-115 | a newline leaves pyQuote's literal unterminated |
| ScriptExporter.PyQuoteFixedRoundTrip | src/main/java/swagger2sqlmap/sqlmap/SqlmapScriptExporter.java:111-115 | with CR, LF and NUL escaped too, Python reads the literal back as any text |
| ScriptExporter.PsQuoteEscapes | src/main/java/swagger2sqlmap/sqlmap/SqlmapScriptExporter.java:120 | replace("'", "''") doubles each apostrophe |
| ScriptExporter.PsQuoteRoundTrip | src/main/java/swagger2sqlmap/sqlmap/SqlmapScriptExporter.java:117-121 | for text without typographic single quotes, PowerShell reads psQuote's literal back as the text |
| ScriptExporter.PsQuoteBreaksOnTypographicQuote | src/main/java/swagger2sqlmap/sqlmap/SqlmapScriptExporter.java:117-121 | a U+2019 in the text ends the PowerShell string early |
| ScriptExporter.PsQuoteFixedRoundTrip | src/main/java/swagger2sqlmap/sqlmap/SqlmapScriptExporter.java:117-121 | doubling all five PowerShell single-quote chars (U+0027, U+2018 to U+201B) makes any text read back |
| ScriptExporter.SqlmapScriptExporter.constructor | src/main/java/swagger2sqlmap/sqlmap/SqlmapScriptExporter.java:22-32 | keeps the request builder and rows; null options become the defaults |
| ScriptExporter.SqlmapScriptExporter.BuildShellCommandFor | src/main/java/swagger2sqlmap/sqlmap/SqlmapScriptExporter.java:93-97 | the command line of the row's request under the exporter's options |
| ScriptExporter.SqlmapScriptExporter.CommandForReads | src/main/java/swagger2sqlmap/sqlmap/SqlmapScriptExporter.java:93-97 | the shell reads that line back as exactly build()'s argument list |
| ScriptExporter.SqlmapScriptExporter.ShBodySnoc | src/main/java/swagger2sqlmap/sqlmap/SqlmapScriptExporter.java:42-46 | each row adds its own echo line and command |
| ScriptExporter.SqlmapScriptExporter.SaveAsSh | src/main/java/swagger2sqlmap/sqlmap/SqlmapScriptExporter.java:34-50 | the script is the header followed by one entry per row, in row order |
| ScriptExporter.SqlmapScriptExporter.ShEntryReads | src/main/java/swagger2sqlmap/sqlmap/SqlmapScriptExporter.java:42-46 | in a .sh entry the banner echoes verbatim and the command runs build()'s arguments |
| ScriptExporter.SqlmapScriptExporter.PyBodySnoc | src/main/java/swagger2sqlmap/sqlmap/SqlmapScriptExporter.java:61-64 | each row adds its own list element |
| ScriptExporter.SqlmapScriptExporter.SaveAsPy | src/main/java/swagger2sqlmap/sqlmap/SqlmapScriptExporter.java:52-72 | header, one quoted command per row in order, then the loop that runs them |
| ScriptExporter.SqlmapScriptExporter.PyEntryReads | src/main/java/swagger2sqlmap/sqlmap/SqlmapScriptExporter.java:61-64 | each list element is a Python literal that reads back as the row's command line |
| ScriptExporter.SqlmapScriptExporter.Ps1BodySnoc | src/main/java/swagger2sqlmap/sqlmap/SqlmapScriptExporter.java:81-85 | each row adds its own Write-Host line and command |
| ScriptExporter.SqlmapScriptExporter.SaveAsPs1 | src/main/java/swagger2sqlmap/sqlmap/SqlmapScriptExporter.java:74-89 | the header followed by one entry per row, in row order |
| ScriptExporter.SqlmapScriptExporter.Ps1BannerReads | src/main/java/swagger2sqlmap/sqlmap/SqlmapScriptExporter.java:83 | the Write-Host banner reads back as the banner text |
| EndpointsTable.GetColumnClass | src/main/java/swagger2sqlmap/ui/EndpointsTableModel.java:56-61 | Boolean exactly for column 5 |
| EndpointsTable.GetColumnName | src/main/java/swagger2sqlmap/ui/EndpointsTableModel.java:51-53 | "Has Body" exactly at column 5, and the other names are String columns |
| EndpointsTable.EndpointsTableModel.constructor | src/main/java/swagger2sqlmap/ui/EndpointsTableModel.java:13 | a new model holds no rows |
| EndpointsTable.EndpointsTableModel.SetData | src/main/java/swagger2sqlmap/ui/EndpointsTableModel.java:24-28 | the rows become the given list, or none for null |
| EndpointsTable.EndpointsTableModel.GetAt | src/main/java/swagger2sqlmap/ui/EndpointsTableModel.java:30-33 | a row exactly for an index inside the list, and it is that row |
| EndpointsTable.EndpointsTableModel.GetAll | src/main/java/swagger2sqlmap/ui/EndpointsTableModel.java:36-38 | a copy of the rows, agreeing with getAt at every index |
| EndpointsTable.EndpointsTableModel.GetRowCount | src/main/java/swagger2sqlmap/ui/EndpointsTableModel.java:41-43 | every index below the count has a row and the count itself has none |
| EndpointsTable.EndpointsTableModel.GetColumnCount | src/main/java/swagger2sqlmap/ui/EndpointsTableModel.java:46-48 | six columns, one per column name |
| EndpointsTable.EndpointsTableModel.GetValueAt | src/main/java/swagger2sqlmap/ui/EndpointsTableModel.java:64-77 | "" for a missing row, otherwise the row's cell |
| EndpointsTable.EndpointsTableModel.ValueMatchesColumnClass | src/main/java/swagger2sqlmap/ui/EndpointsTableModel.java:56-77 | the cell is a Boolean exactly where getColumnClass says so; unknown columns are "" |
| EndpointsTable.EndpointsTableModel.HasBodyColumn | src/main/java/swagger2sqlmap/ui/EndpointsTableModel.java:74 | "Has Body" is true exactly when the template is present and holds a non-whitespace char |
| EndpointsTable.EndpointsTableModel.NullFieldsRenderEmpty | src/main/java/swagger2sqlmap/ui/EndpointsTableModel.java:64-81 | null operationId, summary and content type render as "" |
| UiRequests.SegmentEnd | src/main/java/swagger2sqlmap/ui/Swagger2SqlmapUi.java:753 | the end of `[^/]+`: no '/' before it, a '/' at it |
| UiRequests.LastCloseBelow | src/main/java/swagger2sqlmap/ui/Swagger2SqlmapUi.java:753 | the last '}' the greedy match can end on |
| UiRequests.PlaceholderInSegment | src/main/java/swagger2sqlmap/ui/Swagger2SqlmapUi.java:753 | a placeholder match never crosses a '/' |
| UiRequests.ReplaceBySegment | src/main/java/swagger2sqlmap/ui/Swagger2SqlmapUi.java:753 | replaceAll works segment by segment |
| UiRequests.ReplaceWithoutClose | src/main/java/swagger2sqlmap/ui/Swagger2SqlmapUi.java:753 | a path without '}' is unchanged |
| UiRequests.WholeSegmentReplaced | src/main/java/swagger2sqlmap/ui/Swagger2SqlmapUi.java:753 | a "{name}" segment becomes "1" |
| UiRequests.UrlBase | src/main/java/swagger2sqlmap/ui/Swagger2SqlmapUi.java:745-747 | the trimmed base less one trailing '/', or http://example.com when that is empty |
| UiRequests.UrlPath | src/main/java/swagger2sqlmap/ui/Swagger2SqlmapUi.java:749-753 | the path always starts with '/' |
| UiRequests.JoinUrlSafe | src/main/java/swagger2sqlmap/ui/Swagger2SqlmapUi.java:743-759 | base + path when that is a valid URI, otherwise http://example.com/ |
| UiRequests.JoinedUrlShape | src/main/java/swagger2sqlmap/ui/Swagger2SqlmapUi.java:743-759 | a valid result starts with the base followed by '/' |
| UiRequests.BodyContentType | src/main/java/swagger2sqlmap/ui/Swagger2SqlmapUi.java:734-735 | the trimmed content type, or application/json when blank |
| UiRequests.AuthHeaders | src/main/java/swagger2sqlmap/ui/Swagger2SqlmapUi.java:727-730 | an "Authorization: Bearer <token>" header exactly when the trimmed token is non-empty |
| UiRequests.BodyHeaders | src/main/java/swagger2sqlmap/ui/Swagger2SqlmapUi.java:733-738 | a Content-Type header exactly when the row has a non-blank template |
| UiRequests.BodyText | src/main/java/swagger2sqlmap/ui/Swagger2SqlmapUi.java:733-738 | the body is the template when non-blank, else empty |
| UiRequests.RequestContents | src/main/java/swagger2sqlmap/ui/Swagger2SqlmapUi.java:718-741 | method upper-cased, Authorization first, Content-Type last, body only with a template |
| UiRequests.BlankBaseUsesDefaultHost | src/main/java/swagger2sqlmap/ui/Swagger2SqlmapUi.java:719-722 | a blank base URL field targets http://example.com |
| UiRequests.DefaultCommandCarriesToken | src/main/java/swagger2sqlmap/ui/Swagger2SqlmapUi.java:727-730 | with default options the sqlmap command carries the Bearer header |
| UiRequests.AuthorizationPasses | src/main/java/swagger2sqlmap/sqlmap/SqlmapCommandBuilder.java:142-149 | Authorization passes the default IMPORTANT_ONLY filter |
| UiRequests.DefaultCommandCarriesBody | src/main/java/swagger2sqlmap/ui/Swagger2SqlmapUi.java:733-738 | with default options a body-carrying method sends the template as --data |
| UiRequests.ToUpperIdempotent | src/main/java/swagger2sqlmap/ui/Swagger2SqlmapUi.java:725 | upper-casing the already upper-cased method changes nothing |
| UiRequests.DropSpaces | src/main/java/swagger2sqlmap/ui/Swagger2SqlmapUi.java:650-651 | `\s*` consumes a prefix of regex whitespace and stops before a non-space |
| UiRequests.DropSpacesOver | src/main/java/swagger2sqlmap/ui/Swagger2SqlmapUi.java:650-651 | `\s*` consumes exactly the leading spaces |
| UiRequests.BearerPrefixRemoved | src/main/java/swagger2sqlmap/ui/Swagger2SqlmapUi.java:651 | "Bearer" in any case plus spaces is removed |
| UiRequests.AuthorizationPrefixRemoved | src/main/java/swagger2sqlmap/ui/Swagger2SqlmapUi.java:650 | "Authorization : " in any case is removed only together with a following "Bearer " |
| UiRequests.HeaderPasteGivesToken | src/main/java/swagger2sqlmap/ui/Swagger2SqlmapUi.java:644-653 | a pasted "Authorization: Bearer <t>" header leaves exactly the token |
| UiRequests.PlainTokenKept | src/main/java/swagger2sqlmap/ui/Swagger2SqlmapUi.java:644-653 | a bare token is kept as is |
| UiRequests.NullClipboardEmpty | src/main/java/swagger2sqlmap/ui/Swagger2SqlmapUi.java:647 | a null clipboard gives an empty token |
| UiRequests.HeaderToken | src/main/java/swagger2sqlmap/ui/Swagger2SqlmapUi.java:670-673 | a token only from an Authorization header |
| UiRequests.HeadersTokenFirst | src/main/java/swagger2sqlmap/ui/Swagger2SqlmapUi.java:669-680 | the first Bearer header of a request wins |
| UiRequests.HistoryTokenNewest | src/main/java/swagger2sqlmap/ui/Swagger2SqlmapUi.java:665-681 | the newest history entry with a Bearer header wins |
| UiRequests.ScanHeaders | src/main/java/swagger2sqlmap/ui/Swagger2SqlmapUi.java:669-680 | the inner loop finds HeadersToken |
| UiRequests.FilterNarrows | src/main/java/swagger2sqlmap/ui/Swagger2SqlmapUi.java:769-780 | a longer query (containing the shorter) shows no row the shorter hides |
| UiRequests.ContainsTransitive | src/main/java/swagger2sqlmap/ui/Swagger2SqlmapUi.java:779 | String.contains is transitive |
| UiRequests.ToLowerAppend | src/main/java/swagger2sqlmap/ui/Swagger2SqlmapUi.java:776-777 | lower-casing distributes over concatenation |
| UiRequests.OwnPathFindsRow | src/main/java/swagger2sqlmap/ui/Swagger2SqlmapUi.java:769-780 | searching a row's own path (lower-cased) with ALL methods shows it |
| UiRequests.EmptyFilterShowsAll | src/main/java/swagger2sqlmap/ui/Swagger2SqlmapUi.java:769-780 | with ALL and an empty query exactly the existing rows are shown |
| UiRequests.Swagger2SqlmapUi.constructor | src/main/java/swagger2sqlmap/ui/Swagger2SqlmapUi.java:718-727 | empty base URL and token fields |
| UiRequests.Swagger2SqlmapUi.BuildHttpRequest | src/main/java/swagger2sqlmap/ui/Swagger2SqlmapUi.java:718-741 | the request RequestContents describes |
| UiRequests.Swagger2SqlmapUi.InsertTokenFromClipboard | src/main/java/swagger2sqlmap/ui/Swagger2SqlmapUi.java:644-660 | the token field becomes the cleaned clipboard text; the base URL is untouched |
| UiRequests.Swagger2SqlmapUi.LoadTokenFromBurpHistory | src/main/java/swagger2sqlmap/ui/Swagger2SqlmapUi.java:662-688 | found exactly when some entry has a Bearer header; then the token field holds the newest one, otherwise it is unchanged |

## Left out

- The JSON file read in `parse()` is left out, and so is Jackson's parser. The model starts from the parsed tree.
- Jackson's exact escaping of non-ASCII text is not modelled. `JsonWriter.Write` escapes quotes, backslashes and control chars only.
- Floating-point values are not computed. A JSON number keeps its literal text, as `JNum`.
- The `new URI(...)` check is not computed.
  - In `joinUrlSafe` it is a parameter `uriValid`.
  - In `normalizeBaseUrl` its result is ignored, so it is dropped.
- Swing, the file choosers, file writing, Burp's proxy, repeater and intruder APIs, logging and status labels are left out.
  - The exporter methods return the script text.
  - The history is a sequence of header lists.
  - The clipboard is an `Option<string>`.
- Headers that Burp's `httpRequestFromUrl` adds itself, such as Host, are not modelled. The request holds only the headers the source adds.
- Case mapping is ASCII-only (`JavaString.ToLower`, `ToUpper`). `Locale.ROOT` maps more letters than that.
- A null `sqlmapExecutable`, header name or value, request method or `headersMode` is not modelled. The parser and the UI never produce them.
- A null `base` or `path` in `joinUrlSafe` is not modelled. Its callers always pass text.
- `currentSqlmapOptions` is not modelled as a member. The call at Swagger2SqlmapUi.java:546-561 passes 11 arguments to the 12-component `Options` record and fills no `forceSsl`, so as written it does not match the record; the model builds `Options` values directly.
- `SwaggerParser.StrLe`, `SwaggerParser.SortRows` and `SwaggerParser.StripSlashes` work on Dafny strings, which are sequences of code points; Java Strings are UTF-16 code units, so `compareTo` and `length()` differ for chars outside the Basic Multilingual Plane. Java sorts "/\U{1F600}" (a surrogate pair starting at U+D83D) before "/\uFF01" and the model after it. "http://\U{1F600}/" is 10 Java chars, so Java strips its slash, but 9 code points, so the model keeps it.
- `EndpointsTable.GetColumnName`: `requires` a column inside the six. The source throws `ArrayIndexOutOfBoundsException` there.
- `EndpointsTable.EndpointsTableModel.GetAll` returns a value. The unmodifiable-list wrapper has no counterpart.
- `UiRequests.RowFilter` takes the method choice and the query as parameters. The source captures them when `applyFilters` runs.
- `SqlmapCommandBuilder.ArgvReads` requires that the first extra argument is not a switch the builder emits. Otherwise the reader would take it for that switch. Later extra arguments may be anything.
- `ShellSyntax.ReadWords` is a reader for single quotes, spaces and plain words only. That is all the quoting produces.
- `UiRequests.DefaultCommandCarriesToken` states the `-H` line as `HeaderLine` of the Authorization pair, not as a spelled-out literal.
- `ScriptExporter.SqlmapScriptExporter.SaveAsPs1` emits the same POSIX-quoted command lines as the source. How PowerShell splits them is not modelled.
- `ScriptExporter.PsUnquote` is a reader for single-quoted PowerShell strings. `ScriptExporter.PyUnquote` reads only the escapes the exporter can produce.
- `ScriptExporter.SqlmapScriptExporter.SaveAsPy` and `SaveAsPs1` use the corrected quoting (see Findings). The as-written quoting is modelled beside it.
- The `requestBuilder` function is a constant of the exporter. The source captures the UI's builder, which reads the live text fields.

## Findings

| source | as written | input that shows it | evidently intended | confidence | as-written member | corrected member |
|---|---|---|---|---|---|---|
| src/main/java/swagger2sqlmap/sqlmap/SqlmapScriptExporter.java:111-115 | pyQuote escapes only `\` and `'` | a command line containing a newline, e.g. the --data of a POST operation whose form-urlencoded requestBody example is `{"q": "a` newline `b"}`: the body is `q=a` newline `b`, and `'...q=a` newline `b...'` is not a valid Python literal | every char that ends a Python single-quoted string (line breaks included) is escaped, so the literal reads back as the command | not executed | ScriptExporter.PyQuoteBreaksOnNewline | ScriptExporter.PyQuoteFixedRoundTrip |
| src/main/java/swagger2sqlmap/sqlmap/SqlmapScriptExporter.java:117-121 | psQuote doubles only U+0027 | a path such as `/it’s` (U+2019) in the Write-Host banner: PowerShell treats U+2018 to U+201B as single quotes too, so the string ends early | every PowerShell single-quote char is doubled, so the banner reads back as written | not executed | ScriptExporter.PsQuoteBreaksOnTypographicQuote | ScriptExporter.PsQuoteFixedRoundTrip |

Two behaviours follow the code as written:

- `normalizePath` removes only one trailing '/' (`SwaggerParser.NormalizePathDoubleSlash`).
- `joinUrlSafe` removes one trailing '/' from the base, not every one (`UiRequests.UrlBase`).
