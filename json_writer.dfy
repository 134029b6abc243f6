/**
 * ObjectMapper.writeValueAsString on the example value tree: compact JSON,
 * fields in insertion order, strings escaped as Jackson does by default
 * (quote, backslash, the five short escapes, other control chars as
 * \u00XX with upper-case hex; nothing else is escaped).
 */
module JsonWriter {
  import opened JavaString
  import opened Json

  function HexDigit(d: nat): (c: char)
    requires d < 16
    ensures IsHexDigit(c)
  {
    if d < 10 then DigitChar(d) else ('A' as int + d - 10) as char
  }

  predicate IsHexDigit(c: char) {
    IsDigit(c) || 'A' <= c <= 'F'
  }

  /** The escaped form of one char inside a JSON string. */
  function EscapeChar(c: char): (r: string)
    ensures |r| >= 1
    ensures |r| == 1 <==> (c != '"' && c != '\\' && c >= ' ')
    ensures |r| == 1 ==> r == [c]
    ensures |r| > 1 ==> r[0] == '\\'
  {
    if c == '"' then "\\\""
    else if c == '\\' then "\\\\"
    else if c == '\U{8}' then "\\b"
    else if c == '\t' then "\\t"
    else if c == '\n' then "\\n"
    else if c == '\U{C}' then "\\f"
    else if c == '\r' then "\\r"
    else if c < ' ' then "\\u00" + [HexDigit(c as int / 16), HexDigit(c as int % 16)]
    else [c]
  }

  function Escape(s: string): string {
    if s == [] then [] else EscapeChar(s[0]) + Escape(s[1..])
  }

  /** A JSON string literal. */
  function Quote(s: string): string {
    "\"" + Escape(s) + "\""
  }

  /** writeValueAsString: null, true/false, longs and doubles as literals, strings quoted, lists and maps compact. */
  function Write(v: Json): string {
    match v
    case JNull => "null"
    case JBool(b) => if b then "true" else "false"
    case JInt(i) => IntToString(i)
    case JNum(lit) => lit
    case JStr(s) => Quote(s)
    case JArr(items) => "[" + WriteItems(items) + "]"
    case JObj(fields) => "{" + WriteFields(fields) + "}"
  }

  function WriteItems(items: seq<Json>): string {
    if items == [] then ""
    else if |items| == 1 then Write(items[0])
    else Write(items[0]) + "," + WriteItems(items[1..])
  }

  function WriteFields(fields: seq<(string, Json)>): string {
    if fields == [] then ""
    else if |fields| == 1 then WriteField(fields[0])
    else WriteField(fields[0]) + "," + WriteFields(fields[1..])
  }

  function WriteField(f: (string, Json)): string {
    Quote(f.0) + ":" + Write(f.1)
  }
}
