/**
 * ScriptExporter: the .sh, .py and .ps1 scripts that run sqlmap once per
 * endpoint row, and the three quoting helpers they use.  The script text is
 * returned; choosing and writing the file is not modelled.
 */
module ScriptExporter {
  import opened Wrappers
  import opened JavaString
  import opened Model
  import opened ShellSyntax
  import opened SqlmapCommandBuilder

  // ----- the .sh banner: always single-quoted -----

  /** The banner line of one row. */
  function Banner(r: EndpointRow): string {
    "=== " + r.httpMethod + " " + r.path + " ==="
  }

  /** `echo 'banner'` prints the banner exactly: the shell reads the two words echo and the banner. */
  lemma EchoLineReads(banner: string)
    ensures ReadWords("echo " + SingleQuoted(banner)) == Some(["echo", banner])
  {
    var q := SingleQuoted(banner);
    var none: seq<string> := [];
    assert "echo " + q == "echo" + (" " + q);
    assert IsSafeWord("echo");
    SafeWordReads("echo", " " + q, "", false, none);
    assert "" + "echo" == "echo";
    SpaceEndsWord(q, "echo", none);
    assert none + ["echo"] == ["echo"];
    SingleQuotedReads(banner, "", "", false, ["echo"]);
    assert q + "" == q && "" + banner == banner;
    assert ReadWords("echo " + q) == Words(q, Unquoted, "", false, ["echo"]);
    assert Words("", Unquoted, banner, true, ["echo"]) == Some(["echo"] + [banner]);
    assert ["echo"] + [banner] == ["echo", banner];
  }

  // ----- Python short string literals -----

  datatype LiteralError = NotQuoted | Unterminated | NullChar | UnsupportedEscape | TrailingText

  /** Characters a Python short string may not hold raw: a line break ends the line, NUL is refused. */
  predicate IsPyBreak(c: char) {
    c == '\n' || c == '\r' || c == '\0'
  }

  function HexValue(c: char): nat
    requires IsHexDigit(c)
  {
    if '0' <= c <= '9' then c as nat - '0' as nat
    else if 'a' <= c <= 'f' then c as nat - 'a' as nat + 10
    else c as nat - 'A' as nat + 10
  }

  predicate IsHexDigit(c: char) {
    ('0' <= c <= '9') || ('a' <= c <= 'f') || ('A' <= c <= 'F')
  }

  /**
   * How Python reads the rest of a '...' literal after its opening quote, for
   * the escapes \\ \' \" \n \r \t \xhh; the literal must end with `s`.
   */
  function PyStringBody(s: string, acc: string): Result<string, LiteralError>
    decreases |s|
  {
    if s == [] then Err(Unterminated)
    else if s[0] == '\'' then (if |s| == 1 then Ok(acc) else Err(TrailingText))
    else if s[0] == '\n' || s[0] == '\r' then Err(Unterminated)
    else if s[0] == '\0' then Err(NullChar)
    else if s[0] == '\\' then
      if |s| < 2 then Err(Unterminated)
      else if s[1] == '\\' || s[1] == '\'' || s[1] == '"' then PyStringBody(s[2..], acc + [s[1]])
      else if s[1] == 'n' then PyStringBody(s[2..], acc + "\n")
      else if s[1] == 'r' then PyStringBody(s[2..], acc + "\r")
      else if s[1] == 't' then PyStringBody(s[2..], acc + "\t")
      else if s[1] == 'x' && |s| >= 4 && IsHexDigit(s[2]) && IsHexDigit(s[3]) then
        PyStringBody(s[4..], acc + [(HexValue(s[2]) * 16 + HexValue(s[3])) as char])
      else Err(UnsupportedEscape)
    else PyStringBody(s[1..], acc + [s[0]])
  }

  /** The value of a Python single-quoted literal. */
  function PyUnquote(lit: string): Result<string, LiteralError> {
    if lit != [] && lit[0] == '\'' then PyStringBody(lit[1..], "") else Err(NotQuoted)
  }

  /** One char inside the literal; `full` also escapes the line breaks and NUL. */
  function PyEscapeChar(c: char, full: bool): string {
    if c == '\\' then "\\\\"
    else if c == '\'' then "\\'"
    else if full && c == '\n' then "\\n"
    else if full && c == '\r' then "\\r"
    else if full && c == '\0' then "\\x00"
    else [c]
  }

  function PyEscape(s: string, full: bool): string {
    if s == [] then "" else PyEscapeChar(s[0], full) + PyEscape(s[1..], full)
  }

  /** pyQuote() as written: backslashes doubled, then quotes escaped. */
  function PyQuote(s: string): string {
    "'" + ReplaceChar(ReplaceChar(s, '\\', "\\\\"), '\'', "\\'") + "'"
  }

  /** pyQuote() with the line breaks and NUL escaped as well. */
  function PyQuoteFixed(s: string): string {
    "'" + PyEscape(s, true) + "'"
  }

  lemma {:induction false} ReplaceCharAppend(a: string, b: string, c: char, rep: string)
    ensures ReplaceChar(a + b, c, rep) == ReplaceChar(a, c, rep) + ReplaceChar(b, c, rep)
  {
    if a == [] {
      assert a + b == b;
    } else {
      var head := if a[0] == c then rep else [a[0]];
      assert (a + b)[0] == a[0] && (a + b)[1..] == a[1..] + b;
      ReplaceCharAppend(a[1..], b, c, rep);
      assert head + ReplaceChar(a[1..], c, rep) + ReplaceChar(b, c, rep)
          == head + (ReplaceChar(a[1..], c, rep) + ReplaceChar(b, c, rep));
    }
  }

  /** The two replace() calls of pyQuote() escape char by char. */
  lemma {:induction false} PyQuoteEscapes(s: string)
    ensures ReplaceChar(ReplaceChar(s, '\\', "\\\\"), '\'', "\\'") == PyEscape(s, false)
    decreases |s|
  {
    if s != [] {
      var head := if s[0] == '\\' then "\\\\" else [s[0]];
      var once := ReplaceChar(s[1..], '\\', "\\\\");
      assert ReplaceChar(s, '\\', "\\\\") == head + once;
      ReplaceCharAppend(head, once, '\'', "\\'");
      PyQuoteEscapes(s[1..]);
      if s[0] == '\\' {
        assert ReplaceChar(head, '\'', "\\'") == "\\\\";
      } else {
        assert ReplaceChar(head, '\'', "\\'") == if s[0] == '\'' then "\\'" else [s[0]];
      }
    }
  }

  lemma PyEscapeCharReads(c: char, full: bool, rest: string, acc: string)
    requires full || !IsPyBreak(c)
    ensures PyStringBody(PyEscapeChar(c, full) + rest, acc) == PyStringBody(rest, acc + [c])
  {
    var t := PyEscapeChar(c, full) + rest;
    if c == '\\' || c == '\'' || (full && (c == '\n' || c == '\r')) {
      assert t[2..] == rest;
    } else if full && c == '\0' {
      assert t[4..] == rest;
      assert t[2] == '0' && t[3] == '0';
      assert (HexValue('0') * 16 + HexValue('0')) as char == c;
    } else {
      assert t[1..] == rest;
    }
  }

  /** Inside the literal, the escaped text followed by the closing quote reads back as the text. */
  lemma {:induction false} PyEscapeReads(s: string, full: bool, acc: string)
    requires full || forall i :: 0 <= i < |s| ==> !IsPyBreak(s[i])
    ensures PyStringBody(PyEscape(s, full) + "'", acc) == Ok(acc + s)
    decreases |s|
  {
    if s == [] {
      assert PyEscape(s, full) + "'" == "'";
      assert acc + s == acc;
    } else {
      var rest := PyEscape(s[1..], full) + "'";
      assert PyEscape(s, full) + "'" == PyEscapeChar(s[0], full) + rest;
      PyEscapeCharReads(s[0], full, rest, acc);
      PyEscapeReads(s[1..], full, acc + [s[0]]);
      assert acc + [s[0]] + s[1..] == acc + s;
    }
  }

  lemma PyLiteralReads(s: string, full: bool)
    requires full || forall i :: 0 <= i < |s| ==> !IsPyBreak(s[i])
    ensures PyUnquote("'" + PyEscape(s, full) + "'") == Ok(s)
  {
    var lit := "'" + PyEscape(s, full) + "'";
    assert lit[1..] == PyEscape(s, full) + "'";
    PyEscapeReads(s, full, "");
    assert "" + s == s;
  }

  /** pyQuote() as written reads back as its text when the text has no line break or NUL. */
  lemma PyQuoteRoundTrip(s: string)
    requires forall i :: 0 <= i < |s| ==> !IsPyBreak(s[i])
    ensures PyUnquote(PyQuote(s)) == Ok(s)
  {
    PyQuoteEscapes(s);
    PyLiteralReads(s, false);
  }

  /** pyQuote() as written leaves a raw line break inside the literal, which Python rejects. */
  lemma PyQuoteBreaksOnNewline()
    ensures PyUnquote(PyQuote("a\nb")) == Err(Unterminated)
  {
    var s := "a\nb";
    PyQuoteEscapes(s);
    assert PyEscape(s[2..], false) == "b";
    assert PyEscape(s[1..], false) == "\nb";
    assert PyEscape(s, false) == "a\nb";
    var lit := PyQuote(s);
    assert lit == "'a\nb'";
    assert lit[1..] == "a\nb'";
    assert "a\nb'"[1..] == "\nb'";
  }

  /** The corrected quoting reads back as its text, whatever the text. */
  lemma PyQuoteFixedRoundTrip(s: string)
    ensures PyUnquote(PyQuoteFixed(s)) == Ok(s)
  {
    PyLiteralReads(s, true);
  }

  // ----- PowerShell verbatim strings -----

  /** PowerShell takes U+2018 to U+201B for single quotes as well as the ASCII one. */
  predicate IsPsQuote(c: char) {
    c == '\'' || c == '\U{2018}' || c == '\U{2019}' || c == '\U{201A}' || c == '\U{201B}'
  }

  /**
   * How PowerShell reads the rest of a verbatim '...' string after its opening
   * quote: a quote char written twice stands for itself, a single one closes
   * the string, which must end with `s`.
   */
  function PsStringBody(s: string, acc: string): Result<string, LiteralError>
    decreases |s|
  {
    if s == [] then Err(Unterminated)
    else if IsPsQuote(s[0]) then
      if |s| == 1 then Ok(acc)
      else if s[1] == s[0] then PsStringBody(s[2..], acc + [s[0]])
      else if IsPsQuote(s[1]) then Err(UnsupportedEscape)
      else Err(TrailingText)
    else PsStringBody(s[1..], acc + [s[0]])
  }

  function PsUnquote(lit: string): Result<string, LiteralError> {
    if lit != [] && IsPsQuote(lit[0]) then PsStringBody(lit[1..], "") else Err(NotQuoted)
  }

  /** One char inside the string; `full` doubles every PowerShell quote char, not just the ASCII one. */
  function PsEscapeChar(c: char, full: bool): string {
    if c == '\'' || (full && IsPsQuote(c)) then [c, c] else [c]
  }

  function PsEscape(s: string, full: bool): string {
    if s == [] then "" else PsEscapeChar(s[0], full) + PsEscape(s[1..], full)
  }

  /** psQuote() as written: ASCII quotes doubled. */
  function PsQuote(s: string): string {
    "'" + ReplaceChar(s, '\'', "''") + "'"
  }

  /** psQuote() doubling all five PowerShell quote chars. */
  function PsQuoteFixed(s: string): string {
    "'" + PsEscape(s, true) + "'"
  }

  lemma {:induction false} PsQuoteEscapes(s: string)
    ensures ReplaceChar(s, '\'', "''") == PsEscape(s, false)
    decreases |s|
  {
    if s != [] {
      PsQuoteEscapes(s[1..]);
    }
  }

  lemma PsEscapeCharReads(c: char, full: bool, rest: string, acc: string)
    requires full || !IsPsQuote(c) || c == '\''
    ensures PsStringBody(PsEscapeChar(c, full) + rest, acc) == PsStringBody(rest, acc + [c])
  {
    var t := PsEscapeChar(c, full) + rest;
    if IsPsQuote(c) {
      assert t[2..] == rest;
    } else {
      assert t[1..] == rest;
    }
  }

  lemma {:induction false} PsEscapeReads(s: string, full: bool, acc: string)
    requires full || forall i :: 0 <= i < |s| ==> !IsPsQuote(s[i]) || s[i] == '\''
    ensures PsStringBody(PsEscape(s, full) + "'", acc) == Ok(acc + s)
    decreases |s|
  {
    if s == [] {
      assert PsEscape(s, full) + "'" == "'";
      assert acc + s == acc;
    } else {
      var rest := PsEscape(s[1..], full) + "'";
      assert PsEscape(s, full) + "'" == PsEscapeChar(s[0], full) + rest;
      PsEscapeCharReads(s[0], full, rest, acc);
      PsEscapeReads(s[1..], full, acc + [s[0]]);
      assert acc + [s[0]] + s[1..] == acc + s;
    }
  }

  lemma PsLiteralReads(s: string, full: bool)
    requires full || forall i :: 0 <= i < |s| ==> !IsPsQuote(s[i]) || s[i] == '\''
    ensures PsUnquote("'" + PsEscape(s, full) + "'") == Ok(s)
  {
    var lit := "'" + PsEscape(s, full) + "'";
    assert lit[1..] == PsEscape(s, full) + "'";
    PsEscapeReads(s, full, "");
    assert "" + s == s;
  }

  /** psQuote() as written reads back as its text when the only quote char in it is the ASCII one. */
  lemma PsQuoteRoundTrip(s: string)
    requires forall i :: 0 <= i < |s| ==> !IsPsQuote(s[i]) || s[i] == '\''
    ensures PsUnquote(PsQuote(s)) == Ok(s)
  {
    PsQuoteEscapes(s);
    PsLiteralReads(s, false);
  }

  /** psQuote() as written leaves U+2019 undoubled, so PowerShell ends the string there. */
  lemma PsQuoteBreaksOnTypographicQuote()
    ensures PsUnquote(PsQuote("it\U{2019}s")) == Err(TrailingText)
  {
    var s := "it\U{2019}s";
    PsQuoteEscapes(s);
    assert PsEscape(s[3..], false) == "s";
    assert PsEscape(s[2..], false) == "\U{2019}s";
    assert PsEscape(s[1..], false) == "t\U{2019}s";
    assert PsEscape(s, false) == s;
    var body := PsQuote(s)[1..];
    assert body == "it\U{2019}s'";
    assert body[1..] == "t\U{2019}s'";
    assert body[2..] == "\U{2019}s'";
  }

  /** The corrected quoting reads back as its text, whatever the text. */
  lemma PsQuoteFixedRoundTrip(s: string)
    ensures PsUnquote(PsQuoteFixed(s)) == Ok(s)
  {
    PsLiteralReads(s, true);
  }

  // ----- the exporter -----

  const ShHeader: string := "#!/bin/bash\n" + "set -e\n\n"
  const PyHeader: string := "#!/usr/bin/env python3\n" + "import subprocess\n\n" + "commands = [\n"
  const PyFooter: string :=
    "]\n\n" + "for c in commands:\n" + "  print('RUN:', c)\n" + "  subprocess.call(c, shell=True)\n"
  const Ps1Header: string := "$ErrorActionPreference = 'Stop'\n\n"

  /**
   * SqlmapScriptExporter: the request builder (one HTTP request per row), the
   * rows and the options it was made with, none of which change afterwards.
   */
  class SqlmapScriptExporter {
    const requestBuilder: EndpointRow -> HttpRequest
    const rows: seq<EndpointRow>
    const options: Options

    /** A null options argument stands for Options.defaults(). */
    constructor (requestBuilder: EndpointRow -> HttpRequest, rows: seq<EndpointRow>, options: Option<Options>)
      ensures this.requestBuilder == requestBuilder && this.rows == rows
      ensures this.options == OptionsOrDefaults(options)
    {
      this.requestBuilder := requestBuilder;
      this.rows := rows;
      this.options := OptionsOrDefaults(options);
    }

    /** The shell command line for one row. */
    function CommandFor(r: EndpointRow): string {
      CommandLine(Argv(requestBuilder(r), options))
    }

    /** buildShellCommandFor(): build the request, then the command, then its shell line. */
    method BuildShellCommandFor(r: EndpointRow) returns (line: string)
      ensures line == CommandFor(r)
    {
      var req := requestBuilder(r);
      var cmd := Build(req, Some(options));
      line := ToShellCommand(cmd);
    }

    /** A shell reads each row's command line back as the argument list build() made for it. */
    lemma CommandForReads(r: EndpointRow)
      ensures ReadWords(CommandFor(r)) == Some(Argv(requestBuilder(r), options))
    {
      CommandLineReads(Argv(requestBuilder(r), options));
    }

    function ShEntry(r: EndpointRow): string {
      "echo " + SingleQuoted(Banner(r)) + "\n" + CommandFor(r) + "\n\n"
    }

    function ShBody(rs: seq<EndpointRow>): string {
      if rs == [] then "" else ShBody(rs[..|rs| - 1]) + ShEntry(rs[|rs| - 1])
    }

    /** The .sh script: the header, then for each row its banner echo and its command, in row order. */
    function ShScript(): string {
      ShHeader + ShBody(rows)
    }

    function PyEntry(r: EndpointRow): string {
      "  " + PyQuoteFixed(CommandFor(r)) + ",\n"
    }

    function PyBody(rs: seq<EndpointRow>): string {
      if rs == [] then "" else PyBody(rs[..|rs| - 1]) + PyEntry(rs[|rs| - 1])
    }

    /** The .py script: one quoted command per row in a list, then the loop that runs them. */
    function PyScript(): string {
      PyHeader + PyBody(rows) + PyFooter
    }

    function Ps1Entry(r: EndpointRow): string {
      "Write-Host " + PsQuoteFixed(Banner(r)) + "\n" + CommandFor(r) + "\n\n"
    }

    function Ps1Body(rs: seq<EndpointRow>): string {
      if rs == [] then "" else Ps1Body(rs[..|rs| - 1]) + Ps1Entry(rs[|rs| - 1])
    }

    /** The .ps1 script: the header, then for each row its banner and its command. */
    function Ps1Script(): string {
      Ps1Header + Ps1Body(rows)
    }

    lemma ShBodySnoc(i: nat)
      requires i < |rows|
      ensures ShBody(rows[..i + 1]) == ShBody(rows[..i]) + ShEntry(rows[i])
    {
      assert rows[..i + 1][..i] == rows[..i];
    }

    lemma PyBodySnoc(i: nat)
      requires i < |rows|
      ensures PyBody(rows[..i + 1]) == PyBody(rows[..i]) + PyEntry(rows[i])
    {
      assert rows[..i + 1][..i] == rows[..i];
    }

    lemma Ps1BodySnoc(i: nat)
      requires i < |rows|
      ensures Ps1Body(rows[..i + 1]) == Ps1Body(rows[..i]) + Ps1Entry(rows[i])
    {
      assert rows[..i + 1][..i] == rows[..i];
    }

    /** saveAsSh(): the script text, appended to row by row. */
    method SaveAsSh() returns (text: string)
      ensures text == ShScript()
    {
      var sb := "#!/bin/bash\n" + "set -e\n\n";
      var i := 0;
      while i < |rows|
        invariant 0 <= i <= |rows|
        invariant sb == ShHeader + ShBody(rows[..i])
      {
        var r := rows[i];
        var cmd := BuildShellCommandFor(r);
        var entry := "echo " + SingleQuoted(Banner(r)) + "\n" + cmd + "\n\n";
        assert entry == ShEntry(r);
        ShBodySnoc(i);
        StringAssoc(ShHeader, ShBody(rows[..i]), entry);
        sb := sb + entry;
        i := i + 1;
      }
      assert rows[..i] == rows;
      text := sb;
    }

    /** saveAsPy(): the script text, with each command as a Python string literal. */
    method SaveAsPy() returns (text: string)
      ensures text == PyScript()
    {
      var sb := "#!/usr/bin/env python3\n" + "import subprocess\n\n" + "commands = [\n";
      var i := 0;
      while i < |rows|
        invariant 0 <= i <= |rows|
        invariant sb == PyHeader + PyBody(rows[..i])
      {
        var r := rows[i];
        var cmd := BuildShellCommandFor(r);
        var entry := "  " + PyQuoteFixed(cmd) + ",\n";
        assert entry == PyEntry(r);
        PyBodySnoc(i);
        StringAssoc(PyHeader, PyBody(rows[..i]), entry);
        sb := sb + entry;
        i := i + 1;
      }
      assert rows[..i] == rows;
      text := sb + ("]\n\n" + "for c in commands:\n" + "  print('RUN:', c)\n" + "  subprocess.call(c, shell=True)\n");
    }

    /** saveAsPs1(): the script text, with each banner as a PowerShell verbatim string. */
    method SaveAsPs1() returns (text: string)
      ensures text == Ps1Script()
    {
      var sb := "$ErrorActionPreference = 'Stop'\n\n";
      var i := 0;
      while i < |rows|
        invariant 0 <= i <= |rows|
        invariant sb == Ps1Header + Ps1Body(rows[..i])
      {
        var r := rows[i];
        var cmd := BuildShellCommandFor(r);
        var entry := "Write-Host " + PsQuoteFixed(Banner(r)) + "\n" + cmd + "\n\n";
        assert entry == Ps1Entry(r);
        Ps1BodySnoc(i);
        StringAssoc(Ps1Header, Ps1Body(rows[..i]), entry);
        sb := sb + entry;
        i := i + 1;
      }
      assert rows[..i] == rows;
      text := sb;
    }

    /** Each .py entry holds a literal that Python reads back as exactly the row's command line. */
    lemma PyEntryReads(r: EndpointRow)
      ensures PyEntry(r) == "  " + PyQuoteFixed(CommandFor(r)) + ",\n"
      ensures PyUnquote(PyQuoteFixed(CommandFor(r))) == Ok(CommandFor(r))
    {
      PyQuoteFixedRoundTrip(CommandFor(r));
    }

    /** Each .ps1 banner is a verbatim string that PowerShell reads back as exactly the banner. */
    lemma Ps1BannerReads(r: EndpointRow)
      ensures PsUnquote(PsQuoteFixed(Banner(r))) == Ok(Banner(r))
    {
      PsQuoteFixedRoundTrip(Banner(r));
    }

    /** Each .sh entry's echo line prints the banner, and its command line reads as build()'s arguments. */
    lemma ShEntryReads(r: EndpointRow)
      ensures ReadWords("echo " + SingleQuoted(Banner(r))) == Some(["echo", Banner(r)])
      ensures ReadWords(CommandFor(r)) == Some(Argv(requestBuilder(r), options))
    {
      EchoLineReads(Banner(r));
      CommandForReads(r);
    }
  }
}
