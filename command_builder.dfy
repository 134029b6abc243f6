/**
 * SqlmapCommandBuilder: the sqlmap argument list for one HTTP request under
 * the user's options, the single-line shell rendering of that list, and the
 * splitter for the free-text "extra arguments" option.
 */
module SqlmapCommandBuilder {
  import opened Wrappers
  import opened JavaString
  import opened Model
  import opened ShellSyntax

  datatype HeadersMode = ImportantOnly | All

  /** Options: the Integer and String components may be Java null (None). */
  datatype Options = Options(
    sqlmapExecutable: string,
    includeHeaders: bool,
    headersMode: HeadersMode,
    batch: bool,
    randomAgent: bool,
    level: Option<int>,
    risk: Option<int>,
    threads: Option<int>,
    tamper: Option<string>,
    technique: Option<string>,
    extraArgs: Option<string>,
    forceSsl: bool)

  datatype SqlmapCommand = SqlmapCommand(args: seq<string>)

  /** Options.defaults(). */
  const DefaultOptions: Options :=
    Options("sqlmap", true, ImportantOnly, true, true, Some(3), Some(2), None, None, None, Some(""), false)

  /** build() replaces null options by the defaults. */
  function OptionsOrDefaults(opt: Option<Options>): Options {
    if opt.Some? then opt.value else DefaultOptions
  }

  // ----- the decisions build() makes -----

  /** Methods whose body is passed with --data. */
  predicate AllowsBody(verb: string) {
    verb == "POST" || verb == "PUT" || verb == "PATCH" || verb == "DELETE"
  }

  /** Headers sqlmap sets itself: never passed, whatever the mode. */
  predicate ShouldSkipHeader(name: string) {
    ToLower(name) in {"host", "content-length", "connection", "accept-encoding", "user-agent", "proxy-connection"}
  }

  /** The headers kept in IMPORTANT_ONLY mode. */
  predicate IsImportantHeader(name: string) {
    var n := ToLower(name);
    n in {"authorization", "cookie", "content-type", "x-csrf-token"} || StartsWith(n, "x-")
  }

  /** A request header that build() passes on with -H under `opt`. */
  predicate PassesHeader(opt: Options, h: (string, string)) {
    && opt.includeHeaders
    && h.0 != ""
    && !ShouldSkipHeader(h.0)
    && (opt.headersMode == ImportantOnly ==> IsImportantHeader(h.0))
  }

  function HeaderLine(h: (string, string)): string {
    h.0 + ": " + h.1
  }

  /** The header lines build() passes on, in request order. */
  function PassedHeaders(opt: Options, hs: seq<(string, string)>): (r: seq<string>)
    ensures |r| <= |hs|
    ensures !opt.includeHeaders ==> r == []
    ensures forall h :: h in hs && PassesHeader(opt, h) ==> HeaderLine(h) in r
    ensures forall l :: l in r ==> exists h :: h in hs && PassesHeader(opt, h) && l == HeaderLine(h)
  {
    if hs == [] then []
    else (if PassesHeader(opt, hs[0]) then [HeaderLine(hs[0])] else []) + PassedHeaders(opt, hs[1..])
  }

  /** The text of an Integer option: String.valueOf, or nothing for null. */
  function IntText(v: Option<int>): Option<string> {
    if v.Some? then Some(IntToString(v.value)) else None
  }

  /** The text of a String option: trimmed, or nothing for null or blank. */
  function TrimmedText(v: Option<string>): Option<string> {
    if v.Some? && !IsBlank(v.value) then Some(Trim(v.value)) else None
  }

  // ----- the argument list, segment by segment -----

  function FlagSeg(on: bool, flag: string): seq<string> {
    if on then [flag] else []
  }

  function ValueSeg(flag: string, v: Option<string>): seq<string> {
    if v.Some? then [flag, v.value] else []
  }

  /** The method passed with --method: any but GET and the empty one. */
  function MethodOf(verb: string): Option<string> {
    if verb != "" && verb != "GET" then Some(verb) else None
  }

  /** The body passed with --data: a non-blank body of a method that allows one. */
  function DataOf(verb: string, body: string): Option<string> {
    if !IsBlank(body) && AllowsBody(verb) then Some(body) else None
  }

  function MethodArgs(verb: string): seq<string> {
    ValueSeg("--method", MethodOf(verb))
  }

  function HeaderArgs(opt: Options, hs: seq<(string, string)>): seq<string> {
    if hs == [] then []
    else (if PassesHeader(opt, hs[0]) then ["-H", HeaderLine(hs[0])] else []) + HeaderArgs(opt, hs[1..])
  }

  function DataArgs(verb: string, body: string): seq<string> {
    ValueSeg("--data", DataOf(verb, body))
  }

  /** The baseline switches, in build()'s order, followed by `rest`. */
  function SwitchesThen(opt: Options, rest: seq<string>): seq<string> {
    FlagSeg(opt.batch, "--batch") +
    (FlagSeg(opt.randomAgent, "--random-agent") +
    (ValueSeg("--level", IntText(opt.level)) +
    (ValueSeg("--risk", IntText(opt.risk)) +
    (ValueSeg("--threads", IntText(opt.threads)) +
    (FlagSeg(opt.forceSsl, "--force-ssl") +
    (ValueSeg("--tamper", TrimmedText(opt.tamper)) +
    (ValueSeg("--technique", TrimmedText(opt.technique)) + rest)))))))
  }

  function ExtraArgs(opt: Options): seq<string> {
    if opt.extraArgs.Some? && !IsBlank(opt.extraArgs.value) then ExtraArgTokens(opt.extraArgs.value) else []
  }

  /** The arguments build() returns for `req` under `opt`, in the order it appends them. */
  function Argv(req: HttpRequest, opt: Options): seq<string> {
    var verb := ToUpper(req.httpMethod);
    [opt.sqlmapExecutable, "-u", req.url]
      + MethodArgs(verb)
      + HeaderArgs(opt, req.headers)
      + DataArgs(verb, req.body)
      + FlagSeg(opt.batch, "--batch")
      + FlagSeg(opt.randomAgent, "--random-agent")
      + ValueSeg("--level", IntText(opt.level))
      + ValueSeg("--risk", IntText(opt.risk))
      + ValueSeg("--threads", IntText(opt.threads))
      + FlagSeg(opt.forceSsl, "--force-ssl")
      + ValueSeg("--tamper", TrimmedText(opt.tamper))
      + ValueSeg("--technique", TrimmedText(opt.technique))
      + ExtraArgs(opt)
  }

  lemma {:induction false} HeadersOff(opt: Options, hs: seq<(string, string)>)
    requires !opt.includeHeaders
    ensures HeaderArgs(opt, hs) == []
    decreases |hs|
  {
    if hs != [] {
      HeadersOff(opt, hs[1..]);
    }
  }

  lemma HeaderStep(opt: Options, hs: seq<(string, string)>)
    requires hs != []
    ensures HeaderArgs(opt, hs) ==
      (if PassesHeader(opt, hs[0]) then ["-H", HeaderLine(hs[0])] else []) + HeaderArgs(opt, hs[1..])
  {
  }

  /** The header loop of build(): a -H pair for each header that passes. */
  method AppendHeaders(args0: seq<string>, opt: Options, headers: seq<(string, string)>) returns (args: seq<string>)
    requires opt.includeHeaders
    ensures args == args0 + HeaderArgs(opt, headers)
  {
    args := args0;
    var rest := headers;
    while rest != []
      invariant args0 + HeaderArgs(opt, headers) == args + HeaderArgs(opt, rest)
      decreases |rest|
    {
      var h := rest[0];
      HeaderStep(opt, rest);
      if h.0 == "" || ShouldSkipHeader(h.0) || (opt.headersMode == ImportantOnly && !IsImportantHeader(h.0)) {
      } else {
        args := args + ["-H", h.0 + ": " + h.1];
      }
      rest := rest[1..];
    }
  }

  /** build(): the argument list, appended to step by step. */
  method Build(req: HttpRequest, options: Option<Options>) returns (cmd: SqlmapCommand)
    ensures cmd.args == Argv(req, OptionsOrDefaults(options))
  {
    var opt := if options.Some? then options.value else DefaultOptions;
    var verb := ToUpper(req.httpMethod);
    var args := [opt.sqlmapExecutable, "-u", req.url];
    var start := args;
    if verb != "" && verb != "GET" {
      args := args + ["--method", verb];
    }
    assert args == start + MethodArgs(verb);
    var beforeHeaders := args;
    if opt.includeHeaders {
      args := AppendHeaders(args, opt, req.headers);
    } else {
      HeadersOff(opt, req.headers);
      assert args + HeaderArgs(opt, req.headers) == args;
    }
    assert args == beforeHeaders + HeaderArgs(opt, req.headers);
    var beforeBody := args;
    if !IsBlank(req.body) && AllowsBody(verb) {
      args := args + ["--data", req.body];
    }
    assert args == beforeBody + DataArgs(verb, req.body);
    args := AppendSwitches(args, opt);
    var beforeExtra := args;
    if opt.extraArgs.Some? && !IsBlank(opt.extraArgs.value) {
      var extra := SplitExtraArgs(opt.extraArgs.value);
      args := args + extra;
    }
    assert args == beforeExtra + ExtraArgs(opt);
    cmd := SqlmapCommand(args);
  }

  /** The baseline switches of build(), each appended when set. */
  method AppendSwitches(args0: seq<string>, opt: Options) returns (args: seq<string>)
    ensures args == args0
      + FlagSeg(opt.batch, "--batch")
      + FlagSeg(opt.randomAgent, "--random-agent")
      + ValueSeg("--level", IntText(opt.level))
      + ValueSeg("--risk", IntText(opt.risk))
      + ValueSeg("--threads", IntText(opt.threads))
      + FlagSeg(opt.forceSsl, "--force-ssl")
      + ValueSeg("--tamper", TrimmedText(opt.tamper))
      + ValueSeg("--technique", TrimmedText(opt.technique))
  {
    args := args0;
    args := args + FlagSeg(opt.batch, "--batch");
    args := args + FlagSeg(opt.randomAgent, "--random-agent");
    args := args + ValueSeg("--level", IntText(opt.level));
    args := args + ValueSeg("--risk", IntText(opt.risk));
    args := args + ValueSeg("--threads", IntText(opt.threads));
    args := args + FlagSeg(opt.forceSsl, "--force-ssl");
    args := args + ValueSeg("--tamper", TrimmedText(opt.tamper));
    args := args + ValueSeg("--technique", TrimmedText(opt.technique));
  }

  // ----- reading the argument list back -----

  /** What an argument list asks sqlmap for, as the flags build() writes read it. */
  datatype Switches = Switches(
    batch: bool,
    randomAgent: bool,
    level: Option<string>,
    risk: Option<string>,
    threads: Option<string>,
    forceSsl: bool,
    tamper: Option<string>,
    technique: Option<string>)

  datatype Invocation = Invocation(
    executable: string,
    url: string,
    httpMethod: Option<string>,
    headers: seq<string>,
    data: Option<string>,
    switches: Switches)

  const SwitchFlags: set<string> :=
    {"--batch", "--random-agent", "--level", "--risk", "--threads", "--force-ssl", "--tamper", "--technique"}

  /** Every flag build() itself writes. */
  const BuilderFlags: set<string> := SwitchFlags + {"--method", "-H", "--data"}

  /** `s` does not start with any of `flags`. */
  predicate NoneOf(s: seq<string>, flags: set<string>) {
    s == [] || s[0] !in flags
  }

  function ReadFlag(args: seq<string>, flag: string): (bool, seq<string>) {
    if args != [] && args[0] == flag then (true, args[1..]) else (false, args)
  }

  function ReadValue(args: seq<string>, flag: string): (Option<string>, seq<string>) {
    if |args| >= 2 && args[0] == flag then (Some(args[1]), args[2..]) else (None, args)
  }

  function ReadHeaders(args: seq<string>): (seq<string>, seq<string>)
    decreases |args|
  {
    if |args| >= 2 && args[0] == "-H" then
      var (hs, rest) := ReadHeaders(args[2..]);
      ([args[1]] + hs, rest)
    else ([], args)
  }

  function ReadSwitches(args: seq<string>): (Switches, seq<string>) {
    var (b, a1) := ReadFlag(args, "--batch");
    var (ra, a2) := ReadFlag(a1, "--random-agent");
    var (lv, a3) := ReadValue(a2, "--level");
    var (rk, a4) := ReadValue(a3, "--risk");
    var (th, a5) := ReadValue(a4, "--threads");
    var (ssl, a6) := ReadFlag(a5, "--force-ssl");
    var (tp, a7) := ReadValue(a6, "--tamper");
    var (tq, a8) := ReadValue(a7, "--technique");
    (Switches(b, ra, lv, rk, th, ssl, tp, tq), a8)
  }

  /** Reads executable, -u URL, and then each of build()'s segments in order; the rest is returned. */
  function ReadInvocation(args: seq<string>): Option<(Invocation, seq<string>)> {
    if |args| < 3 || args[1] != "-u" then None
    else
      var (m, a1) := ReadValue(args[3..], "--method");
      var (hs, a2) := ReadHeaders(a1);
      var (d, a3) := ReadValue(a2, "--data");
      var (sw, a4) := ReadSwitches(a3);
      Some((Invocation(args[0], args[2], m, hs, d, sw), a4))
  }

  function SwitchesOf(opt: Options): Switches {
    Switches(opt.batch, opt.randomAgent, IntText(opt.level), IntText(opt.risk), IntText(opt.threads),
      opt.forceSsl, TrimmedText(opt.tamper), TrimmedText(opt.technique))
  }

  /** What build() is meant to ask for: the method unless GET, the passed headers, the body where allowed. */
  function InvocationOf(req: HttpRequest, opt: Options): Invocation {
    var verb := ToUpper(req.httpMethod);
    Invocation(opt.sqlmapExecutable, req.url, MethodOf(verb), PassedHeaders(opt, req.headers),
      DataOf(verb, req.body), SwitchesOf(opt))
  }

  /** Reading a flag segment, when the rest opens with none of `flags`, one of them being the flag. */
  lemma FlagStep(on: bool, flag: string, rest: seq<string>, flags: set<string>)
    requires NoneOf(rest, flags) && flag in flags
    ensures ReadFlag(FlagSeg(on, flag) + rest, flag) == (on, rest)
    ensures NoneOf(FlagSeg(on, flag) + rest, flags - {flag})
  {
    if on {
      assert (FlagSeg(on, flag) + rest)[1..] == rest;
    } else {
      assert FlagSeg(on, flag) + rest == rest;
    }
  }

  /** Reading a flag-and-value segment, likewise. */
  lemma ValueStep(flag: string, v: Option<string>, rest: seq<string>, flags: set<string>)
    requires NoneOf(rest, flags) && flag in flags
    ensures ReadValue(ValueSeg(flag, v) + rest, flag) == (v, rest)
    ensures NoneOf(ValueSeg(flag, v) + rest, flags - {flag})
  {
    if v.Some? {
      assert (ValueSeg(flag, v) + rest)[2..] == rest;
    } else {
      assert ValueSeg(flag, v) + rest == rest;
    }
  }

  /** The switches read back as the options that wrote them, and leave `rest` unread. */
  lemma SwitchesRead(opt: Options, rest: seq<string>)
    requires NoneOf(rest, BuilderFlags)
    ensures ReadSwitches(SwitchesThen(opt, rest)) == (SwitchesOf(opt), rest)
    ensures NoneOf(SwitchesThen(opt, rest), {"--method", "-H", "--data"})
  {
    var r8 := ValueSeg("--technique", TrimmedText(opt.technique)) + rest;
    var r7 := ValueSeg("--tamper", TrimmedText(opt.tamper)) + r8;
    var r6 := FlagSeg(opt.forceSsl, "--force-ssl") + r7;
    var r5 := ValueSeg("--threads", IntText(opt.threads)) + r6;
    var r4 := ValueSeg("--risk", IntText(opt.risk)) + r5;
    var r3 := ValueSeg("--level", IntText(opt.level)) + r4;
    var r2 := FlagSeg(opt.randomAgent, "--random-agent") + r3;
    var f8 := BuilderFlags;
    var f7 := f8 - {"--technique"};
    var f6 := f7 - {"--tamper"};
    var f5 := f6 - {"--force-ssl"};
    var f4 := f5 - {"--threads"};
    var f3 := f4 - {"--risk"};
    var f2 := f3 - {"--level"};
    var f1 := f2 - {"--random-agent"};
    ValueStep("--technique", TrimmedText(opt.technique), rest, f8);
    ValueStep("--tamper", TrimmedText(opt.tamper), r8, f7);
    FlagStep(opt.forceSsl, "--force-ssl", r7, f6);
    ValueStep("--threads", IntText(opt.threads), r6, f5);
    ValueStep("--risk", IntText(opt.risk), r5, f4);
    ValueStep("--level", IntText(opt.level), r4, f3);
    FlagStep(opt.randomAgent, "--random-agent", r3, f2);
    FlagStep(opt.batch, "--batch", r2, f1);
    assert "--method" in f1 - {"--batch"} && "-H" in f1 - {"--batch"} && "--data" in f1 - {"--batch"};
  }

  lemma HeadersReadStep(opt: Options, hs: seq<(string, string)>, rest: seq<string>)
    requires hs != []
    ensures var t := ReadHeaders(HeaderArgs(opt, hs[1..]) + rest);
      ReadHeaders(HeaderArgs(opt, hs) + rest) ==
        if PassesHeader(opt, hs[0]) then ([HeaderLine(hs[0])] + t.0, t.1) else t
  {
    var tail := HeaderArgs(opt, hs[1..]) + rest;
    if PassesHeader(opt, hs[0]) {
      assert HeaderArgs(opt, hs) + rest == ["-H", HeaderLine(hs[0])] + tail;
      assert (["-H", HeaderLine(hs[0])] + tail)[2..] == tail;
    } else {
      assert HeaderArgs(opt, hs) + rest == tail;
    }
  }

  /** The -H pairs read back as the passed header lines, in order. */
  lemma {:induction false} HeadersRead(opt: Options, hs: seq<(string, string)>, rest: seq<string>)
    requires NoneOf(rest, {"-H"})
    ensures ReadHeaders(HeaderArgs(opt, hs) + rest) == (PassedHeaders(opt, hs), rest)
    decreases |hs|
  {
    if hs == [] {
      assert HeaderArgs(opt, hs) + rest == rest;
    } else {
      HeadersRead(opt, hs[1..], rest);
      HeadersReadStep(opt, hs, rest);
      if PassesHeader(opt, hs[0]) {
        assert PassedHeaders(opt, hs) == [HeaderLine(hs[0])] + PassedHeaders(opt, hs[1..]);
      } else {
        var none: seq<string> := [];
        assert PassedHeaders(opt, hs) == none + PassedHeaders(opt, hs[1..]);
        assert none + PassedHeaders(opt, hs[1..]) == PassedHeaders(opt, hs[1..]);
      }
    }
  }

  lemma {:induction false} HeaderArgsHead(opt: Options, hs: seq<(string, string)>)
    ensures HeaderArgs(opt, hs) == [] || HeaderArgs(opt, hs)[0] == "-H"
    decreases |hs|
  {
    if hs != [] && !PassesHeader(opt, hs[0]) {
      HeaderArgsHead(opt, hs[1..]);
    }
  }

  lemma AppendAssoc(a: seq<string>, b: seq<string>, c: seq<string>)
    ensures a + b + c == a + (b + c)
  {
  }

  /** build()'s arguments with the segments grouped from the right, as the reader takes them. */
  lemma ArgvNested(req: HttpRequest, opt: Options)
    ensures Argv(req, opt) ==
      [opt.sqlmapExecutable, "-u", req.url]
        + (MethodArgs(ToUpper(req.httpMethod))
        + (HeaderArgs(opt, req.headers)
        + (DataArgs(ToUpper(req.httpMethod), req.body)
        + SwitchesThen(opt, ExtraArgs(opt)))))
  {
    var verb := ToUpper(req.httpMethod);
    var x0 := [opt.sqlmapExecutable, "-u", req.url];
    var x1 := MethodArgs(verb);
    var x2 := HeaderArgs(opt, req.headers);
    var x3 := DataArgs(verb, req.body);
    var x4 := FlagSeg(opt.batch, "--batch");
    var x5 := FlagSeg(opt.randomAgent, "--random-agent");
    var x6 := ValueSeg("--level", IntText(opt.level));
    var x7 := ValueSeg("--risk", IntText(opt.risk));
    var x8 := ValueSeg("--threads", IntText(opt.threads));
    var x9 := FlagSeg(opt.forceSsl, "--force-ssl");
    var x10 := ValueSeg("--tamper", TrimmedText(opt.tamper));
    var x11 := ValueSeg("--technique", TrimmedText(opt.technique));
    var x12 := ExtraArgs(opt);
    var l1 := x0 + x1;
    var l2 := l1 + x2;
    var l3 := l2 + x3;
    var l4 := l3 + x4;
    var l5 := l4 + x5;
    var l6 := l5 + x6;
    var l7 := l6 + x7;
    var l8 := l7 + x8;
    var l9 := l8 + x9;
    var l10 := l9 + x10;
    var l11 := l10 + x11;
    var r11 := x11 + x12;
    var r10 := x10 + r11;
    var r9 := x9 + r10;
    var r8 := x8 + r9;
    var r7 := x7 + r8;
    var r6 := x6 + r7;
    var r5 := x5 + r6;
    var r4 := x4 + r5;
    var r3 := x3 + r4;
    var r2 := x2 + r3;
    var r1 := x1 + r2;
    assert Argv(req, opt) == l11 + x12;
    AppendAssoc(l10, x11, x12);
    AppendAssoc(l9, x10, r11);
    AppendAssoc(l8, x9, r10);
    AppendAssoc(l7, x8, r9);
    AppendAssoc(l6, x7, r8);
    AppendAssoc(l5, x6, r7);
    AppendAssoc(l4, x5, r6);
    AppendAssoc(l3, x4, r5);
    AppendAssoc(l2, x3, r4);
    AppendAssoc(l1, x2, r3);
    AppendAssoc(x0, x1, r2);
    assert SwitchesThen(opt, x12) == r4;
  }

  /**
   * The argument list reads back as the intended invocation, with the user's
   * extra arguments left over, provided those do not themselves open with
   * one of build()'s own flags.
   */
  lemma ArgvReads(req: HttpRequest, opt: Options)
    requires NoneOf(ExtraArgs(opt), BuilderFlags)
    ensures ReadInvocation(Argv(req, opt)) == Some((InvocationOf(req, opt), ExtraArgs(opt)))
  {
    var verb := ToUpper(req.httpMethod);
    ArgvNested(req, opt);
    SegmentsRead(verb, req.body, opt, req.headers);
    var m := MethodArgs(verb) + (HeaderArgs(opt, req.headers) + (DataArgs(verb, req.body) + SwitchesThen(opt, ExtraArgs(opt))));
    assert Argv(req, opt)[3..] == m;
  }

  /** The default options add no extra arguments and switch on --batch, --random-agent, --level=3 and --risk=2. */
  lemma DefaultsSwitches()
    ensures ExtraArgs(DefaultOptions) == []
    ensures SwitchesOf(DefaultOptions) == Switches(true, true, Some("3"), Some("2"), None, false, None, None)
  {
    assert IsBlank("");
    assert IntToString(3) == "3" && IntToString(2) == "2";
  }

  /** Under the default options every request's arguments read back completely, with nothing left over. */
  lemma DefaultArgvReads(req: HttpRequest)
    ensures ReadInvocation(Argv(req, DefaultOptions)) == Some((InvocationOf(req, DefaultOptions), []))
  {
    DefaultsSwitches();
    ArgvReads(req, DefaultOptions);
  }

  /** Each of build()'s segments after the URL reads back in turn. */
  lemma SegmentsRead(verb: string, body: string, opt: Options, hs: seq<(string, string)>)
    requires NoneOf(ExtraArgs(opt), BuilderFlags)
    ensures var sw := SwitchesThen(opt, ExtraArgs(opt));
      var d := DataArgs(verb, body) + sw;
      var h := HeaderArgs(opt, hs) + d;
      && ReadValue(MethodArgs(verb) + h, "--method") == (MethodOf(verb), h)
      && ReadHeaders(h) == (PassedHeaders(opt, hs), d)
      && ReadValue(d, "--data") == (DataOf(verb, body), sw)
      && ReadSwitches(sw) == (SwitchesOf(opt), ExtraArgs(opt))
  {
    var sw := SwitchesThen(opt, ExtraArgs(opt));
    var d := DataArgs(verb, body) + sw;
    var h := HeaderArgs(opt, hs) + d;
    SwitchesRead(opt, ExtraArgs(opt));
    ValueStep("--data", DataOf(verb, body), sw, {"--method", "-H", "--data"});
    assert "-H" in {"--method", "-H", "--data"} - {"--data"};
    HeadersRead(opt, hs, d);
    HeaderArgsHead(opt, hs);
    assert NoneOf(h, {"--method"});
    ValueStep("--method", MethodOf(verb), h, {"--method"});
  }

  // ----- shell rendering -----

  /** shellQuote(): safe words stay bare, anything else (the empty word too) is single-quoted. */
  function ShellQuote(a: string): (r: string)
    ensures |r| > 0 && !IsTrimmable(r[0]) && !IsTrimmable(r[|r| - 1])
  {
    if IsSafeWord(a) then a else SingleQuoted(a)
  }

  /** The command line toShellCommand() produces: the quoted arguments joined by single spaces. */
  function CommandLine(args: seq<string>): string {
    if args == [] then ""
    else if |args| == 1 then ShellQuote(args[0])
    else ShellQuote(args[0]) + " " + CommandLine(args[1..])
  }

  /** toShellCommand(): the quoted arguments joined by single spaces. */
  method ToShellCommand(cmd: SqlmapCommand) returns (line: string)
    ensures line == CommandLine(cmd.args)
  {
    var sb := "";
    var i := 0;
    while i < |cmd.args|
      invariant 0 <= i <= |cmd.args|
      invariant sb == CommandLine(cmd.args[..i])
      invariant |sb| > 0 <==> i > 0
    {
      var a := cmd.args[i];
      CommandLineSnoc(cmd.args, i);
      if |sb| > 0 {
        sb := sb + " ";
      }
      sb := sb + ShellQuote(a);
      i := i + 1;
    }
    assert cmd.args[..i] == cmd.args;
    line := sb;
  }

  lemma {:induction false} CommandLineAppend(xs: seq<string>, a: string)
    ensures CommandLine(xs + [a]) == if xs == [] then ShellQuote(a) else CommandLine(xs) + " " + ShellQuote(a)
    decreases |xs|
  {
    var ys := xs + [a];
    if |xs| > 1 {
      var q0 := ShellQuote(xs[0]);
      var qa := ShellQuote(a);
      var c := CommandLine(xs[1..]);
      assert ys[0] == xs[0] && ys[1..] == xs[1..] + [a];
      CommandLineAppend(xs[1..], a);
      CommandLineStep(ys);
      CommandLineStep(xs);
      SpaceJoinAssoc(q0, c, qa);
    } else if |xs| == 1 {
      assert ys[1..] == [a];
    }
  }

  lemma SpaceJoinAssoc(x: string, y: string, z: string)
    ensures x + (" " + (y + " " + z)) == x + (" " + y) + " " + z
  {
  }

  /** A request header that passes the filter is among the headers read back. */
  lemma PassedHeaderRead(req: HttpRequest, opt: Options, h: (string, string))
    requires h in req.headers && PassesHeader(opt, h)
    ensures HeaderLine(h) in InvocationOf(req, opt).headers
  {
  }

  lemma StringAssoc(a: string, b: string, c: string)
    ensures a + b + c == a + (b + c)
  {
  }

  lemma CommandLineSnoc(args: seq<string>, i: nat)
    requires i < |args|
    ensures CommandLine(args[..i + 1]) ==
      if i == 0 then ShellQuote(args[i]) else CommandLine(args[..i]) + " " + ShellQuote(args[i])
  {
    assert args[..i + 1] == args[..i] + [args[i]];
    CommandLineAppend(args[..i], args[i]);
  }

  lemma ShellQuoteReads(a: string, rest: string, cur: string, inWord: bool, out: seq<string>)
    ensures Words(ShellQuote(a) + rest, Unquoted, cur, inWord, out) == Words(rest, Unquoted, cur + a, true, out)
  {
    if IsSafeWord(a) {
      SafeWordReads(a, rest, cur, inWord, out);
    } else {
      SingleQuotedReads(a, rest, cur, inWord, out);
    }
  }

  lemma CommandLineOne(args: seq<string>)
    requires |args| == 1
    ensures CommandLine(args) == ShellQuote(args[0]) + ""
  {
  }

  lemma CommandLineStep(args: seq<string>)
    requires |args| > 1
    ensures CommandLine(args) == ShellQuote(args[0]) + (" " + CommandLine(args[1..]))
  {
  }

  /** The last quoted argument of a line reads as one more word. */
  lemma LastWordRead(a: string, out: seq<string>)
    ensures Words(ShellQuote(a), Unquoted, "", false, out) == Some(out + [a])
  {
    assert ShellQuote(a) + "" == ShellQuote(a);
    ShellQuoteReads(a, "", "", false, out);
    assert "" + a == a;
  }

  /** A quoted argument and the space after it read as one more word, the rest read afresh. */
  lemma WordThenRest(a: string, tail: string, out: seq<string>)
    ensures Words(ShellQuote(a) + (" " + tail), Unquoted, "", false, out) == Words(tail, Unquoted, "", false, out + [a])
  {
    ShellQuoteReads(a, " " + tail, "", false, out);
    assert "" + a == a;
    SpaceEndsWord(tail, a, out);
  }

  lemma {:induction false} JoinedWordsRead(args: seq<string>, out: seq<string>)
    requires args != []
    ensures Words(CommandLine(args), Unquoted, "", false, out) == Some(out + args)
    decreases |args|
  {
    if |args| == 1 {
      LastWordRead(args[0], out);
      assert out + [args[0]] == out + args;
    } else {
      CommandLineStep(args);
      WordThenRest(args[0], CommandLine(args[1..]), out);
      JoinedWordsRead(args[1..], out + [args[0]]);
      assert out + [args[0]] + args[1..] == out + args;
    }
  }

  /** A POSIX shell reads toShellCommand()'s line back as exactly the arguments, the empty ones included. */
  lemma CommandLineReads(args: seq<string>)
    ensures ReadWords(CommandLine(args)) == Some(args)
  {
    if args != [] {
      JoinedWordsRead(args, []);
      assert [] + args == args;
    }
  }

  // ----- splitExtraArgs -----

  /**
   * The splitter's state machine: a ' outside "..." and a " outside '...' toggle
   * quoting and are dropped; whitespace outside both ends the current token;
   * every other char is kept.
   */
  function SplitFrom(s: string, inS: bool, inD: bool, cur: string, out: seq<string>): seq<string>
    decreases |s|
  {
    if s == [] then (if |cur| > 0 then out + [cur] else out)
    else
      var ch := s[0];
      if ch == '\'' && !inD then SplitFrom(s[1..], !inS, inD, cur, out)
      else if ch == '"' && !inS then SplitFrom(s[1..], inS, !inD, cur, out)
      else if IsWhitespace(ch) && !inS && !inD then
        (if |cur| > 0 then SplitFrom(s[1..], inS, inD, "", out + [cur]) else SplitFrom(s[1..], inS, inD, cur, out))
      else SplitFrom(s[1..], inS, inD, cur + [ch], out)
  }

  /** The tokens splitExtraArgs() returns. */
  function ExtraArgTokens(s: string): seq<string> {
    var str := Trim(s);
    if str == "" then [] else SplitFrom(str, false, false, "", [])
  }

  /** splitExtraArgs(): one pass over the trimmed text with the two quote flags. */
  method SplitExtraArgs(s: string) returns (out: seq<string>)
    ensures out == ExtraArgTokens(s)
  {
    out := [];
    var str := Trim(s);
    if str == "" {
      return;
    }
    var cur := "";
    var inS, inD := false, false;
    var i := 0;
    while i < |str|
      invariant 0 <= i <= |str|
      invariant SplitFrom(str, false, false, "", []) == SplitFrom(str[i..], inS, inD, cur, out)
    {
      var ch := str[i];
      assert str[i..][0] == ch && str[i..][1..] == str[i + 1..];
      if ch == '\'' && !inD {
        inS := !inS;
      } else if ch == '"' && !inS {
        inD := !inD;
      } else if IsWhitespace(ch) && !inS && !inD {
        if |cur| > 0 {
          out := out + [cur];
          cur := "";
        }
      } else {
        cur := cur + [ch];
      }
      i := i + 1;
    }
    if |cur| > 0 {
      out := out + [cur];
    }
  }

  lemma {:induction false} SplitFromNonEmpty(s: string, inS: bool, inD: bool, cur: string, out: seq<string>)
    requires forall t :: t in out ==> t != ""
    ensures forall t :: t in SplitFrom(s, inS, inD, cur, out) ==> t != ""
    decreases |s|
  {
    if s != [] {
      var ch := s[0];
      if ch == '\'' && !inD {
        SplitFromNonEmpty(s[1..], !inS, inD, cur, out);
      } else if ch == '"' && !inS {
        SplitFromNonEmpty(s[1..], inS, !inD, cur, out);
      } else if IsWhitespace(ch) && !inS && !inD {
        if |cur| > 0 {
          SplitFromNonEmpty(s[1..], inS, inD, "", out + [cur]);
        } else {
          SplitFromNonEmpty(s[1..], inS, inD, cur, out);
        }
      } else {
        SplitFromNonEmpty(s[1..], inS, inD, cur + [ch], out);
      }
    }
  }

  /** splitExtraArgs() never returns an empty token. */
  lemma ExtraArgTokensNonEmpty(s: string)
    ensures forall t :: t in ExtraArgTokens(s) ==> t != ""
  {
    if Trim(s) != "" {
      SplitFromNonEmpty(Trim(s), false, false, "", []);
    }
  }

  lemma {:induction false} SafeWordSplits(w: string, rest: string, cur: string, out: seq<string>)
    requires IsSafeWord(w)
    ensures SplitFrom(w + rest, false, false, cur, out) == SplitFrom(rest, false, false, cur + w, out)
    decreases |w|
  {
    assert (w + rest)[0] == w[0] && (w + rest)[1..] == w[1..] + rest;
    assert !IsWhitespace(w[0]);
    if |w| > 1 {
      SafeWordSplits(w[1..], rest, cur + [w[0]], out);
      assert cur + [w[0]] + w[1..] == cur + w;
    } else {
      assert w[1..] + rest == rest && cur + [w[0]] == cur + w;
    }
  }

  lemma QuoteCharSplits(c: char, tail: string, cur: string, out: seq<string>)
    ensures SplitFrom(QuoteChar(c) + tail, true, false, cur, out) == SplitFrom(tail, true, false, cur + [c], out)
  {
    if c == '\'' {
      var t4 := ['\''] + tail;
      var t3 := ['"'] + t4;
      var t2 := ['\''] + t3;
      var t1 := ['"'] + t2;
      var t0 := ['\''] + t1;
      assert QuoteChar(c) + tail == t0;
      assert SplitFrom(t0, true, false, cur, out) == SplitFrom(t1, false, false, cur, out);
      assert SplitFrom(t1, false, false, cur, out) == SplitFrom(t2, false, true, cur, out);
      assert SplitFrom(t2, false, true, cur, out) == SplitFrom(t3, false, true, cur + [c], out);
      assert SplitFrom(t3, false, true, cur + [c], out) == SplitFrom(t4, false, false, cur + [c], out);
    } else {
      assert (QuoteChar(c) + tail)[1..] == tail;
    }
  }

  lemma {:induction false} QuoteBodySplits(s: string, rest: string, cur: string, out: seq<string>)
    ensures SplitFrom(QuoteBody(s) + "'" + rest, true, false, cur, out) == SplitFrom(rest, false, false, cur + s, out)
    decreases |s|
  {
    if s == [] {
      assert QuoteBody(s) + "'" + rest == "'" + rest;
      assert ("'" + rest)[1..] == rest;
      assert cur + s == cur;
    } else {
      var tail := QuoteBody(s[1..]) + "'" + rest;
      assert QuoteBody(s) + "'" + rest == QuoteChar(s[0]) + tail;
      QuoteCharSplits(s[0], tail, cur, out);
      QuoteBodySplits(s[1..], rest, cur + [s[0]], out);
      assert cur + [s[0]] + s[1..] == cur + s;
    }
  }

  lemma ShellQuoteSplits(a: string, rest: string, cur: string, out: seq<string>)
    ensures SplitFrom(ShellQuote(a) + rest, false, false, cur, out) == SplitFrom(rest, false, false, cur + a, out)
  {
    if IsSafeWord(a) {
      SafeWordSplits(a, rest, cur, out);
    } else {
      var t := SingleQuoted(a) + rest;
      assert t == "'" + (QuoteBody(a) + "'" + rest);
      assert t[0] == '\'' && t[1..] == QuoteBody(a) + "'" + rest;
      QuoteBodySplits(a, rest, cur, out);
    }
  }

  lemma {:induction false} JoinedSplits(args: seq<string>, out: seq<string>)
    requires args != [] && forall i :: 0 <= i < |args| ==> args[i] != ""
    ensures SplitFrom(CommandLine(args), false, false, "", out) == out + args
    decreases |args|
  {
    if |args| == 1 {
      OneArgSplits(args, out);
    } else {
      JoinedSplits(args[1..], out + [args[0]]);
      ArgThenRestSplits(args, out);
    }
  }

  lemma OneArgSplits(args: seq<string>, out: seq<string>)
    requires |args| == 1 && args[0] != ""
    ensures SplitFrom(CommandLine(args), false, false, "", out) == out + args
  {
    var a := args[0];
    assert "" + a == a;
    CommandLineOne(args);
    ShellQuoteSplits(a, "", "", out);
    LastSplit(a, out);
    assert out + [a] == out + args;
  }

  lemma ArgThenRestSplits(args: seq<string>, out: seq<string>)
    requires |args| > 1 && args[0] != ""
    ensures SplitFrom(CommandLine(args), false, false, "", out) ==
      SplitFrom(CommandLine(args[1..]), false, false, "", out + [args[0]])
  {
    var a := args[0];
    assert "" + a == a;
    var tail := CommandLine(args[1..]);
    CommandLineStep(args);
    ShellQuoteSplits(a, " " + tail, "", out);
    SpaceSplits(tail, a, out);
  }

  lemma LastSplit(cur: string, out: seq<string>)
    requires cur != ""
    ensures SplitFrom("", false, false, cur, out) == out + [cur]
  {
  }

  lemma SpaceSplits(rest: string, cur: string, out: seq<string>)
    requires cur != ""
    ensures SplitFrom(" " + rest, false, false, cur, out) == SplitFrom(rest, false, false, "", out + [cur])
  {
    assert (" " + rest)[0] == ' ' && (" " + rest)[1..] == rest;
  }

  lemma {:induction false} CommandLineEnds(args: seq<string>)
    requires args != []
    ensures CommandLine(args) != []
    ensures !IsTrimmable(CommandLine(args)[0]) && !IsTrimmable(CommandLine(args)[|CommandLine(args)| - 1])
    decreases |args|
  {
    if |args| > 1 {
      CommandLineEnds(args[1..]);
    }
  }

  /**
   * splitExtraArgs() reads a toShellCommand() line back as its arguments,
   * provided none is empty (an empty argument is written '' and dropped).
   */
  lemma ExtraArgsReadCommandLine(args: seq<string>)
    requires forall i :: 0 <= i < |args| ==> args[i] != ""
    ensures ExtraArgTokens(CommandLine(args)) == args
  {
    if args != [] {
      TrimCommandLine(args);
      JoinedSplits(args, []);
      assert [] + args == args;
    }
  }

  lemma TrimCommandLine(args: seq<string>)
    requires args != []
    ensures Trim(CommandLine(args)) == CommandLine(args) != ""
  {
    CommandLineEnds(args);
    TrimNoop(CommandLine(args));
  }
}
