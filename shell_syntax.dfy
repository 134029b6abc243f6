/**
 * How a POSIX shell reads a command line back into words, for the forms the
 * quoting helpers produce: bare words of safe characters, '...' spans taken
 * literally, and "..." spans without $, ` or \ in them; a space outside quotes
 * separates words.  Anything else is outside this reading (None).
 */
module ShellSyntax {
  import opened Wrappers

  /** The characters the pattern [a-zA-Z0-9_./:@%+=,\-] accepts. */
  predicate IsSafeChar(c: char) {
    || ('a' <= c <= 'z') || ('A' <= c <= 'Z') || ('0' <= c <= '9')
    || c == '_' || c == '.' || c == '/' || c == ':' || c == '@'
    || c == '%' || c == '+' || c == '=' || c == ',' || c == '-'
  }

  /** A non-empty word of safe characters only, which the shell reads as itself. */
  predicate IsSafeWord(s: string) {
    |s| > 0 && forall i :: 0 <= i < |s| ==> IsSafeChar(s[i])
  }

  datatype QuoteState = Unquoted | InSingle | InDouble

  /**
   * The words of `s`, reading in state `st` with the word `cur` begun
   * (`inWord`) and the words `out` already complete.
   */
  function Words(s: string, st: QuoteState, cur: string, inWord: bool, out: seq<string>): Option<seq<string>>
    decreases |s|
  {
    if s == [] then
      if st != Unquoted then None else Some(if inWord then out + [cur] else out)
    else
      var c := s[0];
      match st
      case Unquoted =>
        if c == ' ' then Words(s[1..], Unquoted, "", false, if inWord then out + [cur] else out)
        else if c == '\'' then Words(s[1..], InSingle, cur, true, out)
        else if c == '"' then Words(s[1..], InDouble, cur, true, out)
        else if IsSafeChar(c) then Words(s[1..], Unquoted, cur + [c], true, out)
        else None
      case InSingle =>
        if c == '\'' then Words(s[1..], Unquoted, cur, true, out)
        else Words(s[1..], InSingle, cur + [c], true, out)
      case InDouble =>
        if c == '"' then Words(s[1..], Unquoted, cur, true, out)
        else if c == '$' || c == '`' || c == '\\' then None
        else Words(s[1..], InDouble, cur + [c], true, out)
  }

  /** The words of a whole command line. */
  function ReadWords(s: string): Option<seq<string>> {
    Words(s, Unquoted, "", false, [])
  }

  /** How one char is written inside a single-quoted span: a ' closes the span, emits "'" in double quotes, and reopens it. */
  function QuoteChar(c: char): string {
    if c == '\'' then "'\"'\"'" else [c]
  }

  /** The body of a single-quoted span. */
  function QuoteBody(s: string): string {
    if s == [] then [] else QuoteChar(s[0]) + QuoteBody(s[1..])
  }

  /** `s` wrapped in single quotes: 'abc'"'"'def' for abc'def. */
  function SingleQuoted(s: string): string {
    "'" + QuoteBody(s) + "'"
  }

  /** A bare safe word is read as itself, appended to the current word. */
  lemma {:induction false} SafeWordReads(w: string, rest: string, cur: string, inWord: bool, out: seq<string>)
    requires IsSafeWord(w)
    ensures Words(w + rest, Unquoted, cur, inWord, out) == Words(rest, Unquoted, cur + w, true, out)
    decreases |w|
  {
    assert (w + rest)[0] == w[0] && (w + rest)[1..] == w[1..] + rest;
    if |w| > 1 {
      SafeWordReads(w[1..], rest, cur + [w[0]], true, out);
      assert cur + [w[0]] + w[1..] == cur + w;
    } else {
      assert w[1..] + rest == rest && cur + [w[0]] == cur + w;
    }
  }

  /** Inside a single-quoted span, the written form of `c` reads back as `c`, and the span is open again. */
  lemma QuoteCharReads(c: char, tail: string, cur: string, out: seq<string>)
    ensures Words(QuoteChar(c) + tail, InSingle, cur, true, out) == Words(tail, InSingle, cur + [c], true, out)
  {
    if c == '\'' {
      var t4 := ['\''] + tail;
      var t3 := ['"'] + t4;
      var t2 := ['\''] + t3;
      var t1 := ['"'] + t2;
      var t0 := ['\''] + t1;
      assert QuoteChar(c) + tail == t0;
      assert Words(t0, InSingle, cur, true, out) == Words(t1, Unquoted, cur, true, out);
      assert Words(t1, Unquoted, cur, true, out) == Words(t2, InDouble, cur, true, out);
      assert Words(t2, InDouble, cur, true, out) == Words(t3, InDouble, cur + [c], true, out);
      assert Words(t3, InDouble, cur + [c], true, out) == Words(t4, Unquoted, cur + [c], true, out);
    } else {
      assert (QuoteChar(c) + tail)[1..] == tail;
    }
  }

  /** Inside a single-quoted span, QuoteBody(s) followed by the closing quote reads back as `s`. */
  lemma {:induction false} QuoteBodyReads(s: string, rest: string, cur: string, out: seq<string>)
    ensures Words(QuoteBody(s) + "'" + rest, InSingle, cur, true, out) == Words(rest, Unquoted, cur + s, true, out)
    decreases |s|
  {
    if s == [] {
      assert QuoteBody(s) + "'" + rest == "'" + rest;
      assert ("'" + rest)[1..] == rest;
      assert cur + s == cur;
    } else {
      var tail := QuoteBody(s[1..]) + "'" + rest;
      assert QuoteBody(s) + "'" + rest == QuoteChar(s[0]) + tail;
      QuoteCharReads(s[0], tail, cur, out);
      QuoteBodyReads(s[1..], rest, cur + [s[0]], out);
      assert cur + [s[0]] + s[1..] == cur + s;
    }
  }

  /** A single-quoted word reads back as its content. */
  lemma SingleQuotedReads(s: string, rest: string, cur: string, inWord: bool, out: seq<string>)
    ensures Words(SingleQuoted(s) + rest, Unquoted, cur, inWord, out) == Words(rest, Unquoted, cur + s, true, out)
  {
    var t := SingleQuoted(s) + rest;
    assert t == "'" + (QuoteBody(s) + "'" + rest);
    assert t[0] == '\'' && t[1..] == QuoteBody(s) + "'" + rest;
    QuoteBodyReads(s, rest, cur, out);
  }

  /** A space outside quotes ends the current word. */
  lemma SpaceEndsWord(rest: string, cur: string, out: seq<string>)
    ensures Words(" " + rest, Unquoted, cur, true, out) == Words(rest, Unquoted, "", false, out + [cur])
  {
    assert (" " + rest)[0] == ' ' && (" " + rest)[1..] == rest;
  }

  /** A single-quoted word on its own reads as exactly that one word. */
  lemma SingleQuotedWord(s: string)
    ensures ReadWords(SingleQuoted(s)) == Some([s])
  {
    SingleQuotedReads(s, "", "", false, []);
    assert SingleQuoted(s) + "" == SingleQuoted(s);
    assert "" + s == s;
    var none: seq<string> := [];
    assert none + [s] == [s];
  }
}
