/** Quoting one argument for a shell command line, read back by the quoting rules of sections
    2.2.2 and 2.2.3 of POSIX.1-2017 Shell Command Language. */
module ShellQuote {
  import opened Common

  const QUOTE := '\''
  const REPLACEMENT := "'\"'\"'"

  function ReplaceQuotes(value: string): string {
    if value == "" then "" else (if value[0] == QUOTE then REPLACEMENT else [value[0]]) + ReplaceQuotes(value[1..])
  }

  function ShellSingleQuote(value: string): string {
    "'" + ReplaceQuotes(value) + "'"
  }

  datatype Mode = Unquoted | Single | Double

  /** A word that is being read; `None` between words. */
  type Partial = Option<string>

  function Grow(word: Partial, c: char): Partial {
    if word.Some? then Some(word.value + [c]) else Some([c])
  }

  function Open(word: Partial): Partial {
    if word.Some? then word else Some("")
  }

  predicate Plain(c: char) {
    'a' <= c <= 'z' || 'A' <= c <= 'Z' || '0' <= c <= '9' || c in "/._-+:@%,="
  }

  /** The words of a command line. Inside single quotes every character stands for itself up
      to the next single quote; inside double quotes so does every character except the
      closing quote and the characters that start an expansion or an escape, which make the
      result unknown here, as do unquoted characters other than blanks and plain ones. */
  function Words(line: string, mode: Mode, word: Partial, done: seq<string>): Option<seq<string>> {
    if line == "" then
      if !mode.Unquoted? then None else Some(if word.Some? then done + [word.value] else done)
    else
      var c, rest := line[0], line[1..];
      match mode
      case Single => if c == QUOTE then Words(rest, Unquoted, word, done) else Words(rest, Single, Grow(word, c), done)
      case Double =>
        if c == '"' then Words(rest, Unquoted, word, done)
        else if c in "$`\\" then None
        else Words(rest, Double, Grow(word, c), done)
      case Unquoted =>
        if c == QUOTE then Words(rest, Single, Open(word), done)
        else if c == '"' then Words(rest, Double, Open(word), done)
        else if c == ' ' then Words(rest, Unquoted, None, if word.Some? then done + [word.value] else done)
        else if Plain(c) then Words(rest, Unquoted, Grow(word, c), done)
        else None
  }

  function ShellWords(line: string): Option<seq<string>> {
    Words(line, Unquoted, None, [])
  }

  /** Inside the quotes, the replaced text reads back as the value, whatever follows. */
  lemma {:induction false} ReadsReplaced(value: string, after: string, prefix: string, done: seq<string>)
    ensures Words(ReplaceQuotes(value) + after, Single, Some(prefix), done) ==
              Words(after, Single, Some(prefix + value), done)
  {
    if value == "" {
      assert ReplaceQuotes(value) + after == after && prefix + value == prefix;
    } else {
      var rest := ReplaceQuotes(value[1..]) + after;
      ReadsReplaced(value[1..], after, prefix + [value[0]], done);
      assert prefix + [value[0]] + value[1..] == prefix + value;
      if value[0] == QUOTE {
        assert ReplaceQuotes(value) + after == REPLACEMENT + rest;
        ReadsReplacement(rest, prefix, done);
      } else {
        assert ReplaceQuotes(value) + after == [value[0]] + rest;
      }
    }
  }

  /** Closing the quotes, a quote inside double quotes, and opening again: one quote. */
  lemma ReadsReplacement(rest: string, prefix: string, done: seq<string>)
    ensures Words(REPLACEMENT + rest, Single, Some(prefix), done) == Words(rest, Single, Some(prefix + [QUOTE]), done)
  {
    var s1, s2, s3, s4 := "\"'\"'" + rest, "'\"'" + rest, "\"'" + rest, "'" + rest;
    assert (REPLACEMENT + rest)[1..] == s1 && s1[1..] == s2 && s2[1..] == s3 && s3[1..] == s4 && s4[1..] == rest;
    assert Words(REPLACEMENT + rest, Single, Some(prefix), done) == Words(s1, Unquoted, Some(prefix), done);
    assert Words(s1, Unquoted, Some(prefix), done) == Words(s2, Double, Some(prefix), done);
    assert Words(s2, Double, Some(prefix), done) == Words(s3, Double, Some(prefix + [QUOTE]), done);
    assert Words(s3, Double, Some(prefix + [QUOTE]), done) == Words(s4, Unquoted, Some(prefix + [QUOTE]), done);
  }

  /** A quoted value at the start of a word is read as exactly that value. */
  lemma ReadsQuoted(value: string, after: string, done: seq<string>)
    ensures Words(ShellSingleQuote(value) + after, Unquoted, None, done) == Words(after, Unquoted, Some(value), done)
  {
    var line := ShellSingleQuote(value) + after;
    assert line[1..] == ReplaceQuotes(value) + ("'" + after);
    ReadsReplaced(value, "'" + after, "", done);
    assert ("'" + after)[1..] == after && "" + value == value;
  }

  /** Round trip: the shell reads a quoted string as one word equal to the string, also when
      the string is empty or holds quotes, blanks, newlines or any special character. */
  lemma QuotingRoundTrip(value: string)
    ensures ShellWords(ShellSingleQuote(value)) == Some([value])
  {
    ReadsQuoted(value, "", []);
    assert ShellSingleQuote(value) + "" == ShellSingleQuote(value) && [] + [value] == [value];
  }

  lemma {:induction false} ReadsPlain(text: string, after: string, word: Partial, done: seq<string>)
    requires forall c :: c in text ==> Plain(c)
    requires text != ""
    ensures Words(text + after, Unquoted, word, done) ==
              Words(after, Unquoted, Some((if word.Some? then word.value else "") + text), done)
  {
    assert (text + after)[1..] == text[1..] + after;
    assert Plain(text[0]);
    assert Words(text + after, Unquoted, word, done) == Words(text[1..] + after, Unquoted, Grow(word, text[0]), done);
    if |text| > 1 {
      ReadsPlain(text[1..], after, Grow(word, text[0]), done);
      assert Grow(word, text[0]).value + text[1..] == (if word.Some? then word.value else "") + text;
    } else {
      assert text[1..] + after == after;
      assert Grow(word, text[0]).value == (if word.Some? then word.value else "") + text;
    }
  }

  function LaunchCommand(binary: string, spec: string): string {
    "exec " + ShellSingleQuote(binary) + " terminal-run " + ShellSingleQuote(spec)
  }

  lemma ReadsBlank(after: string, word: string, done: seq<string>)
    ensures Words(" " + after, Unquoted, Some(word), done) == Words(after, Unquoted, None, done + [word])
  {
    assert (" " + after)[1..] == after;
  }

  /** The terminal launch line always has four words, whatever its two paths contain. */
  lemma LaunchCommandHasFourWords(binary: string, spec: string)
    ensures ShellWords(LaunchCommand(binary, spec)) == Some(["exec", binary, "terminal-run", spec])
  {
    hide ShellSingleQuote, ReplaceQuotes;
    var tail := ShellSingleQuote(spec);
    var third := " " + ("terminal-run" + (" " + tail));
    assert LaunchCommand(binary, spec) == "exec" + (" " + (ShellSingleQuote(binary) + third));
    ReadsPlain("exec", " " + (ShellSingleQuote(binary) + third), None, []);
    ReadsBlank(ShellSingleQuote(binary) + third, "exec", []);
    ReadsQuoted(binary, third, ["exec"]);
    ReadsBlank("terminal-run" + (" " + tail), binary, ["exec"]);
    ReadsPlain("terminal-run", " " + tail, None, ["exec", binary]);
    ReadsBlank(tail, "terminal-run", ["exec", binary]);
    ReadsQuoted(spec, "", ["exec", binary, "terminal-run"]);
    assert tail + "" == tail && "" + "exec" == "exec" && "" + "terminal-run" == "terminal-run";
    assert ["exec", binary] + ["terminal-run"] == ["exec", binary, "terminal-run"];
    assert ["exec", binary, "terminal-run"] + [spec] == ["exec", binary, "terminal-run", spec];
    assert [] + ["exec"] == ["exec"] && ["exec"] + [binary] == ["exec", binary];
  }
}
