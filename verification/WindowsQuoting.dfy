/**
 * Child-process command lines on Windows (src/runner.cpp) against the rules Microsoft documents in
 * "Parsing C Command-Line Arguments".
 */
module WindowsQuoting {

  predicate Blank(c: char) {
    c == ' ' || c == '\t'
  }

  predicate NeedsQuotes(value: string) {
    value == "" || exists i :: 0 <= i < |value| && (Blank(value[i]) || value[i] == '"')
  }

  function Backslashes(n: nat): string {
    seq(n, _ => '\\')
  }

  /** Text written for the rest of an argument when `run` backslashes are still held back. */
  function Escaped(value: string, run: nat): string {
    if value == "" then Backslashes(run * 2)
    else if value[0] == '\\' then Escaped(value[1..], run + 1)
    else if value[0] == '"' then Backslashes(run * 2 + 1) + "\"" + Escaped(value[1..], 0)
    else Backslashes(run) + [value[0]] + Escaped(value[1..], 0)
  }

  function Quoted(value: string): string {
    if NeedsQuotes(value) then "\"" + Escaped(value, 0) + "\"" else value
  }

  function QuotedTail(arguments: seq<string>): string {
    if arguments == [] then "" else " " + Quoted(arguments[0]) + QuotedTail(arguments[1..])
  }

  function CommandLine(executable: string, arguments: seq<string>): string {
    Quoted(executable) + QuotedTail(arguments)
  }

  method QuoteWindows(value: string) returns (result: string)
    ensures result == Quoted(value)
  {
    if !NeedsQuotes(value) {
      return value;
    }
    result := "\"";
    var backslashes := 0;
    for i := 0 to |value|
      invariant result + Escaped(value[i..], backslashes) == "\"" + Escaped(value, 0)
    {
      var character := value[i];
      assert value[i..][1..] == value[i + 1..];
      ghost var rest := Escaped(value[i + 1..], 0);
      if character == '\\' {
        backslashes := backslashes + 1;
      } else if character == '"' {
        assert result + (Backslashes(backslashes * 2 + 1) + "\"" + rest)
            == result + Backslashes(backslashes * 2 + 1) + "\"" + rest;
        result := result + Backslashes(backslashes * 2 + 1) + "\"";
        backslashes := 0;
      } else {
        assert result + (Backslashes(backslashes) + [character] + rest)
            == result + Backslashes(backslashes) + [character] + rest;
        result := result + Backslashes(backslashes) + [character];
        backslashes := 0;
      }
    }
    result := result + Backslashes(backslashes * 2) + "\"";
  }

  method BuildCommandLine(executable: string, arguments: seq<string>) returns (command: string)
    ensures command == CommandLine(executable, arguments)
  {
    command := QuoteWindows(executable);
    for i := 0 to |arguments|
      invariant command + QuotedTail(arguments[i..]) == CommandLine(executable, arguments)
    {
      var quoted := QuoteWindows(arguments[i]);
      assert arguments[i..][1..] == arguments[i + 1..];
      assert command + (" " + quoted + QuotedTail(arguments[i + 1..]))
          == command + " " + quoted + QuotedTail(arguments[i + 1..]);
      command := command + " " + quoted;
    }
  }

  lemma {:induction false} EscapedLength(value: string, run: nat)
    ensures |Escaped(value, run)| >= |value| + run
  {
    if value != "" {
      EscapedLength(value[1..], if value[0] == '\\' then run + 1 else 0);
    }
  }

  /** An argument is written as it is exactly when it is not empty and has no blank, tab or quote; else it is quoted. */
  lemma WrittenVerbatim(value: string)
    ensures Quoted(value) == value <==>
      value != "" && forall i :: 0 <= i < |value| ==> value[i] != ' ' && value[i] != '\t' && value[i] != '"'
    ensures Quoted(value) != value ==> Quoted(value)[0] == '"' && Quoted(value)[|Quoted(value)| - 1] == '"'
  {
    EscapedLength(value, 0);
    hide Escaped;
    if NeedsQuotes(value) {
      assert |Quoted(value)| >= |value| + 2;
    }
  }

  // The receiving side: the documented parser.

  /** An argument and the unread rest of the command line. */
  datatype Read = Read(text: string, rest: string) {
    function Prepend(prefix: string): Read {
      Read(prefix + text, rest)
    }
  }

  /**
   * Reads one argument after `run` backslashes. 2n backslashes before a quote give n backslashes and a delimiter,
   * 2n+1 give n backslashes and a literal quote; other backslashes are literal; a doubled quote inside a quoted part
   * is a literal quote.
   */
  function ReadArgument(s: string, inQuotes: bool, run: nat): (r: Read)
    ensures |r.rest| <= |s|
    decreases |s|
  {
    if s == "" then Read(Backslashes(run), "")
    else if s[0] == '\\' then ReadArgument(s[1..], inQuotes, run + 1)
    else if s[0] == '"' then
      if run % 2 == 1 then ReadArgument(s[1..], inQuotes, 0).Prepend(Backslashes(run / 2) + "\"")
      else if inQuotes && |s| > 1 && s[1] == '"' then
        ReadArgument(s[2..], true, 0).Prepend(Backslashes(run / 2) + "\"")
      else ReadArgument(s[1..], !inQuotes, 0).Prepend(Backslashes(run / 2))
    else if !inQuotes && Blank(s[0]) then Read(Backslashes(run), s)
    else ReadArgument(s[1..], inQuotes, 0).Prepend(Backslashes(run) + [s[0]])
  }

  lemma ReadArgumentAdvances(s: string)
    requires s != "" && !Blank(s[0])
    ensures |ReadArgument(s, false, 0).rest| < |s|
  {
  }

  function ReadArguments(s: string): seq<string>
    decreases |s|
  {
    if s == "" then []
    else if Blank(s[0]) then ReadArguments(s[1..])
    else
      ReadArgumentAdvances(s);
      var r := ReadArgument(s, false, 0);
      [r.text] + ReadArguments(r.rest)
  }

  /** The program name: quotes only protect blanks, and no backslash escape applies. */
  function ReadProgram(s: string, inQuotes: bool): (r: Read)
    ensures |r.rest| <= |s|
  {
    if s == "" then Read("", "")
    else if s[0] == '"' then ReadProgram(s[1..], !inQuotes)
    else if !inQuotes && Blank(s[0]) then Read("", s)
    else ReadProgram(s[1..], inQuotes).Prepend([s[0]])
  }

  function ParseCommandLine(s: string): seq<string> {
    var program := ReadProgram(s, false);
    [program.text] + ReadArguments(program.rest)
  }

  // Round trip of the arguments.

  /** What may follow an argument: the end of the line or the separating blank. */
  predicate Ended(tail: string) {
    tail == "" || Blank(tail[0])
  }

  lemma {:induction false} ReadsRun(n: nat, after: string, inQuotes: bool, run: nat)
    ensures ReadArgument(Backslashes(n) + after, inQuotes, run) == ReadArgument(after, inQuotes, run + n)
  {
    if n == 0 {
      assert Backslashes(0) + after == after;
    } else {
      ReadsRun(n - 1, after, inQuotes, run + 1);
      assert (Backslashes(n) + after)[1..] == Backslashes(n - 1) + after;
    }
  }

  lemma ClosingQuoteReads(run: nat, tail: string)
    requires Ended(tail)
    ensures ReadArgument("\"" + tail, true, run * 2) == Read(Backslashes(run), tail)
  {
    assert ("\"" + tail)[1..] == tail;
    assert Backslashes(run) + "" == Backslashes(run);
    assert ReadArgument(tail, false, 0) == Read("", tail);
  }

  /** One character that is not a backslash, after the backslashes written before it. */
  lemma CharacterReads(s: string, character: char, run: nat, rest: string, text: string, tail: string)
    requires character != '\\'
    requires s == Backslashes(if character == '"' then run * 2 + 1 else run) + ([character] + rest)
    requires ReadArgument(rest, true, 0) == Read(text, tail)
    ensures ReadArgument(s, true, 0) == Read(Backslashes(run) + ([character] + text), tail)
  {
    var written := if character == '"' then run * 2 + 1 else run;
    ReadsRun(written, [character] + rest, true, 0);
    assert ([character] + rest)[1..] == rest;
    assert Backslashes(run) + [character] + text == Backslashes(run) + ([character] + text);
  }

  lemma EscapedNext(value: string, run: nat, close: string)
    requires value != "" && value[0] != '\\'
    ensures
      var written := if value[0] == '"' then run * 2 + 1 else run;
      Escaped(value, run) + close == Backslashes(written) + ([value[0]] + (Escaped(value[1..], 0) + close))
  {
  }

  lemma EscapedEndReads(run: nat, tail: string, s: string)
    requires Ended(tail)
    requires s == Escaped("", run) + ("\"" + tail)
    ensures ReadArgument(s, true, 0) == Read(Backslashes(run), tail)
  {
    ReadsRun(run * 2, "\"" + tail, true, 0);
    ClosingQuoteReads(run, tail);
  }

  lemma {:induction false} EscapedReadsBack(value: string, run: nat, tail: string, s: string)
    requires Ended(tail)
    requires s == Escaped(value, run) + ("\"" + tail)
    ensures ReadArgument(s, true, 0) == Read(Backslashes(run) + value, tail)
    decreases |value|, 1
  {
    if value == "" {
      EscapedEndReads(run, tail, s);
      assert Backslashes(run) + value == Backslashes(run);
    } else if value[0] == '\\' {
      EscapedReadsBack(value[1..], run + 1, tail, s);
      assert Backslashes(run + 1) + value[1..] == Backslashes(run) + value;
    } else {
      EscapedCharacterReads(value, run, tail, s);
    }
  }

  lemma {:induction false} EscapedCharacterReads(value: string, run: nat, tail: string, s: string)
    requires Ended(tail) && value != "" && value[0] != '\\'
    requires s == Escaped(value, run) + ("\"" + tail)
    ensures ReadArgument(s, true, 0) == Read(Backslashes(run) + value, tail)
    decreases |value|, 0
  {
    var close := "\"" + tail;
    var rest := Escaped(value[1..], 0) + close;
    EscapedReadsBack(value[1..], 0, tail, rest);
    assert Backslashes(0) + value[1..] == value[1..];
    EscapedNext(value, run, close);
    CharacterReads(s, value[0], run, rest, value[1..], tail);
    assert [value[0]] + value[1..] == value;
  }

  lemma {:induction false} PlainReadsBack(value: string, run: nat, tail: string, s: string)
    requires value == "" || !NeedsQuotes(value)
    requires Ended(tail)
    requires s == value + tail
    ensures ReadArgument(s, false, run) == Read(Backslashes(run) + value, tail)
    decreases |value|
  {
    if value == "" {
      assert s == tail && Backslashes(run) + value == Backslashes(run);
    } else {
      var rest := value[1..];
      assert s[1..] == rest + tail && [value[0]] + rest == value;
      if value[0] == '\\' {
        PlainReadsBack(rest, run + 1, tail, s[1..]);
        assert Backslashes(run + 1) + rest == Backslashes(run) + value;
      } else {
        PlainReadsBack(rest, 0, tail, s[1..]);
        assert Backslashes(run) + [value[0]] + (Backslashes(0) + rest) == Backslashes(run) + value;
      }
    }
  }

  lemma Regroup(a: string, b: string, c: string, d: string)
    ensures a + b + c + d == a + (b + (c + d))
  {
  }

  lemma OpeningQuoteReads(value: string, tail: string, s: string)
    requires Ended(tail)
    requires s == "\"" + (Escaped(value, 0) + ("\"" + tail))
    ensures ReadArgument(s, false, 0) == Read(value, tail)
  {
    assert Backslashes(0) + value == value;
    EscapedReadsBack(value, 0, tail, s[1..]);
    assert Backslashes(0) + value == value;
  }

  lemma QuotedReadsBack(value: string, tail: string, s: string)
    requires Ended(tail)
    requires s == Quoted(value) + tail
    ensures ReadArgument(s, false, 0) == Read(value, tail)
  {
    assert Backslashes(0) + value == value;
    if NeedsQuotes(value) {
      Regroup("\"", Escaped(value, 0), "\"", tail);
      OpeningQuoteReads(value, tail, s);
    } else {
      PlainReadsBack(value, 0, tail, s);
    }
  }

  lemma QuotedStarts(value: string)
    ensures Quoted(value) != "" && !Blank(Quoted(value)[0])
  {
  }

  lemma ReadArgumentsStep(s: string, value: string, tail: string)
    requires |s| > 1 && Blank(s[0]) && !Blank(s[1])
    requires ReadArgument(s[1..], false, 0) == Read(value, tail)
    ensures ReadArguments(s) == [value] + ReadArguments(tail)
  {
    ReadArgumentAdvances(s[1..]);
  }

  lemma {:induction false} TailReadsBack(arguments: seq<string>, s: string)
    requires s == QuotedTail(arguments)
    ensures ReadArguments(s) == arguments
  {
    if arguments != [] {
      var quoted, tail := Quoted(arguments[0]), QuotedTail(arguments[1..]);
      assert s == " " + (quoted + tail);
      QuotedStarts(arguments[0]);
      QuotedReadsBack(arguments[0], tail, s[1..]);
      ReadArgumentsStep(s, arguments[0], tail);
      TailReadsBack(arguments[1..], tail);
    }
  }

  /** Every argument list survives quoting, joining with spaces and parsing. */
  lemma ArgumentsRoundTrip(arguments: seq<string>)
    ensures ReadArguments(QuotedTail(arguments)) == arguments
  {
    TailReadsBack(arguments, QuotedTail(arguments));
  }

  // The program name is written by the same routine but read by different rules.

  /** Executables the child sees unchanged: no quote, and no trailing backslash if the path is quoted. */
  predicate PlainProgram(executable: string) {
    '"' !in executable && (NeedsQuotes(executable) && executable != "" ==> executable[|executable| - 1] != '\\')
  }

  lemma {:induction false} ProgramHasNoQuote(s: string, inQuotes: bool)
    ensures '"' !in ReadProgram(s, inQuotes).text
  {
    if s != "" && s[0] == '"' {
      ProgramHasNoQuote(s[1..], !inQuotes);
    } else if s != "" {
      ProgramHasNoQuote(s[1..], inQuotes);
    }
  }

  lemma {:induction false} ProgramReads(name: string, inQuotes: bool, tail: string)
    requires '"' !in name
    requires inQuotes || forall i :: 0 <= i < |name| ==> !Blank(name[i])
    requires if inQuotes then tail != "" && tail[0] == '"' && Ended(tail[1..]) else Ended(tail)
    ensures ReadProgram(name + tail, inQuotes) == Read(name, if inQuotes then tail[1..] else tail)
  {
    if name == "" {
      assert name + tail == tail;
    } else {
      ProgramReads(name[1..], inQuotes, tail);
      assert (name + tail)[1..] == name[1..] + tail;
      assert [name[0]] + name[1..] == name;
    }
  }

  /** Without quotes, escaping copies the text except that it doubles a trailing run of backslashes. */
  lemma {:induction false} EscapedPlain(value: string, run: nat)
    requires '"' !in value
    ensures '"' !in Escaped(value, run)
    ensures value != "" && value[|value| - 1] != '\\' ==> Escaped(value, run) == Backslashes(run) + value
    ensures (if value == "" then run > 0 else value[|value| - 1] == '\\') ==> |Escaped(value, run)| > run + |value|
    decreases |value|
  {
    if value != "" {
      var rest := value[1..];
      if value[0] == '\\' {
        EscapedPlain(rest, run + 1);
        assert Backslashes(run + 1) + rest == Backslashes(run) + value;
      } else {
        EscapedPlain(rest, 0);
        assert Backslashes(run) + [value[0]] + (Backslashes(0) + rest) == Backslashes(run) + value;
        assert Backslashes(0) + rest == rest;
      }
    }
  }

  lemma QuotedProgramReads(executable: string, tail: string, s: string)
    requires Ended(tail) && '"' !in executable
    requires s == "\"" + (Escaped(executable, 0) + ("\"" + tail))
    ensures ReadProgram(s, false) == Read(Escaped(executable, 0), tail)
  {
    EscapedPlain(executable, 0);
    var close := "\"" + tail;
    assert close[1..] == tail;
    ProgramReads(Escaped(executable, 0), true, close);
  }

  /** The program name reads back exactly when it is plain; then, and whenever it has no quote, it ends where it should. */
  lemma ProgramRoundTrip(executable: string, tail: string, s: string)
    requires Ended(tail)
    requires s == Quoted(executable) + tail
    ensures ReadProgram(s, false).text == executable <==> PlainProgram(executable)
    ensures '"' !in executable ==> ReadProgram(s, false).rest == tail
  {
    if '"' in executable {
      ProgramHasNoQuote(s, false);
    } else if NeedsQuotes(executable) {
      Regroup("\"", Escaped(executable, 0), "\"", tail);
      QuotedProgramReads(executable, tail, s);
      EscapedPlain(executable, 0);
      assert Backslashes(0) + executable == executable;
    } else {
      ProgramReads(executable, false, tail);
    }
  }

  /** The whole command line reaches the child unchanged exactly when the executable is a plain program name. */
  lemma CommandLineRoundTrip(executable: string, arguments: seq<string>)
    ensures ParseCommandLine(CommandLine(executable, arguments)) == [executable] + arguments
        <==> PlainProgram(executable)
  {
    var line := CommandLine(executable, arguments);
    var parsed := ParseCommandLine(line);
    assert parsed[0] == ReadProgram(line, false).text;
    assert ([executable] + arguments)[0] == executable;
    if '"' in executable {
      ProgramHasNoQuote(line, false);
    } else {
      ArgumentsRoundTrip(arguments);
      ProgramRoundTrip(executable, QuotedTail(arguments), line);
    }
  }
}
