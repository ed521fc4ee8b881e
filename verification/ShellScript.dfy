/**
 The script that hands a batch of commands to `sh -c`. Every argument is quoted; the
 shell's tokenizer must read back exactly the arguments that were given. The tokenizer
 follows sections 2.2.1 (escape character), 2.2.2 (single quotes) and 2.3 (token
 recognition) of the POSIX.1-2017 Shell Command Language; a character that starts any
 other shell construct outside quotes makes it give up.
 */
module ShellScript {
  import opened Views

  // ---------------------------------------------------------------------------
  // The tokenizer
  // ---------------------------------------------------------------------------

  datatype Mode = Plain | Quoted | Escaped

  /** `word` is the token being read, `command` the words of the current line, `done` the
      commands of the finished lines. */
  datatype Lexer =
    | Lexer(mode: Mode, word: Option<string>, command: seq<string>, done: seq<seq<string>>)
    | Stuck

  /** Characters that begin some other shell construct when they are not quoted. */
  predicate Special(c: char) {
    || c == '|' || c == '&' || c == ';' || c == '<' || c == '>' || c == '(' || c == ')' || c == '$'
    || c == '`' || c == '"' || c == '*' || c == '?' || c == '[' || c == '#' || c == '~' || c == '='
    || c == '%' || c == '{' || c == '}' || c == '!'
  }

  function Append(word: Option<string>, c: char): Option<string> {
    Some((if word.Some? then word.value else "") + [c])
  }

  function EndWord(lx: Lexer): Lexer
    requires lx.Lexer?
  {
    if lx.word.Some? then lx.(word := None, command := lx.command + [lx.word.value]) else lx
  }

  /** An empty line holds no command. */
  function EndCommand(lx: Lexer): Lexer
    requires lx.Lexer?
  {
    if lx.command == [] then lx else lx.(command := [], done := lx.done + [lx.command])
  }

  function Step(lx: Lexer, c: char): Lexer {
    if lx.Stuck? then Stuck
    else match lx.mode
      case Quoted =>
        if c == '\'' then lx.(mode := Plain) else lx.(word := Append(lx.word, c))
      case Escaped =>
        if c == '\n' then lx.(mode := Plain) else lx.(mode := Plain, word := Append(lx.word, c))
      case Plain =>
        if c == '\'' then lx.(mode := Quoted, word := Some(if lx.word.Some? then lx.word.value else ""))
        else if c == '\\' then lx.(mode := Escaped)
        else if c == ' ' || c == '\t' then EndWord(lx)
        else if c == '\n' then EndCommand(EndWord(lx))
        else if Special(c) then Stuck
        else lx.(word := Append(lx.word, c))
  }

  function Run(lx: Lexer, s: string): Lexer
    decreases |s|
  {
    if s == [] then lx else Run(Step(lx, s[0]), s[1..])
  }

  const START := Lexer(Plain, None, [], [])

  /** The commands of a script, or nothing when it is unfinished or uses other syntax. */
  function Tokenize(s: string): Option<seq<seq<string>>> {
    var lx := Run(START, s);
    if lx.Stuck? || lx.mode != Plain then None else Some(EndCommand(EndWord(lx)).done)
  }

  lemma {:induction false} RunConcat(lx: Lexer, a: string, b: string)
    ensures Run(lx, a + b) == Run(Run(lx, a), b)
    decreases |a|
  {
    if a == [] {
      assert a + b == b;
    } else {
      RunConcat(Step(lx, a[0]), a[1..], b);
      assert (a + b)[0] == a[0] && (a + b)[1..] == a[1..] + b;
    }
  }

  // ---------------------------------------------------------------------------
  // The printer
  // ---------------------------------------------------------------------------

  /** Each quote inside the argument closes the quoting, adds an escaped quote, and opens
      it again. */
  function Escape(s: string): string {
    if s == [] then []
    else (if s[0] == '\'' then ['\'', '\\', '\'', '\''] else [s[0]]) + Escape(s[1..])
  }

  function ShellQuote(s: string): string {
    ['\''] + Escape(s) + ['\'']
  }

  /** The arguments of one command, quoted and separated by one blank. */
  function Line(args: seq<string>): string {
    if args == [] then []
    else if |args| == 1 then ShellQuote(args[0])
    else Line(args[..|args| - 1]) + [' '] + ShellQuote(args[|args| - 1])
  }

  function Lines(cmds: seq<seq<string>>): string {
    if cmds == [] then [] else Lines(cmds[..|cmds| - 1]) + Line(cmds[|cmds| - 1]) + ['\n']
  }

  const PREAMBLE: string := ['s', 'e', 't', ' ', '-', 'e', '\n']

  /** Builds the script text; an empty batch runs nothing. */
  method DockerExecScript(cmds: seq<seq<string>>) returns (script: Option<string>)
    ensures script.None? <==> cmds == []
    ensures script.Some? ==> script.value == PREAMBLE + Lines(cmds)
    ensures script.Some? ==> Tokenize(script.value) == Some([["set", "-e"]] + NonEmpty(cmds))
  {
    if |cmds| == 0 {
      return None;
    }
    var text := PREAMBLE;
    for i := 0 to |cmds|
      invariant text == PREAMBLE + Lines(cmds[..i])
    {
      assert cmds[..i + 1][..i] == cmds[..i];
      var line := "";
      for j := 0 to |cmds[i]|
        invariant line == Line(cmds[i][..j])
      {
        assert cmds[i][..j + 1][..j] == cmds[i][..j];
        var quoted := ShellQuote(cmds[i][j]);
        line := if j == 0 then quoted else line + [' '] + quoted;
      }
      assert cmds[i][..|cmds[i]|] == cmds[i];
      text := text + line + ['\n'];
      assert text == PREAMBLE + (Lines(cmds[..i]) + Line(cmds[i]) + ['\n']);
    }
    assert cmds[..|cmds|] == cmds;
    ScriptRoundTrip(cmds);
    return Some(text);
  }

  // ---------------------------------------------------------------------------
  // Reading back what was printed
  // ---------------------------------------------------------------------------

  lemma Two(lx: Lexer, a: char, b: char)
    ensures Run(lx, [a, b]) == Step(Step(lx, a), b)
  {
    assert [a, b][1..] == [b] && [b][1..] == [];
    assert Run(Step(lx, a), [b]) == Run(Step(Step(lx, a), b), []);
  }

  /** The four characters that stand for a quote read as one quote. */
  lemma QuoteInside(lx: Lexer)
    requires lx.Lexer? && lx.mode == Quoted && lx.word.Some?
    ensures Run(lx, ['\'', '\\', '\'', '\'']) == lx.(word := Some(lx.word.value + ['\'']))
  {
    assert ['\'', '\\', '\'', '\''] == ['\'', '\\'] + ['\'', '\''];
    RunConcat(lx, ['\'', '\\'], ['\'', '\'']);
    Two(lx, '\'', '\\');
    Two(lx.(mode := Escaped), '\'', '\'');
  }

  lemma One(lx: Lexer, c: char)
    ensures Run(lx, [c]) == Step(lx, c)
  {
    assert [c][1..] == [];
  }

  lemma {:induction false} ReadEscaped(lx: Lexer, s: string)
    requires lx.Lexer? && lx.mode == Quoted && lx.word.Some?
    ensures Run(lx, Escape(s)) == lx.(word := Some(lx.word.value + s))
    decreases |s|
  {
    if s == [] {
      assert lx.word.value + s == lx.word.value;
    } else {
      var head := if s[0] == '\'' then ['\'', '\\', '\'', '\''] else [s[0]];
      var next := lx.(word := Some(lx.word.value + [s[0]]));
      RunConcat(lx, head, Escape(s[1..]));
      if s[0] == '\'' {
        QuoteInside(lx);
      } else {
        One(lx, s[0]);
      }
      assert Run(lx, head) == next;
      ReadEscaped(next, s[1..]);
      assert lx.word.value + [s[0]] + s[1..] == lx.word.value + s;
    }
  }

  /** A quoted argument, read between words, is one word: the argument itself. */
  lemma ReadQuoted(lx: Lexer, s: string)
    requires lx.Lexer? && lx.mode == Plain && lx.word == None
    ensures Run(lx, ShellQuote(s)) == lx.(word := Some(s))
  {
    RunConcat(lx, ['\''] + Escape(s), ['\'']);
    RunConcat(lx, ['\''], Escape(s));
    One(lx, '\'');
    var inside := lx.(mode := Quoted, word := Some(""));
    ReadEscaped(inside, s);
    assert "" + s == s;
    One(inside.(word := Some(s)), '\'');
  }

  lemma {:induction false} ReadLine(lx: Lexer, args: seq<string>)
    requires lx.Lexer? && lx.mode == Plain && lx.word == None && lx.command == [] && args != []
    ensures Run(lx, Line(args)) == lx.(word := Some(args[|args| - 1]), command := args[..|args| - 1])
    decreases |args|
  {
    var front, last := args[..|args| - 1], args[|args| - 1];
    if |args| == 1 {
      ReadQuoted(lx, args[0]);
    } else {
      ReadLine(lx, front);
      RunConcat(lx, Line(front) + [' '], ShellQuote(last));
      RunConcat(lx, Line(front), [' ']);
      var mid := lx.(word := Some(front[|front| - 1]), command := front[..|front| - 1]);
      One(mid, ' ');
      assert front[..|front| - 1] + [front[|front| - 1]] == front;
      ReadQuoted(lx.(command := front), last);
    }
  }

  lemma EndLine(lx: Lexer, args: seq<string>)
    requires lx.Lexer? && lx.mode == Plain && lx.word == None && lx.command == [] && args != []
    ensures Run(lx.(word := Some(args[|args| - 1]), command := args[..|args| - 1]), ['\n']) ==
      lx.(done := lx.done + [args])
  {
    One(lx.(word := Some(args[|args| - 1]), command := args[..|args| - 1]), '\n');
    assert args[..|args| - 1] + [args[|args| - 1]] == args;
  }

  lemma ReadCommand(lx: Lexer, args: seq<string>)
    requires lx.Lexer? && lx.mode == Plain && lx.word == None && lx.command == []
    ensures Run(lx, Line(args) + ['\n']) == if args == [] then lx else lx.(done := lx.done + [args])
  {
    RunConcat(lx, Line(args), ['\n']);
    if args == [] {
      One(lx, '\n');
    } else {
      ReadLine(lx, args);
      EndLine(lx, args);
    }
  }

  /** The commands that have at least one word. */
  function NonEmpty(cmds: seq<seq<string>>): seq<seq<string>> {
    if cmds == [] then []
    else NonEmpty(cmds[..|cmds| - 1]) + if cmds[|cmds| - 1] == [] then [] else [cmds[|cmds| - 1]]
  }

  lemma {:induction false} ReadLines(lx: Lexer, cmds: seq<seq<string>>)
    requires lx.Lexer? && lx.mode == Plain && lx.word == None && lx.command == []
    ensures Run(lx, Lines(cmds)) == lx.(done := lx.done + NonEmpty(cmds))
    decreases |cmds|
  {
    if cmds != [] {
      var front, last := cmds[..|cmds| - 1], cmds[|cmds| - 1];
      ReadLines(lx, front);
      assert Lines(cmds) == Lines(front) + (Line(last) + ['\n']);
      RunConcat(lx, Lines(front), Line(last) + ['\n']);
      ReadCommand(lx.(done := lx.done + NonEmpty(front)), last);
    }
  }

  predicate Ordinary(c: char) {
    c != '\'' && c != '\\' && c != ' ' && c != '\t' && c != '\n' && !Special(c)
  }

  lemma ReadWord(lx: Lexer, w: string)
    requires lx.Lexer? && lx.mode == Plain && w != [] && forall i :: 0 <= i < |w| ==> Ordinary(w[i])
    ensures Run(lx, w) == lx.(word := Some((if lx.word.Some? then lx.word.value else "") + w))
    decreases |w|
  {
    var was := if lx.word.Some? then lx.word.value else "";
    var next := lx.(word := Some(was + [w[0]]));
    assert Step(lx, w[0]) == next;
    if |w| == 1 {
      assert w == [w[0]];
      One(lx, w[0]);
    } else {
      ReadWord(next, w[1..]);
      assert was + [w[0]] + w[1..] == was + w;
    }
  }

  lemma Letter(c: char)
    requires 'a' <= c <= 'z' || c == '-'
    ensures Ordinary(c)
  {
  }

  lemma ReadSet()
    ensures Run(START, "set" + [' ']) == START.(command := ["set"])
  {
    var set' := "set";
    var s1 := START.(word := Some(set'));
    Letter('s');
    Letter('e');
    Letter('t');
    assert "" + set' == set' && set' == ['s', 'e', 't'];
    ReadWord(START, set');
    One(s1, ' ');
    RunConcat(START, set', [' ']);
  }

  lemma ReadFlag()
    ensures Run(START.(command := ["set"]), "-e") == START.(command := ["set"], word := Some("-e"))
  {
    var flag := "-e";
    Letter('-');
    Letter('e');
    assert "" + flag == flag && flag == ['-', 'e'];
    ReadWord(START.(command := ["set"]), flag);
  }

  lemma ReadPreamble()
    ensures Run(START, PREAMBLE) == START.(done := [["set", "-e"]])
  {
    var start, flag, line := "set" + [' '], "-e", ["set", "-e"];
    ReadSet();
    ReadFlag();
    assert line[..1] == ["set"];
    EndLine(START, line);
    RunConcat(START, start, flag);
    RunConcat(START, start + flag, ['\n']);
    assert PREAMBLE == start + flag + ['\n'];
  }

  /** For all argument vectors of arbitrary strings, empty ones, quotes and newlines
      included, the shell reads `set -e` and then the commands, word for word. */
  lemma ScriptRoundTrip(cmds: seq<seq<string>>)
    ensures Tokenize(PREAMBLE + Lines(cmds)) == Some([["set", "-e"]] + NonEmpty(cmds))
  {
    RunConcat(START, PREAMBLE, Lines(cmds));
    ReadPreamble();
    ReadLines(START.(done := [["set", "-e"]]), cmds);
  }

  lemma {:induction false} NonEmptyIsAll(cmds: seq<seq<string>>)
    ensures |NonEmpty(cmds)| <= |cmds|
    ensures NonEmpty(cmds) == cmds <==> forall i :: 0 <= i < |cmds| ==> cmds[i] != []
  {
    if cmds != [] {
      var front, last := cmds[..|cmds| - 1], cmds[|cmds| - 1];
      NonEmptyIsAll(front);
      assert cmds == front + [last];
      if last != [] {
        assert NonEmpty(cmds)[..|NonEmpty(cmds)| - 1] == NonEmpty(front);
      }
    }
  }

  /** The script runs exactly the original commands exactly when none of them is an empty
      vector: such a command leaves an empty line, which the shell skips. */
  lemma ExactlyTheOriginal(cmds: seq<seq<string>>)
    ensures Tokenize(PREAMBLE + Lines(cmds)) == Some([["set", "-e"]] + cmds) <==>
      forall i :: 0 <= i < |cmds| ==> cmds[i] != []
  {
    ScriptRoundTrip(cmds);
    NonEmptyIsAll(cmds);
    var a, b := [["set", "-e"]] + NonEmpty(cmds), [["set", "-e"]] + cmds;
    assert a[1..] == NonEmpty(cmds) && b[1..] == cmds;
  }

  lemma EmptyVectorVanishes()
    ensures Tokenize(PREAMBLE + Lines([[]])) == Some([["set", "-e"]])
  {
    var cmds: seq<seq<string>> := [[]];
    ScriptRoundTrip(cmds);
    assert cmds[..0] == [];
    assert [["set", "-e"]] + NonEmpty(cmds) == [["set", "-e"]];
  }
}
