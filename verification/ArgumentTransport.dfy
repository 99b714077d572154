/**
 * How arguments reach tmux: as process arguments, where a trailing semicolon ends a command,
 * and as a line of the control channel, where every byte is an octal escape.
 */
module ArgumentTransport {
  import opened Prelude
  import Octal
  import Control = ControlParser

  // ------------------------------------------------------ splitting as tmux does

  type Command = seq<string>

  /** A word without its separator, and whether it ended a command. */
  datatype Word = Word(text: string, ends: bool)

  function LastOf(s: string): char
    requires s != ""
  {
    s[|s| - 1]
  }

  /** A trailing semicolon ends the command, unless a backslash stands before it, which it then replaces. */
  function ReadWord(argument: string): Word {
    if argument == "" || LastOf(argument) != ';' then Word(argument, false)
    else
      var front := argument[..|argument| - 1];
      if front != "" && LastOf(front) == '\\' then Word(front[..|front| - 1] + ";", false) else Word(front, true)
  }

  /** The commands of an argument vector, the first of which continues `current`. */
  function SplitFrom(argv: seq<string>, current: Command): (r: seq<Command>)
    ensures r != []
    decreases |argv|
  {
    if argv == [] then [current]
    else
      var word := ReadWord(argv[0]);
      var grown := if !word.ends || word.text != "" then current + [word.text] else current;
      if word.ends then [grown] + SplitFrom(argv[1..], []) else SplitFrom(argv[1..], grown)
  }

  function Split(argv: seq<string>): seq<Command> { SplitFrom(argv, []) }

  datatype Invocation = Invocation(name: string, arguments: seq<string>)

  /** Commands whose first word names a tmux command; name resolution is a parameter. */
  function Resolved(commands: seq<Command>, resolve: string -> Option<string>): seq<Invocation>
    decreases |commands|
  {
    if commands == [] then []
    else
      var rest := Resolved(commands[1..], resolve);
      if commands[0] == [] || resolve(commands[0][0]).None? then rest
      else [Invocation(resolve(commands[0][0]).value, commands[0][1..])] + rest
  }

  lemma {:induction false} ResolvedSnoc(commands: seq<Command>, c: Command, resolve: string -> Option<string>)
    ensures Resolved(commands + [c], resolve) == Resolved(commands, resolve) + Resolved([c], resolve)
    decreases |commands|
  {
    if commands == [] {
      assert [] + [c] == [c];
      assert [] + Resolved([c], resolve) == Resolved([c], resolve);
    } else {
      assert (commands + [c])[1..] == commands[1..] + [c];
      ResolvedSnoc(commands[1..], c, resolve);
    }
  }

  method SplitWord(argument: string) returns (word: string, ends: bool)
    ensures Word(word, ends) == ReadWord(argument)
  {
    word, ends := argument, false;
    if word != "" && LastOf(word) == ';' {
      word := word[..|word| - 1];
      if word != "" && LastOf(word) == '\\' { word := word[..|word| - 1] + ";"; } else { ends := true; }
    }
  }

  lemma SplitStep(front: seq<Command>, current: Command, argv: seq<string>)
    requires argv != []
    ensures var word := ReadWord(argv[0]);
            var grown := if !word.ends || word.text != "" then current + [word.text] else current;
            front + SplitFrom(argv, current) ==
              if word.ends then (front + [grown]) + SplitFrom(argv[1..], []) else front + SplitFrom(argv[1..], grown)
  {
    hide ReadWord;
  }

  method SplitArguments(argv: seq<string>) returns (commands: seq<Command>)
    ensures commands == Split(argv)
  {
    hide ReadWord, SplitFrom;
    var done: seq<Command>, current: Command := [], [];
    assert argv[0..] == argv && done + SplitFrom(argv, []) == Split(argv);
    for i := 0 to |argv|
      invariant done + SplitFrom(argv[i..], current) == Split(argv)
    {
      var word, ends := SplitWord(argv[i]);
      assert argv[i..][0] == argv[i] && argv[i..][1..] == argv[i + 1..];
      SplitStep(done, current, argv[i..]);
      if !ends || word != "" { current := current + [word]; }
      if ends {
        done := done + [current];
        current := [];
      }
    }
    commands := done + [current];
    assert argv[|argv|..] == [];
    SplitNothing(current);
  }

  lemma SplitNothing(current: Command)
    ensures SplitFrom([], current) == [current]
  {}

  method Invocations(argv: seq<string>, resolve: string -> Option<string>) returns (result: seq<Invocation>)
    ensures result == Resolved(Split(argv), resolve)
  {
    hide Split;
    var commands := SplitArguments(argv);
    result := [];
    for i := 0 to |commands|
      invariant result == Resolved(commands[..i], resolve)
    {
      assert commands[..i + 1] == commands[..i] + [commands[i]];
      ResolvedSnoc(commands[..i], commands[i], resolve);
      var command := commands[i];
      assert commands[i..i + 1] == [command] && commands[i..i + 1][1..] == [];
      if command == [] { continue; }
      var name := resolve(command[0]);
      if name.None? { continue; }
      result := result + [Invocation(name.value, command[1..])];
    }
    assert commands[..|commands|] == commands;
  }

  // -------------------------------------------------------- the subprocess form

  const SEPARATOR := ";"

  /** One backslash before a trailing semicolon; the lone separator is left alone. */
  function EscapedArgument(argument: string): string {
    if argument == SEPARATOR then argument else EscapedData(argument)
  }

  /** As above, for a place where every argument is data. */
  function EscapedData(argument: string): string {
    if argument == "" || LastOf(argument) != ';' then argument else argument[..|argument| - 1] + "\\;"
  }

  lemma DataIsRead(argument: string)
    ensures ReadWord(EscapedData(argument)) == Word(argument, false)
  {
    if argument != "" && LastOf(argument) == ';' {
      var e := EscapedData(argument);
      var front := e[..|e| - 1];
      assert front == argument[..|argument| - 1] + "\\";
      assert front[..|front| - 1] + ";" == argument;
    }
  }

  function EscapedAll(argv: seq<string>): seq<string> {
    seq(|argv|, i requires 0 <= i < |argv| => EscapedArgument(argv[i]))
  }

  /** Commands in one argument vector, with the separator between them. */
  function Joined(commands: seq<Command>): seq<string>
    decreases |commands|
  {
    if commands == [] then [] else if |commands| == 1 then commands[0]
    else commands[0] + ([SEPARATOR] + Joined(commands[1..]))
  }

  predicate NoLoneSeparator(commands: seq<Command>) {
    forall i :: 0 <= i < |commands| ==> SEPARATOR !in commands[i]
  }

  lemma WordIsKept(argument: string, rest: seq<string>, current: Command)
    ensures SplitFrom([EscapedData(argument)] + rest, current) == SplitFrom(rest, current + [argument])
  {
    DataIsRead(argument);
    hide ReadWord, EscapedData;
    assert ([EscapedData(argument)] + rest)[1..] == rest;
  }

  /** Reading one escaped command, then whatever follows. */
  lemma {:induction false} CommandIsRead(c: Command, rest: seq<string>, current: Command)
    requires SEPARATOR !in c
    ensures SplitFrom(EscapedAll(c) + rest, current) == SplitFrom(rest, current + c)
    decreases |c|
  {
    if c == [] {
      assert EscapedAll(c) + rest == rest && current + c == current;
    } else {
      hide SplitFrom;
      var tail := EscapedAll(c[1..]) + rest;
      assert EscapedAll(c) + rest == [EscapedData(c[0])] + tail;
      WordIsKept(c[0], tail, current);
      CommandIsRead(c[1..], rest, current + [c[0]]);
      assert (current + [c[0]]) + c[1..] == current + c;
    }
  }

  lemma EscapedJoin(a: seq<string>, b: seq<string>)
    ensures EscapedAll(a + b) == EscapedAll(a) + EscapedAll(b)
  {}

  lemma {:induction false} JoinedIsRead(commands: seq<Command>)
    requires commands != [] && NoLoneSeparator(commands)
    ensures Split(EscapedAll(Joined(commands))) == commands
    decreases |commands|
  {
    var first, rest := commands[0], commands[1..];
    if |commands| == 1 {
      assert EscapedAll(first) + [] == EscapedAll(first) && [] + first == first;
      CommandIsRead(first, [], []);
      assert commands == [first];
    } else {
      JoinedIsRead(rest);
      var tail := EscapedAll(Joined(rest));
      EscapedJoin(first, [SEPARATOR] + Joined(rest));
      EscapedJoin([SEPARATOR], Joined(rest));
      assert EscapedAll([SEPARATOR]) == [SEPARATOR];
      CommandIsRead(first, [SEPARATOR] + tail, []);
      assert [] + first == first;
      assert commands == [first] + rest;
    }
  }

  // Where an argument is the separator itself it is lost: the words that arrive are fewer.

  function WordCount(commands: seq<Command>): nat
    decreases |commands|
  {
    if commands == [] then 0 else |commands[0]| + WordCount(commands[1..])
  }

  function SeparatorCount(argv: seq<string>): nat
    decreases |argv|
  {
    if argv == [] then 0 else (if argv[0] == SEPARATOR then 1 else 0) + SeparatorCount(argv[1..])
  }

  lemma {:induction false} WordsThatArrive(argv: seq<string>, current: Command)
    ensures WordCount(SplitFrom(EscapedAll(argv), current)) + SeparatorCount(argv) == |current| + |argv|
    decreases |argv|
  {
    var sent := EscapedAll(argv);
    if argv == [] {
      assert [current][1..] == [];
    } else {
      assert sent[0] == EscapedArgument(argv[0]) && sent[1..] == EscapedAll(argv[1..]);
      if argv[0] == SEPARATOR {
        WordsThatArrive(argv[1..], []);
        var rest := SplitFrom(sent[1..], []);
        assert ReadWord(SEPARATOR) == Word("", true);
        assert ([current] + rest)[1..] == rest;
      } else {
        DataIsRead(argv[0]);
        WordsThatArrive(argv[1..], current + [argv[0]]);
      }
    }
  }

  lemma {:induction false} SeparatorsAdd(a: seq<string>, b: seq<string>)
    ensures SeparatorCount(a + b) == SeparatorCount(a) + SeparatorCount(b)
    ensures SEPARATOR in a ==> SeparatorCount(a) > 0
    decreases |a|
  {
    if a == [] {
      assert a + b == b;
    } else {
      assert (a + b)[1..] == a[1..] + b;
      SeparatorsAdd(a[1..], b);
    }
  }

  function DataSeparators(commands: seq<Command>): nat
    decreases |commands|
  {
    if commands == [] then 0 else SeparatorCount(commands[0]) + DataSeparators(commands[1..])
  }

  lemma {:induction false} JoinedCounts(commands: seq<Command>)
    requires commands != []
    ensures SeparatorCount(Joined(commands)) == DataSeparators(commands) + |commands| - 1
    ensures |Joined(commands)| == WordCount(commands) + |commands| - 1
    decreases |commands|
  {
    if |commands| == 1 {
      assert commands[1..] == [];
    } else {
      var first, rest := commands[0], Joined(commands[1..]);
      JoinedCounts(commands[1..]);
      SeparatorsAdd(first, [SEPARATOR] + rest);
      SeparatorsAdd([SEPARATOR], rest);
      assert [SEPARATOR][1..] == [] && SeparatorCount([SEPARATOR]) == 1;
    }
  }

  lemma {:induction false} DataSeparatorIsLost(commands: seq<Command>)
    requires !NoLoneSeparator(commands)
    ensures DataSeparators(commands) > 0
    decreases |commands|
  {
    if SEPARATOR in commands[0] {
      SeparatorsAdd(commands[0], []);
    } else {
      var i :| 0 <= i < |commands| && SEPARATOR in commands[i];
      assert commands[1..][i - 1] == commands[i];
      DataSeparatorIsLost(commands[1..]);
    }
  }

  /** The subprocess form delivers the commands exactly when no data argument is a lone separator. */
  lemma SubprocessIsLossless(commands: seq<Command>)
    requires commands != []
    ensures Split(EscapedAll(Joined(commands))) == commands <==> NoLoneSeparator(commands)
  {
    if NoLoneSeparator(commands) {
      JoinedIsRead(commands);
    } else {
      DataSeparatorIsLost(commands);
      WordsThatArrive(Joined(commands), []);
      JoinedCounts(commands);
    }
  }

  function EscapedDataAll(argv: Command): seq<string>
    decreases |argv|
  {
    if argv == [] then [] else [EscapedData(argv[0])] + EscapedDataAll(argv[1..])
  }

  /** The control form escapes every trailing semicolon, so each element is exactly one command, whatever it holds. */
  lemma {:induction false} ControlArgumentsAreOneCommand(argv: Command, current: Command)
    ensures SplitFrom(EscapedDataAll(argv), current) == [current + argv]
    decreases |argv|
  {
    hide EscapedData, SplitFrom;
    if argv == [] {
      assert current + argv == current;
      SplitNothing(current);
    } else {
      WordIsKept(argv[0], EscapedDataAll(argv[1..]), current);
      ControlArgumentsAreOneCommand(argv[1..], current + [argv[0]]);
      assert (current + [argv[0]]) + argv[1..] == current + argv;
    }
  }

  // ----------------------------------------------------------- the control line

  datatype RenderError = EmptyGroup | NoCommand | ContainsNul

  const NUL := 0 as char

  ghost predicate BytesOnly(group: seq<Command>) {
    forall i, j :: 0 <= i < |group| && 0 <= j < |group[i]| ==> Octal.AllBytes(group[i][j])
  }

  function EncodeBytes(value: string): string
    requires Octal.AllBytes(value)
    decreases |value|
  {
    if value == "" then "" else Octal.Escape(value[0]) + EncodeBytes(value[1..])
  }

  function EncodeToken(value: string): string
    requires Octal.AllBytes(value)
  {
    if value == "" then "''" else EncodeBytes(value)
  }

  /** What tmux makes of a token: a pair of quotes is empty, escapes are bytes. */
  function DecodeToken(token: string): Result<string, Control.ProtocolError> {
    if token == "''" then Success("") else Control.DecodePayload(token)
  }

  lemma {:induction false} BytesDecode(value: string)
    requires Octal.AllBytes(value)
    ensures Control.DecodePayload(EncodeBytes(value)) == Success(value)
    decreases |value|
  {
    if value != "" {
      BytesDecode(value[1..]);
      var e, code := EncodeBytes(value), Octal.Escape(value[0]);
      assert e[0] == code[0] && e[1] == code[1] && e[2] == code[2] && e[3] == code[3]
          && e[4..] == EncodeBytes(value[1..]);
      hide Octal.Escape;
      assert [value[0]] + value[1..] == value;
    }
  }

  predicate IsTokenChar(c: char) { c == '\\' || c == '\'' || Octal.IsDigit(c) }

  lemma {:induction false} BytesArePlain(value: string)
    requires Octal.AllBytes(value)
    ensures forall i :: 0 <= i < |EncodeBytes(value)| ==> IsTokenChar(EncodeBytes(value)[i])
    ensures value != "" ==> |EncodeBytes(value)| >= 4 && EncodeBytes(value)[0] == '\\'
    decreases |value|
  {
    if value != "" {
      BytesArePlain(value[1..]);
      assert forall i :: 0 <= i < 4 ==> IsTokenChar(Octal.Escape(value[0])[i]);
      hide Octal.Escape, IsTokenChar;
    }
  }

  /** A token decodes to its argument, holds no space or newline, and is never the separator. */
  lemma TokenRoundTrip(value: string)
    requires Octal.AllBytes(value)
    ensures DecodeToken(EncodeToken(value)) == Success(value)
    ensures ' ' !in EncodeToken(value) && '\n' !in EncodeToken(value) && EncodeToken(value) != SEPARATOR
  {
    hide EncodeBytes, Control.DecodePayload, Octal.AllBytes;
    BytesDecode(value);
    BytesArePlain(value);
  }

  // ---- the line as a list of tokens

  function Tokens(argv: Command): seq<string>
    requires forall j :: 0 <= j < |argv| ==> Octal.AllBytes(argv[j])
    decreases |argv|
  {
    if argv == [] then [] else [EncodeToken(argv[0])] + Tokens(argv[1..])
  }

  /** Every command's tokens, with a separator token between commands. */
  function GroupTokens(group: seq<Command>): seq<string>
    requires BytesOnly(group)
    decreases |group|
  {
    if group == [] then []
    else if |group| == 1 then Tokens(group[0])
    else Tokens(group[0]) + ([SEPARATOR] + GroupTokens(group[1..]))
  }

  function Spaced(tokens: seq<string>): string
    decreases |tokens|
  {
    if tokens == [] then "" else if |tokens| == 1 then tokens[0] else tokens[0] + (" " + Spaced(tokens[1..]))
  }

  /** Words between spaces. */
  function Words(s: string): (r: seq<string>)
    ensures r != []
    decreases |s|
  {
    var k := IndexFrom(s, ' ', 0);
    if k == |s| then [s] else [s[..k]] + Words(s[k + 1..])
  }

  lemma LastWord(first: string)
    requires ' ' !in first
    ensures Words(first) == [first]
  {
    IndexIs(first, ' ', 0, |first|);
  }

  lemma NextWord(first: string, tail: string)
    requires ' ' !in first
    ensures Words(first + (" " + tail)) == [first] + Words(tail)
  {
    var s := first + (" " + tail);
    assert forall i :: 0 <= i < |first| ==> s[i] == first[i];
    IndexIs(s, ' ', 0, |first|);
    assert s[..|first|] == first && s[|first| + 1..] == tail;
  }

  lemma {:induction false} SpacedIsRead(tokens: seq<string>)
    requires tokens != [] && forall i :: 0 <= i < |tokens| ==> ' ' !in tokens[i]
    ensures Words(Spaced(tokens)) == tokens
    decreases |tokens|
  {
    hide Words;
    var first := tokens[0];
    if |tokens| == 1 {
      LastWord(first);
      assert tokens == [first];
    } else {
      var rest := tokens[1..];
      SpacedIsRead(rest);
      NextWord(first, Spaced(rest));
      assert tokens == [first] + rest;
    }
  }

  /** Decoded words up to each separator token; nothing when a word cannot be decoded. */
  function ReadGroup(words: seq<string>, current: Command): Option<seq<Command>>
    decreases |words|
  {
    if words == [] then Some([current])
    else if words[0] == SEPARATOR then
      var rest := ReadGroup(words[1..], []);
      if rest.None? then None else Some([current] + rest.value)
    else
      match DecodeToken(words[0])
      case Success(value) => ReadGroup(words[1..], current + [value])
      case Failure(_) => None
  }

  lemma {:induction false} TokensAreRead(argv: Command, rest: seq<string>, current: Command)
    requires forall j :: 0 <= j < |argv| ==> Octal.AllBytes(argv[j])
    ensures ReadGroup(Tokens(argv) + rest, current) == ReadGroup(rest, current + argv)
    decreases |argv|
  {
    hide EncodeToken, DecodeToken, Octal.AllBytes;
    if argv == [] {
      assert Tokens(argv) + rest == rest && current + argv == current;
    } else {
      TokenRoundTrip(argv[0]);
      var words := Tokens(argv) + rest;
      assert words[0] == EncodeToken(argv[0]) && words[1..] == Tokens(argv[1..]) + rest;
      TokensAreRead(argv[1..], rest, current + [argv[0]]);
      assert (current + [argv[0]]) + argv[1..] == current + argv;
    }
  }

  lemma {:induction false} GroupIsRead(group: seq<Command>)
    requires group != [] && BytesOnly(group)
    ensures ReadGroup(GroupTokens(group), []) == Some(group)
    decreases |group|
  {
    var first, rest := group[0], group[1..];
    assert [] + first == first;
    if |group| == 1 {
      assert Tokens(first) + [] == Tokens(first);
      TokensAreRead(first, [], []);
      assert group == [first];
    } else {
      GroupIsRead(rest);
      var tail := [SEPARATOR] + GroupTokens(rest);
      TokensAreRead(first, tail, []);
      assert tail[0] == SEPARATOR && tail[1..] == GroupTokens(rest);
      assert group == [first] + rest;
    }
  }

  lemma {:induction false} TokensArePlain(argv: Command)
    requires forall j :: 0 <= j < |argv| ==> Octal.AllBytes(argv[j])
    ensures |Tokens(argv)| == |argv|
    ensures forall i :: 0 <= i < |Tokens(argv)| ==> ' ' !in Tokens(argv)[i] && '\n' !in Tokens(argv)[i]
    decreases |argv|
  {
    if argv != [] {
      TokenRoundTrip(argv[0]);
      hide EncodeToken, DecodeToken;
      TokensArePlain(argv[1..]);
    }
  }

  lemma {:induction false} GroupTokensArePlain(group: seq<Command>)
    requires BytesOnly(group) && group != [] && group[0] != []
    ensures GroupTokens(group) != []
    ensures forall i :: 0 <= i < |GroupTokens(group)| ==>
            ' ' !in GroupTokens(group)[i] && '\n' !in GroupTokens(group)[i]
    decreases |group|
  {
    TokensArePlain(group[0]);
    if |group| > 1 { GroupTailIsPlain(group[1..]); }
  }

  lemma {:induction false} GroupTailIsPlain(group: seq<Command>)
    requires BytesOnly(group) && group != []
    ensures forall i :: 0 <= i < |GroupTokens(group)| ==>
            ' ' !in GroupTokens(group)[i] && '\n' !in GroupTokens(group)[i]
    decreases |group|
  {
    TokensArePlain(group[0]);
    if |group| > 1 { GroupTailIsPlain(group[1..]); }
  }

  lemma {:induction false} SpacedHasNoNewline(tokens: seq<string>)
    requires forall i :: 0 <= i < |tokens| ==> '\n' !in tokens[i]
    ensures '\n' !in Spaced(tokens)
    decreases |tokens|
  {
    if |tokens| > 1 { SpacedHasNoNewline(tokens[1..]); }
  }

  // ------------------------------------------------------------- main results

  /** The first thing wrong with a group, in the order it is looked at. */
  function FirstError(group: seq<Command>): Option<RenderError>
    decreases |group|
  {
    if group == [] then None
    else if group[0] == [] then Some(NoCommand)
    else if exists j :: 0 <= j < |group[0]| && NUL in group[0][j] then Some(ContainsNul)
    else FirstError(group[1..])
  }

  function RenderedLine(group: seq<Command>): string
    requires BytesOnly(group)
  {
    Spaced(GroupTokens(group)) + "\n"
  }

  /** A line ends at its only newline; without it, its words are the group. */
  function ReadLine(line: string): Option<seq<Command>> {
    if line == "" || LastOf(line) != '\n' then None else ReadGroup(Words(line[..|line| - 1]), [])
  }

  /** A rendered line holds exactly one newline, its last character, and reads back as exactly the group. */
  lemma RenderedLineIsRead(group: seq<Command>)
    requires BytesOnly(group) && group != [] && FirstError(group).None?
    ensures ReadLine(RenderedLine(group)) == Some(group)
    ensures var line := RenderedLine(group); line != "" && LastOf(line) == '\n' && '\n' !in line[..|line| - 1]
  {
    var tokens := GroupTokens(group);
    GroupTokensArePlain(group);
    SpacedIsRead(tokens);
    GroupIsRead(group);
    SpacedHasNoNewline(tokens);
    var line := RenderedLine(group);
    hide GroupTokens, Spaced, Words, ReadGroup, FirstError;
    assert line[..|line| - 1] == Spaced(tokens);
  }

  // -------------------------------------------------------------- rendering

  lemma {:induction false} EncodeBytesSnoc(value: string, c: char)
    requires Octal.AllBytes(value) && Octal.IsByte(c)
    ensures Octal.AllBytes(value + [c]) && EncodeBytes(value + [c]) == EncodeBytes(value) + Octal.Escape(c)
    decreases |value|
  {
    hide Octal.Escape;
    if value == "" {
      assert value + [c] == [c] && [c][1..] == "" && EncodeBytes("") == "";
    } else {
      assert (value + [c])[1..] == value[1..] + [c];
      EncodeBytesSnoc(value[1..], c);
    }
  }

  method EncodeArgument(value: string) returns (encoded: string)
    requires Octal.AllBytes(value)
    ensures encoded == EncodeToken(value)
  {
    if value == "" { return "''"; }
    encoded := "";
    for i := 0 to |value|
      invariant encoded == EncodeBytes(value[..i])
    {
      assert value[..i + 1] == value[..i] + [value[i]];
      EncodeBytesSnoc(value[..i], value[i]);
      encoded := encoded + Octal.Escape(value[i]);
    }
    assert value[..|value|] == value;
  }

  lemma {:induction false} SpacedJoin(a: seq<string>, b: seq<string>)
    requires a != [] && b != []
    ensures Spaced(a + b) == Spaced(a) + (" " + Spaced(b))
    decreases |a|
  {
    assert (a + b)[0] == a[0] && (a + b)[1..] == a[1..] + b;
    if |a| == 1 {
      assert a[1..] + b == b;
    } else {
      SpacedJoin(a[1..], b);
      assert a[0] + (" " + (Spaced(a[1..]) + (" " + Spaced(b)))) == (a[0] + (" " + Spaced(a[1..]))) + (" " + Spaced(b));
    }
  }

  lemma {:induction false} TokensSnoc(argv: Command, argument: string)
    requires (forall j :: 0 <= j < |argv| ==> Octal.AllBytes(argv[j])) && Octal.AllBytes(argument)
    ensures Tokens(argv + [argument]) == Tokens(argv) + [EncodeToken(argument)]
    decreases |argv|
  {
    hide EncodeToken;
    if argv == [] {
      assert argv + [argument] == [argument] && [argument][1..] == [] && Tokens([]) == [];
    } else {
      assert (argv + [argument])[1..] == argv[1..] + [argument];
      TokensSnoc(argv[1..], argument);
    }
  }

  lemma {:induction false} GroupTokensSnoc(group: seq<Command>, c: Command)
    requires BytesOnly(group + [c])
    ensures BytesOnly(group)
    ensures GroupTokens(group + [c]) ==
            if group == [] then Tokens((group + [c])[0])
            else GroupTokens(group) + ([SEPARATOR] + Tokens((group + [c])[|group|]))
    decreases |group|
  {
    var all := group + [c];
    assert forall i :: 0 <= i < |group| ==> all[i] == group[i];
    if group != [] {
      var rest := group[1..];
      assert all[1..] == rest + [c];
      GroupTokensSnoc(rest, c);
      hide Tokens;
      if rest == [] {
        assert group == [group[0]];
      } else {
        var x, y, z := Tokens(group[0]), GroupTokens(rest), [SEPARATOR] + Tokens(c);
        assert x + ([SEPARATOR] + (y + z)) == (x + ([SEPARATOR] + y)) + z;
      }
    }
  }

  ghost predicate ArgumentBytes(argv: Command) { forall j :: 0 <= j < |argv| ==> Octal.AllBytes(argv[j]) }

  /** One command's tokens after what has been rendered already. */
  method RenderCommand(line: string, argv: Command) returns (r: Result<string, RenderError>)
    requires ArgumentBytes(argv)
    ensures r == if argv == [] then Failure(NoCommand)
                 else if exists j :: 0 <= j < |argv| && NUL in argv[j] then Failure(ContainsNul)
                 else Success(line + Spaced(Tokens(argv)))
  {
    if argv == [] { return Failure(NoCommand); }
    hide EncodeToken, Tokens, Spaced;
    var out := line;
    ghost var tokens := Tokens(argv[..0]);
    for i := 0 to |argv|
      invariant forall j :: 0 <= j < i ==> NUL !in argv[j]
      invariant tokens == Tokens(argv[..i]) && |tokens| == i && out == line + Spaced(tokens)
    {
      if NUL in argv[i] { return Failure(ContainsNul); }
      if i != 0 { out := out + " "; }
      var token := EncodeArgument(argv[i]);
      out := out + token;
      RenderedToken(line, tokens, token);
      PrefixTokens(argv, i);
      tokens := tokens + [token];
    }
    assert argv[..|argv|] == argv;
    return Success(out);
  }

  lemma PrefixTokens(argv: Command, i: nat)
    requires ArgumentBytes(argv) && i < |argv|
    ensures Tokens(argv[..i + 1]) == Tokens(argv[..i]) + [EncodeToken(argv[i])]
  {
    hide EncodeToken, Tokens;
    assert argv[..i + 1] == argv[..i] + [argv[i]];
    TokensSnoc(argv[..i], argv[i]);
  }

  lemma RenderedToken(line: string, tokens: seq<string>, token: string)
    ensures line + Spaced(tokens + [token]) ==
            if tokens == [] then line + Spaced(tokens) + token else line + Spaced(tokens) + " " + token
  {
    if tokens == [] {
      assert tokens + [token] == [token];
    } else {
      SpacedJoin(tokens, [token]);
    }
  }

  /** The line grows by a separator and the next command. */
  lemma RenderedGroup(group: seq<Command>, c: Command)
    requires BytesOnly(group + [c]) && c != [] && (group != [] ==> group[0] != [])
    ensures BytesOnly(group) && ArgumentBytes(c)
    ensures Spaced(GroupTokens(group + [c])) ==
            if group == [] then Spaced(Tokens(c)) else (Spaced(GroupTokens(group)) + " ; ") + Spaced(Tokens(c))
  {
    var all := group + [c];
    assert all[|group|] == c && (group == [] ==> all[0] == c);
    GroupTokensSnoc(group, c);
    TokensArePlain(c);
    if group != [] {
      GroupTokensArePlain(group);
      SeparatedTokens(GroupTokens(group), Tokens(c));
    }
    hide GroupTokens, Tokens, Spaced;
  }

  lemma SeparatedTokens(x: seq<string>, t: seq<string>)
    requires x != [] && t != []
    ensures Spaced(x + ([SEPARATOR] + t)) == (Spaced(x) + " ; ") + Spaced(t)
  {
    SpacedJoin(x, [SEPARATOR] + t);
    SpacedJoin([SEPARATOR], t);
    assert Spaced([SEPARATOR]) == SEPARATOR;
    hide Spaced;
    assert Spaced(x) + (" " + (SEPARATOR + (" " + Spaced(t)))) == (Spaced(x) + " ; ") + Spaced(t);
  }

  /** Rendering fails at the first unusable command, and otherwise gives the line that reads back. */
  method RenderRequest(group: seq<Command>) returns (r: Result<string, RenderError>)
    requires BytesOnly(group)
    ensures r == if group == [] then Failure(EmptyGroup)
                 else if FirstError(group).Some? then Failure(FirstError(group).value)
                 else Success(RenderedLine(group))
  {
    if group == [] { return Failure(EmptyGroup); }
    var line := "";
    assert group[0..] == group;
    for i := 0 to |group|
      invariant FirstError(group) == FirstError(group[i..])
      invariant BytesOnly(group[..i]) && line == Spaced(GroupTokens(group[..i])) && (i > 0 ==> group[0] != [])
    {
      var argv := group[i];
      assert group[i..][0] == argv && group[i..][1..] == group[i + 1..];
      assert group[..i + 1] == group[..i] + [argv];
      var start := if i != 0 then line + " ; " else line;
      var rendered := RenderCommand(start, argv);
      if rendered.Failure? { return Failure(rendered.error); }
      RenderedGroup(group[..i], argv);
      assert i == 0 ==> start + Spaced(Tokens(argv)) == Spaced(Tokens(argv));
      line := rendered.value;
      hide GroupTokens, Tokens, Spaced;
    }
    assert group[..|group|] == group && group[|group|..] == [];
    return Success(line + "\n");
  }
}
