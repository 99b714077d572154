/**
 * The Windows command line: how arguments are quoted into one line, how a program reads them back,
 * and the size that validation predicts for the line before it exists.
 */
module WindowsCommandLine {
  import opened Utf

  const BACKSLASH: Unit := 92
  const QUOTE: Unit := 34
  const SPACE: Unit := 32
  const TAB: Unit := 9

  // ------------------------------------------------------------------ quoting

  function Slashes(n: nat): (r: seq<Unit>)
    ensures |r| == n && forall i :: 0 <= i < n ==> r[i] == BACKSLASH
  {
    seq(n, _ => BACKSLASH)
  }

  /** The rest of a quoted argument after `k` backslashes that have not been written yet. */
  function Body(a: seq<Unit>, k: nat): seq<Unit>
    decreases |a|
  {
    if a == [] then Slashes(2 * k) + [QUOTE]
    else if a[0] == BACKSLASH then Body(a[1..], k + 1)
    else if a[0] == QUOTE then Slashes(2 * k + 1) + ([QUOTE] + Body(a[1..], 0))
    else Slashes(k) + ([a[0]] + Body(a[1..], 0))
  }

  function Quoted(a: seq<Unit>): seq<Unit> { [QUOTE] + Body(a, 0) }

  function CommandLine(args: seq<seq<Unit>>): seq<Unit>
    decreases |args|
  {
    if args == [] then [] else if |args| == 1 then Quoted(args[0])
    else Quoted(args[0]) + ([SPACE] + CommandLine(args[1..]))
  }

  method AppendQuotedArgument(line: seq<Unit>, argument: seq<Unit>) returns (r: seq<Unit>)
    ensures r == line + Quoted(argument)
  {
    r := line + [QUOTE];
    var backslashes := 0;
    assert argument[0..] == argument;
    for i := 0 to |argument|
      invariant r + Body(argument[i..], backslashes) == line + Quoted(argument)
    {
      var character := argument[i];
      assert argument[i..][0] == character && argument[i..][1..] == argument[i + 1..];
      ghost var before := r;
      if character == BACKSLASH {
        backslashes := backslashes + 1;
      } else if character == QUOTE {
        r := r + Slashes(backslashes * 2 + 1) + [QUOTE];
        assert r + Body(argument[i + 1..], 0) ==
            before + (Slashes(2 * backslashes + 1) + ([QUOTE] + Body(argument[i + 1..], 0)));
        backslashes := 0;
      } else {
        r := r + Slashes(backslashes) + [character];
        assert r + Body(argument[i + 1..], 0) ==
            before + (Slashes(backslashes) + ([character] + Body(argument[i + 1..], 0)));
        backslashes := 0;
      }
    }
    assert argument[|argument|..] == [];
    ghost var before := r;
    r := r + Slashes(backslashes * 2) + [QUOTE];
    assert r == before + (Slashes(2 * backslashes) + [QUOTE]);
  }

  lemma {:induction false} CommandLineSnoc(args: seq<seq<Unit>>, a: seq<Unit>)
    ensures CommandLine(args + [a]) == if args == [] then Quoted(a) else CommandLine(args) + ([SPACE] + Quoted(a))
    decreases |args|
  {
    hide Quoted;
    var all := args + [a];
    if args != [] {
      var first, rest := args[0], args[1..];
      assert all[0] == first && all[1..] == rest + [a];
      CommandLineSnoc(rest, a);
      if rest == [] {
        assert args == [first];
      } else {
        var x, y, z := Quoted(first), CommandLine(rest), [SPACE] + Quoted(a);
        assert x + ([SPACE] + (y + z)) == (x + ([SPACE] + y)) + z;
      }
    }
  }

  method AssembleCommandLine(arguments: seq<seq<Unit>>) returns (line: seq<Unit>)
    ensures line == CommandLine(arguments)
  {
    line := [];
    for i := 0 to |arguments|
      invariant line == CommandLine(arguments[..i]) && (i > 0 ==> line != [])
    {
      assert arguments[..i + 1] == arguments[..i] + [arguments[i]];
      CommandLineSnoc(arguments[..i], arguments[i]);
      ghost var before := line;
      if line != [] { line := line + [SPACE]; }
      line := AppendQuotedArgument(line, arguments[i]);
      assert i > 0 ==> line == before + ([SPACE] + Quoted(arguments[i]));
    }
    assert arguments[..|arguments|] == arguments;
  }

  // ------------------------------------------------------------- reading it back

  datatype Reading = Reading(current: seq<Unit>, started: bool, quoted: bool, backslashes: nat)

  const NOTHING := Reading([], false, false, 0)

  /**
   * The documented rules: backslashes are literal unless a quote follows them, then half of them are kept
   * and an odd one makes the quote literal. Some readers also take a doubled quote inside quotes as a literal one.
   */
  function ReadArguments(line: seq<Unit>, r: Reading, doubled: bool): seq<seq<Unit>>
    decreases |line|
  {
    if line == [] then if r.started then [r.current + Slashes(r.backslashes)] else []
    else if line[0] == BACKSLASH
         then ReadArguments(line[1..], r.(started := true, backslashes := r.backslashes + 1), doubled)
    else if line[0] == QUOTE then
      if r.backslashes % 2 == 1 then
        ReadArguments(line[1..], Reading(r.current + Slashes(r.backslashes / 2) + [QUOTE], true, r.quoted, 0), doubled)
      else if doubled && r.quoted && |line| > 1 && line[1] == QUOTE then
        ReadArguments(line[2..], Reading(r.current + Slashes(r.backslashes / 2) + [QUOTE], true, r.quoted, 0), doubled)
      else ReadArguments(line[1..], Reading(r.current + Slashes(r.backslashes / 2), true, !r.quoted, 0), doubled)
    else if !r.quoted && (line[0] == SPACE || line[0] == TAB) then
      (if r.started then [r.current + Slashes(r.backslashes)] else []) + ReadArguments(line[1..], NOTHING, doubled)
    else ReadArguments(line[1..], Reading(r.current + Slashes(r.backslashes) + [line[0]], true, r.quoted, 0), doubled)
  }

  lemma {:induction false} ReadSlashes(n: nat, rest: seq<Unit>, current: seq<Unit>, k: nat, doubled: bool)
    ensures ReadArguments(Slashes(n) + rest, Reading(current, true, true, k), doubled)
         == ReadArguments(rest, Reading(current, true, true, k + n), doubled)
    decreases n
  {
    var line := Slashes(n) + rest;
    if n == 0 {
      assert line == rest;
    } else {
      assert line[0] == BACKSLASH && line[1..] == Slashes(n - 1) + rest;
      ReadSlashes(n - 1, rest, current, k + 1, doubled);
    }
  }

  /** A quoted body is read as the argument it came from, ending outside quotes. */
  lemma {:induction false} BodyIsRead(a: seq<Unit>, k: nat, current: seq<Unit>, rest: seq<Unit>, doubled: bool)
    requires rest == [] || rest[0] != QUOTE
    ensures ReadArguments(Body(a, k) + rest, Reading(current, true, true, 0), doubled)
         == ReadArguments(rest, Reading(current + Slashes(k) + a, true, false, 0), doubled)
    decreases |a|
  {
    if a == [] {
      assert Body(a, k) + rest == Slashes(2 * k) + ([QUOTE] + rest);
      ReadSlashes(2 * k, [QUOTE] + rest, current, 0, doubled);
      assert ([QUOTE] + rest)[1..] == rest;
      assert current + Slashes(k) + a == current + Slashes(k);
    } else if a[0] == BACKSLASH {
      BodyIsRead(a[1..], k + 1, current, rest, doubled);
      assert current + Slashes(k + 1) + a[1..] == current + Slashes(k) + a;
    } else if a[0] == QUOTE {
      QuoteIsRead(a, k, current, rest, doubled);
    } else {
      OtherIsRead(a, k, current, rest, doubled);
    }
  }

  lemma QuoteInBody(a: seq<Unit>, k: nat, rest: seq<Unit>)
    requires a != [] && a[0] == QUOTE
    ensures Body(a, k) + rest == Slashes(2 * k + 1) + ([QUOTE] + (Body(a[1..], 0) + rest))
  {
    hide Slashes, Body;
    BodyOfQuote(a, k);
    Regroup(Slashes(2 * k + 1), [QUOTE], Body(a[1..], 0), rest);
  }

  lemma BodyOfQuote(a: seq<Unit>, k: nat)
    requires a != [] && a[0] == QUOTE
    ensures Body(a, k) == Slashes(2 * k + 1) + ([QUOTE] + Body(a[1..], 0))
  {
    hide Slashes;
  }

  lemma Regroup(x: seq<Unit>, y: seq<Unit>, z: seq<Unit>, rest: seq<Unit>)
    ensures x + (y + z) + rest == x + (y + (z + rest))
  {}

  lemma {:induction false} QuoteIsRead(a: seq<Unit>, k: nat, current: seq<Unit>, rest: seq<Unit>, doubled: bool)
    requires (rest == [] || rest[0] != QUOTE) && a != [] && a[0] == QUOTE
    ensures ReadArguments(Body(a, k) + rest, Reading(current, true, true, 0), doubled)
         == ReadArguments(rest, Reading(current + Slashes(k) + a, true, false, 0), doubled)
    decreases |a|, 0
  {
    hide Body, Slashes;
    var tail := Body(a[1..], 0) + rest;
    var line := [QUOTE] + tail;
    QuoteInBody(a, k, rest);
    ReadSlashes(2 * k + 1, line, current, 0, doubled);
    assert line[1..] == tail;
    var next := current + Slashes(k) + [QUOTE];
    BodyIsRead(a[1..], 0, next, rest, doubled);
    assert next + Slashes(0) + a[1..] == current + Slashes(k) + a;
  }

  lemma {:induction false} OtherIsRead(a: seq<Unit>, k: nat, current: seq<Unit>, rest: seq<Unit>, doubled: bool)
    requires (rest == [] || rest[0] != QUOTE) && a != [] && a[0] != QUOTE && a[0] != BACKSLASH
    ensures ReadArguments(Body(a, k) + rest, Reading(current, true, true, 0), doubled)
         == ReadArguments(rest, Reading(current + Slashes(k) + a, true, false, 0), doubled)
    decreases |a|, 0
  {
    var tail := Body(a[1..], 0) + rest;
    var line := [a[0]] + tail;
    assert Body(a, k) + rest == Slashes(k) + line;
    ReadSlashes(k, line, current, 0, doubled);
    assert line[1..] == tail;
    var next := current + Slashes(k) + [a[0]];
    BodyIsRead(a[1..], 0, next, rest, doubled);
    assert next + Slashes(0) + a[1..] == current + Slashes(k) + a;
  }

  /** Every argument is read back from the line, by either kind of reader. */
  lemma {:induction false} ArgumentsAreRecovered(args: seq<seq<Unit>>, doubled: bool)
    ensures ReadArguments(CommandLine(args), NOTHING, doubled) == args
    decreases |args|
  {
    hide Body, CommandLine;
    if args == [] {
      NoArguments();
    } else {
      var rest := if |args| == 1 then [] else [SPACE] + CommandLine(args[1..]);
      FirstArgument(args);
      var line := CommandLine(args);
      BodyIsRead(args[0], 0, [], rest, doubled);
      assert [] + Slashes(0) + args[0] == args[0];
      ArgumentsAreRecovered(args[1..], doubled);
      assert args[0] + Slashes(0) == args[0];
      if |args| > 1 { assert rest[1..] == CommandLine(args[1..]); }
      assert args == [args[0]] + args[1..];
    }
  }

  lemma NoArguments()
    ensures CommandLine([]) == []
  {}

  lemma FirstArgument(args: seq<seq<Unit>>)
    requires args != []
    ensures var line, rest := CommandLine(args), if |args| == 1 then [] else [SPACE] + CommandLine(args[1..]);
            line != [] && line[0] == QUOTE && line[1..] == Body(args[0], 0) + rest
  {
    hide Body;
    var body := Body(args[0], 0);
    if |args| == 1 {
      assert body + [] == body;
      AfterQuote(body, []);
    } else {
      AfterQuote(body, [SPACE] + CommandLine(args[1..]));
    }
  }

  lemma AfterQuote(body: seq<Unit>, rest: seq<Unit>)
    ensures ([QUOTE] + body)[0] == QUOTE && ([QUOTE] + body)[1..] == body
    ensures ([QUOTE] + body + rest)[0] == QUOTE && ([QUOTE] + body + rest)[1..] == body + rest
  {}

  // ------------------------------------------------------- the program's own name

  /** A program reads its own name by a simpler rule: a quoted name ends at the next quote. */
  function ReadProgramName(line: seq<Unit>): seq<Unit>
    requires line != [] && line[0] == QUOTE
  {
    UpToQuote(line[1..])
  }

  function UpToQuote(s: seq<Unit>): seq<Unit>
    decreases |s|
  {
    if s == [] || s[0] == QUOTE then [] else [s[0]] + UpToQuote(s[1..])
  }

  lemma {:induction false} UpToQuoteOf(a: seq<Unit>, rest: seq<Unit>)
    requires QUOTE !in a
    ensures UpToQuote(a + ([QUOTE] + rest)) == a
    decreases |a|
  {
    var s := a + ([QUOTE] + rest);
    if a != [] {
      assert s[1..] == a[1..] + ([QUOTE] + rest);
      UpToQuoteOf(a[1..], rest);
    }
  }

  function Trailing(a: seq<Unit>, k: nat): nat
    decreases |a|
  {
    if a == [] then k else Trailing(a[1..], if a[0] == BACKSLASH then k + 1 else 0)
  }

  lemma {:induction false} BodyWithoutQuote(a: seq<Unit>, k: nat)
    requires QUOTE !in a
    ensures Body(a, k) == Slashes(k) + a + Slashes(Trailing(a, k)) + [QUOTE]
    decreases |a|
  {
    if a == [] {
      assert Slashes(2 * k) == Slashes(k) + a + Slashes(k);
    } else if a[0] == BACKSLASH {
      BodyWithoutQuote(a[1..], k + 1);
      assert Slashes(k + 1) + a[1..] == Slashes(k) + a;
    } else {
      BodyWithoutQuote(a[1..], 0);
      var end := Slashes(Trailing(a[1..], 0)) + [QUOTE];
      assert Slashes(0) + a[1..] + Slashes(Trailing(a[1..], 0)) + [QUOTE] == a[1..] + end;
      assert Slashes(k) + ([a[0]] + (a[1..] + end)) == Slashes(k) + a + Slashes(Trailing(a[1..], 0)) + [QUOTE];
    }
  }

  lemma {:induction false} NoQuoteRead(s: seq<Unit>)
    ensures QUOTE !in UpToQuote(s)
    decreases |s|
  {
    if s != [] && s[0] != QUOTE { NoQuoteRead(s[1..]); }
  }

  lemma {:induction false} TrailingIsLast(a: seq<Unit>, k: nat)
    ensures Trailing(a, k) == 0 <==> if a == [] then k == 0 else a[|a| - 1] != BACKSLASH
    decreases |a|
  {
    if a != [] { TrailingIsLast(a[1..], if a[0] == BACKSLASH then k + 1 else 0); }
  }

  /** By that rule the name comes back exactly when it holds no quote and ends in no backslash. */
  lemma ProgramNameRecovered(name: seq<Unit>, rest: seq<Unit>)
    ensures ReadProgramName(Quoted(name) + rest) == name <==>
            QUOTE !in name && (name == [] || name[|name| - 1] != BACKSLASH)
  {
    var line := Quoted(name) + rest;
    assert line[1..] == Body(name, 0) + rest;
    NoQuoteRead(line[1..]);
    if QUOTE !in name {
      BodyWithoutQuote(name, 0);
      TrailingIsLast(name, 0);
      var read := name + Slashes(Trailing(name, 0));
      assert line[1..] == read + ([QUOTE] + rest);
      UpToQuoteOf(read, rest);
      if Trailing(name, 0) == 0 { assert read == name; }
    }
  }
}
