/** The control-mode decoder: bytes in any chunking become reply blocks and notifications. */
module ControlParser {
  import opened Prelude
  import Octal

  datatype Terminal = End | Error

  datatype Block = Block(
    sequence: nat, commandNumber: nat, terminal: Terminal,
    beginMetadata: string, terminalMetadata: string,
    body: string, truncated: bool, bodyBytes: nat)

  datatype Event = Reply(block: Block) | Notification(body: string)

  datatype ProtocolError =
    | MalformedBegin | MalformedBeginMetadata | NonDecimalBegin
    | TerminalWithoutBlock
    | MalformedOutput | MalformedExtendedOutput
    | ShortEscape | InvalidEscape | EscapeTooLarge
    | OversizedLine(limit: nat)
    | AlreadyFinished | EndedInPartialLine | EndedInBlock

  /** Zero means unbounded for either bound. */
  datatype Bounds = Bounds(retained: nat, line: nat)

  // ---------------------------------------------------------------- guards

  predicate IsDigit(c: char) { '0' <= c <= '9' }

  predicate AllDigits(s: string) { forall i :: 0 <= i < |s| ==> IsDigit(s[i]) }

  function DigitsValue(s: string): nat
    requires AllDigits(s)
  {
    if s == "" then 0
    else DigitsValue(s[..|s| - 1]) * 10 + (s[|s| - 1] as int - 48)
  }

  const UINT64_LIMIT: nat := 0x1_0000_0000_0000_0000

  /** A non-empty run of decimal digits that fits 64 bits. */
  function Decimal(s: string): Option<nat> {
    if s == "" || !AllDigits(s) || DigitsValue(s) >= UINT64_LIMIT then None
    else Some(DigitsValue(s))
  }

  datatype Guard = Guard(sequence: nat, commandNumber: nat, flags: nat, metadata: string)

  /** Exactly three decimal fields separated by single spaces. */
  function ParseMetadata(metadata: string): Result<Guard, ProtocolError> {
    var first := IndexFrom(metadata, ' ', 0);
    if first == |metadata| || first == 0 then Failure(MalformedBeginMetadata)
    else
      var second := IndexFrom(metadata, ' ', first + 1);
      if second == |metadata| || second == first + 1 || second + 1 == |metadata| ||
         IndexFrom(metadata, ' ', second + 1) != |metadata| then
        Failure(MalformedBeginMetadata)
      else
        var sequence := Decimal(metadata[..first]);
        var number := Decimal(metadata[first + 1..second]);
        var flags := Decimal(metadata[second + 1..]);
        if sequence.None? || number.None? || flags.None? then Failure(NonDecimalBegin)
        else Success(Guard(sequence.value, number.value, flags.value, metadata))
  }

  function ParseBegin(line: string): Result<Guard, ProtocolError> {
    if StartsWith(line, "%begin ") then ParseMetadata(line[7..]) else Failure(MalformedBegin)
  }

  /** The line is the bare name, or the name and a space and more. */
  predicate Marker(line: string, name: string) {
    line == name || (StartsWith(line, name) && |line| > |name| && line[|name|] == ' ')
  }

  // --------------------------------------------------------- notifications

  /** Undoes octal escapes; every other byte stands for itself. */
  function DecodePayload(s: string): Result<string, ProtocolError>
    decreases |s|
  {
    if s == "" then Success("")
    else if s[0] != '\\' then
      match DecodePayload(s[1..])
      case Success(rest) => Success([s[0]] + rest)
      case Failure(e) => Failure(e)
    else if |s| < 4 then Failure(ShortEscape)
    else if !(Octal.IsDigit(s[1]) && Octal.IsDigit(s[2]) && Octal.IsDigit(s[3])) then
      Failure(InvalidEscape)
    else if Octal.Value(s[1], s[2], s[3]) > 255 then Failure(EscapeTooLarge)
    else
      match DecodePayload(s[4..])
      case Success(rest) => Success([Octal.Value(s[1], s[2], s[3]) as char] + rest)
      case Failure(e) => Failure(e)
  }

  function DecodeFrom(line: string, start: nat): Result<string, ProtocolError>
    requires start <= |line|
  {
    match DecodePayload(line[start..])
    case Success(payload) => Success(line[..start] + payload)
    case Failure(e) => Failure(e)
  }

  lemma JoinDecoded(done: string, c: char, rest: Result<string, ProtocolError>)
    ensures rest.Success? ==> done + ([c] + rest.value) == (done + [c]) + rest.value
  {}

  /** The in-place decoding loop computes DecodeFrom. */
  method DecodeOctalPayload(line: string, start: nat) returns (r: Result<string, ProtocolError>)
    requires start <= |line|
    ensures r == DecodeFrom(line, start)
  {
    var decoded := line[..start];
    var index := start;
    while index < |line|
      invariant start <= index <= |line|
      invariant DecodeFrom(line, start) ==
                match DecodePayload(line[index..])
                case Success(rest) => Success(decoded + rest)
                case Failure(e) => Failure(e)
    {
      ghost var rest := line[index..];
      assert rest[1..] == line[index + 1..];
      if line[index] != '\\' {
        JoinDecoded(decoded, line[index], DecodePayload(rest[1..]));
        decoded := decoded + [line[index]];
        index := index + 1;
      } else {
        if |line| - index < 4 { return Failure(ShortEscape); }
        assert rest[4..] == line[index + 4..];
        assert rest[1] == line[index + 1] && rest[2] == line[index + 2] && rest[3] == line[index + 3];
        if !(Octal.IsDigit(line[index + 1]) && Octal.IsDigit(line[index + 2]) &&
             Octal.IsDigit(line[index + 3])) {
          return Failure(InvalidEscape);
        }
        var value := Octal.Value(line[index + 1], line[index + 2], line[index + 3]);
        if value > 255 { return Failure(EscapeTooLarge); }
        JoinDecoded(decoded, value as char, DecodePayload(rest[4..]));
        decoded := decoded + [value as char];
        index := index + 4;
      }
    }
    assert line[index..] == "" && decoded + "" == decoded;
    r := Success(decoded);
  }

  /** The first " : " at or after `from`, or |s|. */
  function DelimiterFrom(s: string, from: nat): (r: nat)
    requires from <= |s|
    ensures from <= r <= |s|
    ensures r < |s| ==> r + 3 <= |s| && s[r..r + 3] == " : "
    decreases |s| - from
  {
    if |s| - from < 3 then |s|
    else if s[from..from + 3] == " : " then from
    else DelimiterFrom(s, from + 1)
  }

  function NotificationBody(line: string): Result<string, ProtocolError> {
    if StartsWith(line, "%output ") then
      var space := IndexFrom(line, ' ', 8);
      if space == |line| || space == 8 then Failure(MalformedOutput)
      else DecodeFrom(line, space + 1)
    else if StartsWith(line, "%extended-output ") then
      var delimiter := DelimiterFrom(line, 17);
      if delimiter == |line| then Failure(MalformedExtendedOutput)
      else DecodeFrom(line, delimiter + 3)
    else Success(line)
  }

  // ------------------------------------------------------------- one line

  /** What one complete line does to the open block. */
  datatype LineStep = LineStep(block: Option<Block>, events: seq<Event>, failure: Option<ProtocolError>)

  /** The block closed by this line, when the line repeats its guard. */
  function CloseBlock(block: Block, line: string): Option<Block> {
    if line == "%end " + block.beginMetadata then
      Some(block.(terminal := End, terminalMetadata := block.beginMetadata))
    else if line == "%error " + block.beginMetadata then
      Some(block.(terminal := Error, terminalMetadata := block.beginMetadata))
    else None
  }

  /** The first n characters, or all of them. */
  function Prefix(s: string, n: nat): string { if n < |s| then s[..n] else s }

  function AppendBody(retained: nat, block: Block, line: string): Block {
    var counted := block.(bodyBytes := block.bodyBytes + |line| + 1);
    if retained == 0 || |block.body| + |line| + 1 <= retained then
      counted.(body := block.body + line + "\n")
    else if block.truncated || retained < |block.body| then counted
    else counted.(body := block.body + Prefix(line, retained - |block.body|), truncated := true)
  }

  function ConsumeLine(retained: nat, open: Option<Block>, line: string): LineStep {
    if open.Some? then
      var closed := CloseBlock(open.value, line);
      if closed.Some? then LineStep(None, [Reply(closed.value)], None)
      else LineStep(Some(AppendBody(retained, open.value, line)), [], None)
    else if Marker(line, "%begin") then
      match ParseBegin(line)
      case Failure(e) => LineStep(None, [], Some(e))
      case Success(g) =>
        LineStep(Some(Block(g.sequence, g.commandNumber, End, g.metadata, "", "", false, 0)), [], None)
    else if Marker(line, "%end") || Marker(line, "%error") then
      LineStep(None, [], Some(TerminalWithoutBlock))
    else
      match NotificationBody(line)
      case Failure(e) => LineStep(None, [], Some(e))
      case Success(body) => LineStep(None, [Notification(body)], None)
  }

  // ------------------------------------------------- the byte-wise reference

  datatype State = State(pending: string, block: Option<Block>, failure: Option<ProtocolError>, finished: bool)

  const IDLE := State("", None, None, false)

  ghost predicate Fits(b: Bounds, s: State) {
    && (b.line != 0 ==> |s.pending| <= b.line)
    && (b.retained != 0 && s.block.Some? ==> |s.block.value.body| <= b.retained)
    && '\n' !in s.pending
  }

  function TooLong(b: Bounds, length: nat): bool { b.line != 0 && length > b.line }

  /** One byte of input: the simplest reading of the stream. */
  function Step(b: Bounds, s: State, c: char): (State, seq<Event>) {
    if s.failure.Some? then (s, [])
    else if c == '\n' then
      var r := ConsumeLine(b.retained, s.block, s.pending);
      (State("", r.block, r.failure, s.finished), r.events)
    else if TooLong(b, |s.pending| + 1) then
      (s.(pending := "", failure := Some(OversizedLine(b.line))), [])
    else (s.(pending := s.pending + [c]), [])
  }

  function Run(b: Bounds, s: State, input: string): (State, seq<Event>)
    decreases |input|
  {
    if input == "" then (s, [])
    else
      var (middle, first) := Step(b, s, input[0]);
      var (last, rest) := Run(b, middle, input[1..]);
      (last, first + rest)
  }

  type Outcome = Result<seq<Event>, ProtocolError>

  /** One call of feed, in terms of the byte-wise reading. */
  function Feed(b: Bounds, s: State, input: string): (State, Outcome) {
    if s.failure.Some? then (s, Failure(s.failure.value))
    else if s.finished then (s.(failure := Some(AlreadyFinished)), Failure(AlreadyFinished))
    else
      var (last, events) := Run(b, s, input);
      (last, if last.failure.Some? then Failure(last.failure.value) else Success(events))
  }

  /** A sequence of feed calls: all their events, or the first error. */
  function FeedAll(b: Bounds, s: State, pieces: seq<string>): (State, Outcome)
    requires pieces != []
    decreases |pieces|
  {
    var (middle, first) := Feed(b, s, pieces[0]);
    if |pieces| == 1 then (middle, first)
    else
      var (last, rest) := FeedAll(b, middle, pieces[1..]);
      (last, if first.Failure? then first
             else if rest.Failure? then rest
             else Success(first.value + rest.value))
  }

  lemma SplitEvents(a: seq<Event>, b: seq<Event>, c: seq<Event>)
    ensures a + (b + c) == (a + b) + c
  {}

  lemma {:induction false} RunSplit(b: Bounds, s: State, x: string, y: string)
    ensures Run(b, s, x + y).0 == Run(b, Run(b, s, x).0, y).0
    ensures Run(b, s, x + y).1 == Run(b, s, x).1 + Run(b, Run(b, s, x).0, y).1
    decreases |x|
  {
    if x == "" {
      assert x + y == y;
    } else {
      assert (x + y)[1..] == x[1..] + y;
      var (middle, first) := Step(b, s, x[0]);
      RunSplit(b, middle, x[1..], y);
      SplitEvents(first, Run(b, middle, x[1..]).1, Run(b, Run(b, s, x).0, y).1);
    }
  }

  /** A failed decoder ignores everything after the failure. */
  lemma {:induction false} FailureIsTerminal(b: Bounds, s: State, input: string)
    requires s.failure.Some?
    ensures Run(b, s, input) == (s, [])
    decreases |input|
  {
    if input != "" {
      FailureIsTerminal(b, s, input[1..]);
      var none: seq<Event> := [];
      assert none + none == none;
    }
  }

  lemma {:induction false} StaysUnfinished(b: Bounds, s: State, input: string)
    ensures Run(b, s, input).0.finished == s.finished
    decreases |input|
  {
    if input != "" { StaysUnfinished(b, Step(b, s, input[0]).0, input[1..]); }
  }

  /**
   * Chunk independence: however a byte stream is cut, the pieces give the state, the events
   * and the error that the whole gives.
   */
  lemma {:induction false} ChunkIndependence(b: Bounds, s: State, pieces: seq<string>)
    requires pieces != []
    ensures FeedAll(b, s, pieces) == Feed(b, s, Concat(pieces))
    decreases |pieces|
  {
    var head, tail := pieces[0], pieces[1..];
    if tail == [] {
      assert Concat(tail) == [];
      assert Concat(pieces) == head;
    } else {
      var middle := Feed(b, s, head).0;
      ChunkIndependence(b, middle, tail);
      RunSplit(b, s, head, Concat(tail));
      if middle.failure.Some? { FailureIsTerminal(b, middle, Concat(tail)); }
      StaysUnfinished(b, s, head);
    }
  }

  // --------------------------------------------- segments, lines and bounds

  /** Bytes without a newline only accumulate, or overflow the line bound. */
  lemma {:induction false} RunSegment(b: Bounds, s: State, segment: string)
    requires s.failure.None? && '\n' !in segment && Fits(b, s)
    ensures !TooLong(b, |s.pending| + |segment|) ==>
              Run(b, s, segment) == (s.(pending := s.pending + segment), [])
    ensures TooLong(b, |s.pending| + |segment|) ==>
              Run(b, s, segment) == (s.(pending := "", failure := Some(OversizedLine(b.line))), [])
    decreases |segment|
  {
    var none: seq<Event> := [];
    assert none + none == none;
    if segment == "" {
      assert s.pending + segment == s.pending;
    } else {
      var (middle, _) := Step(b, s, segment[0]);
      if TooLong(b, |s.pending| + 1) {
        FailureIsTerminal(b, middle, segment[1..]);
      } else {
        RunSegment(b, middle, segment[1..]);
        assert s.pending + segment == middle.pending + segment[1..];
      }
    }
  }

  lemma RunNewline(b: Bounds, s: State, rest: string)
    requires s.failure.None?
    ensures var r := ConsumeLine(b.retained, s.block, s.pending);
            var next := State("", r.block, r.failure, s.finished);
            Run(b, s, "\n" + rest) == (Run(b, next, rest).0, r.events + Run(b, next, rest).1)
  {
    hide ConsumeLine;
    assert ("\n" + rest)[1..] == rest;
  }

  /** A newline hands the accumulated line to the line reader. */
  lemma RunLine(b: Bounds, s: State, segment: string, rest: string)
    requires s.failure.None? && '\n' !in segment && Fits(b, s)
    requires !TooLong(b, |s.pending| + |segment|)
    ensures var r := ConsumeLine(b.retained, s.block, s.pending + segment);
            var next := State("", r.block, r.failure, s.finished);
            Run(b, s, segment + "\n" + rest) == (Run(b, next, rest).0, r.events + Run(b, next, rest).1)
  {
    hide ConsumeLine, Run, Step;
    RunSegment(b, s, segment);
    var middle := s.(pending := s.pending + segment);
    assert segment + "\n" + rest == segment + ("\n" + rest);
    RunSplit(b, s, segment, "\n" + rest);
    RunNewline(b, middle, rest);
    var events := Run(b, middle, "\n" + rest).1;
    assert [] + events == events;
  }

  lemma BodyStaysWithin(retained: nat, block: Block, line: string)
    requires retained != 0 && |block.body| <= retained
    ensures |AppendBody(retained, block, line).body| <= retained
  {}

  lemma ConsumeFits(b: Bounds, open: Option<Block>, line: string)
    requires b.retained != 0 && open.Some? ==> |open.value.body| <= b.retained
    ensures var r := ConsumeLine(b.retained, open, line);
            b.retained != 0 && r.block.Some? ==> |r.block.value.body| <= b.retained
  {
    if open.Some? && b.retained != 0 { BodyStaysWithin(b.retained, open.value, line); }
  }

  // ------------------------------------------------------------ the decoder

  /** Reading `input` from s0 amounts to having made `events` and reading on from s at `cursor`. */
  ghost predicate Reached(b: Bounds, s0: State, input: string, s: State, events: seq<Event>, cursor: nat) {
    && cursor <= |input|
    && Run(b, s0, input) == (Run(b, s, input[cursor..]).0, events + Run(b, s, input[cursor..]).1)
  }

  lemma ReachStart(b: Bounds, s: State, input: string)
    ensures Reached(b, s, input, s, [], 0)
  {
    assert input[0..] == input && [] + Run(b, s, input).1 == Run(b, s, input).1;
  }

  lemma ReachEnd(b: Bounds, s0: State, input: string, s: State, events: seq<Event>)
    requires Reached(b, s0, input, s, events, |input|)
    ensures Run(b, s0, input) == (s, events)
  {
    assert input[|input|..] == "" && events + [] == events;
  }

  lemma ReachOverflow(b: Bounds, s0: State, input: string, s: State, events: seq<Event>, cursor: nat, length: nat)
    requires Reached(b, s0, input, s, events, cursor) && Fits(b, s) && s.failure.None?
    requires cursor + length <= |input| && '\n' !in input[cursor..][..length]
    requires TooLong(b, |s.pending| + length)
    ensures Run(b, s0, input).0 == s.(pending := "", failure := Some(OversizedLine(b.line)))
  {
    var remaining := input[cursor..];
    assert remaining == remaining[..length] + remaining[length..];
    RunSegment(b, s, remaining[..length]);
    RunSplit(b, s, remaining[..length], remaining[length..]);
    FailureIsTerminal(b, s.(pending := "", failure := Some(OversizedLine(b.line))), remaining[length..]);
  }

  lemma ReachTail(b: Bounds, s0: State, input: string, s: State, events: seq<Event>, cursor: nat)
    requires Reached(b, s0, input, s, events, cursor) && Fits(b, s) && s.failure.None?
    requires '\n' !in input[cursor..] && !TooLong(b, |s.pending| + |input| - cursor)
    ensures Reached(b, s0, input, s.(pending := s.pending + input[cursor..]), events, |input|)
  {
    RunSegment(b, s, input[cursor..]);
    assert input[|input|..] == "";
  }

  lemma ReachLine(b: Bounds, s0: State, input: string, s: State, events: seq<Event>, cursor: nat, length: nat)
    requires Reached(b, s0, input, s, events, cursor) && Fits(b, s) && s.failure.None?
    requires cursor + length < |input| && '\n' !in input[cursor..][..length]
    requires input[cursor + length] == '\n' && !TooLong(b, |s.pending| + length)
    ensures var r := ConsumeLine(b.retained, s.block, s.pending + input[cursor..][..length]);
            Reached(b, s0, input, State("", r.block, r.failure, s.finished), events + r.events, cursor + length + 1)
  {
    var segment, rest := input[cursor..][..length], input[cursor + length + 1..];
    assert input[cursor..] == segment + "\n" + rest;
    RunLine(b, s, segment, rest);
    var r := ConsumeLine(b.retained, s.block, s.pending + segment);
    SplitEvents(events, r.events, Run(b, State("", r.block, r.failure, s.finished), rest).1);
  }

  lemma ReachFailure(b: Bounds, s0: State, input: string, s: State, events: seq<Event>, cursor: nat)
    requires Reached(b, s0, input, s, events, cursor) && s.failure.Some?
    ensures Run(b, s0, input).0 == s
  {
    FailureIsTerminal(b, s, input[cursor..]);
  }

  function Finish(s: State): (State, Option<ProtocolError>) {
    if s.failure.Some? then (s, s.failure)
    else if s.finished then (s, None)
    else if s.pending != "" then (s.(failure := Some(EndedInPartialLine)), Some(EndedInPartialLine))
    else if s.block.Some? then (s.(failure := Some(EndedInBlock)), Some(EndedInBlock))
    else (s.(finished := true), None)
  }

  class Parser {
    const bounds: Bounds
    var pending: string
    var block: Option<Block>
    var failure: Option<ProtocolError>
    var finished: bool

    function View(): State
      reads this
    {
      State(pending, block, failure, finished)
    }

    ghost predicate Valid()
      reads this
    {
      Fits(bounds, View())
    }

    constructor (retained: nat, line: nat)
      ensures Valid() && View() == IDLE && bounds == Bounds(retained, line)
    {
      bounds := Bounds(retained, line);
      pending, block, failure, finished := "", None, None, false;
    }

    /** Consumes one complete line; the events are those it completes. */
    method TakeLine(view: string) returns (events: seq<Event>)
      requires failure.None?
      requires bounds.retained != 0 && block.Some? ==> |block.value.body| <= bounds.retained
      modifies this`block, this`failure
      ensures var r := ConsumeLine(bounds.retained, old(block), view);
              block == r.block && failure == r.failure && events == r.events
    {
      events := [];
      if block.Some? {
        var open := block.value;
        if StartsWith(view, "%end ") && view[5..] == open.beginMetadata {
          events := [Reply(open.(terminal := End, terminalMetadata := view[5..]))];
          block := None;
          assert view == "%end " + open.beginMetadata;
        } else if StartsWith(view, "%error ") && view[7..] == open.beginMetadata {
          events := [Reply(open.(terminal := Error, terminalMetadata := view[7..]))];
          block := None;
          assert view == "%error " + open.beginMetadata;
        } else {
          open := open.(bodyBytes := open.bodyBytes + |view| + 1);
          if bounds.retained == 0 || |open.body| + |view| + 1 <= bounds.retained {
            open := open.(body := open.body + view + "\n");
          } else if !open.truncated {
            assert view[..|view|] == view;
            open := open.(body := open.body + view[..bounds.retained - |open.body|], truncated := true);
          }
          block := Some(open);
          assert view != "%end " + open.beginMetadata && view != "%error " + open.beginMetadata;
        }
      } else if Marker(view, "%begin") {
        match ParseBegin(view) {
          case Failure(e) => failure := Some(e);
          case Success(g) =>
            block := Some(Block(g.sequence, g.commandNumber, End, g.metadata, "", "", false, 0));
        }
      } else if Marker(view, "%end") || Marker(view, "%error") {
        failure := Some(TerminalWithoutBlock);
      } else {
        match NotificationBody(view) {
          case Failure(e) => failure := Some(e);
          case Success(body) => events := [Notification(body)];
        }
      }
    }

    /** The segment-wise loop, with its no-copy path, computes what the byte-wise reading does. */
    method FeedBytes(input: string) returns (r: Outcome)
      requires Valid()
      modifies this
      ensures Valid()
      ensures (View(), r) == Feed(bounds, old(View()), input)
    {
      hide ConsumeLine, IndexFrom, Reached, Run;
      if failure.Some? { return Failure(failure.value); }
      if finished {
        failure := Some(AlreadyFinished);
        return Failure(AlreadyFinished);
      }
      var events: seq<Event> := [];
      var cursor := 0;
      ReachStart(bounds, View(), input);
      while cursor < |input|
        invariant 0 <= cursor <= |input|
        invariant Valid() && failure.None? && !finished
        invariant Reached(bounds, old(View()), input, View(), events, cursor)
      {
        var remaining := input[cursor..];
        var length := IndexFrom(remaining, '\n', 0);
        var segment := remaining[..length];
        if bounds.line != 0 && (|pending| > bounds.line || length > bounds.line - |pending|) {
          ReachOverflow(bounds, old(View()), input, View(), events, cursor, length);
          failure, pending := Some(OversizedLine(bounds.line)), "";
          return Failure(OversizedLine(bounds.line));
        }
        if length == |remaining| {
          ReachTail(bounds, old(View()), input, View(), events, cursor);
          pending := pending + remaining;
          cursor := |input|;
        } else {
          ReachLine(bounds, old(View()), input, View(), events, cursor, length);
          ConsumeFits(bounds, block, pending + segment);
          var made;
          if pending == "" {
            assert pending + segment == segment;
            made := TakeLine(segment);
          } else {
            pending := pending + segment;
            made := TakeLine(pending);
            pending := "";
          }
          events := events + made;
          cursor := cursor + length + 1;
          if failure.Some? {
            ReachFailure(bounds, old(View()), input, View(), events, cursor);
            return Failure(failure.value);
          }
        }
      }
      ReachEnd(bounds, old(View()), input, View(), events);
      r := Success(events);
    }

    method FinishStream() returns (e: Option<ProtocolError>)
      requires Valid()
      modifies this
      ensures Valid() && (View(), e) == Finish(old(View()))
    {
      if failure.Some? { return failure; }
      if finished { return None; }
      if pending != "" {
        failure := Some(EndedInPartialLine);
        return failure;
      }
      if block.Some? {
        failure := Some(EndedInBlock);
        return failure;
      }
      finished := true;
      e := None;
    }
  }

  // ------------------------------------------- bounded refines unbounded

  /** What a retention bound of n may show of a fully retained block. */
  function Bounded(n: nat, block: Block): Block {
    block.(body := Prefix(block.body, n), truncated := |block.body| > n)
  }

  function BoundedEvent(n: nat, e: Event): Event {
    match e
    case Reply(block) => Reply(Bounded(n, block))
    case Notification(_) => e
  }

  function BoundedEvents(n: nat, events: seq<Event>): seq<Event> {
    seq(|events|, i requires 0 <= i < |events| => BoundedEvent(n, events[i]))
  }

  function BoundedState(n: nat, s: State): State {
    s.(block := if s.block.Some? then Some(Bounded(n, s.block.value)) else None)
  }

  /** Nothing was cut: the whole body is held and counted. */
  ghost predicate Whole(block: Block) { !block.truncated && block.bodyBytes == |block.body| }

  ghost predicate WholeState(s: State) { s.block.Some? ==> Whole(s.block.value) }

  ghost predicate WholeEvents(events: seq<Event>) {
    forall i :: 0 <= i < |events| && events[i].Reply? ==> Whole(events[i].block)
  }

  lemma AppendBounded(n: nat, block: Block, line: string)
    requires n > 0 && Whole(block)
    ensures Whole(AppendBody(0, block, line))
    ensures AppendBody(n, Bounded(n, block), line) == Bounded(n, AppendBody(0, block, line))
  {
    var full := block.body + line + "\n";
    if |block.body| > n {
      assert Prefix(full, n) == Prefix(block.body, n);
    } else if |block.body| + |line| + 1 > n {
      assert Prefix(full, n) == block.body + Prefix(line, n - |block.body|);
    }
  }

  lemma StepBounded(n: nat, line: nat, s: State, c: char)
    requires n > 0 && WholeState(s)
    ensures var (next, events) := Step(Bounds(0, line), s, c);
            && WholeState(next) && WholeEvents(events)
            && Step(Bounds(n, line), BoundedState(n, s), c) == (BoundedState(n, next), BoundedEvents(n, events))
  {
    var (next, events) := Step(Bounds(0, line), s, c);
    if s.block.Some? { AppendBounded(n, s.block.value, s.pending); }
    assert |events| <= 1;
    assert BoundedEvents(n, events) == if events == [] then [] else [BoundedEvent(n, events[0])];
  }

  /**
   * For every stream and every retention bound, the bounded decoder shows each block the
   * unbounded one shows with its body cut to min(full, bound), the full length counted, the
   * flag set exactly when something was cut, and framing, metadata and errors unchanged.
   */
  lemma {:induction false} BoundedRefinesUnbounded(n: nat, line: nat, s: State, input: string)
    requires n > 0 && WholeState(s)
    ensures var full := Run(Bounds(0, line), s, input);
            var cut := Run(Bounds(n, line), BoundedState(n, s), input);
            && WholeState(full.0) && WholeEvents(full.1)
            && cut.0 == BoundedState(n, full.0)
            && cut.1 == BoundedEvents(n, full.1)
    decreases |input|
  {
    if input == "" {
      assert BoundedEvents(n, []) == [];
    } else {
      hide Step;
      var step := Step(Bounds(0, line), s, input[0]);
      StepBounded(n, line, s, input[0]);
      BoundedRefinesUnbounded(n, line, step.0, input[1..]);
      BoundedConcat(n, step.1, Run(Bounds(0, line), step.0, input[1..]).1);
    }
  }

  lemma BoundedConcat(n: nat, x: seq<Event>, y: seq<Event>)
    requires WholeEvents(x) && WholeEvents(y)
    ensures WholeEvents(x + y) && BoundedEvents(n, x + y) == BoundedEvents(n, x) + BoundedEvents(n, y)
  {}

  // -------------------------------------------------- reading what was sent

  /** Bytes tmux escapes in pane output: controls and the backslash itself. */
  function EncodePayload(payload: string): (r: string)
    requires Octal.AllBytes(payload)
    ensures '\n' !in r
  {
    if payload == "" then ""
    else
      (if payload[0] < ' ' || payload[0] == '\\' then Octal.Escape(payload[0]) else [payload[0]])
      + EncodePayload(payload[1..])
  }

  lemma {:induction false} PayloadRoundTrip(payload: string)
    requires Octal.AllBytes(payload)
    ensures DecodePayload(EncodePayload(payload)) == Success(payload)
    decreases |payload|
  {
    if payload != "" {
      PayloadRoundTrip(payload[1..]);
      assert payload == [payload[0]] + payload[1..];
      var rest := EncodePayload(payload[1..]);
      if payload[0] < ' ' || payload[0] == '\\' {
        var code := Octal.Escape(payload[0]);
        var encoded := code + rest;
        assert encoded[4..] == rest;
        assert encoded[0] == code[0] && encoded[1] == code[1] && encoded[2] == code[2] && encoded[3] == code[3];
      } else {
        assert ([payload[0]] + rest)[1..] == rest;
      }
    }
  }

  function JoinLines(lines: seq<string>): string {
    if lines == [] then "" else lines[0] + "\n" + JoinLines(lines[1..])
  }

  datatype Item =
    | ReplyItem(sequence: string, number: string, flags: string, lines: seq<string>, terminal: Terminal)
    | OutputItem(pane: string, payload: string)
    | ExtendedItem(header: string, payload: string)
    | PlainItem(line: string)

  function Metadata(i: Item): string
    requires i.ReplyItem?
  {
    i.sequence + " " + i.number + " " + i.flags
  }

  function ClosingWord(t: Terminal): string { if t.End? then "%end " else "%error " }

  /** The lines the server sends for an item. */
  function LinesOf(i: Item): seq<string>
    requires i.OutputItem? || i.ExtendedItem? ==> Octal.AllBytes(i.payload)
  {
    match i
    case ReplyItem(_, _, _, lines, terminal) =>
      ["%begin " + Metadata(i)] + lines + [ClosingWord(terminal) + Metadata(i)]
    case OutputItem(pane, payload) => ["%output " + pane + " " + EncodePayload(payload)]
    case ExtendedItem(header, payload) => ["%extended-output " + header + " : " + EncodePayload(payload)]
    case PlainItem(line) => [line]
  }

  ghost predicate Sendable(b: Bounds, i: Item) {
    && (match i
        case ReplyItem(sequence, number, flags, lines, _) =>
          && Decimal(sequence).Some? && Decimal(number).Some? && Decimal(flags).Some?
          && forall k :: 0 <= k < |lines| ==>
               lines[k] != "%end " + Metadata(i) && lines[k] != "%error " + Metadata(i)
        case OutputItem(pane, payload) => pane != "" && ' ' !in pane && Octal.AllBytes(payload)
        case ExtendedItem(header, payload) =>
          DelimiterFrom(header + " : ", 0) == |header| && Octal.AllBytes(payload)
        case PlainItem(line) =>
          && !Marker(line, "%begin") && !Marker(line, "%end") && !Marker(line, "%error")
          && !StartsWith(line, "%output ") && !StartsWith(line, "%extended-output "))
    && forall k :: 0 <= k < |LinesOf(i)| ==> '\n' !in LinesOf(i)[k] && !TooLong(b, |LinesOf(i)[k]|)
  }

  /** What a reader should make of an item. */
  function Meaning(i: Item): Event
    requires i.ReplyItem? ==> Decimal(i.sequence).Some? && Decimal(i.number).Some?
  {
    match i
    case ReplyItem(sequence, number, _, lines, terminal) =>
      Reply(Block(Decimal(sequence).value, Decimal(number).value, terminal, Metadata(i), Metadata(i),
                  JoinLines(lines), false, |JoinLines(lines)|))
    case OutputItem(pane, payload) => Notification("%output " + pane + " " + payload)
    case ExtendedItem(header, payload) => Notification("%extended-output " + header + " : " + payload)
    case PlainItem(line) => Notification(line)
  }

  lemma BeginRoundTrip(i: Item)
    requires i.ReplyItem?
    requires Decimal(i.sequence).Some? && Decimal(i.number).Some? && Decimal(i.flags).Some?
    ensures ParseBegin("%begin " + Metadata(i)) ==
            Success(Guard(Decimal(i.sequence).value, Decimal(i.number).value, Decimal(i.flags).value, Metadata(i)))
  {
    var line, metadata := "%begin " + Metadata(i), Metadata(i);
    assert line[..7] == "%begin " && line[7..] == metadata;
    MetadataRoundTrip(i.sequence, i.number, i.flags, Decimal(i.sequence).value, Decimal(i.number).value,
                      Decimal(i.flags).value);
  }

  lemma MetadataRoundTrip(x: string, y: string, z: string, p: nat, q: nat, r: nat)
    requires x != "" && y != "" && z != "" && AllDigits(x) && AllDigits(y) && AllDigits(z)
    requires Decimal(x) == Some(p) && Decimal(y) == Some(q) && Decimal(z) == Some(r)
    ensures ParseMetadata(x + " " + y + " " + z) == Success(Guard(p, q, r, x + " " + y + " " + z))
  {
    hide Decimal, AllDigits, IndexFrom;
    SplitMetadata(x, y, z);
  }

  /** Three runs of digits joined by spaces come apart at those spaces. */
  lemma SplitMetadata(x: string, y: string, z: string)
    requires AllDigits(x) && AllDigits(y) && AllDigits(z)
    ensures var metadata := x + " " + y + " " + z;
            var second := |x| + 1 + |y|;
            && IndexFrom(metadata, ' ', 0) == |x|
            && IndexFrom(metadata, ' ', |x| + 1) == second
            && IndexFrom(metadata, ' ', second + 1) == |metadata|
            && metadata[..|x|] == x && metadata[|x| + 1..second] == y && metadata[second + 1..] == z
  {
    hide IndexFrom;
    var metadata := x + " " + y + " " + z;
    var second := |x| + 1 + |y|;
    assert forall k :: 0 <= k < |x| ==> metadata[k] == x[k];
    assert forall k :: |x| < k < second ==> metadata[k] == y[k - |x| - 1];
    assert forall k :: second < k < |metadata| ==> metadata[k] == z[k - second - 1];
    IndexIs(metadata, ' ', 0, |x|);
    IndexIs(metadata, ' ', |x| + 1, second);
    IndexIs(metadata, ' ', second + 1, |metadata|);
  }

  /** Reading whole lines one after another: the line-by-line reading. */
  function ReadLines(retained: nat, open: Option<Block>, lines: seq<string>): LineStep
    decreases |lines|
  {
    if lines == [] then LineStep(open, [], None)
    else
      var first := ConsumeLine(retained, open, lines[0]);
      if first.failure.Some? then first
      else
        var rest := ReadLines(retained, first.block, lines[1..]);
        LineStep(rest.block, first.events + rest.events, rest.failure)
  }

  /** On lines within the bound, the byte-wise reading is the line-by-line reading. */
  lemma {:induction false} RunIsLineReading(b: Bounds, open: Option<Block>, lines: seq<string>)
    requires b.retained != 0 && open.Some? ==> |open.value.body| <= b.retained
    requires forall k :: 0 <= k < |lines| ==> '\n' !in lines[k] && !TooLong(b, |lines[k]|)
    ensures var r := ReadLines(b.retained, open, lines);
            Run(b, State("", open, None, false), JoinLines(lines)) == (State("", r.block, r.failure, false), r.events)
    decreases |lines|
  {
    if lines != [] {
      var s := State("", open, None, false);
      var r := ConsumeLine(b.retained, open, lines[0]);
      var rest := JoinLines(lines[1..]);
      RunLine(b, s, lines[0], rest);
      assert s.pending + lines[0] == lines[0];
      if r.failure.Some? {
        FailureIsTerminal(b, State("", r.block, r.failure, false), rest);
        assert r.events + [] == r.events;
      } else {
        ConsumeFits(b, open, lines[0]);
        RunIsLineReading(b, r.block, lines[1..]);
      }
    }
  }

  lemma {:induction false} ReadLinesSplit(retained: nat, open: Option<Block>, x: seq<string>, y: seq<string>)
    requires ReadLines(retained, open, x).failure.None?
    ensures var first := ReadLines(retained, open, x);
            var rest := ReadLines(retained, first.block, y);
            ReadLines(retained, open, x + y) == LineStep(rest.block, first.events + rest.events, rest.failure)
    decreases |x|
  {
    if x == [] {
      assert x + y == y;
      var rest := ReadLines(retained, open, y);
      assert [] + rest.events == rest.events;
    } else {
      var head := ConsumeLine(retained, open, x[0]);
      assert (x + y)[1..] == x[1..] + y;
      ReadLinesSplit(retained, head.block, x[1..], y);
      var first := ReadLines(retained, head.block, x[1..]);
      SplitEvents(head.events, first.events, ReadLines(retained, first.block, y).events);
    }
  }

  /** Body lines are retained in order, each with its newline. */
  lemma {:induction false} ReadBody(block: Block, lines: seq<string>)
    requires Whole(block)
    requires forall k :: 0 <= k < |lines| ==>
               lines[k] != "%end " + block.beginMetadata && lines[k] != "%error " + block.beginMetadata
    ensures ReadLines(0, Some(block), lines) ==
            LineStep(Some(block.(body := block.body + JoinLines(lines), bodyBytes := |block.body + JoinLines(lines)|)),
              [], None)
    decreases |lines|
  {
    var none: seq<Event> := [];
    assert none + none == none;
    if lines == [] {
      assert block.body + "" == block.body;
    } else {
      var next := AppendBody(0, block, lines[0]);
      ReadBody(next, lines[1..]);
      assert next.body + JoinLines(lines[1..]) == block.body + JoinLines(lines);
    }
  }

  lemma ReadReply(b: Bounds, i: Item)
    requires Sendable(b, i) && i.ReplyItem?
    ensures ReadLines(0, None, LinesOf(i)) == LineStep(None, [Meaning(i)], None)
  {
    var opening, closing := "%begin " + Metadata(i), ClosingWord(i.terminal) + Metadata(i);
    var block := Block(Decimal(i.sequence).value, Decimal(i.number).value, End, Metadata(i), "", "", false, 0);
    var filled := block.(body := JoinLines(i.lines), bodyBytes := |JoinLines(i.lines)|);
    ReadOpening(i, block);
    ReadBody(block, i.lines);
    assert "" + JoinLines(i.lines) == JoinLines(i.lines);
    ReadLinesSplit(0, None, [opening], i.lines);
    ReadClosing(filled, i.terminal);
    ReadLinesSplit(0, None, [opening] + i.lines, [closing]);
  }

  lemma ReadOpening(i: Item, block: Block)
    requires i.ReplyItem?
    requires Decimal(i.sequence).Some? && Decimal(i.number).Some? && Decimal(i.flags).Some?
    requires block == Block(Decimal(i.sequence).value, Decimal(i.number).value, End, Metadata(i), "", "", false, 0)
    ensures ReadLines(0, None, ["%begin " + Metadata(i)]) == LineStep(Some(block), [], None)
  {
    var opening := "%begin " + Metadata(i);
    BeginRoundTrip(i);
    assert opening[..6] == "%begin" && opening[6] == ' ';
    ReadOne(None, opening);
  }

  lemma ReadClosing(block: Block, terminal: Terminal)
    ensures ReadLines(0, Some(block), [ClosingWord(terminal) + block.beginMetadata]) ==
            LineStep(None, [Reply(block.(terminal := terminal, terminalMetadata := block.beginMetadata))], None)
  {
    var end, error := "%end " + block.beginMetadata, "%error " + block.beginMetadata;
    assert end[2] == 'n' && error[2] == 'r';
    ReadOne(Some(block), ClosingWord(terminal) + block.beginMetadata);
  }

  lemma ReadOutput(i: Item)
    requires i.OutputItem? && i.pane != "" && ' ' !in i.pane && Octal.AllBytes(i.payload)
    ensures ReadLines(0, None, LinesOf(i)) == LineStep(None, [Meaning(i)], None)
  {
    hide EncodePayload, DecodePayload, IndexFrom;
    PayloadRoundTrip(i.payload);
    var head := "%output " + i.pane + " ";
    var line := head + EncodePayload(i.payload);
    var space := 8 + |i.pane|;
    assert line[..8] == "%output " && line[1] == 'o' && line[space] == ' ';
    assert forall k :: 8 <= k < space ==> line[k] == i.pane[k - 8];
    IndexIs(line, ' ', 8, space);
    assert line[..space + 1] == head && line[space + 1..] == EncodePayload(i.payload);
    ReadOne(None, line);
  }

  predicate DelimiterAt(s: string, k: nat) { k + 3 <= |s| && s[k..k + 3] == " : " }

  lemma {:induction false} DelimiterIsFirst(s: string, from: nat, k: nat)
    requires from <= |s| && from <= k < DelimiterFrom(s, from)
    ensures !DelimiterAt(s, k)
    decreases k - from
  {
    if from < k { DelimiterIsFirst(s, from + 1, k); }
  }

  lemma {:induction false} DelimiterIs(s: string, from: nat, at: nat)
    requires from <= at && DelimiterAt(s, at) && forall k :: from <= k < at ==> !DelimiterAt(s, k)
    ensures DelimiterFrom(s, from) == at
    decreases at - from
  {
    if from < at {
      assert !DelimiterAt(s, from);
      DelimiterIs(s, from + 1, at);
    }
  }

  /** The delimiter after a header is found wherever the header stands. */
  lemma DelimiterAfter(before: string, header: string, after: string)
    requires DelimiterFrom(header + " : ", 0) == |header|
    ensures DelimiterFrom(before + header + " : " + after, |before|) == |before| + |header|
  {
    hide DelimiterFrom, DelimiterAt;
    var line, h := before + header + " : " + after, header + " : ";
    assert line == before + h + after;
    forall k | |before| <= k <= |before| + |header| ensures DelimiterAt(line, k) <==> k == |before| + |header| {
      DelimiterInside(before, h, after, k - |before|);
      if k < |before| + |header| { DelimiterIsFirst(h, 0, k - |before|); } else { DelimiterLast(header); }
    }
    DelimiterIs(line, |before|, |before| + |header|);
  }

  lemma DelimiterInside(before: string, h: string, after: string, k: nat)
    requires k + 3 <= |h|
    ensures DelimiterAt(before + h + after, |before| + k) <==> DelimiterAt(h, k)
  {
    assert (before + h + after)[|before| + k..|before| + k + 3] == h[k..k + 3];
  }

  lemma DelimiterLast(header: string)
    ensures DelimiterAt(header + " : ", |header|)
  {}

  lemma ReadExtended(i: Item)
    requires i.ExtendedItem? && DelimiterFrom(i.header + " : ", 0) == |i.header| && Octal.AllBytes(i.payload)
    ensures ReadLines(0, None, LinesOf(i)) == LineStep(None, [Meaning(i)], None)
  {
    hide EncodePayload, DelimiterFrom, DecodePayload;
    PayloadRoundTrip(i.payload);
    var word := "%extended-output ";
    var head := word + i.header + " : ";
    var line := head + EncodePayload(i.payload);
    DelimiterAfter(word, i.header, EncodePayload(i.payload));
    assert line[..17] == word && line[1] == 'e' && line[2] == 'x';
    assert line[..|head|] == head && line[|head|..] == EncodePayload(i.payload);
    ExtendedIsPlainLine(line);
    ReadOne(None, line);
  }

  /** An extended-output line is none of the guards and no ordinary output. */
  lemma ExtendedIsPlainLine(line: string)
    requires StartsWith(line, "%extended-output ")
    ensures !Marker(line, "%begin") && !Marker(line, "%end") && !Marker(line, "%error") && !StartsWith(line, "%output ")
  {
    assert line[..17][1] == 'e' && line[..17][2] == 'x';
    assert line[..4][2] == line[2] && line[..6][1] == line[1] && line[..6][2] == line[2] && line[..8][1] == line[1];
  }

  /** Each item is read back as what it means. */
  lemma ReadItem(b: Bounds, i: Item)
    requires Sendable(b, i)
    ensures ReadLines(0, None, LinesOf(i)) == LineStep(None, [Meaning(i)], None)
  {
    match i {
      case ReplyItem(_, _, _, _, _) => ReadReply(b, i);
      case OutputItem(_, _) => ReadOutput(i);
      case ExtendedItem(_, _) => ReadExtended(i);
      case PlainItem(line) => ReadOne(None, line);
    }
  }

  lemma ReadOne(open: Option<Block>, line: string)
    ensures ReadLines(0, open, [line]) == ConsumeLine(0, open, line)
  {
    var r := ConsumeLine(0, open, line);
    assert r.events + [] == r.events;
  }

  ghost predicate AllSendable(b: Bounds, items: seq<Item>) {
    forall k :: 0 <= k < |items| ==> Sendable(b, items[k])
  }

  ghost function StreamOf(b: Bounds, items: seq<Item>): seq<string>
    requires AllSendable(b, items)
  {
    if items == [] then [] else LinesOf(items[0]) + StreamOf(b, items[1..])
  }

  ghost function Meanings(b: Bounds, items: seq<Item>): seq<Event>
    requires AllSendable(b, items)
  {
    if items == [] then [] else [Meaning(items[0])] + Meanings(b, items[1..])
  }

  lemma {:induction false} ReadStream(b: Bounds, items: seq<Item>)
    requires AllSendable(b, items)
    ensures ReadLines(0, None, StreamOf(b, items)) == LineStep(None, Meanings(b, items), None)
    ensures forall k :: 0 <= k < |StreamOf(b, items)| ==>
            '\n' !in StreamOf(b, items)[k] && !TooLong(b, |StreamOf(b, items)[k]|)
    decreases |items|
  {
    if items != [] {
      ReadItem(b, items[0]);
      ReadStream(b, items[1..]);
      ReadLinesSplit(0, None, LinesOf(items[0]), StreamOf(b, items[1..]));
    }
  }

  /** What a retention bound shows of events; zero shows everything. */
  function Shown(retained: nat, events: seq<Event>): seq<Event> {
    if retained == 0 then events else BoundedEvents(retained, events)
  }

  /** The whole stream under any retention bound. */
  lemma StreamIsShown(retained: nat, line: nat, items: seq<Item>)
    requires AllSendable(Bounds(0, line), items)
    ensures var b := Bounds(0, line);
            Run(Bounds(retained, line), IDLE, JoinLines(StreamOf(b, items))) ==
              (IDLE, Shown(retained, Meanings(b, items)))
  {
    var b := Bounds(0, line);
    ReadStream(b, items);
    RunIsLineReading(b, None, StreamOf(b, items));
    if retained > 0 { BoundedRefinesUnbounded(retained, line, IDLE, JoinLines(StreamOf(b, items))); }
    hide Run, ReadLines;
  }

  /**
   * Whatever the server sends, in whatever pieces it arrives and whatever is retained of reply bodies, is read back
   * exactly: each body cut to the bound, everything else in full.
   */
  lemma StreamRoundTrip(retained: nat, line: nat, items: seq<Item>)
    requires AllSendable(Bounds(0, line), items)
    ensures forall pieces: seq<string> ::
              pieces != [] && Concat(pieces) == JoinLines(StreamOf(Bounds(0, line), items)) ==>
                FeedAll(Bounds(retained, line), IDLE, pieces) ==
                  (IDLE, Success(Shown(retained, Meanings(Bounds(0, line), items))))
  {
    StreamIsShown(retained, line, items);
    forall pieces: seq<string> | pieces != [] && Concat(pieces) == JoinLines(StreamOf(Bounds(0, line), items))
      ensures FeedAll(Bounds(retained, line), IDLE, pieces)
           == (IDLE, Success(Shown(retained, Meanings(Bounds(0, line), items))))
    {
      ChunkIndependence(Bounds(retained, line), IDLE, pieces);
      hide Run, FeedAll, Shown, JoinLines;
    }
  }
}
