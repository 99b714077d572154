/** Validation of a process request: structure, well-formed UTF-8, and the predicted Windows command-line size. */
module ProcessValidation {
  import opened Prelude
  import opened Utf
  import opened WindowsCommandLine

  const SIZE_MAX: nat := 0xFFFF_FFFF_FFFF_FFFF
  const LINE_LIMIT: nat := 32767

  function Saturated(n: nat): nat { if n > SIZE_MAX then SIZE_MAX else n }

  /** Addition that sticks at the largest size and says so. */
  function Add(total: nat, amount: nat): (r: (nat, bool))
    requires total <= SIZE_MAX
    ensures r.0 == Saturated(total + amount) && (r.1 <==> total + amount <= SIZE_MAX)
  {
    if amount > SIZE_MAX - total then (SIZE_MAX, false) else (total + amount, true)
  }

  // ------------------------------------------------------------- one string

  ghost predicate WellFormed(s: seq<Byte>) { Decode(s).Some? }

  ghost function Units(s: seq<Byte>): seq<Unit>
    requires WellFormed(s)
  {
    Utf16All(Decode(s).value)
  }

  /** What remains to be written of a quoted string, after `k` backslashes; nothing when it is malformed. */
  ghost function Remaining(s: seq<Byte>, k: nat): Option<nat> {
    if WellFormed(s) then Some(|Body(Units(s), k)|) else None
  }

  ghost function Plus(n: nat, r: Option<nat>): Option<nat> { if r.None? then None else Some(n + r.value) }

  lemma WellFormedRest(s: seq<Byte>)
    requires s != []
    ensures WellFormed(s) <==> EncodedSize(s) != 0 && WellFormed(s[EncodedSize(s)..])
    ensures WellFormed(s) ==> Units(s) == Utf16(Decoded(s)) + Units(s[EncodedSize(s)..])
  {
    hide EncodedSize, Decoded, Utf16;
    if EncodedSize(s) != 0 && WellFormed(s[EncodedSize(s)..]) {
      var rest := Decode(s[EncodedSize(s)..]).value;
      assert ([Decoded(s)] + rest)[1..] == rest;
    }
  }

  /** What one character adds to the size: itself, and the backslashes before it, doubled before a quote. */
  function Amount(first: Byte, n: nat, k: nat): nat {
    if n == 1 && first == BACKSLASH then 0
    else if n == 1 && first == QUOTE then 2 * k + 2
    else k + if n == 4 then 2 else 1
  }

  function SlashesAfter(first: Byte, n: nat, k: nat): nat { if n == 1 && first == BACKSLASH then k + 1 else 0 }

  /** How one character moves the count. */
  lemma RemainingStep(s: seq<Byte>, k: nat)
    requires s != [] && EncodedSize(s) != 0
    ensures var n := EncodedSize(s);
            Remaining(s, k) == Plus(Amount(s[0], n, k), Remaining(s[n..], SlashesAfter(s[0], n, k)))
  {
    hide EncodedSize, Units, Decoded, WellFormed, Body, Utf16;
    WellFormedRest(s);
    if WellFormed(s) {
      FirstUnits(s);
      BodyOfFront(Utf16(Decoded(s)), Units(s[EncodedSize(s)..]), k);
    }
  }

  /** The units of the first character: itself, or a pair of surrogates. */
  lemma FirstUnits(s: seq<Byte>)
    requires s != [] && EncodedSize(s) != 0
    ensures var n, front := EncodedSize(s), Utf16(Decoded(s));
            && |front| == (if n == 4 then 2 else 1) && (n == 1 ==> front == [s[0]])
            && (n != 1 ==> front[0] != BACKSLASH && front[0] != QUOTE)
            && (n == 4 ==> front[1] != BACKSLASH && front[1] != QUOTE)
  {
    hide EncodedSize;
  }

  lemma BodyOfFront(front: seq<Unit>, rest: seq<Unit>, k: nat)
    requires |front| == 1 || (|front| == 2 && forall i :: 0 <= i < 2 ==> front[i] != BACKSLASH && front[i] != QUOTE)
    ensures |Body(front + rest, k)| ==
            if front[0] == BACKSLASH then |Body(rest, k + 1)|
            else if front[0] == QUOTE then 2 * k + 2 + |Body(rest, 0)|
            else k + |front| + |Body(rest, 0)|
  {
    var a := front + rest;
    assert a[0] == front[0];
    if |front| == 1 {
      assert a[1..] == rest;
    } else {
      assert a[1..] == [front[1]] + rest && a[1..][1..] == rest;
    }
  }

  lemma RemainingEmpty(k: nat)
    ensures Remaining([], k) == Some(2 * k + 1)
  {
    assert Decode([]) == Some([]) && Utf16All([]) == [];
  }

  /** Quoted size of a well-formed string, or nothing. */
  ghost function QuotedSize(s: seq<Byte>): Option<nat> { Plus(1, Remaining(s, 0)) }

  lemma MeasuredIsQuoted(s: seq<Byte>)
    ensures WellFormed(s) <==> QuotedSize(s).Some?
    ensures WellFormed(s) ==> QuotedSize(s).value == |Quoted(Units(s))|
  {}

  lemma MalformedFront(s: seq<Byte>, k: nat)
    requires s != [] && EncodedSize(s) == 0
    ensures Remaining(s, k) == None
  {
    WellFormedRest(s);
  }

  // --------------------------------------------------- where a size saturates

  /** The first `e` bytes are characters that end in no backslash and quote to more than the largest size. */
  ghost predicate OvergrownAt(s: seq<Byte>, k: nat, size: nat, e: nat) {
    && 0 < e <= |s| && s[e - 1] != BACKSLASH
    && Remaining(s[..e], k).Some? && size + Remaining(s[..e], k).value > SIZE_MAX + 1
  }

  /** Some beginning of the string fills the largest size, so that what follows is never looked at. */
  ghost predicate Overgrown(s: seq<Byte>) { exists e: nat :: OvergrownAt(s, 0, 1, e) }

  lemma SizeOfPrefix(s: seq<Byte>, e: nat)
    requires 0 < e <= |s|
    ensures EncodedSize(s[..e]) == if EncodedSize(s) <= e then EncodedSize(s) else 0
  {
    hide ValidSecondOfThree, ValidSecondOfFour, IsTail;
  }

  /** A beginning that takes in the first character goes on after it. */
  lemma OvergrownStep(s: seq<Byte>, k: nat, size: nat, e: nat)
    requires s != []
    ensures var n := EncodedSize(s);
            var bigger, slashes := size + Amount(s[0], n, k), SlashesAfter(s[0], n, k);
            OvergrownAt(s, k, size, e) <==>
              && 0 < n <= e
              && if n == e then slashes == 0 && bigger > SIZE_MAX else OvergrownAt(s[n..], slashes, bigger, e - n)
  {
    hide Remaining, EncodedSize, Amount, SlashesAfter;
    if 0 < e <= |s| {
      var n, front := EncodedSize(s), s[..e];
      SizeOfPrefix(s, e);
      if n == 0 || e < n {
        MalformedFront(front, k);
      } else {
        RemainingStep(front, k);
        LastOfFirst(s);
        if n == e {
          assert front[n..] == [];
          RemainingEmpty(SlashesAfter(s[0], n, k));
        } else {
          assert front[n..] == s[n..][..e - n];
        }
      }
    }
  }

  lemma LastOfFirst(s: seq<Byte>)
    requires s != [] && EncodedSize(s) != 0
    ensures var n := EncodedSize(s); s[n - 1] == BACKSLASH <==> n == 1 && s[0] == BACKSLASH
    ensures forall k :: SlashesAfter(s[0], EncodedSize(s), k) == 0 <==> s[EncodedSize(s) - 1] != BACKSLASH
  {}

  /** The string fills the size exactly where its rest from `index` on does. */
  ghost predicate SameFrom(s: seq<Byte>, index: nat, k: nat, size: nat) {
    && index <= |s|
    && forall e: nat :: OvergrownAt(s, 0, 1, e) <==> e > index && OvergrownAt(s[index..], k, size, e - index)
  }

  lemma SameAtStart(s: seq<Byte>)
    ensures SameFrom(s, 0, 0, 1)
  {
    hide Remaining;
    assert s[0..] == s;
  }

  lemma SameAfter(s: seq<Byte>, index: nat, k: nat, size: nat)
    requires index < |s| && SameFrom(s, index, k, size)
    ensures var n := EncodedSize(s[index..]);
            var bigger, slashes := size + Amount(s[index], n, k), SlashesAfter(s[index], n, k);
            && (n == 0 ==> !Overgrown(s))
            && (n != 0 && slashes == 0 && bigger > SIZE_MAX ==> Overgrown(s))
            && (n != 0 && bigger <= SIZE_MAX ==> SameFrom(s, index + n, slashes, bigger))
  {
    hide OvergrownAt, EncodedSize, Amount, SlashesAfter;
    var rest := s[index..];
    var n := EncodedSize(rest);
    var bigger, slashes := size + Amount(s[index], n, k), SlashesAfter(s[index], n, k);
    assert rest[0] == s[index] && rest[n..] == s[index + n..];
    forall e: nat
      ensures OvergrownAt(s, 0, 1, e) <==>
              && 0 < n <= e - index
              && if n == e - index then slashes == 0 && bigger > SIZE_MAX
                   else OvergrownAt(s[index + n..], slashes, bigger, e - index - n)
    {
      if e > index { OvergrownStep(rest, k, size, e - index); }
    }
    if n != 0 && slashes == 0 && bigger > SIZE_MAX { assert OvergrownAt(s, 0, 1, index + n); }
  }

  lemma SameAtEnd(s: seq<Byte>, k: nat, size: nat)
    requires SameFrom(s, |s|, k, size)
    ensures !Overgrown(s)
  {
    hide Remaining;
  }

  /** Only a string of more than half the largest size can do that. */
  lemma {:induction false} RemainingAtMost(s: seq<Byte>, k: nat)
    requires Remaining(s, k).Some?
    ensures Remaining(s, k).value <= 2 * k + 2 * |s| + 1
    decreases |s|
  {
    hide Remaining, EncodedSize;
    if s == [] {
      RemainingEmpty(k);
    } else if EncodedSize(s) == 0 {
      MalformedFront(s, k);
      assert false;
    } else {
      var n := EncodedSize(s);
      RemainingStep(s, k);
      RemainingAtMost(s[n..], SlashesAfter(s[0], n, k));
    }
  }

  lemma OvergrownIsHuge(s: seq<Byte>)
    requires Overgrown(s)
    ensures 2 * |s| + 1 > SIZE_MAX
  {
    hide Remaining;
    var e: nat :| OvergrownAt(s, 0, 1, e);
    RemainingAtMost(s[..e], 0);
  }

  /** What passes: well-formed text, and text whose size is full before anything malformed is met. */
  ghost predicate Passes(s: seq<Byte>) { WellFormed(s) || Overgrown(s) }

  /** Exact up to saturation; a malformed string passes exactly when the size is full before that is noticed. */
  method MeasureQuotedUtf8(value: seq<Byte>) returns (valid: bool, size: nat)
    ensures valid <==> Passes(value)
    ensures WellFormed(value) ==> size == Saturated(|Quoted(Units(value))|)
    ensures valid && !WellFormed(value) ==> size == SIZE_MAX
    ensures size <= SIZE_MAX
  {
    hide Remaining, EncodedSize, Units, Body, Overgrown, Amount, SlashesAfter, SameFrom;
    MeasuredIsQuoted(value);
    var quotedSize: nat, backslashes: nat, index: nat := 1, 0, 0;
    assert value[0..] == value;
    SameAtStart(value);
    while index < |value|
      invariant index <= |value| && quotedSize <= SIZE_MAX
      invariant QuotedSize(value) == Plus(quotedSize, Remaining(value[index..], backslashes))
      invariant SameFrom(value, index, backslashes, quotedSize)
      decreases |value| - index
    {
      ghost var rest := value[index..];
      var n := EncodedSize(value[index..]);
      SameAfter(value, index, backslashes, quotedSize);
      if n == 0 {
        MalformedFront(rest, backslashes);
        return false, 0;
      }
      RemainingStep(rest, backslashes);
      assert rest[n..] == value[index + n..] && rest[0] == value[index];
      quotedSize, backslashes := MeasureStep(quotedSize, backslashes, value[index], n);
      if quotedSize > SIZE_MAX { return true, SIZE_MAX; }
      index := index + n;
    }
    SameAtEnd(value, backslashes, quotedSize);
    assert value[|value|..] == [];
    RemainingEmpty(backslashes);
    valid := true;
    size := Add(quotedSize, backslashes * 2 + 1).0;
  }

  /** One character; a size past the largest one stands for saturation. */
  method MeasureStep(quotedSize: nat, backslashes: nat, first: Byte, n: nat) returns (size: nat, pending: nat)
    requires quotedSize <= SIZE_MAX && 1 <= n <= 4
    ensures SameSize(size, quotedSize + Amount(first, n, backslashes))
    ensures size <= SIZE_MAX ==> pending == SlashesAfter(first, n, backslashes)
    ensures size > SIZE_MAX ==> SlashesAfter(first, n, backslashes) == 0
  {
    size, pending := quotedSize, 0;
    if n == 1 && first == BACKSLASH {
      pending := backslashes + 1;
    } else if n == 1 && first == QUOTE {
      if backslashes > (SIZE_MAX - 2) / 2 { return SIZE_MAX + 1, 0; }
      var (sum, ok) := Add(quotedSize, backslashes * 2 + 2);
      size := if ok then sum else SIZE_MAX + 1;
    } else {
      var (sum, ok) := Add(quotedSize, backslashes);
      if !ok { return SIZE_MAX + 1, 0; }
      var (more, fits) := Add(sum, if n == 4 then 2 else 1);
      size := if fits then more else SIZE_MAX + 1;
    }
  }

  ghost predicate SameSize(size: nat, exact: nat) { if exact <= SIZE_MAX then size == exact else size == SIZE_MAX + 1 }

  // ------------------------------------------------------------ whole requests

  datatype Variable = Variable(name: seq<Byte>, value: Option<seq<Byte>>)

  datatype Request = Request(
    executable: seq<Byte>, arguments: seq<seq<Byte>>, workingDirectory: seq<Byte>, environment: seq<Variable>)

  /** Which rules a request is held to. */
  datatype Mode = Posix | Windows

  /** What the library is built for, which may differ from the rules asked for. */
  datatype Build = PosixBuild | WindowsBuild

  datatype Failure = NoFailure | Structure | MalformedUtf8 | CommandLineTooLong

  const EQUALS: Byte := 61

  predicate HasNul(s: seq<Byte>) { 0 in s }

  /** The working directory is looked at only in builds where it is a byte string. */
  predicate Structural(r: Request, build: Build) {
    && r.executable != [] && !HasNul(r.executable)
    && (build.PosixBuild? ==> !HasNul(r.workingDirectory))
    && (forall i :: 0 <= i < |r.arguments| ==> !HasNul(r.arguments[i]))
    && (forall i :: 0 <= i < |r.environment| ==>
          && r.environment[i].name != [] && EQUALS !in r.environment[i].name && !HasNul(r.environment[i].name)
          && (r.environment[i].value.Some? ==> !HasNul(r.environment[i].value.value)))
  }

  ghost predicate AllWellFormed(strings: seq<seq<Byte>>) { forall i :: 0 <= i < |strings| ==> WellFormed(strings[i]) }

  ghost predicate GoodVariable(v: Variable) { WellFormed(v.name) && (v.value.Some? ==> WellFormed(v.value.value)) }

  ghost predicate GoodEnvironment(environment: seq<Variable>) {
    forall i :: 0 <= i < |environment| ==> GoodVariable(environment[i])
  }

  ghost function AllUnits(strings: seq<seq<Byte>>): (r: seq<seq<Unit>>)
    requires AllWellFormed(strings)
    ensures |r| == |strings|
  {
    seq(|strings|, i requires 0 <= i < |strings| => Units(strings[i]))
  }

  /** The command line that would be assembled from the strings. */
  ghost function LineLength(strings: seq<seq<Byte>>): nat
    requires AllWellFormed(strings)
  {
    |CommandLine(AllUnits(strings))|
  }

  lemma LineLengthSnoc(strings: seq<seq<Byte>>, s: seq<Byte>)
    requires AllWellFormed(strings) && WellFormed(s)
    ensures AllWellFormed(strings + [s])
    ensures LineLength(strings + [s]) ==
            if strings == [] then |Quoted(Units(s))| else LineLength(strings) + 1 + |Quoted(Units(s))|
  {
    assert AllUnits(strings + [s]) == AllUnits(strings) + [Units(s)];
    CommandLineSnoc(AllUnits(strings), Units(s));
    hide Quoted, Units;
  }

  ghost predicate AllPass(strings: seq<seq<Byte>>) { forall i :: 0 <= i < |strings| ==> Passes(strings[i]) }

  /** What a running total stands for: the saturated length, or saturation over something malformed. */
  ghost predicate TotalOk(strings: seq<seq<Byte>>, total: nat) {
    total <= SIZE_MAX && (if AllWellFormed(strings) then total == Saturated(LineLength(strings)) else total == SIZE_MAX)
  }

  ghost predicate Measured(s: seq<Byte>, valid: bool, size: nat) {
    && size <= SIZE_MAX
    && (if WellFormed(s) then valid && size == Saturated(|Quoted(Units(s))|) else valid ==> size == SIZE_MAX)
  }

  lemma TotalGrows(strings: seq<seq<Byte>>, total: nat, s: seq<Byte>, size: nat)
    requires strings != [] && TotalOk(strings, total) && Measured(s, true, size)
    ensures TotalOk(strings + [s], Saturated(Saturated(total + 1) + size))
  {
    var all := strings + [s];
    assert forall i :: 0 <= i < |strings| ==> all[i] == strings[i];
    assert all[|strings|] == s;
    if AllWellFormed(strings) && WellFormed(s) { LineLengthSnoc(strings, s); }
    hide Quoted, Units, LineLength, WellFormed;
  }

  method MeasureLine(executable: seq<Byte>, arguments: seq<seq<Byte>>) returns (valid: bool, total: nat)
    ensures valid <==> AllPass([executable] + arguments)
    ensures valid ==> TotalOk([executable] + arguments, total)
  {
    hide Units, WellFormed, Quoted, Overgrown;
    var size;
    valid, size := MeasureQuotedUtf8(executable);
    total := size;
    if !valid {
      assert ([executable] + arguments)[0] == executable;
      return;
    }
    for i := 0 to |arguments|
      invariant valid && TotalOk([executable] + arguments[..i], total) && AllPass([executable] + arguments[..i])
    {
      valid, size := MeasureQuotedUtf8(arguments[i]);
      if !valid {
        assert ([executable] + arguments)[i + 1] == arguments[i];
        return;
      }
      TotalGrows([executable] + arguments[..i], total, arguments[i], size);
      assert [executable] + arguments[..i] + [arguments[i]] == [executable] + arguments[..i + 1];
      assert AllPass([executable] + arguments[..i + 1]);
      total := Add(total, 1).0;
      total := Add(total, size).0;
    }
    assert arguments[..|arguments|] == arguments;
  }

  ghost predicate VariablePasses(v: Variable) { Passes(v.name) && (v.value.Some? ==> Passes(v.value.value)) }

  ghost predicate EnvironmentPasses(environment: seq<Variable>) {
    forall i :: 0 <= i < |environment| ==> VariablePasses(environment[i])
  }

  method CheckEnvironment(environment: seq<Variable>) returns (valid: bool)
    ensures valid <==> EnvironmentPasses(environment)
  {
    hide Units, Passes, Quoted;
    for i := 0 to |environment|
      invariant forall j :: 0 <= j < i ==> VariablePasses(environment[j])
    {
      var nameValid, _ := MeasureQuotedUtf8(environment[i].name);
      if !nameValid { return false; }
      if environment[i].value.Some? {
        var valueValid, _ := MeasureQuotedUtf8(environment[i].value.value);
        if !valueValid { return false; }
      }
    }
    return true;
  }

  /** On an environment of sizes that fit, passing is being well-formed. */
  lemma PassingIsWellFormed(environment: seq<Variable>)
    requires forall i :: 0 <= i < |environment| ==> !Huge(environment[i])
    ensures EnvironmentPasses(environment) <==> GoodEnvironment(environment)
  {
    hide WellFormed, Overgrown;
    forall i | 0 <= i < |environment| ensures VariablePasses(environment[i]) <==> GoodVariable(environment[i]) {
      var v := environment[i];
      assert !Huge(v);
      if Overgrown(v.name) { OvergrownIsHuge(v.name); }
      if v.value.Some? && Overgrown(v.value.value) { OvergrownIsHuge(v.value.value); }
    }
  }

  predicate Huge(v: Variable) {
    2 * |v.name| + 1 > SIZE_MAX || (v.value.Some? && 2 * |v.value.value| + 1 > SIZE_MAX)
  }

  /**
   * A request passes on Windows exactly when it is structurally sound, its line's strings are well-formed, the line
   * that will be assembled has fewer than 32767 units, and its environment passes.
   */
  method ValidateProcessRequest(r: Request, mode: Mode, build: Build) returns (failure: Failure, size: nat)
    ensures failure.Structure? <==> !Structural(r, build)
    ensures mode.Posix? && Structural(r, build) ==> failure.NoFailure? && size == 0
    ensures mode.Windows? ==>
              (failure.NoFailure? <==>
                 && Structural(r, build) && AllWellFormed([r.executable] + r.arguments)
                 && EnvironmentPasses(r.environment) && LineLength([r.executable] + r.arguments) < LINE_LIMIT)
    ensures failure.MalformedUtf8? <==>
              && mode.Windows? && Structural(r, build)
              && !(AllPass([r.executable] + r.arguments) && EnvironmentPasses(r.environment))
    ensures mode.Windows? && (failure.NoFailure? || failure.CommandLineTooLong?) ==>
              TotalOk([r.executable] + r.arguments, size)
  {
    failure, size := NoFailure, 0;
    if !Structural(r, build) { return Structure, 0; }
    if mode.Posix? { return; }
    hide Structural, LineLength, WellFormed, Passes, EnvironmentPasses;
    var valid, total := MeasureLine(r.executable, r.arguments);
    if !valid { return MalformedUtf8, 0; }
    valid := CheckEnvironment(r.environment);
    if !valid { return MalformedUtf8, 0; }
    size := total;
    failure := if total >= LINE_LIMIT then CommandLineTooLong else NoFailure;
  }
}
