/**
 * Private boundary lines: the names that end a request and the replies that end its answer.
 */
module Boundary {
  import opened Prelude
  import Control = ControlParser

  // ------------------------------------------------------------- boundaries

  function HexDigit(n: nat): (c: char)
    requires n < 16
    ensures '0' <= c <= '9' || 'a' <= c <= 'f'
  {
    if n < 10 then (48 + n) as char else (87 + n) as char
  }

  /** The low `digits` hexadecimal digits, most significant first. */
  function Hex(value: nat, digits: nat): (r: string)
    ensures |r| == digits
    decreases digits
  {
    if digits == 0 then "" else Hex(value / 16, digits - 1) + [HexDigit(value % 16)]
  }

  function Power16(n: nat): (r: nat)
    ensures r > 0
  {
    if n == 0 then 1 else 16 * Power16(n - 1)
  }

  lemma {:induction false} HexInjective(x: nat, y: nat, digits: nat)
    requires x < Power16(digits) && y < Power16(digits) && Hex(x, digits) == Hex(y, digits)
    ensures x == y
    decreases digits
  {
    if digits > 0 {
      var a, b := Hex(x, digits), Hex(y, digits);
      assert a[..digits - 1] == Hex(x / 16, digits - 1) && b[..digits - 1] == Hex(y / 16, digits - 1);
      assert a[digits - 1] == HexDigit(x % 16) && b[digits - 1] == HexDigit(y % 16);
      HexInjective(x / 16, y / 16, digits - 1);
    }
  }

  /** The value shifted right by n hexadecimal places. */
  function Shifted(value: nat, n: nat): nat {
    if n == 0 then value else Shifted(value, n - 1) / 16
  }

  /** Sixteen digits, by shifting a decreasing number of places. */
  method AppendHex64(output: string, value: nat) returns (r: string)
    ensures r == output + Hex(value, 16)
  {
    r := output;
    var remaining := 16;
    while remaining != 0
      invariant 0 <= remaining <= 16
      invariant r == output + Hex(Shifted(value, remaining), 16 - remaining)
    {
      var digit := Shifted(value, remaining - 1) % 16;
      assert r + [HexDigit(digit)] == output + (Hex(Shifted(value, remaining), 16 - remaining) + [HexDigit(digit)]);
      r := r + [HexDigit(digit)];
      remaining := remaining - 1;
    }
  }

  /** Sixteen bytes drawn when the connection is made. */
  type Seed = seq<nat>

  const SEED_BYTES: nat := 16

  function HexBytes(s: seq<nat>): (r: string)
    ensures |r| == 2 * |s|
  {
    if s == [] then "" else Hex(s[0], 2) + HexBytes(s[1..])
  }

  const REQUEST_PREFIX := "__libtmux_request_"
  const REPLY_PREFIX := "parse error: unknown command: "
  const MINIMUM_BOUNDARY_BYTES: nat := 128

  function BoundaryName(seed: Seed, sequence: nat): string {
    REQUEST_PREFIX + HexBytes(seed) + "_" + Hex(sequence, 16)
  }

  lemma {:induction false} HexBytesSnoc(s: seq<nat>, b: nat)
    ensures HexBytes(s + [b]) == HexBytes(s) + Hex(b, 2)
    decreases |s|
  {
    hide Hex;
    if s == [] {
      assert s + [b] == [b] && [b][1..] == [] && HexBytes([]) == "";
    } else {
      assert (s + [b])[1..] == s[1..] + [b];
      HexBytesSnoc(s[1..], b);
    }
  }

  lemma TwoDigits(b: nat)
    requires b < 256
    ensures Hex(b, 2) == [HexDigit(b / 16), HexDigit(b % 16)]
  {
    OneDigit(b / 16);
    assert Hex(b, 2) == Hex(b / 16, 1) + [HexDigit(b % 16)];
    hide Hex, HexDigit;
  }

  lemma OneDigit(d: nat)
    requires d < 16
    ensures Hex(d, 1) == [HexDigit(d)]
  {
    assert d / 16 == 0;
    assert d % 16 == d;
    assert Hex(d, 1) == Hex(d / 16, 0) + [HexDigit(d % 16)];
    hide Hex, HexDigit;
  }

  method MakeBoundaryName(seed: Seed, sequence: nat) returns (name: string)
    requires forall i :: 0 <= i < |seed| ==> seed[i] < 256
    ensures name == BoundaryName(seed, sequence)
  {
    hide Hex;
    name := REQUEST_PREFIX;
    for i := 0 to |seed|
      invariant name == REQUEST_PREFIX + HexBytes(seed[..i])
    {
      assert seed[..i + 1] == seed[..i] + [seed[i]];
      HexBytesSnoc(seed[..i], seed[i]);
      TwoDigits(seed[i]);
      name := name + [HexDigit(seed[i] / 16)];
      name := name + [HexDigit(seed[i] % 16)];
    }
    assert seed[..|seed|] == seed;
    name := name + "_";
    name := AppendHex64(name, sequence);
  }

  function BoundaryReply(name: string): string { REPLY_PREFIX + name + "\n" }

  /** Different requests of one connection wait for different boundaries. */
  lemma BoundariesDiffer(seed: Seed, x: nat, y: nat)
    requires x < Power16(16) && y < Power16(16) && x != y
    ensures BoundaryName(seed, x) != BoundaryName(seed, y)
    ensures BoundaryReply(BoundaryName(seed, x)) != BoundaryReply(BoundaryName(seed, y))
  {
    var a, b := BoundaryName(seed, x), BoundaryName(seed, y);
    var head := REQUEST_PREFIX + HexBytes(seed) + "_";
    assert a[|head|..] == Hex(x, 16) && b[|head|..] == Hex(y, 16);
    if a == b { HexInjective(x, y, 16); }
    var p, q := BoundaryReply(a), BoundaryReply(b);
    assert p[|REPLY_PREFIX|..|p| - 1] == a && q[|REPLY_PREFIX|..|q| - 1] == b;
  }

  /** A boundary reply is short enough never to be cut by an accepted retention bound. */
  lemma BoundaryFitsBound(seed: Seed, sequence: nat)
    requires |seed| == SEED_BYTES
    ensures |BoundaryReply(BoundaryName(seed, sequence))| < MINIMUM_BOUNDARY_BYTES
    ensures '\n' !in BoundaryName(seed, sequence)
  {
    HexBytesPlain(seed);
    HexPlain(sequence, 16);
  }

  lemma {:induction false} HexPlain(value: nat, digits: nat)
    ensures '\n' !in Hex(value, digits)
    decreases digits
  {
    if digits > 0 { HexPlain(value / 16, digits - 1); }
  }

  lemma {:induction false} HexBytesPlain(s: seq<nat>)
    ensures '\n' !in HexBytes(s)
    decreases |s|
  {
    if s != [] {
      HexPlain(s[0], 2);
      HexBytesPlain(s[1..]);
    }
  }

  function LastIndex(s: string, c: char): (r: int)
    ensures -1 <= r < |s| && (r >= 0 ==> s[r] == c)
  {
    if s == "" then -1 else if s[|s| - 1] == c then |s| - 1 else LastIndex(s[..|s| - 1], c)
  }

  /** The last field of a block's guard. */
  function GuardFlags(b: Control.Block): Option<nat> {
    var space := LastIndex(b.beginMetadata, ' ');
    if space == -1 then None else Control.Decimal(b.beginMetadata[space + 1..])
  }

  predicate IsBoundary(b: Control.Block, expected: string) {
    b.terminal.Error? && !b.truncated && b.body == expected
  }

  method MatchesBoundary(b: Control.Block, expected: string) returns (matches: bool)
    ensures matches == IsBoundary(b, expected)
  {
    if !b.terminal.Error? || b.truncated || |b.body| != |expected| { return false; }
    for i := 0 to |expected|
      invariant forall j :: 0 <= j < i ==> b.body[j] == expected[j]
    {
      if b.body[i] != expected[i] { return false; }
    }
    return true;
  }
}
