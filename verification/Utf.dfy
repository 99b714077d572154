/** UTF-8 as section 4 of RFC 3629 defines it, and UTF-16 as section 2.1 of RFC 2781 does. */
module Utf {
  import opened Prelude

  type Byte = b: nat | b < 256
  type Unit = u: nat | u < 0x1_0000

  /** The characters both encodings can carry: no surrogates. */
  predicate IsScalar(v: nat) { v < 0xD800 || 0xE000 <= v < 0x11_0000 }

  function Utf8(v: nat): (r: seq<Byte>)
    requires IsScalar(v)
    ensures 1 <= |r| <= 4
  {
    if v < 0x80 then [v]
    else if v < 0x800 then [0xC0 + v / 64, 0x80 + v % 64]
    else if v < 0x1_0000 then [0xE0 + v / 4096, 0x80 + v / 64 % 64, 0x80 + v % 64]
    else [0xF0 + v / 262144, 0x80 + v / 4096 % 64, 0x80 + v / 64 % 64, 0x80 + v % 64]
  }

  function Utf16(v: nat): (r: seq<Unit>)
    requires IsScalar(v)
    ensures |r| == if v < 0x1_0000 then 1 else 2
  {
    if v < 0x1_0000 then [v] else [0xD800 + (v - 0x1_0000) / 1024, 0xDC00 + (v - 0x1_0000) % 1024]
  }

  ghost predicate AllScalars(vs: seq<nat>) { forall i :: 0 <= i < |vs| ==> IsScalar(vs[i]) }

  function Utf8All(vs: seq<nat>): seq<Byte>
    requires AllScalars(vs)
  {
    if vs == [] then [] else Utf8(vs[0]) + Utf8All(vs[1..])
  }

  function Utf16All(vs: seq<nat>): seq<Unit>
    requires AllScalars(vs)
  {
    if vs == [] then [] else Utf16(vs[0]) + Utf16All(vs[1..])
  }

  // ------------------------------------------------ reading one character

  predicate IsTail(b: nat) { 0x80 <= b <= 0xBF }

  /** The second byte of three, as the first allows it. */
  predicate ValidSecondOfThree(first: nat, second: nat) {
    if first == 0xE0 then 0xA0 <= second <= 0xBF
    else if first == 0xED then 0x80 <= second <= 0x9F
    else IsTail(second)
  }

  predicate ValidSecondOfFour(first: nat, second: nat) {
    || (first == 0xF0 && 0x90 <= second <= 0xBF)
    || (0xF1 <= first <= 0xF3 && IsTail(second))
    || (first == 0xF4 && 0x80 <= second <= 0x8F)
  }

  /** How many bytes the character at the front takes; zero when it is malformed. */
  function EncodedSize(s: seq<Byte>): (n: nat)
    requires s != []
    ensures n <= |s| && n <= 4
  {
    if s[0] <= 0x7F then 1
    else if 0xC2 <= s[0] <= 0xDF && |s| > 1 && IsTail(s[1]) then 2
    else if 0xE0 <= s[0] <= 0xEF && |s| > 2 then
      if ValidSecondOfThree(s[0], s[1]) && IsTail(s[2]) then 3 else 0
    else if 0xF0 <= s[0] <= 0xF4 && |s| > 3 then
      if ValidSecondOfFour(s[0], s[1]) && IsTail(s[2]) && IsTail(s[3]) then 4 else 0
    else 0
  }

  function Decoded(s: seq<Byte>): (v: nat)
    requires s != [] && EncodedSize(s) != 0
    ensures IsScalar(v) && |Utf8(v)| == EncodedSize(s)
  {
    var n := EncodedSize(s);
    if n == 1 then s[0]
    else if n == 2 then Joined([s[0] - 0xC0, s[1] - 0x80])
    else if n == 3 then Joined([s[0] - 0xE0, s[1] - 0x80, s[2] - 0x80])
    else Joined([s[0] - 0xF0, s[1] - 0x80, s[2] - 0x80, s[3] - 0x80])
  }

  /** Six bits at a time, most significant first. */
  function Joined(parts: seq<nat>): nat
    requires 2 <= |parts| <= 4
  {
    if |parts| == 2 then parts[0] * 64 + parts[1]
    else if |parts| == 3 then parts[0] * 4096 + parts[1] * 64 + parts[2]
    else parts[0] * 262144 + parts[1] * 4096 + parts[2] * 64 + parts[3]
  }

  /** A front that passes the tests is the encoding of the character it denotes. */
  lemma FrontIsEncoding(s: seq<Byte>)
    requires s != [] && EncodedSize(s) != 0
    ensures s[..EncodedSize(s)] == Utf8(Decoded(s))
  {
    var n := EncodedSize(s);
    if n == 4 {
      FrontOfFour(s);
    } else if n == 3 {
      FrontOfThree(s);
    } else if n == 2 {
      assert s[..2] == [s[0], s[1]];
    } else {
      assert s[..1] == [s[0]];
    }
  }

  lemma FrontOfThree(s: seq<Byte>)
    requires s != [] && EncodedSize(s) == 3
    ensures s[..3] == Utf8(Decoded(s))
  {
    ThreeBytes(s[0] - 0xE0, s[1] - 0x80, s[2] - 0x80);
    assert s[..3] == [s[0], s[1], s[2]];
    hide EncodedSize;
  }

  lemma ThreeBytes(a: nat, b: nat, c: nat)
    requires b < 64 && c < 64
    ensures var v := a * 4096 + b * 64 + c; v / 4096 == a && v / 64 % 64 == b && v % 64 == c
  {
    assert (a * 4096 + b * 64 + c) / 64 == a * 64 + b;
  }

  lemma FrontOfFour(s: seq<Byte>)
    requires s != [] && EncodedSize(s) == 4
    ensures s[..4] == Utf8(Decoded(s))
  {
    FourBytes(s[0] - 0xF0, s[1] - 0x80, s[2] - 0x80, s[3] - 0x80);
    assert s[..4] == [s[0], s[1], s[2], s[3]];
    hide EncodedSize;
  }

  lemma FourBytes(a: nat, b: nat, c: nat, d: nat)
    requires b < 64 && c < 64 && d < 64
    ensures var v := a * 262144 + b * 4096 + c * 64 + d;
            v / 262144 == a && v / 4096 % 64 == b && v / 64 % 64 == c && v % 64 == d
  {
    var v := a * 262144 + b * 4096 + c * 64 + d;
    assert v / 64 == a * 4096 + b * 64 + c;
    assert v / 4096 == a * 64 + b;
  }

  /** Every encoded character passes the tests, whatever follows it. */
  lemma EncodingPasses(v: nat, rest: seq<Byte>)
    requires IsScalar(v)
    ensures EncodedSize(Utf8(v) + rest) == |Utf8(v)|
  {
    hide EncodedSize, ValidSecondOfThree, ValidSecondOfFour, IsTail;
    if v < 0x80 {
      SizeOne(v, rest);
    } else if v < 0x800 {
      TailOf(v);
      SizeTwo(0xC0 + v / 64, 0x80 + v % 64, rest);
    } else if v < 0x1_0000 {
      TailOf(v);
      TailOf(v / 64);
      SecondOfThree(v);
      SizeThree(0xE0 + v / 4096, 0x80 + v / 64 % 64, 0x80 + v % 64, rest);
    } else {
      TailOf(v);
      TailOf(v / 64);
      SecondOfFour(v);
      SizeFour(0xF0 + v / 262144, 0x80 + v / 4096 % 64, 0x80 + v / 64 % 64, 0x80 + v % 64, rest);
    }
  }

  lemma TailOf(v: nat)
    ensures IsTail(0x80 + v % 64)
  {}

  lemma SecondOfThree(v: nat)
    requires IsScalar(v) && 0x800 <= v < 0x1_0000
    ensures ValidSecondOfThree(0xE0 + v / 4096, 0x80 + v / 64 % 64)
  {
    assert v / 64 == v / 4096 * 64 + v / 64 % 64;
  }

  lemma SecondOfFour(v: nat)
    requires 0x1_0000 <= v < 0x11_0000
    ensures ValidSecondOfFour(0xF0 + v / 262144, 0x80 + v / 4096 % 64)
  {
    assert v / 4096 == v / 262144 * 64 + v / 4096 % 64;
  }

  lemma SizeOne(a: Byte, rest: seq<Byte>)
    requires a < 0x80
    ensures EncodedSize([a] + rest) == 1
  {}

  lemma SizeTwo(a: Byte, b: Byte, rest: seq<Byte>)
    requires 0xC2 <= a <= 0xDF && IsTail(b)
    ensures EncodedSize([a, b] + rest) == 2
  {}

  lemma SizeThree(a: Byte, b: Byte, c: Byte, rest: seq<Byte>)
    requires 0xE0 <= a <= 0xEF && ValidSecondOfThree(a, b) && IsTail(c)
    ensures EncodedSize([a, b, c] + rest) == 3
  {}

  lemma SizeFour(a: Byte, b: Byte, c: Byte, d: Byte, rest: seq<Byte>)
    requires 0xF0 <= a <= 0xF4 && ValidSecondOfFour(a, b) && IsTail(c) && IsTail(d)
    ensures EncodedSize([a, b, c, d] + rest) == 4
  {}

  lemma DecodedEncoding(v: nat)
    requires IsScalar(v)
    ensures EncodedSize(Utf8(v)) == |Utf8(v)| && Decoded(Utf8(v)) == v
  {
    EncodingPasses(v, []);
    assert Utf8(v) + [] == Utf8(v);
    Rejoined(v);
    hide EncodedSize, IsScalar;
  }

  lemma Rejoined(v: nat)
    ensures v == v / 64 * 64 + v % 64
    ensures v == v / 4096 * 4096 + v / 64 % 64 * 64 + v % 64
    ensures v == v / 262144 * 262144 + v / 4096 % 64 * 4096 + v / 64 % 64 * 64 + v % 64
  {
    assert v / 64 / 64 == v / 4096 && v / 4096 / 64 == v / 262144;
  }

  lemma Utf8Injective(v: nat, w: nat)
    requires IsScalar(v) && IsScalar(w) && Utf8(v) == Utf8(w)
    ensures v == w
  {
    DecodedEncoding(v);
    DecodedEncoding(w);
    hide Utf8, Decoded, EncodedSize;
  }

  // ------------------------------------------------------- whole strings

  /** The characters of a well-formed string. */
  function Decode(s: seq<Byte>): (r: Option<seq<nat>>)
    ensures r.Some? ==> AllScalars(r.value)
    decreases |s|
  {
    if s == [] then Some([])
    else if EncodedSize(s) == 0 then None
    else
      var rest := Decode(s[EncodedSize(s)..]);
      if rest.None? then None else Some([Decoded(s)] + rest.value)
  }

  lemma Utf8Cons(v: nat, rest: seq<nat>)
    requires IsScalar(v) && AllScalars(rest)
    ensures AllScalars([v] + rest) && Utf8All([v] + rest) == Utf8(v) + Utf8All(rest)
  {
    assert ([v] + rest)[1..] == rest;
  }

  lemma {:induction false} DecodedEncodesBack(s: seq<Byte>)
    requires Decode(s).Some?
    ensures Utf8All(Decode(s).value) == s
    decreases |s|
  {
    hide Utf8, Decoded, EncodedSize, Utf8All, IsScalar;
    if s != [] {
      FrontIsEncoding(s);
      var n := EncodedSize(s);
      DecodedEncodesBack(s[n..]);
      Utf8Cons(Decoded(s), Decode(s[n..]).value);
      assert s == s[..n] + s[n..];
    } else {
      Utf8Nothing();
    }
  }

  lemma Utf8Nothing()
    ensures Utf8All([]) == []
  {}

  lemma {:induction false} EncodedDecodesBack(vs: seq<nat>)
    requires AllScalars(vs)
    ensures Decode(Utf8All(vs)) == Some(vs)
    decreases |vs|
  {
    hide Utf8, Decoded, EncodedSize, IsScalar;
    if vs != [] {
      var front, rest := Utf8(vs[0]), Utf8All(vs[1..]);
      var s := front + rest;
      EncodingPasses(vs[0], rest);
      FrontIsEncoding(s);
      EncodedDecodesBack(vs[1..]);
      assert s[..|front|] == front && s[|front|..] == rest;
      Utf8Injective(vs[0], Decoded(s));
      assert vs == [vs[0]] + vs[1..];
    }
  }

  /** Decoding succeeds exactly on the encodings of characters, and finds those characters. */
  lemma DecodeIsInverse(s: seq<Byte>, vs: seq<nat>)
    requires AllScalars(vs)
    ensures Decode(s) == Some(vs) <==> s == Utf8All(vs)
  {
    if Decode(s) == Some(vs) { DecodedEncodesBack(s); }
    EncodedDecodesBack(vs);
  }
}
