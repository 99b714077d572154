/** Shared result types and sequence helpers. */
module Prelude {

  datatype Option<+T> = None | Some(value: T)

  datatype Result<+T, +E> = Success(value: T) | Failure(error: E)

  /** The first position of `c` at or after `from`, or |s| when there is none. */
  function IndexFrom(s: string, c: char, from: nat): (r: nat)
    requires from <= |s|
    ensures from <= r <= |s|
    ensures forall i :: from <= i < r ==> s[i] != c
    ensures r < |s| ==> s[r] == c
    decreases |s| - from
  {
    if from == |s| || s[from] == c then from else IndexFrom(s, c, from + 1)
  }

  lemma IndexIs(s: string, c: char, from: nat, at: nat)
    requires from <= at <= |s|
    requires forall i :: from <= i < at ==> s[i] != c
    requires at < |s| ==> s[at] == c
    ensures IndexFrom(s, c, from) == at
  {}

  predicate StartsWith(s: string, prefix: string) {
    |prefix| <= |s| && s[..|prefix|] == prefix
  }

  /** Concatenation of a list of sequences. */
  function Concat<T>(parts: seq<seq<T>>): (r: seq<T>) {
    if parts == [] then [] else parts[0] + Concat(parts[1..])
  }

  lemma {:induction false} ConcatSplit<T>(a: seq<seq<T>>, b: seq<seq<T>>)
    ensures Concat(a + b) == Concat(a) + Concat(b)
  {
    if a == [] {
      assert a + b == b;
    } else {
      assert (a + b)[1..] == a[1..] + b;
      ConcatSplit(a[1..], b);
    }
  }

  predicate Distinct<T(==)>(s: seq<T>) {
    forall i, j :: 0 <= i < j < |s| ==> s[i] != s[j]
  }
}

/** The three-digit octal escapes of the control protocol. */
module Octal {

  predicate IsByte(c: char) { c as int < 256 }

  ghost predicate AllBytes(s: string) { forall i :: 0 <= i < |s| ==> IsByte(s[i]) }

  predicate IsDigit(c: char) { '0' <= c <= '7' }

  /** What three octal digits denote, most significant first. */
  function Value(a: char, b: char, c: char): (r: nat)
    requires IsDigit(a) && IsDigit(b) && IsDigit(c)
    ensures r < 512
  {
    (a as int - 48) * 64 + (b as int - 48) * 8 + (c as int - 48)
  }

  lemma DigitsSum(n: nat)
    requires n < 512
    ensures n / 64 % 8 * 64 + n / 8 % 8 * 8 + n % 8 == n
  {
    assert n / 8 / 8 == n / 64;
  }

  /** A backslash and the three octal digits of one byte. */
  function Escape(c: char): (r: string)
    requires IsByte(c)
    ensures |r| == 4 && r[0] == '\\' && IsDigit(r[1]) && IsDigit(r[2]) && IsDigit(r[3])
    ensures Value(r[1], r[2], r[3]) == c as int
  {
    var n := c as int;
    DigitsSum(n);
    ['\\', (48 + n / 64 % 8) as char, (48 + n / 8 % 8) as char, (48 + n % 8) as char]
  }
}

/** How often a number occurs in a list. */
module Counting {
  import opened Prelude

  /** How often `id` occurs in `s`. */
  function Count(s: seq<nat>, id: nat): nat { multiset(s)[id] }

  lemma CountSnoc(s: seq<nat>, x: nat, id: nat)
    ensures Count(s + [x], id) == Count(s, id) + Count([x], id)
  {}

  lemma CountAppend(s: seq<nat>, t: seq<nat>, id: nat)
    ensures Count(s + t, id) == Count(s, id) + Count(t, id)
  {}

  lemma CountHead(s: seq<nat>, id: nat)
    requires s != []
    ensures Count(s, id) == Count([s[0]], id) + Count(s[1..], id)
  {
    assert s == [s[0]] + s[1..];
  }

  lemma CountRemove(s: seq<nat>, k: nat, id: nat)
    requires k < |s|
    ensures Count(s, id) == Count([s[k]], id) + Count(s[..k] + s[k + 1..], id)
  {
    assert s == s[..k] + [s[k]] + s[k + 1..];
  }

  lemma CountDistinct(s: seq<nat>, id: nat)
    requires Distinct(s)
    ensures Count(s, id) == if id in s then 1 else 0
    decreases |s|
  {
    if s != [] {
      CountHead(s, id);
      CountDistinct(s[1..], id);
    }
  }

  lemma CountNone(id: nat)
    ensures Count([], id) == 0
  {}
}
