/**
 * Saved layouts: the grammar of custom layout strings, its checksum, and the reader that
 * validates a tree without arranging any pane.
 */
module SavedLayout {
  import opened Prelude
  import Control = ControlParser

  // ------------------------------------------------------------- the grammar

  /** Sizes and offsets keep their digits, so that printing gives back the text that was read. */
  datatype Cell = Cell(width: string, height: string, x: string, y: string, pane: Option<string>, inner: Inner)

  datatype Inner = Leaf | Node(square: bool, cells: seq<Cell>)

  const MAX_DEPTH: nat := 256
  const UINT32_LIMIT: nat := 0x1_0000_0000

  predicate IsNumber(s: string) { s != "" && Control.AllDigits(s) && Control.DigitsValue(s) < UINT32_LIMIT }

  predicate Valid(c: Cell, depth: nat)
    decreases c
  {
    && depth <= MAX_DEPTH
    && IsNumber(c.width) && IsNumber(c.height) && IsNumber(c.x) && IsNumber(c.y)
    && (c.pane.Some? ==> IsNumber(c.pane.value))
    && (c.inner.Node? ==> c.inner.cells != [] && forall i :: 0 <= i < |c.inner.cells| ==>
         Valid(c.inner.cells[i], depth + 1))
  }

  function Open(square: bool): string { if square then "[" else "{" }
  function Close(square: bool): string { if square then "]" else "}" }

  function PairText(a: string, separator: char, b: string): string { a + ([separator] + b) }

  function Head(c: Cell): string { PairText(c.width, 'x', c.height) + ("," + PairText(c.x, ',', c.y)) }

  function PaneText(c: Cell): string { if c.pane.Some? then "," + c.pane.value else "" }

  function Print(c: Cell): string
    decreases c, 1
  {
    Head(c) + (PaneText(c) + InnerText(c.inner))
  }

  function InnerText(inner: Inner): string
    decreases inner, 1
  {
    if inner.Leaf? then "" else Open(inner.square) + (PrintAll(inner.cells) + Close(inner.square))
  }

  function PrintAll(cells: seq<Cell>): string
    decreases cells, 0
  {
    if cells == [] then ""
    else if |cells| == 1 then Print(cells[0])
    else Print(cells[0]) + ("," + PrintAll(cells[1..]))
  }

  function Leaves(c: Cell): nat
    decreases c, 1
  {
    if c.inner.Leaf? then 1 else LeavesAll(c.inner.cells)
  }

  function LeavesAll(cells: seq<Cell>): nat
    decreases cells, 0
  {
    if cells == [] then 0 else Leaves(cells[0]) + LeavesAll(cells[1..])
  }

  // -------------------------------------------------------------- the parser

  function DigitsEnd(s: string, o: nat): (e: nat)
    requires o <= |s|
    ensures o <= e <= |s|
    ensures forall i :: o <= i < e ==> Control.IsDigit(s[i])
    ensures e < |s| ==> !Control.IsDigit(s[e])
    decreases |s| - o
  {
    if o < |s| && Control.IsDigit(s[o]) then DigitsEnd(s, o + 1) else o
  }

  lemma DigitSlice(s: string, a: nat, b: nat)
    requires a <= b <= |s| && forall i :: a <= i < b ==> Control.IsDigit(s[i])
    ensures Control.AllDigits(s[a..b])
  {}

  /** Where a number at `o` ends, if there is one and it fits 32 bits. */
  function NumberAt(s: string, o: nat): (r: Option<nat>)
    requires o <= |s|
    ensures r.Some? ==> o < r.value <= |s| && IsNumber(s[o..r.value])
  {
    var e := DigitsEnd(s, o);
    DigitSlice(s, o, e);
    if e > o && Control.DigitsValue(s[o..e]) < UINT32_LIMIT then Some(e) else None
  }

  predicate CharAt(s: string, o: nat, c: char) { o < |s| && s[o] == c }

  function NumberThen(s: string, o: nat, c: char): (r: Option<nat>)
    requires o <= |s|
    ensures r.Some? ==> o < r.value < |s| && s[r.value] == c && IsNumber(s[o..r.value])
  {
    var e := NumberAt(s, o);
    if e.Some? && CharAt(s, e.value, c) then e else None
  }

  /** A pane id is a number that no 'x' follows; otherwise the comma belongs to the next cell. */
  function PaneAt(s: string, o: nat): (r: Option<nat>)
    requires o <= |s|
    ensures r.Some? ==> o + 1 < r.value <= |s| && s[o] == ',' && IsNumber(s[o + 1..r.value])
  {
    if !CharAt(s, o, ',') then None
    else
      var e := NumberAt(s, o + 1);
      if e.Some? && !CharAt(s, e.value, 'x') then e else None
  }

  datatype Pair = Pair(end: nat, first: string, second: string)

  /** Two numbers and the separator between them. */
  function PairAt(s: string, o: nat, separator: char): (r: Option<Pair>)
    requires o <= |s|
    ensures r.Some? ==> o < r.value.end <= |s|
  {
    var a := NumberThen(s, o, separator);
    if a.None? then None else
    var b := NumberAt(s, a.value + 1);
    if b.None? then None else Some(Pair(b.value, s[o..a.value], s[a.value + 1..b.value]))
  }

  /** A cell's size, offsets and pane id; the result ends where the inner part would begin. */
  function HeadAt(s: string, o: nat): (r: Option<(nat, Cell)>)
    requires o <= |s|
    ensures r.Some? ==> o < r.value.0 <= |s| && r.value.1.inner.Leaf?
  {
    var size := PairAt(s, o, 'x');
    if size.None? || !CharAt(s, size.value.end, ',') then None else
    var place := PairAt(s, size.value.end + 1, ',');
    if place.None? then None else
    var d := place.value.end;
    var p := PaneAt(s, d);
    Some((if p.None? then d else p.value,
          Cell(size.value.first, size.value.second, place.value.first, place.value.second,
               if p.None? then None else Some(s[d + 1..p.value]), Leaf)))
  }

  predicate Opens(s: string, o: nat) { CharAt(s, o, '[') || CharAt(s, o, '{') }

  function CellAt(s: string, o: nat, depth: nat): (r: Option<(nat, Cell)>)
    requires o <= |s|
    ensures r.Some? ==> o < r.value.0 <= |s|
    decreases |s| - o, 0
  {
    if depth > MAX_DEPTH then None else
    var h := HeadAt(s, o);
    if h.None? then None
    else if !Opens(s, h.value.0) then h
    else
      var square := s[h.value.0] == '[';
      var cells := CellsAt(s, h.value.0 + 1, depth + 1);
      if cells.None? || !CharAt(s, cells.value.0, if square then ']' else '}') then None
      else Some((cells.value.0 + 1, h.value.1.(inner := Node(square, cells.value.1))))
  }

  function CellsAt(s: string, o: nat, depth: nat): (r: Option<(nat, seq<Cell>)>)
    requires o <= |s|
    ensures r.Some? ==> o < r.value.0 <= |s| && r.value.1 != []
    decreases |s| - o, 1
  {
    var first := CellAt(s, o, depth);
    if first.None? then None
    else if !CharAt(s, first.value.0, ',') then Some((first.value.0, [first.value.1]))
    else
      var rest := CellsAt(s, first.value.0 + 1, depth);
      if rest.None? then None else Some((rest.value.0, [first.value.1] + rest.value.1))
  }

  // --------------------------------------------------- text at a position

  /** The text `t` stands at `o`. */
  ghost predicate At(s: string, o: nat, t: string) { o + |t| <= |s| && s[o..o + |t|] == t }

  lemma AtSplit(s: string, o: nat, a: string, b: string)
    requires At(s, o, a + b)
    ensures At(s, o, a) && At(s, o + |a|, b)
  {
    var t := s[o..o + |a + b|];
    assert t[..|a|] == a && t[|a|..] == b;
    assert s[o..o + |a|] == t[..|a|] && s[o + |a|..o + |a| + |b|] == t[|a|..];
  }

  lemma AtJoin(s: string, o: nat, a: string, b: string)
    requires At(s, o, a) && At(s, o + |a|, b)
    ensures At(s, o, a + b)
  {
    assert s[o..o + |a + b|] == s[o..o + |a|] + s[o + |a|..o + |a| + |b|];
  }

  lemma AtSlice(s: string, a: nat, b: nat)
    requires a <= b <= |s|
    ensures At(s, a, s[a..b])
  {}

  lemma AtChar(s: string, o: nat, c: char)
    ensures At(s, o, [c]) <==> CharAt(s, o, c)
  {
    if o < |s| { assert s[o..o + 1] == [s[o]]; }
  }

  lemma AtBounds(s: string, o: nat, t: string)
    requires At(s, o, t)
    ensures o + |t| <= |s|
  {}

  // ------------------------------------------------------------ what it reads

  ghost predicate GoodHead(c: Cell) {
    IsNumber(c.width) && IsNumber(c.height) && IsNumber(c.x) && IsNumber(c.y)
      && (c.pane.Some? ==> IsNumber(c.pane.value))
  }

  lemma PairIsPrinted(s: string, o: nat, separator: char)
    requires o <= |s| && PairAt(s, o, separator).Some?
    ensures var p := PairAt(s, o, separator).value;
            var text := PairText(p.first, separator, p.second);
            At(s, o, text) && p.end == o + |text| && IsNumber(p.first) && IsNumber(p.second)
  {
    var a := NumberThen(s, o, separator).value;
    var b := NumberAt(s, a + 1).value;
    hide At;
    AtSlice(s, o, a);
    AtSlice(s, a + 1, b);
    AtChar(s, a, separator);
    AtJoin(s, a, [separator], s[a + 1..b]);
    AtJoin(s, o, s[o..a], [separator] + s[a + 1..b]);
  }

  lemma HeadIsPrinted(s: string, o: nat)
    requires o <= |s| && HeadAt(s, o).Some?
    ensures var (e, c) := HeadAt(s, o).value;
            At(s, o, Head(c)) && At(s, o + |Head(c)|, PaneText(c)) && e == o + |Head(c)| + |PaneText(c)|
    ensures GoodHead(HeadAt(s, o).value.1)
  {
    hide At, PairAt, PairText, IsNumber, NumberAt;
    var size := PairAt(s, o, 'x').value;
    PairIsPrinted(s, o, 'x');
    var place := PairAt(s, size.end + 1, ',').value;
    PairIsPrinted(s, size.end + 1, ',');
    AtChar(s, size.end, ',');
    AtJoin(s, size.end, ",", PairText(place.first, ',', place.second));
    AtJoin(s, o, PairText(size.first, 'x', size.second), "," + PairText(place.first, ',', place.second));
    PaneIsPrinted(s, place.end);
    hide PaneAt;
  }

  lemma PaneIsPrinted(s: string, d: nat)
    requires d <= |s|
    ensures var p := PaneAt(s, d);
            if p.None? then At(s, d, "")
            else At(s, d, "," + s[d + 1..p.value]) && IsNumber(s[d + 1..p.value])
                 && p.value == d + |"," + s[d + 1..p.value]|
  {
    var p := PaneAt(s, d);
    if p.Some? {
      AtChar(s, d, ',');
      AtSlice(s, d + 1, p.value);
      AtJoin(s, d, ",", s[d + 1..p.value]);
    }
  }

  /** Whatever the parser reads is a valid cell whose printed form is exactly what it consumed. */
  lemma {:induction false} ReadIsPrinted(s: string, o: nat, depth: nat)
    requires o <= |s| && CellAt(s, o, depth).Some?
    ensures var (e, c) := CellAt(s, o, depth).value; Valid(c, depth) && At(s, o, Print(c)) && e == o + |Print(c)|
    decreases |s| - o, 0
  {
    hide HeadAt, At, IsNumber, Head, PaneText, Print, InnerText, Valid, PrintAll, GoodHead;
    var (h, head) := HeadAt(s, o).value;
    HeadIsPrinted(s, o);
    if Opens(s, h) {
      AllReadIsPrinted(s, h + 1, depth + 1);
      var (k, cells) := CellsAt(s, h + 1, depth + 1).value;
      var c := head.(inner := Node(s[h] == '[', cells));
      HeadSame(head, c);
      InnerPrinted(s, h, c.inner);
      CellPrinted(s, o, c);
      ValidNode(c, depth);
    } else {
      LeafPrinted(s, h);
      CellPrinted(s, o, head);
      ValidLeaf(head, depth);
    }
  }

  lemma LeafPrinted(s: string, h: nat)
    requires h <= |s|
    ensures At(s, h, InnerText(Leaf)) && InnerText(Leaf) == ""
  {}

  lemma ValidLeaf(c: Cell, depth: nat)
    requires c.inner.Leaf? && GoodHead(c) && depth <= MAX_DEPTH
    ensures Valid(c, depth)
  {}

  lemma HeadSame(a: Cell, b: Cell)
    requires b == a.(inner := b.inner)
    ensures Head(a) == Head(b) && PaneText(a) == PaneText(b) && GoodHead(a) == GoodHead(b)
  {}

  lemma ValidNode(c: Cell, depth: nat)
    requires c.inner.Node? && GoodHead(c) && depth <= MAX_DEPTH && c.inner.cells != []
    requires forall i :: 0 <= i < |c.inner.cells| ==> Valid(c.inner.cells[i], depth + 1)
    ensures Valid(c, depth)
  {}

  lemma InnerPrinted(s: string, h: nat, inner: Inner)
    requires inner.Node? && CharAt(s, h, if inner.square then '[' else '{')
    requires At(s, h + 1, PrintAll(inner.cells))
    requires CharAt(s, h + 1 + |PrintAll(inner.cells)|, if inner.square then ']' else '}')
    ensures At(s, h, InnerText(inner)) && |InnerText(inner)| == |PrintAll(inner.cells)| + 2
  {
    hide At, PrintAll;
    var body, square := PrintAll(inner.cells), inner.square;
    AtChar(s, h, Open(square)[0]);
    AtChar(s, h + 1 + |body|, Close(square)[0]);
    AtJoin(s, h + 1, body, Close(square));
    AtJoin(s, h, Open(square), body + Close(square));
  }

  lemma CellPrinted(s: string, o: nat, c: Cell)
    requires At(s, o, Head(c)) && At(s, o + |Head(c)|, PaneText(c))
             && At(s, o + |Head(c)| + |PaneText(c)|, InnerText(c.inner))
    ensures At(s, o, Print(c)) && |Print(c)| == |Head(c)| + |PaneText(c)| + |InnerText(c.inner)|
  {
    hide At, Head, PaneText, InnerText;
    AtJoin(s, o + |Head(c)|, PaneText(c), InnerText(c.inner));
    AtJoin(s, o, Head(c), PaneText(c) + InnerText(c.inner));
  }

  lemma {:induction false} AllReadIsPrinted(s: string, o: nat, depth: nat)
    requires o <= |s| && CellsAt(s, o, depth).Some?
    ensures var (e, cells) := CellsAt(s, o, depth).value;
            (forall i :: 0 <= i < |cells| ==> Valid(cells[i], depth)) && At(s, o, PrintAll(cells))
              && e == o + |PrintAll(cells)|
    decreases |s| - o, 1
  {
    hide CellAt, At, Valid, Print;
    ReadIsPrinted(s, o, depth);
    var (e, c) := CellAt(s, o, depth).value;
    if CharAt(s, e, ',') {
      var (k, rest) := CellsAt(s, e + 1, depth).value;
      AllReadIsPrinted(s, e + 1, depth);
      assert ([c] + rest)[1..] == rest;
      AtChar(s, e, ',');
      AtJoin(s, e, ",", PrintAll(rest));
      AtJoin(s, o, Print(c), "," + PrintAll(rest));
    }
  }

  // -------------------------------------------------------- printing and reading

  lemma NumberIsRead(s: string, o: nat, t: string)
    requires At(s, o, t) && IsNumber(t) && (o + |t| < |s| ==> !Control.IsDigit(s[o + |t|]))
    ensures NumberAt(s, o) == Some(o + |t|)
  {
    var e := o + |t|;
    forall i | o <= i < e ensures Control.IsDigit(s[i]) { assert s[i] == t[i - o]; }
    DigitsEndIs(s, o, e);
  }

  lemma {:induction false} DigitsEndIs(s: string, o: nat, e: nat)
    requires o <= e <= |s| && (forall i :: o <= i < e ==> Control.IsDigit(s[i])) && (e < |s| ==> !Control.IsDigit(s[e]))
    ensures DigitsEnd(s, o) == e
    decreases e - o
  {
    if o < e { DigitsEndIs(s, o + 1, e); }
  }

  /** What may stand after a cell: the end, a closing bracket, or a comma and the next cell's width. */
  ghost predicate Follows(s: string, e: nat) {
    || e == |s| || CharAt(s, e, ']') || CharAt(s, e, '}')
    || (CharAt(s, e, ',') && NumberThen(s, e + 1, 'x').Some?)
  }

  lemma NumberThenIsRead(s: string, o: nat, t: string, c: char, rest: string)
    requires At(s, o, t + ([c] + rest)) && IsNumber(t) && !Control.IsDigit(c)
    ensures o <= |s| && NumberThen(s, o, c) == Some(o + |t|) && At(s, o + |t| + 1, rest) && At(s, o, t)
  {
    hide At;
    AtSplit(s, o, t, [c] + rest);
    AtSplit(s, o + |t|, [c], rest);
    AtChar(s, o + |t|, c);
    NumberIsRead(s, o, t);
  }

  /** No digit stands at `e`, so that a number may end there. */
  predicate NumberMayEnd(s: string, e: nat) { e < |s| ==> !Control.IsDigit(s[e]) }

  predicate ReadsPair(s: string, o: nat, separator: char, p: Pair) { o <= |s| && PairAt(s, o, separator) == Some(p) }

  lemma PairIsRead(s: string, o: nat, a: string, separator: char, b: string, e: nat)
    requires At(s, o, PairText(a, separator, b)) && IsNumber(a) && IsNumber(b) && !Control.IsDigit(separator)
    requires e == o + |PairText(a, separator, b)| && NumberMayEnd(s, e)
    ensures ReadsPair(s, o, separator, Pair(e, a, b))
  {
    hide IsNumber, At, NumberThen, NumberAt;
    var m := o + |a|;
    NumberThenIsRead(s, o, a, separator, b);
    AtText(s, o, a);
    AtText(s, m + 1, b);
    NumberIsRead(s, m + 1, b);
  }

  lemma AtText(s: string, o: nat, t: string)
    requires At(s, o, t)
    ensures o + |t| <= |s| && s[o..o + |t|] == t
  {}

  lemma NumbersAreRead(s: string, o: nat, c: Cell, m: nat, d: nat)
    requires GoodHead(c) && At(s, o, Head(c)) && m == o + |PairText(c.width, 'x', c.height)|
    requires d == o + |Head(c)| && NumberMayEnd(s, d)
    ensures ReadsPair(s, o, 'x', Pair(m, c.width, c.height)) && CharAt(s, m, ',')
    ensures ReadsPair(s, m + 1, ',', Pair(d, c.x, c.y))
  {
    hide At, ReadsPair, PairText, IsNumber, Head;
    var size, place := PairText(c.width, 'x', c.height), PairText(c.x, ',', c.y);
    HeadText(c);
    CommaStands(s, o, size, place);
    PairIsRead(s, o, c.width, 'x', c.height, m);
    PairIsRead(s, m + 1, c.x, ',', c.y, d);
  }

  lemma HeadText(c: Cell)
    ensures var size, place := PairText(c.width, 'x', c.height), PairText(c.x, ',', c.y);
            Head(c) == size + ("," + place) && |Head(c)| == |size| + 1 + |place|
  {
    hide PairText;
  }

  lemma CommaStands(s: string, o: nat, before: string, after: string)
    requires At(s, o, before + ("," + after))
    ensures At(s, o, before) && CharAt(s, o + |before|, ',') && At(s, o + |before| + 1, after)
  {
    hide At;
    AtSplit(s, o, before, "," + after);
    AtSplit(s, o + |before|, ",", after);
    AtChar(s, o + |before|, ',');
  }

  /** After the head and the pane id comes either an opening bracket or what may follow a cell. */
  lemma HeadIsRead(s: string, o: nat, c: Cell)
    requires GoodHead(c) && At(s, o, Head(c)) && At(s, o + |Head(c)|, PaneText(c))
    requires var e := o + |Head(c)| + |PaneText(c)|; Opens(s, e) || Follows(s, e)
    ensures o <= |s| && HeadAt(s, o) == Some((o + |Head(c)| + |PaneText(c)|, c.(inner := Leaf)))
  {
    hide At, PaneText, Head, Follows, Opens, HeadAt, PaneAt, PairText, ReadsPair, IsNumber, NumberMayEnd, CharAt;
    AtBounds(s, o, Head(c));
    var m, d := o + |PairText(c.width, 'x', c.height)|, o + |Head(c)|;
    PaneIsRead(s, d, c);
    NumbersAreRead(s, o, c, m, d);
    HeadFrom(s, o, c, m, d);
  }

  lemma HeadFrom(s: string, o: nat, c: Cell, m: nat, d: nat)
    requires ReadsPair(s, o, 'x', Pair(m, c.width, c.height)) && CharAt(s, m, ',')
    requires ReadsPair(s, m + 1, ',', Pair(d, c.x, c.y)) && d <= |s|
    requires PaneAt(s, d).Some? == c.pane.Some? && (c.pane.Some? ==> s[d + 1..PaneAt(s, d).value] == c.pane.value)
    ensures o <= |s| && HeadAt(s, o) == Some((if c.pane.Some? then PaneAt(s, d).value else d, c.(inner := Leaf)))
  {
    hide PairAt, PaneAt;
  }

  lemma PaneIsRead(s: string, d: nat, c: Cell)
    requires d <= |s| && At(s, d, PaneText(c)) && (c.pane.Some? ==> IsNumber(c.pane.value))
    requires Opens(s, d + |PaneText(c)|) || Follows(s, d + |PaneText(c)|)
    ensures PaneAt(s, d) == if c.pane.Some? then Some(d + |PaneText(c)|) else None
    ensures c.pane.Some? ==> s[d + 1..d + |PaneText(c)|] == c.pane.value
    ensures c.pane.None? ==> PaneText(c) == ""
    ensures NumberMayEnd(s, d)
  {
    if c.pane.Some? {
      AtSplit(s, d, ",", c.pane.value);
      AtChar(s, d, ',');
      NumberIsRead(s, d + 1, c.pane.value);
    }
  }

  lemma PrintStarts(s: string, o: nat, c: Cell, depth: nat)
    requires Valid(c, depth) && At(s, o, Print(c))
    ensures o <= |s| && NumberThen(s, o, 'x').Some?
  {
    hide At, PaneText, InnerText, IsNumber;
    AtSplit(s, o, Head(c), PaneText(c) + InnerText(c.inner));
    AtSplit(s, o, PairText(c.width, 'x', c.height), "," + PairText(c.x, ',', c.y));
    NumberThenIsRead(s, o, c.width, 'x', c.height);
  }

  /** The parser reads back every printed cell, wherever it stands among others. */
  lemma {:induction false} PrintedIsRead(s: string, o: nat, c: Cell, depth: nat)
    requires Valid(c, depth) && At(s, o, Print(c)) && Follows(s, o + |Print(c)|)
    ensures o <= |s| && CellAt(s, o, depth) == Some((o + |Print(c)|, c))
    decreases c, 1
  {
    hide At, IsNumber, HeadAt, Head, PaneText, NumberThen, Follows, InnerText, PrintAll;
    AtSplit(s, o, Head(c), PaneText(c) + InnerText(c.inner));
    AtSplit(s, o + |Head(c)|, PaneText(c), InnerText(c.inner));
    var h := o + |Head(c)| + |PaneText(c)|;
    if c.inner.Node? {
      NodeParts(s, h, c.inner);
      HeadIsRead(s, o, c);
      PrintedAllIsRead(s, h + 1, c.inner.cells, depth + 1);
      hide CellsAt, Valid;
    } else {
      LeafText(c.inner);
      FollowsNotOpen(s, h);
      HeadIsRead(s, o, c);
    }
  }

  lemma NodeParts(s: string, h: nat, inner: Inner)
    requires inner.Node? && At(s, h, InnerText(inner))
    ensures var body := PrintAll(inner.cells);
            && CharAt(s, h, if inner.square then '[' else '{') && At(s, h + 1, body)
            && CharAt(s, h + 1 + |body|, if inner.square then ']' else '}') && |InnerText(inner)| == |body| + 2
  {
    hide At, PrintAll;
    var square, body := inner.square, PrintAll(inner.cells);
    AtSplit(s, h, Open(square), body + Close(square));
    AtSplit(s, h + 1, body, Close(square));
    AtChar(s, h, Open(square)[0]);
    AtChar(s, h + 1 + |body|, Close(square)[0]);
  }

  lemma LeafText(inner: Inner)
    requires inner.Leaf?
    ensures InnerText(inner) == ""
  {}

  lemma FollowsNotOpen(s: string, e: nat)
    requires Follows(s, e)
    ensures !Opens(s, e)
  {}

  lemma {:induction false} PrintedAllIsRead(s: string, o: nat, cells: seq<Cell>, depth: nat)
    requires cells != [] && (forall i :: 0 <= i < |cells| ==> Valid(cells[i], depth))
    requires At(s, o, PrintAll(cells))
    requires var e := o + |PrintAll(cells)|; CharAt(s, e, ']') || CharAt(s, e, '}')
    ensures o <= |s| && CellsAt(s, o, depth) == Some((o + |PrintAll(cells)|, cells))
    decreases cells, 0
  {
    hide At, Valid, Print, CellAt, NumberThen;
    var first := cells[0];
    if |cells| == 1 {
      PrintedIsRead(s, o, first, depth);
      assert cells == [first];
    } else {
      var rest := cells[1..];
      AtSplit(s, o, Print(first), "," + PrintAll(rest));
      var e := o + |Print(first)|;
      AtSplit(s, e, ",", PrintAll(rest));
      AtChar(s, e, ',');
      StartsAll(s, e + 1, rest, depth);
      PrintedIsRead(s, o, first, depth);
      PrintedAllIsRead(s, e + 1, rest, depth);
      assert cells == [first] + rest;
      ListGoesOn(s, o, depth, first, e, rest);
      hide CellsAt;
    }
  }

  lemma ListGoesOn(s: string, o: nat, depth: nat, first: Cell, e: nat, rest: seq<Cell>)
    requires o <= |s| && CellAt(s, o, depth) == Some((e, first)) && CharAt(s, e, ',')
    requires CellsAt(s, e + 1, depth).Some? && CellsAt(s, e + 1, depth).value.1 == rest
    ensures CellsAt(s, o, depth) == Some((CellsAt(s, e + 1, depth).value.0, [first] + rest))
  {
    hide CellAt;
  }

  lemma StartsAll(s: string, o: nat, cells: seq<Cell>, depth: nat)
    requires cells != [] && Valid(cells[0], depth) && At(s, o, PrintAll(cells))
    ensures o <= |s| && NumberThen(s, o, 'x').Some?
  {
    hide At, Valid, Print, NumberThen;
    if |cells| > 1 { AtSplit(s, o, Print(cells[0]), "," + PrintAll(cells[1..])); }
    PrintStarts(s, o, cells[0], depth);
  }

  function Parse(s: string): Option<Cell> {
    var r := CellAt(s, 0, 0);
    if r.Some? && r.value.0 == |s| then Some(r.value.1) else None
  }

  /** Printing then parsing gives back every valid tree. */
  lemma RoundTrip(c: Cell)
    requires Valid(c, 0)
    ensures Parse(Print(c)) == Some(c)
  {
    var s := Print(c);
    assert s[0..0 + |s|] == s;
    PrintedIsRead(s, 0, c, 0);
  }

  /** The parser accepts exactly the printed forms of valid trees, and different trees print differently. */
  lemma AcceptsTheGrammar(s: string)
    ensures Parse(s).Some? <==> exists c :: Valid(c, 0) && Print(c) == s
    ensures forall c :: Valid(c, 0) && Print(c) == s ==> Parse(s) == Some(c)
  {
    forall c | Valid(c, 0) && Print(c) == s ensures Parse(s) == Some(c) { RoundTrip(c); }
    if Parse(s).Some? {
      ReadIsPrinted(s, 0, 0);
      assert s[0..0 + |s|] == s;
      assert Valid(Parse(s).value, 0) && Print(Parse(s).value) == s;
    }
  }

  // ---------------------------------------------------------------- checksum

  const CHECKSUM_LIMIT: nat := 65536

  /** Rotate right by one bit in 16, then add a byte. */
  function Mix(sum: nat, b: char): (r: nat)
    ensures r < CHECKSUM_LIMIT
  {
    (Rotated(sum) + b as nat % 256) % CHECKSUM_LIMIT
  }

  function Rotated(sum: nat): nat { sum / 2 + sum % 2 * 32768 }

  lemma RotatedInjective(x: nat, y: nat)
    requires x < CHECKSUM_LIMIT && y < CHECKSUM_LIMIT && x != y
    ensures Rotated(x) != Rotated(y) && Rotated(x) < CHECKSUM_LIMIT && Rotated(y) < CHECKSUM_LIMIT
  {}

  function Checksum(s: string): (r: nat)
    ensures r < CHECKSUM_LIMIT
  {
    if s == "" then 0 else Mix(Checksum(s[..|s| - 1]), s[|s| - 1])
  }

  lemma MixInjective(x: nat, y: nat, b: char)
    requires x < CHECKSUM_LIMIT && y < CHECKSUM_LIMIT && x != y
    ensures Mix(x, b) != Mix(y, b)
  {
    hide Rotated;
    RotatedInjective(x, y);
    SumsDiffer(Rotated(x), Rotated(y), b as nat % 256);
  }

  lemma SumsDiffer(x: nat, y: nat, n: nat)
    requires x < CHECKSUM_LIMIT && y < CHECKSUM_LIMIT && x != y && n < 256
    ensures (x + n) % CHECKSUM_LIMIT != (y + n) % CHECKSUM_LIMIT
  {
    Wraps(x + n);
    Wraps(y + n);
  }

  lemma Wraps(n: nat)
    requires n < 2 * CHECKSUM_LIMIT
    ensures n % CHECKSUM_LIMIT == if n < CHECKSUM_LIMIT then n else n - CHECKSUM_LIMIT
  {}

  lemma MixSeparates(x: nat, a: char, b: char)
    requires a as nat < 256 && b as nat < 256 && a != b
    ensures Mix(x, a) != Mix(x, b)
  {
    hide Rotated;
  }

  /** Changing any one byte of a body changes its checksum. */
  lemma {:induction false} SubstitutionChangesChecksum(s: string, i: nat, b: char)
    requires i < |s| && s[i] as nat < 256 && b as nat < 256 && s[i] != b
    ensures Checksum(s[i := b]) != Checksum(s)
    decreases |s|
  {
    var t, n := s[i := b], |s| - 1;
    if i == n {
      assert t[..n] == s[..n];
      MixSeparates(Checksum(s[..n]), s[n], b);
    } else {
      assert t[..n] == s[..n][i := b];
      SubstitutionChangesChecksum(s[..n], i, b);
      MixInjective(Checksum(t[..n]), Checksum(s[..n]), s[n]);
    }
  }

  method ComputeChecksum(body: string) returns (sum: nat)
    ensures sum == Checksum(body)
  {
    sum := 0;
    for i := 0 to |body|
      invariant sum == Checksum(body[..i])
    {
      assert body[..i + 1][..i] == body[..i];
      sum := sum / 2 + sum % 2 * 32768;
      sum := (sum + body[i] as nat % 256) % CHECKSUM_LIMIT;
    }
    assert body[..|body|] == body;
  }

  // --------------------------------------------------------------- the reader

  lemma {:induction false} LongerIsLarger(s: string, k: nat)
    requires k <= |s| && Control.AllDigits(s)
    ensures Control.DigitsValue(s[..k]) <= Control.DigitsValue(s)
    decreases |s|
  {
    if k < |s| {
      LongerIsLarger(s[..|s| - 1], k);
      assert s[..|s| - 1][..k] == s[..k];
    } else {
      assert s[..k] == s;
    }
  }

  /** The validating reader: it moves an offset and counts leaves, and builds nothing. */
  class LayoutSyntax {
    const input: string
    var offset: nat
    var leaves: nat

    ghost predicate Valid()
      reads this
    {
      offset <= |input|
    }

    constructor (input: string)
      ensures this.input == input && offset == 0 && leaves == 0
    {
      this.input := input;
      offset, leaves := 0, 0;
    }

    method Take(value: char) returns (ok: bool)
      requires Valid()
      modifies this`offset
      ensures Valid() && ok == CharAt(input, old(offset), value)
      ensures offset == if ok then old(offset) + 1 else old(offset)
    {
      if offset == |input| || input[offset] != value { return false; }
      offset := offset + 1;
      return true;
    }

    /** Stops early, with the offset anywhere, when the value leaves 32 bits. */
    method Number() returns (ok: bool)
      requires Valid()
      modifies this`offset
      ensures Valid() && ok == NumberAt(input, old(offset)).Some?
      ensures ok ==> offset == NumberAt(input, old(offset)).value
    {
      var start, value := offset, 0;
      ghost var end := DigitsEnd(input, start);
      while offset < |input| && Control.IsDigit(input[offset])
        invariant start <= offset <= end
        invariant Control.AllDigits(input[start..offset])
                  && value == Control.DigitsValue(input[start..offset]) < UINT32_LIMIT
        decreases |input| - offset
      {
        var digit := input[offset] as nat - 48;
        ghost var longer := input[start..offset + 1];
        assert longer[..|longer| - 1] == input[start..offset] && longer[|longer| - 1] == input[offset];
        assert Control.DigitsValue(longer) == value * 10 + digit;
        if value > (UINT32_LIMIT - 1 - digit) / 10 {
          assert Control.AllDigits(input[start..end]);
          LongerIsLarger(input[start..end], |longer|);
          assert input[start..end][..|longer|] == longer;
          return false;
        }
        value := value * 10 + digit;
        offset := offset + 1;
      }
      assert offset == end;
      return offset > start;
    }

    method NumberPair(separator: char) returns (ok: bool)
      requires Valid()
      modifies this`offset
      ensures Valid() && ok == PairAt(input, old(offset), separator).Some?
      ensures ok ==> offset == PairAt(input, old(offset), separator).value.end
    {
      hide NumberAt;
      ok := Number();
      if !ok { return; }
      ok := Take(separator);
      if !ok { return; }
      ok := Number();
    }

    /** A pane id is optional; the offset goes back when the number was the next cell's width. */
    method PaneNumber()
      requires Valid()
      modifies this`offset
      ensures offset == if PaneAt(input, old(offset)).Some? then PaneAt(input, old(offset)).value else old(offset)
    {
      hide NumberAt;
      if offset < |input| && input[offset] == ',' {
        var saved := offset;
        offset := offset + 1;
        var number := Number();
        if !number || (offset < |input| && input[offset] == 'x') { offset := saved; }
      }
    }

    method Header() returns (ok: bool)
      requires Valid()
      modifies this`offset
      ensures Valid() && ok == HeadAt(input, old(offset)).Some?
      ensures ok ==> offset == HeadAt(input, old(offset)).value.0
    {
      hide PairAt, PaneAt, IsNumber;
      ok := NumberPair('x');
      if !ok { return; }
      ok := Take(',');
      if !ok { return; }
      ok := NumberPair(',');
      if !ok { return; }
      PaneNumber();
    }

    method CellSyntax(depth: nat) returns (ok: bool)
      requires Valid()
      modifies this`offset, this`leaves
      ensures Valid() && ok == CellAt(input, old(offset), depth).Some?
      ensures ok ==>
                var (e, c) := CellAt(input, old(offset), depth).value;
                offset == e && leaves == old(leaves) + Leaves(c)
      decreases Room(depth), 0
    {
      hide HeadAt, CellsAt, LeavesAll;
      if depth > MAX_DEPTH { return false; }
      ok := Header();
      if !ok { return; }
      if offset == |input| || (input[offset] != '[' && input[offset] != '{') {
        leaves := leaves + 1;
        return true;
      }
      var close := if input[offset] == '[' then ']' else '}';
      offset := offset + 1;
      ok := CellList(depth + 1);
      if !ok { return; }
      ok := Take(close);
    }

    /** One cell after another while commas follow. */
    method CellList(depth: nat) returns (ok: bool)
      requires Valid()
      modifies this`offset, this`leaves
      ensures Valid() && ok == CellsAt(input, old(offset), depth).Some?
      ensures ok ==>
                var (e, cells) := CellsAt(input, old(offset), depth).value;
                offset == e && leaves == old(leaves) + LeavesAll(cells)
      decreases Room(depth), 1
    {
      hide CellAt, Leaves;
      ghost var read: seq<Cell> := [];
      var more := true;
      ok := true;
      NothingRead(CellsAt(input, offset, depth));
      while more
        invariant ok && Valid() && leaves == old(leaves) + LeavesAll(read)
        invariant CellsAt(input, old(offset), depth) ==
          if more then Prefixed(read, CellsAt(input, offset, depth)) else Some((offset, read))
        decreases |input| - offset, more
      {
        ghost var before := offset;
        ok := CellSyntax(depth);
        if !ok { return; }
        ghost var c := CellAt(input, before, depth).value.1;
        LeavesSnoc(read, c);
        more := Take(',');
        PrefixedSnoc(read, c, if more then CellsAt(input, offset, depth) else None);
        read := read + [c];
      }
    }
  }

  function Room(depth: nat): nat { if depth > MAX_DEPTH then 0 else MAX_DEPTH + 1 - depth }

  lemma NothingRead(rest: Option<(nat, seq<Cell>)>)
    ensures Prefixed([], rest) == rest
  {
    if rest.Some? { assert [] + rest.value.1 == rest.value.1; }
  }

  lemma PrefixedSnoc(read: seq<Cell>, c: Cell, rest: Option<(nat, seq<Cell>)>)
    ensures Prefixed(read + [c], rest) ==
            Prefixed(read, if rest.None? then None else Some((rest.value.0, [c] + rest.value.1)))
  {
    if rest.Some? { assert (read + [c]) + rest.value.1 == read + ([c] + rest.value.1); }
  }

  ghost function Prefixed(read: seq<Cell>, rest: Option<(nat, seq<Cell>)>): Option<(nat, seq<Cell>)> {
    if rest.None? then None else Some((rest.value.0, read + rest.value.1))
  }

  lemma {:induction false} LeavesSnoc(cells: seq<Cell>, c: Cell)
    ensures LeavesAll(cells + [c]) == LeavesAll(cells) + Leaves(c)
    decreases |cells|
  {
    if cells == [] {
      assert [] + [c] == [c] && [c][1..] == [];
    } else {
      assert (cells + [c])[1..] == cells[1..] + [c];
      LeavesSnoc(cells[1..], c);
    }
  }
}
