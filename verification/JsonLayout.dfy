/**
 * JSON saved layouts: the reader's JSON subset, the tree it stands for, and the conditions on the
 * whole tree of cells under which a layout is accepted.
 */
module JsonLayout {
  import opened Prelude
  import Control = ControlParser
  import Saved = SavedLayout

  // ---------------------------------------------------------------- the trees

  /** Keys and strings keep their escapes undecoded, numbers their spelling. Arrays hold objects only. */
  datatype Json =
    | Text(text: string) | Number(digits: string, number: int) | Truth(truth: bool)
    | Object(members: seq<Member>) | Array(items: seq<Json>)

  datatype Member = Member(key: string, value: Json)

  const MAX_DEPTH: nat := 200

  // ------------------------------------------------------------- characters

  predicate IsSpace(c: char) { c == ' ' || c == '\t' || c == '\r' || c == '\n' }

  const FORM_FEED := 12 as char
  const VERTICAL_TAB := 11 as char

  /** C's notion of a space, which only the start of the text is held to. */
  predicate IsLayoutSpace(c: char) { IsSpace(c) || c == FORM_FEED || c == VERTICAL_TAB }

  predicate IsHex(c: char) { '0' <= c <= '9' || 'a' <= c <= 'f' || 'A' <= c <= 'F' }

  predicate IsPlainEscape(c: char) {
    c == '"' || c == '\\' || c == '/' || c == 'b' || c == 'f' || c == 'n' || c == 'r' || c == 't'
  }

  function Space(s: string, o: nat): (e: nat)
    requires o <= |s|
    ensures o <= e <= |s| && (e < |s| ==> !IsSpace(s[e])) && forall i :: o <= i < e ==> IsSpace(s[i])
    decreases |s| - o
  {
    if o < |s| && IsSpace(s[o]) then Space(s, o + 1) else o
  }

  function LayoutSpace(s: string, o: nat): (e: nat)
    requires o <= |s|
    ensures o <= e <= |s| && (e < |s| ==> !IsLayoutSpace(s[e])) && forall i :: o <= i < e ==> IsLayoutSpace(s[i])
    decreases |s| - o
  {
    if o < |s| && IsLayoutSpace(s[o]) then LayoutSpace(s, o + 1) else o
  }

  // --------------------------------------------------------------- the syntax

  predicate FourHex(s: string, o: nat) {
    o + 4 <= |s| && IsHex(s[o]) && IsHex(s[o + 1]) && IsHex(s[o + 2]) && IsHex(s[o + 3])
  }

  /** How many characters one string element takes at `o`; zero when none can start there. */
  function Element(s: string, o: nat): (n: nat)
    requires o < |s|
    ensures o + n <= |s|
  {
    if s[o] == '"' || s[o] as int < 0x20 then 0
    else if s[o] != '\\' then 1
    else if o + 1 == |s| then 0
    else if s[o + 1] == 'u' then if FourHex(s, o + 2) then 6 else 0
    else if IsPlainEscape(s[o + 1]) then 2
    else 0
  }

  /** The closing quote of a string whose first element would stand at `o`. */
  function QuoteAt(s: string, o: nat): (r: Option<nat>)
    requires o <= |s|
    ensures r.Some? ==> o <= r.value < |s| && s[r.value] == '"'
    decreases |s| - o
  {
    if o == |s| then None
    else if s[o] == '"' then Some(o)
    else if Element(s, o) == 0 then None
    else QuoteAt(s, o + Element(s, o))
  }

  /** The text of a string token and where it ends; empty strings are refused. */
  function StringAt(s: string, o: nat): (r: Option<(nat, string)>)
    requires o <= |s|
    ensures r.Some? ==> o + 2 < r.value.0 <= |s|
  {
    var k := Space(s, o);
    if !Saved.CharAt(s, k, '"') then None
    else
      var q := QuoteAt(s, k + 1);
      if q.None? || q.value == k + 1 then None else Some((q.value + 1, s[k + 1..q.value]))
  }

  const INT64_LIMIT: int := 0x8000_0000_0000_0000

  /** An integer without leading zeros that fits 64 bits. */
  function IntegerAt(s: string, o: nat): (r: Option<(nat, Json)>)
    requires o <= |s|
    ensures r.Some? ==> o < r.value.0 <= |s| && r.value.1.Number?
  {
    var d := if Saved.CharAt(s, o, '-') then o + 1 else o;
    var e := Saved.DigitsEnd(s, d);
    if d == e || (s[d] == '0' && e - d != 1) then None
    else
      Saved.DigitSlice(s, d, e);
      var magnitude: int := Control.DigitsValue(s[d..e]);
      var number := if d == o then magnitude else 0 - magnitude;
      if -INT64_LIMIT <= number < INT64_LIMIT then Some((e, Number(s[o..e], number))) else None
  }

  predicate LiteralAt(s: string, o: nat, t: string) { o + |t| <= |s| && s[o..o + |t|] == t }

  function ValueAt(s: string, o: nat, depth: nat): (r: Option<(nat, Json)>)
    requires o <= |s|
    ensures r.Some? ==> o < r.value.0 <= |s|
    decreases |s| - o, 2
  {
    var k := Space(s, o);
    if k == |s| then None
    else if s[k] == '{' then ObjectAt(s, k, depth + 1)
    else if s[k] == '[' then
      var first := Space(s, k + 1);
      if Saved.CharAt(s, first, ']') then Some((first + 1, Array([])))
      else
        var items := ItemsAt(s, first, depth + 1);
        if items.None? || !Saved.CharAt(s, items.value.0, ']') then None
        else Some((items.value.0 + 1, Array(items.value.1)))
    else if s[k] == '"' then
      var t := StringAt(s, k);
      if t.None? then None else Some((t.value.0, Text(t.value.1)))
    else if LiteralAt(s, k, "true") then Some((k + 4, Truth(true)))
    else if LiteralAt(s, k, "false") then Some((k + 5, Truth(false)))
    else IntegerAt(s, k)
  }

  /** Objects separated by commas; the result ends past the space that follows the last. */
  function ItemsAt(s: string, o: nat, depth: nat): (r: Option<(nat, seq<Json>)>)
    requires o <= |s|
    ensures r.Some? ==> o < r.value.0 <= |s| && r.value.1 != [] && (r.value.0 < |s| ==> !IsSpace(s[r.value.0]))
    decreases |s| - o, 1
  {
    var first := ObjectAt(s, o, depth);
    if first.None? then None
    else
      var e := Space(s, first.value.0);
      if !Saved.CharAt(s, e, ',') then Some((e, [first.value.1]))
      else
        var rest := ItemsAt(s, e + 1, depth);
        if rest.None? then None else Some((rest.value.0, [first.value.1] + rest.value.1))
  }

  function ObjectAt(s: string, o: nat, depth: nat): (r: Option<(nat, Json)>)
    requires o <= |s|
    ensures r.Some? ==> o < r.value.0 <= |s| && r.value.1.Object?
    decreases |s| - o, 0
  {
    var k := Space(s, o);
    if depth > MAX_DEPTH || !Saved.CharAt(s, k, '{') then None
    else
      var first := Space(s, k + 1);
      if Saved.CharAt(s, first, '}') then Some((first + 1, Object([])))
      else
        var members := MembersAt(s, first, depth, {});
        if members.None? || !Saved.CharAt(s, members.value.0, '}') then None
        else Some((members.value.0 + 1, Object(members.value.1)))
  }

  /** Members separated by commas, each with a key not seen before. */
  function MembersAt(s: string, o: nat, depth: nat, seen: set<string>): (r: Option<(nat, seq<Member>)>)
    requires o <= |s|
    ensures r.Some? ==> o < r.value.0 <= |s| && r.value.1 != [] && (r.value.0 < |s| ==> !IsSpace(s[r.value.0]))
    decreases |s| - o, 3
  {
    var first := MemberAt(s, o, depth, seen);
    if first.None? then None
    else
      var e := Space(s, first.value.0);
      if !Saved.CharAt(s, e, ',') then Some((e, [first.value.1]))
      else
        var rest := MembersAt(s, e + 1, depth, seen + {first.value.1.key});
        if rest.None? then None else Some((rest.value.0, [first.value.1] + rest.value.1))
  }

  function MemberAt(s: string, o: nat, depth: nat, seen: set<string>): (r: Option<(nat, Member)>)
    requires o <= |s|
    ensures r.Some? ==> o < r.value.0 <= |s|
    decreases |s| - o, 2
  {
    var key := StringAt(s, o);
    if key.None? || key.value.1 in seen then None
    else
      var colon := Space(s, key.value.0);
      if !Saved.CharAt(s, colon, ':') then None
      else
        var value := ValueAt(s, colon + 1, depth);
        if value.None? then None else Some((value.value.0, Member(key.value.1, value.value.1)))
  }

  // --------------------------------------------- what the reader keeps of a value

  datatype Summary =
    | Absent | TextValue(text: string) | NumberValue(number: int) | TruthValue(truth: bool) | ObjectValue
    | ArrayValue(count: nat)

  type Fields = map<string, Summary>

  function Summarize(j: Json): Summary {
    match j
    case Text(text) => TextValue(text)
    case Number(_, number) => NumberValue(number)
    case Truth(truth) => TruthValue(truth)
    case Object(_) => ObjectValue
    case Array(items) => ArrayValue(|items|)
  }

  function FieldsOf(members: seq<Member>): Fields
    decreases |members|
  {
    if members == [] then map[]
    else FieldsOf(members[..|members| - 1])[members[|members| - 1].key := Summarize(members[|members| - 1].value)]
  }

  function Field(fields: Fields, key: string): Summary { if key in fields then fields[key] else Absent }

  predicate InRange(v: Summary, low: int, high: int) { v.NumberValue? && low <= v.number <= high }

  const INT32_MAX: int := 0x7fff_ffff

  // ------------------------------------------- conditions on the tree of cells

  predicate IsPane(f: Fields) { Field(f, "t") == TextValue("p") }

  predicate SizesOk(f: Fields) {
    && InRange(Field(f, "w"), 1, 10000) && InRange(Field(f, "h"), 1, 10000)
    && InRange(Field(f, "x"), -10000, 10000) && InRange(Field(f, "y"), -10000, 10000)
  }

  predicate PaneOk(f: Fields) {
    && Field(f, "c").Absent? && InRange(Field(f, "i"), 0, INT32_MAX)
    && (Field(f, "a").Absent? || Field(f, "a").TruthValue?)
    && (HasLast(f) ==> InRange(Field(f, "l"), 0, INT32_MAX))
    && (HasFloating(f) ==> InRange(Field(f, "z"), 0, INT32_MAX - 1))
  }

  /** A last-pane index counts only where no active mark stands, whatever that mark says. */
  predicate HasLast(f: Fields) { Field(f, "a").Absent? && !Field(f, "l").Absent? }

  predicate HasFloating(f: Fields) { !Field(f, "z").Absent? }

  predicate IsActive(f: Fields) { Field(f, "a") == TruthValue(true) }

  predicate CellOk(f: Fields) {
    && (Field(f, "t") == TextValue("p") || Field(f, "t") == TextValue("h") || Field(f, "t") == TextValue("v"))
    && SizesOk(f)
    && (if IsPane(f) then PaneOk(f) else Field(f, "c").ArrayValue? && Field(f, "c").count >= 2)
  }

  datatype Role = Root | Cell | Ignored

  function ChildRole(role: Role, key: string): Role {
    if (role.Root? && key == "L") || (role.Cell? && key == "c") then Cell else Ignored
  }

  predicate RootOk(f: Fields) { InRange(Field(f, "V"), 2, 2) && Field(f, "L").ObjectValue? }

  /** Every cell under a value meets its own conditions. */
  predicate CellsOk(j: Json, role: Role)
    decreases j, 1
  {
    match j
    case Object(members) =>
      || role.Ignored?
      || (MembersOk(members, role) && if role.Root? then RootOk(FieldsOf(members)) else CellOk(FieldsOf(members)))
    case Array(items) => role.Ignored? || ItemsOk(items, role)
    case _ => true
  }

  predicate MembersOk(members: seq<Member>, role: Role)
    decreases members, 0
  {
    forall i :: 0 <= i < |members| ==> CellsOk(members[i].value, ChildRole(role, members[i].key))
  }

  predicate ItemsOk(items: seq<Json>, role: Role)
    decreases items, 0
  {
    forall i :: 0 <= i < |items| ==> CellsOk(items[i], role)
  }

  /** The panes under a value, children before their parents' later siblings. */
  function Panes(j: Json, role: Role): seq<Fields>
    decreases j, 1
  {
    match j
    case Object(members) =>
      if role.Ignored? then []
      else MemberPanes(members, role) + if role.Cell? && IsPane(FieldsOf(members)) then [FieldsOf(members)] else []
    case Array(items) => if role.Ignored? then [] else ItemPanes(items, role)
    case _ => []
  }

  function MemberPanes(members: seq<Member>, role: Role): seq<Fields>
    decreases members, 0
  {
    if members == [] then []
    else
      MemberPanes(members[..|members| - 1], role) +
      Panes(members[|members| - 1].value, ChildRole(role, members[|members| - 1].key))
  }

  function ItemPanes(items: seq<Json>, role: Role): seq<Fields>
    decreases items, 0
  {
    if items == [] then [] else ItemPanes(items[..|items| - 1], role) + Panes(items[|items| - 1], role)
  }

  // ------------------------------------------------- checking while reading

  datatype Tally = Tally(leaves: nat, active: nat, indexes: set<int>, floating: set<int>, last: set<int>)

  const EMPTY_TALLY := Tally(0, 0, {}, {}, {})

  /** One more pane, refused when it repeats a number or is a second active one. */
  function AddPane(t: Tally, f: Fields): Option<Tally>
    requires PaneOk(f)
  {
    if Field(f, "i").number in t.indexes || (IsActive(f) && t.active >= 1) then None
    else if HasLast(f) && Field(f, "l").number in t.last then None
    else if HasFloating(f) && Field(f, "z").number in t.floating then None
    else
      Some(Tally(
             t.leaves + 1, if IsActive(f) then t.active + 1 else t.active, t.indexes + {Field(f, "i").number},
             if HasFloating(f) then t.floating + {Field(f, "z").number} else t.floating,
             if HasLast(f) then t.last + {Field(f, "l").number} else t.last))
  }

  function CheckCell(t: Option<Tally>, f: Fields): Option<Tally> {
    if t.None? || !CellOk(f) then None else if IsPane(f) then AddPane(t.value, f) else t
  }

  /** The checks in the order the reader meets them: children first, then the object itself. */
  function Check(t: Option<Tally>, j: Json, role: Role): Option<Tally>
    decreases j, 1
  {
    match j
    case Object(members) =>
      if role.Ignored? then t
      else
        var inner := CheckMembers(t, members, role);
        if role.Cell? then CheckCell(inner, FieldsOf(members)) else if RootOk(FieldsOf(members)) then inner else None
    case Array(items) => if role.Ignored? then t else CheckItems(t, items, role)
    case _ => t
  }

  function CheckMembers(t: Option<Tally>, members: seq<Member>, role: Role): Option<Tally>
    decreases members, 0
  {
    if members == [] then t
    else
      Check(CheckMembers(t, members[..|members| - 1], role), members[|members| - 1].value,
            ChildRole(role, members[|members| - 1].key))
  }

  function CheckItems(t: Option<Tally>, items: seq<Json>, role: Role): Option<Tally>
    decreases items, 0
  {
    if items == [] then t else Check(CheckItems(t, items[..|items| - 1], role), items[|items| - 1], role)
  }

  lemma {:induction false} NoneStays(j: Json, role: Role)
    ensures Check(None, j, role) == None
    decreases j, 1
  {
    match j
    case Object(members) => if !role.Ignored? { NoneStaysMembers(members, role); }
    case Array(items) => if !role.Ignored? { NoneStaysItems(items, role); }
    case _ =>
  }

  lemma {:induction false} NoneStaysMembers(members: seq<Member>, role: Role)
    ensures CheckMembers(None, members, role) == None
    decreases members, 0
  {
    if members != [] {
      var n := |members| - 1;
      NoneStaysMembers(members[..n], role);
      NoneStays(members[n].value, ChildRole(role, members[n].key));
    }
  }

  lemma {:induction false} NoneStaysItems(items: seq<Json>, role: Role)
    ensures CheckItems(None, items, role) == None
    decreases items, 0
  {
    if items != [] {
      var n := |items| - 1;
      NoneStaysItems(items[..n], role);
      NoneStays(items[n], role);
    }
  }

  lemma {:induction false} CheckMembersAppend(t: Option<Tally>, a: seq<Member>, b: seq<Member>, role: Role)
    ensures CheckMembers(t, a + b, role) == CheckMembers(CheckMembers(t, a, role), b, role)
    decreases |b|
  {
    if b == [] {
      assert a + b == a;
    } else {
      var n := |b| - 1;
      assert (a + b)[..|a + b| - 1] == a + b[..n];
      CheckMembersAppend(t, a, b[..n], role);
    }
  }

  lemma {:induction false} CheckItemsAppend(t: Option<Tally>, a: seq<Json>, b: seq<Json>, role: Role)
    ensures CheckItems(t, a + b, role) == CheckItems(CheckItems(t, a, role), b, role)
    decreases |b|
  {
    if b == [] {
      assert a + b == a;
    } else {
      var n := |b| - 1;
      assert (a + b)[..|a + b| - 1] == a + b[..n];
      CheckItemsAppend(t, a, b[..n], role);
    }
  }

  // --------------------------------- checking in order is a condition on the whole

  ghost predicate AllPanesOk(panes: seq<Fields>) { forall i :: 0 <= i < |panes| ==> PaneOk(panes[i]) }

  function AddAll(t: Option<Tally>, panes: seq<Fields>): Option<Tally>
    requires AllPanesOk(panes)
    decreases |panes|
  {
    if panes == [] then t
    else
      var before := AddAll(t, panes[..|panes| - 1]);
      if before.None? then None else AddPane(before.value, panes[|panes| - 1])
  }

  lemma {:induction false} AddAllAppend(t: Option<Tally>, a: seq<Fields>, b: seq<Fields>)
    requires AllPanesOk(a) && AllPanesOk(b)
    ensures AllPanesOk(a + b) && AddAll(t, a + b) == AddAll(AddAll(t, a), b)
    decreases |b|
  {
    if b == [] {
      assert a + b == a;
    } else {
      var n := |b| - 1;
      assert (a + b)[..|a + b| - 1] == a + b[..n];
      AddAllAppend(t, a, b[..n]);
    }
  }

  lemma {:induction false} PanesAreOk(j: Json, role: Role)
    requires CellsOk(j, role)
    ensures AllPanesOk(Panes(j, role))
    decreases j, 1
  {
    match j
    case Object(members) => if !role.Ignored? { MemberPanesAreOk(members, role); hide FieldsOf; }
    case Array(items) => if !role.Ignored? { ItemPanesAreOk(items, role); }
    case _ =>
  }

  lemma {:induction false} MemberPanesAreOk(members: seq<Member>, role: Role)
    requires MembersOk(members, role)
    ensures AllPanesOk(MemberPanes(members, role))
    decreases members, 0
  {
    if members != [] {
      var n := |members| - 1;
      MemberPanesAreOk(members[..n], role);
      PanesAreOk(members[n].value, ChildRole(role, members[n].key));
    }
  }

  lemma {:induction false} ItemPanesAreOk(items: seq<Json>, role: Role)
    requires ItemsOk(items, role)
    ensures AllPanesOk(ItemPanes(items, role))
    decreases items, 0
  {
    if items != [] {
      var n := |items| - 1;
      ItemPanesAreOk(items[..n], role);
      PanesAreOk(items[n], role);
    }
  }

  ghost function Added(t: Option<Tally>, ok: bool, panes: seq<Fields>): Option<Tally> {
    if ok && AllPanesOk(panes) then AddAll(t, panes) else None
  }

  /** The checks made on the way succeed exactly when every cell is in order and its panes can all be added. */
  lemma {:induction false} CheckIsAddAll(t: Option<Tally>, j: Json, role: Role)
    ensures Check(t, j, role) == Added(t, CellsOk(j, role), Panes(j, role))
    decreases j, 1
  {
    match j
    case Object(members) =>
      if !role.Ignored? {
        CheckMembersIsAddAll(t, members, role);
        CheckObjectIsAddAll(t, members, role);
      }
    case Array(items) => if !role.Ignored? { CheckItemsIsAddAll(t, items, role); }
    case _ =>
  }

  lemma CheckObjectIsAddAll(t: Option<Tally>, members: seq<Member>, role: Role)
    requires !role.Ignored?
             && CheckMembers(t, members, role) == Added(t, MembersOk(members, role), MemberPanes(members, role))
    ensures Check(t, Object(members), role) == Added(t, CellsOk(Object(members), role), Panes(Object(members), role))
  {
    var f, inner := FieldsOf(members), MemberPanes(members, role);
    if MembersOk(members, role) { MemberPanesAreOk(members, role); }
    hide FieldsOf, MembersOk, CheckMembers, MemberPanes, SizesOk;
    if role.Cell? && CellOk(f) && IsPane(f) && MembersOk(members, role) {
      AddAllAppend(t, inner, [f]);
      assert [f][..0] == [] && inner + [f] == Panes(Object(members), role);
      AddOne(CheckMembers(t, members, role), f);
    } else {
      assert inner + [] == inner;
    }
  }

  lemma AddOne(t: Option<Tally>, f: Fields)
    requires PaneOk(f)
    ensures AllPanesOk([f]) && AddAll(t, [f]) == if t.None? then None else AddPane(t.value, f)
  {
    assert [f][..|[f]| - 1] == [];
    assert AddAll(t, []) == t;
  }

  lemma {:induction false} CheckMembersIsAddAll(t: Option<Tally>, members: seq<Member>, role: Role)
    ensures CheckMembers(t, members, role) == Added(t, MembersOk(members, role), MemberPanes(members, role))
    decreases members, 0
  {
    if members != [] {
      var n := |members| - 1;
      var front, last, r := members[..n], members[n].value, ChildRole(role, members[n].key);
      CheckMembersIsAddAll(t, front, role);
      CheckIsAddAll(CheckMembers(t, front, role), last, r);
      assert MembersOk(members, role) <==> MembersOk(front, role) && CellsOk(last, r) by { hide CellsOk; }
      AddedTwice(t, MembersOk(front, role), MemberPanes(front, role), CellsOk(last, r), Panes(last, r));
      if MembersOk(front, role) { MemberPanesAreOk(front, role); }
      if CellsOk(last, r) { PanesAreOk(last, r); }
      hide CellsOk, Panes, MembersOk, Check, Added;
    }
  }

  lemma {:induction false} CheckItemsIsAddAll(t: Option<Tally>, items: seq<Json>, role: Role)
    ensures CheckItems(t, items, role) == Added(t, ItemsOk(items, role), ItemPanes(items, role))
    decreases items, 0
  {
    if items != [] {
      var n := |items| - 1;
      var front, last := items[..n], items[n];
      CheckItemsIsAddAll(t, front, role);
      CheckIsAddAll(CheckItems(t, front, role), last, role);
      assert ItemsOk(items, role) <==> ItemsOk(front, role) && CellsOk(last, role) by { hide CellsOk; }
      AddedTwice(t, ItemsOk(front, role), ItemPanes(front, role), CellsOk(last, role), Panes(last, role));
      if ItemsOk(front, role) { ItemPanesAreOk(front, role); }
      if CellsOk(last, role) { PanesAreOk(last, role); }
      hide CellsOk, Panes, ItemsOk, Check, Added;
    }
  }

  lemma AddedTwice(t: Option<Tally>, p: bool, a: seq<Fields>, q: bool, b: seq<Fields>)
    ensures (p ==> AllPanesOk(a)) && (q ==> AllPanesOk(b)) ==> Added(Added(t, p, a), q, b) == Added(t, p && q, a + b)
  {
    if AllPanesOk(a) && AllPanesOk(b) {
      AddAllAppend(t, a, b);
    }
    if AllPanesOk(b) { AddAllNone(b); }
  }

  lemma {:induction false} AddAllNone(panes: seq<Fields>)
    requires AllPanesOk(panes)
    ensures AddAll(None, panes) == None
    decreases |panes|
  {
    if panes != [] { AddAllNone(panes[..|panes| - 1]); }
  }

  // ------------------------------------------------------ unique over the tree

  datatype Kind = ByIndex | ByLast | ByFloating

  predicate HasNumber(f: Fields, k: Kind) {
    match k case ByIndex => true case ByLast => HasLast(f) case ByFloating => HasFloating(f)
  }

  function NumberOf(f: Fields, k: Kind): int
    requires PaneOk(f) && HasNumber(f, k)
  {
    match k
    case ByIndex => Field(f, "i").number
    case ByLast => Field(f, "l").number
    case ByFloating => Field(f, "z").number
  }

  /** The numbers of one kind that the panes carry. */
  function Numbers(panes: seq<Fields>, k: Kind): seq<int>
    requires AllPanesOk(panes)
    decreases |panes|
  {
    if panes == [] then []
    else
      Numbers(panes[..|panes| - 1], k) +
      if HasNumber(panes[|panes| - 1], k) then [NumberOf(panes[|panes| - 1], k)] else []
  }

  function Actives(panes: seq<Fields>): nat
    decreases |panes|
  {
    if panes == [] then 0 else Actives(panes[..|panes| - 1]) + if IsActive(panes[|panes| - 1]) then 1 else 0
  }

  ghost predicate Unique(panes: seq<Fields>)
    requires AllPanesOk(panes)
  {
    (forall k :: Distinct(Numbers(panes, k))) && Actives(panes) <= 1
  }

  function SeenOf(t: Tally, k: Kind): set<int> {
    match k case ByIndex => t.indexes case ByLast => t.last case ByFloating => t.floating
  }

  ghost predicate Counts(t: Tally, panes: seq<Fields>)
    requires AllPanesOk(panes)
  {
    && t.leaves == |panes| && t.active == Actives(panes)
    && forall k, x :: x in SeenOf(t, k) <==> x in Numbers(panes, k)
  }

  lemma DistinctSnoc<T>(xs: seq<T>, x: T)
    ensures Distinct(xs + [x]) <==> Distinct(xs) && x !in xs
  {
    var ys := xs + [x];
    assert forall i :: 0 <= i < |xs| ==> ys[i] == xs[i];
    if Distinct(ys) {
      assert forall i, j :: 0 <= i < j < |xs| ==> ys[i] != ys[j];
      assert forall i :: 0 <= i < |xs| ==> ys[i] != ys[|xs|];
    }
  }

  /** Panes can all be added exactly when their numbers are unique and at most one is active. */
  lemma {:induction false} AddAllIsUnique(panes: seq<Fields>)
    requires AllPanesOk(panes)
    ensures AddAll(Some(EMPTY_TALLY), panes).Some? <==> Unique(panes)
    ensures AddAll(Some(EMPTY_TALLY), panes).Some? ==> Counts(AddAll(Some(EMPTY_TALLY), panes).value, panes)
    decreases |panes|
  {
    if panes != [] {
      var n := |panes| - 1;
      var front, f := panes[..n], panes[n];
      AddAllIsUnique(front);
      UniqueSnoc(panes);
      var t := AddAll(Some(EMPTY_TALLY), front);
      if t.Some? { AddPaneCounts(t.value, panes); }
      hide Unique, Counts, AddPane;
    }
  }

  ghost predicate Clashes(front: seq<Fields>, f: Fields)
    requires AllPanesOk(front) && PaneOk(f)
  {
    (exists k :: HasNumber(f, k) && NumberOf(f, k) in Numbers(front, k)) || (IsActive(f) && Actives(front) >= 1)
  }

  lemma UniqueSnoc(panes: seq<Fields>)
    requires panes != [] && AllPanesOk(panes)
    ensures Unique(panes) <==> Unique(panes[..|panes| - 1]) && !Clashes(panes[..|panes| - 1], panes[|panes| - 1])
  {
    var front, f := panes[..|panes| - 1], panes[|panes| - 1];
    forall k ensures Distinct(Numbers(panes, k)) <==>
                     Distinct(Numbers(front, k)) && (HasNumber(f, k) ==> NumberOf(f, k) !in Numbers(front, k)) {
      if HasNumber(f, k) { DistinctSnoc(Numbers(front, k), NumberOf(f, k)); }
      else { assert Numbers(front, k) + [] == Numbers(front, k); }
    }
    hide PaneOk, Distinct, HasNumber, NumberOf;
  }

  lemma AddPaneCounts(t: Tally, panes: seq<Fields>)
    requires panes != [] && AllPanesOk(panes) && Counts(t, panes[..|panes| - 1])
    ensures AddPane(t, panes[|panes| - 1]).Some? <==> !Clashes(panes[..|panes| - 1], panes[|panes| - 1])
    ensures AddPane(t, panes[|panes| - 1]).Some? ==> Counts(AddPane(t, panes[|panes| - 1]).value, panes)
  {
    var front, f := panes[..|panes| - 1], panes[|panes| - 1];
    assert forall k :: HasNumber(f, k) ==> (NumberOf(f, k) in SeenOf(t, k) <==> NumberOf(f, k) in Numbers(front, k));
    hide PaneOk;
    AddPaneSucceeds(t, f);
    var r := AddPane(t, f);
    if r.Some? {
      AddPaneAdds(t, f);
      hide AddPane, SeenOf, HasNumber, NumberOf;
      forall k, x ensures x in SeenOf(r.value, k) <==> x in Numbers(panes, k) {
        assert x in SeenOf(t, k) <==> x in Numbers(front, k);
      }
    }
  }

  lemma AddPaneSucceeds(t: Tally, f: Fields)
    requires PaneOk(f)
    ensures AddPane(t, f).Some? <==>
            !(exists k :: HasNumber(f, k) && NumberOf(f, k) in SeenOf(t, k)) && !(IsActive(f) && t.active >= 1)
  {
    if AddPane(t, f).None? && !(IsActive(f) && t.active >= 1) {
      var k := if Field(f, "i").number in t.indexes then ByIndex
               else if HasLast(f) && Field(f, "l").number in t.last then ByLast else ByFloating;
      assert HasNumber(f, k) && NumberOf(f, k) in SeenOf(t, k);
    }
  }

  lemma AddPaneAdds(t: Tally, f: Fields)
    requires PaneOk(f) && AddPane(t, f).Some?
    ensures var r := AddPane(t, f).value;
            && r.leaves == t.leaves + 1 && r.active == t.active + (if IsActive(f) then 1 else 0)
            && forall k, x :: x in SeenOf(r, k) <==> x in SeenOf(t, k) || (HasNumber(f, k) && x == NumberOf(f, k))
  {}

  // ------------------------------------------------------------ main results

  /** The whole text as one object. */
  function ReadTree(s: string): Option<Json> {
    var r := ObjectAt(s, LayoutSpace(s, 0), 1);
    if r.Some? && Space(s, r.value.0) == |s| then Some(r.value.1) else None
  }

  /** How many panes an accepted text has. */
  function Accept(s: string): Option<nat> {
    var j := ReadTree(s);
    if j.None? then None
    else
      var t := Check(Some(EMPTY_TALLY), j.value, Root);
      if t.Some? && t.value.leaves != 0 then Some(t.value.leaves) else None
  }

  /** What a layout tree must be: every cell in order, no number twice, one active pane at most, some pane. */
  ghost predicate IsLayout(j: Json) {
    CellsOk(j, Root) && AllPanesOk(Panes(j, Root)) && Unique(Panes(j, Root)) && Panes(j, Root) != []
  }

  lemma AcceptedIsLayout(s: string)
    ensures Accept(s).Some? <==> ReadTree(s).Some? && IsLayout(ReadTree(s).value)
    ensures Accept(s).Some? ==> Accept(s).value == |Panes(ReadTree(s).value, Root)| >= 1
  {
    var j := ReadTree(s);
    hide ReadTree;
    if j.Some? {
      CheckIsAddAll(Some(EMPTY_TALLY), j.value, Root);
      if CellsOk(j.value, Root) {
        PanesAreOk(j.value, Root);
        AddAllIsUnique(Panes(j.value, Root));
      }
      hide CellsOk, Panes, Unique, Check, AddAll;
    }
  }

  // ---------------------------------------------------- sections 6 and 7 of RFC 8259

  /** unescaped = %x20-21 / %x23-5B / %x5D-10FFFF, over the bytes of the text. */
  predicate IsUnescaped(c: char) { 0x20 <= c as int && c != '"' && c != '\\' }

  /** Section 7: a string is a run of unescaped characters and escapes. */
  predicate IsJsonText(t: string)
    decreases |t|
  {
    || t == ""
    || (IsUnescaped(t[0]) && IsJsonText(t[1..]))
    || (|t| >= 2 && t[0] == '\\' && IsPlainEscape(t[1]) && IsJsonText(t[2..]))
    || (|t| >= 6 && t[0] == '\\' && t[1] == 'u' && IsHex(t[2]) && IsHex(t[3]) && IsHex(t[4]) && IsHex(t[5])
         && IsJsonText(t[6..]))
  }

  /** The reader finds the closing quote exactly where a string of section 7 ends. */
  lemma {:induction false} StringsFollowSection7(s: string, o: nat, q: nat)
    requires o <= q < |s|
    ensures QuoteAt(s, o) == Some(q) <==> s[q] == '"' && IsJsonText(s[o..q])
    decreases |s| - o
  {
    if o < q {
      var t, n := s[o..q], Element(s, o);
      assert forall i :: 0 <= i < |t| ==> t[i] == s[o + i];
      if n > 0 && o + n <= q {
        assert t[n..] == s[o + n..q];
        StringsFollowSection7(s, o + n, q);
      }
      if n > 0 && o + n > q { QuoteInsideEscape(s, o, q); }
    }
  }

  lemma QuoteInsideEscape(s: string, o: nat, q: nat)
    requires o < q < |s| && o + Element(s, o) > q
    ensures QuoteAt(s, o) != Some(q) && !IsJsonText(s[o..q])
  {
    var t := s[o..q];
    assert t[0] == s[o] && (|t| >= 2 ==> t[1] == s[o + 1]);
    var next := if o + Element(s, o) <= |s| then QuoteAt(s, o + Element(s, o)) else None;
  }

  /** Section 6 without fraction and exponent: an optional minus, then zero or digits that do not start with one. */
  predicate IsJsonInteger(t: string) {
    var d := if t != "" && t[0] == '-' then t[1..] else t;
    d != "" && Control.AllDigits(d) && (d == "0" || d[0] != '0')
  }

  function IntegerOf(t: string): int
    requires IsJsonInteger(t)
  {
    if t[0] == '-' then 0 - Control.DigitsValue(t[1..]) else Control.DigitsValue(t)
  }

  /** The reader takes exactly the longest integer of section 6 that fits 64 bits. */
  lemma IntegersFollowSection6(s: string, o: nat, e: nat, n: int)
    requires o < e <= |s|
    ensures IntegerAt(s, o) == Some((e, Number(s[o..e], n))) <==>
            && IsJsonInteger(s[o..e]) && (e < |s| ==> !Control.IsDigit(s[e]))
            && n == IntegerOf(s[o..e]) && -INT64_LIMIT <= n < INT64_LIMIT
  {
    hide IsJsonInteger, IntegerOf, Saved.DigitsEnd, Control.DigitsValue, Control.AllDigits;
    var d := if Saved.CharAt(s, o, '-') then o + 1 else o;
    IntegerText(s, o, e, d);
    DigitsEndExactly(s, d, e);
  }

  /** An integer's text is its digits, from `d` on, after a minus sign if there is one. */
  lemma IntegerText(s: string, o: nat, e: nat, d: nat)
    requires o < e <= |s| && d == if s[o] == '-' then o + 1 else o
    ensures IsJsonInteger(s[o..e]) <==> d < e && Control.AllDigits(s[d..e]) && (e - d == 1 || s[d] != '0')
    ensures IsJsonInteger(s[o..e]) ==>
              IntegerOf(s[o..e]) == if d == o then Control.DigitsValue(s[d..e]) else 0 - Control.DigitsValue(s[d..e])
  {
    hide Control.DigitsValue;
    var t := s[o..e];
    assert t[0] == s[o] && s[d..e] == if t[0] == '-' then t[1..] else t;
    if d < e { assert s[d..e][0] == s[d]; }
    if e - d == 1 { assert s[d..e] == [s[d]]; }
  }

  lemma DigitsEndExactly(s: string, d: nat, e: nat)
    requires d <= e <= |s|
    ensures Saved.DigitsEnd(s, d) == e <==> Control.AllDigits(s[d..e]) && (e < |s| ==> !Control.IsDigit(s[e]))
  {
    hide Saved.DigitsEnd;
    if Control.AllDigits(s[d..e]) && (e < |s| ==> !Control.IsDigit(s[e])) {
      assert forall i :: d <= i < e ==> s[i] == s[d..e][i - d];
      Saved.DigitsEndIs(s, d, e);
    }
    if Saved.DigitsEnd(s, d) == e { Saved.DigitSlice(s, d, e); }
  }

  // --------------------------------------------------------------- the reader

  ghost function PrefixedMembers(read: seq<Member>, rest: Option<(nat, seq<Member>)>): Option<(nat, seq<Member>)> {
    if rest.None? then None else Some((rest.value.0, read + rest.value.1))
  }

  lemma MembersPrefix(read: seq<Member>, m: Member, rest: Option<(nat, seq<Member>)>)
    ensures PrefixedMembers([], rest) == rest
    ensures PrefixedMembers(read + [m], rest) == PrefixedMembers(read, PrefixedMembers([m], rest))
  {
    if rest.Some? {
      assert [] + rest.value.1 == rest.value.1;
      assert (read + [m]) + rest.value.1 == read + ([m] + rest.value.1);
    }
  }

  ghost function PrefixedItems(read: seq<Json>, rest: Option<(nat, seq<Json>)>): Option<(nat, seq<Json>)> {
    if rest.None? then None else Some((rest.value.0, read + rest.value.1))
  }

  lemma ItemsPrefix(read: seq<Json>, j: Json, rest: Option<(nat, seq<Json>)>)
    ensures PrefixedItems([], rest) == rest
    ensures PrefixedItems(read + [j], rest) == PrefixedItems(read, PrefixedItems([j], rest))
  {
    if rest.Some? {
      assert [] + rest.value.1 == rest.value.1;
      assert (read + [j]) + rest.value.1 == read + ([j] + rest.value.1);
    }
  }

  lemma MembersSnoc(t: Option<Tally>, members: seq<Member>, m: Member, role: Role)
    ensures CheckMembers(t, members + [m], role) ==
            Check(CheckMembers(t, members, role), m.value, ChildRole(role, m.key))
    ensures FieldsOf(members + [m]) == FieldsOf(members)[m.key := Summarize(m.value)]
  {
    assert (members + [m])[..|members + [m]| - 1] == members;
    hide Check, Summarize;
  }

  lemma ItemsSnoc(t: Option<Tally>, items: seq<Json>, j: Json, role: Role)
    ensures CheckItems(t, items + [j], role) == Check(CheckItems(t, items, role), j, role)
  {
    assert (items + [j])[..|items + [j]| - 1] == items;
    hide Check;
  }

  /** A check that fails part of the way through fails for the whole. */
  lemma MembersFail(t: Option<Tally>, read: seq<Member>, m: Member, rest: seq<Member>, role: Role)
    requires Check(CheckMembers(t, read, role), m.value, ChildRole(role, m.key)) == None
    ensures CheckMembers(t, read + ([m] + rest), role) == None
  {
    hide Check, CheckMembers;
    MembersSnoc(t, read, m, role);
    CheckMembersAppend(t, read + [m], rest, role);
    assert (read + [m]) + rest == read + ([m] + rest);
    NoneStaysMembers(rest, role);
  }

  lemma ItemsFail(t: Option<Tally>, read: seq<Json>, j: Json, rest: seq<Json>, role: Role)
    requires Check(CheckItems(t, read, role), j, role) == None
    ensures CheckItems(t, read + ([j] + rest), role) == None
  {
    hide Check, CheckItems;
    ItemsSnoc(t, read, j, role);
    CheckItemsAppend(t, read + [j], rest, role);
    assert (read + [j]) + rest == read + ([j] + rest);
    NoneStaysItems(rest, role);
  }

  /** The reader: one pass that moves an offset, keeps field summaries and fills the tally. */
  class JsonLayoutSyntax {
    const input: string
    var offset: nat
    var leaves: nat
    var active: nat
    var indexes: set<int>
    var floating: set<int>
    var last: set<int>

    ghost predicate Valid()
      reads this
    {
      offset <= |input|
    }

    ghost function View(): Tally
      reads this
    {
      Tally(leaves, active, indexes, floating, last)
    }

    constructor (input: string)
      ensures this.input == input && offset == 0 && View() == EMPTY_TALLY
    {
      this.input := input;
      offset, leaves, active, indexes, floating, last := 0, 0, 0, {}, {}, {};
    }

    method SkipSpace()
      requires Valid()
      modifies this`offset
      ensures offset == Space(input, old(offset))
    {
      while offset < |input| && IsSpace(input[offset])
        invariant old(offset) <= offset <= |input|
        invariant forall i :: old(offset) <= i < offset ==> IsSpace(input[i])
        decreases |input| - offset
      {
        offset := offset + 1;
      }
    }

    method Take(value: char) returns (ok: bool)
      requires Valid()
      modifies this`offset
      ensures Valid() && ok == Saved.CharAt(input, Space(input, old(offset)), value)
      ensures offset == Space(input, old(offset)) + if ok then 1 else 0
    {
      SkipSpace();
      if offset == |input| || input[offset] != value { return false; }
      offset := offset + 1;
      return true;
    }

    /** What follows a backslash at the offset before. */
    method ReadEscape() returns (ok: bool)
      requires 0 < offset <= |input| && input[offset - 1] == '\\'
      modifies this`offset
      ensures Valid() && old(offset) <= offset && ok == (Element(input, old(offset) - 1) != 0)
      ensures ok ==> offset == old(offset) - 1 + Element(input, old(offset) - 1)
    {
      if offset == |input| { return false; }
      var escaped := input[offset];
      offset := offset + 1;
      if escaped == 'u' {
        for digit := 0 to 4
          modifies this`offset
          invariant offset == old(offset) + 1 + digit <= |input|
          invariant forall i :: old(offset) + 1 <= i < offset ==> IsHex(input[i])
        {
          if offset == |input| || !IsHex(input[offset]) { return false; }
          offset := offset + 1;
        }
        return true;
      }
      return IsPlainEscape(escaped);
    }

    method ReadString() returns (ok: bool, text: string)
      requires Valid()
      modifies this`offset
      ensures Valid() && offset >= old(offset) && ok == StringAt(input, old(offset)).Some?
      ensures ok ==> StringAt(input, old(offset)) == Some((offset, text))
    {
      hide Space, FourHex, IsPlainEscape;
      text := "";
      ok := Take('"');
      if !ok { return; }
      var start := offset;
      while offset < |input|
        invariant start <= offset <= |input|
        invariant QuoteAt(input, start) == QuoteAt(input, offset)
        decreases |input| - offset
      {
        var value := input[offset];
        offset := offset + 1;
        if value == '"' {
          text := input[start..offset - 1];
          return text != "", text;
        }
        if value as int < 0x20 { return false, text; }
        if value == '\\' {
          ok := ReadEscape();
          if !ok { return; }
        }
      }
      return false, text;
    }

    method ReadInteger() returns (ok: bool, v: Summary)
      requires Valid()
      modifies this`offset
      ensures Valid() && offset >= old(offset) && ok == IntegerAt(input, old(offset)).Some?
      ensures ok ==> IntegerAt(input, old(offset)).value.0 == offset
      ensures ok ==> v == Summarize(IntegerAt(input, old(offset)).value.1)
    {
      v := Absent;
      var negative := offset < |input| && input[offset] == '-';
      if negative { offset := offset + 1; }
      var digits := offset;
      while offset < |input| && Control.IsDigit(input[offset])
        invariant digits <= offset <= |input|
        invariant forall i :: digits <= i < offset ==> Control.IsDigit(input[i])
        decreases |input| - offset
      {
        offset := offset + 1;
      }
      Saved.DigitsEndIs(input, digits, offset);
      if digits == offset || (input[digits] == '0' && offset - digits != 1) { return false, v; }
      Saved.DigitSlice(input, digits, offset);
      var magnitude: int := Control.DigitsValue(input[digits..offset]);
      var number := if negative then 0 - magnitude else magnitude;
      ok := -INT64_LIMIT <= number < INT64_LIMIT;
      v := NumberValue(number);
    }

    /** A cell's own conditions and its entry in the tally. */
    method CheckFields(fields: Fields) returns (ok: bool)
      modifies this`leaves, this`active, this`indexes, this`floating, this`last
      ensures ok == CheckCell(Some(old(View())), fields).Some?
      ensures ok ==> Some(View()) == CheckCell(Some(old(View())), fields)
    {
      hide InRange;
      var type_ := Field(fields, "t");
      if type_ != TextValue("p") && type_ != TextValue("h") && type_ != TextValue("v") { return false; }
      if !SizesOk(fields) { return false; }
      var children := Field(fields, "c");
      if type_ != TextValue("p") { return children.ArrayValue? && children.count >= 2; }
      if !children.Absent? { return false; }
      ok := CheckPane(fields);
    }

    method CheckPane(fields: Fields) returns (ok: bool)
      requires Field(fields, "c").Absent?
      modifies this`leaves, this`active, this`indexes, this`floating, this`last
      ensures ok == (PaneOk(fields) && AddPane(old(View()), fields).Some?)
      ensures ok ==> Some(View()) == AddPane(old(View()), fields)
    {
      var index := Field(fields, "i");
      if !InRange(index, 0, INT32_MAX) || index.number in indexes { return false; }
      indexes := indexes + {index.number};
      var selected, previous := Field(fields, "a"), Field(fields, "l");
      if !selected.Absent? {
        if !selected.TruthValue? { return false; }
        if selected.truth {
          active := active + 1;
          if active > 1 { return false; }
        }
      } else if !previous.Absent? {
        if !InRange(previous, 0, INT32_MAX) || previous.number in last { return false; }
        last := last + {previous.number};
      }
      var z := Field(fields, "z");
      if !z.Absent? {
        if !InRange(z, 0, INT32_MAX - 1) || z.number in floating { return false; }
        floating := floating + {z.number};
      }
      leaves := leaves + 1;
      return true;
    }

    method ReadMember(role: Role, depth: nat, seen: set<string>) returns (ok: bool, key: string, v: Summary)
      requires Valid()
      modifies this
      ensures Valid() && offset >= old(offset)
      ensures MemberReadAs(old(View()), MemberAt(input, old(offset), depth, seen), role, ok, offset, View())
      ensures ok ==> MemberAt(input, old(offset), depth, seen).value.1.key == key
      ensures ok ==> Summarize(MemberAt(input, old(offset), depth, seen).value.1.value) == v
      decreases |input| - offset, 2
    {
      hide StringAt, ValueAt, Check, Summarize, Space;
      v := Absent;
      ok, key := ReadString();
      if !ok { return; }
      if key in seen { return false, key, v; }
      ok := Take(':');
      if !ok { return; }
      ok, v := ReadValue(ChildRole(role, key), depth);
    }

    /** Members while commas follow; on success the offset stands at the first character that is no comma. */
    method ReadMembers(role: Role, depth: nat) returns (ok: bool, fields: Fields, ghost read: seq<Member>)
      requires Valid()
      modifies this
      ensures Valid() && offset >= old(offset)
      ensures MembersReadAs(old(View()), MembersAt(input, old(offset), depth, {}), role, ok, offset, View())
      ensures ok ==> MembersAt(input, old(offset), depth, {}).value.1 == read && fields == FieldsOf(read)
      decreases |input| - offset, 3
    {
      hide MembersAt, MemberAt, Check, CheckMembers, FieldsOf, Summarize, Space, IsSpace;
      fields, read, ok := map[], [], true;
      var more := true;
      ghost var whole := MembersAt(input, offset, depth, {});
      NoMembers(Some(View()), whole, role);
      assert fields.Keys == {};
      while more
        invariant ok && old(offset) <= offset <= |input| && fields == FieldsOf(read)
        invariant Some(View()) == CheckMembers(Some(old(View())), read, role)
        invariant whole == if more then PrefixedMembers(read, MembersAt(input, offset, depth, fields.Keys))
                  else Some((offset, read))
        decreases |input| - offset, more
      {
        ghost var at := offset;
        var seen := fields.Keys;
        var key, v;
        ok, key, v := ReadMember(role, depth, seen);
        MembersStep(input, at, depth, seen);
        if !ok {
          MembersStop(old(View()), read, MembersAt(input, at, depth, seen), MemberAt(input, at, depth, seen), role);
          return;
        }
        ghost var m := MemberAt(input, at, depth, seen).value.1;
        more := Take(',');
        MembersPrefix(read, m, if more then MembersAt(input, offset, depth, seen + {key}) else None);
        MembersSnoc(Some(old(View())), read, m, role);
        fields := fields[key := v];
        assert fields.Keys == seen + {key};
        read := read + [m];
      }
    }

    method FinishObject(role: Role, fields: Fields, ghost members: seq<Member>, ghost t: Tally) returns (ok: bool)
      requires fields == FieldsOf(members) && Some(View()) == CheckMembers(Some(t), members, role)
      modifies this`leaves, this`active, this`indexes, this`floating, this`last
      ensures ok == Check(Some(t), Object(members), role).Some?
      ensures ok ==> Some(View()) == Check(Some(t), Object(members), role)
    {
      hide FieldsOf, CheckMembers, CellOk, AddPane;
      if role.Root? { return RootOk(fields); }
      if role.Ignored? {
        IgnoredMembers(Some(t), members);
        return true;
      }
      ok := CheckFields(fields);
    }

    method ReadObject(role: Role, depth: nat) returns (ok: bool)
      requires Valid()
      modifies this
      ensures Valid() && offset >= old(offset)
      ensures ReadAs(old(View()), ObjectAt(input, old(offset), depth), role, ok, offset, View())
      decreases |input| - offset, 0
    {
      hide Space, MembersAt, FieldsOf, CheckMembers, CellOk;
      if depth > MAX_DEPTH { return false; }
      ok := Take('{');
      if !ok { return; }
      ghost var t := View();
      var empty := Take('}');
      if empty {
        NoMembers(Some(t), None, role);
        ok := FinishObject(role, map[], [], t);
        return;
      }
      var fields;
      ghost var members;
      ok, fields, members := ReadMembers(role, depth);
      if !ok {
        ghost var whole := MembersAt(input, Space(input, Space(input, old(offset)) + 1), depth, {});
        if whole.Some? { ObjectFails(t, whole.value.1, role); }
        return;
      }
      ok := CloseObject(role, fields, members, t);
    }

    method CloseObject(role: Role, fields: Fields, ghost members: seq<Member>, ghost t: Tally) returns (ok: bool)
      requires Valid() && Space(input, offset) == offset
      requires fields == FieldsOf(members) && Some(View()) == CheckMembers(Some(t), members, role)
      modifies this
      ensures Valid() && offset >= old(offset)
      ensures ok ==> Saved.CharAt(input, old(offset), '}') && offset == old(offset) + 1
      ensures ok ==> Some(View()) == Check(Some(t), Object(members), role)
      ensures !ok && Saved.CharAt(input, old(offset), '}') ==> Check(Some(t), Object(members), role) == None
    {
      hide FieldsOf, CheckMembers, Check, Space;
      ok := Take('}');
      if !ok { return; }
      ok := FinishObject(role, fields, members, t);
    }

    method ReadItems(role: Role, depth: nat) returns (ok: bool, count: nat)
      requires Valid()
      modifies this
      ensures Valid() && offset >= old(offset)
      ensures ItemsReadAs(old(View()), ItemsAt(input, old(offset), depth), role, ok, offset, View())
      ensures ok ==> |ItemsAt(input, old(offset), depth).value.1| == count
      decreases |input| - offset, 1
    {
      hide ItemsAt, ObjectAt, Check, CheckItems;
      ghost var read: seq<Json> := [];
      ok, count := true, 0;
      var more := true;
      ghost var whole := ItemsAt(input, offset, depth);
      NoItems(Some(View()), whole, role);
      while more
        invariant ok && old(offset) <= offset <= |input| && count == |read|
        invariant Some(View()) == CheckItems(Some(old(View())), read, role)
        invariant whole == if more then PrefixedItems(read, ItemsAt(input, offset, depth)) else Some((offset, read))
        decreases |input| - offset, more
      {
        ghost var at := offset;
        ok := ReadObject(role, depth);
        ItemsStep(input, at, depth);
        if !ok {
          ItemsStop(old(View()), read, ItemsAt(input, at, depth), ObjectAt(input, at, depth), role);
          return;
        }
        ghost var j := ObjectAt(input, at, depth).value.1;
        more := Take(',');
        ItemsPrefix(read, j, if more then ItemsAt(input, offset, depth) else None);
        ItemsSnoc(Some(old(View())), read, j, role);
        count := count + 1;
        read := read + [j];
      }
    }

    method ReadArray(role: Role, depth: nat) returns (ok: bool, v: Summary)
      requires offset < |input| && input[offset] == '['
      modifies this
      ensures Valid() && offset >= old(offset)
      ensures ReadAs(old(View()), ValueAt(input, old(offset), depth), role, ok, offset, View())
      ensures ok ==> v == Summarize(ValueAt(input, old(offset), depth).value.1)
      decreases |input| - offset, 1
    {
      hide ItemsAt, CheckItems, Check, ValueAt, Space, IsSpace;
      ArrayAt(input, offset, depth, Some(View()), role);
      v := Absent;
      offset := offset + 1;
      var empty := Take(']');
      if empty { return true, ArrayValue(0); }
      var count;
      ok, count := ReadItems(role, depth + 1);
      if !ok { return; }
      ok := Take(']');
      v := ArrayValue(count);
    }

    /** A token: a string, a literal or an integer. */
    method ReadToken(role: Role, depth: nat) returns (ok: bool, v: Summary)
      requires offset < |input| && !IsSpace(input[offset]) && input[offset] != '{' && input[offset] != '['
      modifies this`offset
      ensures Valid() && offset >= old(offset)
      ensures ReadAs(old(View()), ValueAt(input, old(offset), depth), role, ok, offset, View())
      ensures ok ==> v == Summarize(ValueAt(input, old(offset), depth).value.1)
    {
      hide StringAt, IntegerAt, ObjectAt, ItemsAt;
      v := Absent;
      if input[offset] == '"' {
        var text;
        ok, text := ReadString();
        v := TextValue(text);
        return;
      }
      if LiteralAt(input, offset, "true") {
        offset := offset + 4;
        return true, TruthValue(true);
      }
      if LiteralAt(input, offset, "false") {
        offset := offset + 5;
        return true, TruthValue(false);
      }
      ok, v := ReadInteger();
    }

    method ReadValue(role: Role, depth: nat) returns (ok: bool, v: Summary)
      requires Valid()
      modifies this
      ensures Valid() && offset >= old(offset)
      ensures ReadAs(old(View()), ValueAt(input, old(offset), depth), role, ok, offset, View())
      ensures ok ==> v == Summarize(ValueAt(input, old(offset), depth).value.1)
      decreases |input| - offset, 2
    {
      hide ObjectAt, Check, ItemsAt, StringAt, IntegerAt, LiteralAt;
      SkipSpace();
      v := Absent;
      if offset == |input| { return false, v; }
      if input[offset] == '{' {
        ok := ReadObject(role, depth + 1);
        v := ObjectValue;
        return;
      }
      if input[offset] == '[' {
        ok, v := ReadArray(role, depth);
        return;
      }
      ok, v := ReadToken(role, depth);
    }

    /** The whole text: leading C space, one root object, trailing space, at least one pane. */
    method Parse() returns (ok: bool)
      requires offset == 0 && View() == EMPTY_TALLY
      modifies this
      ensures ok == Accept(input).Some?
      ensures ok ==> leaves == Accept(input).value
    {
      hide ObjectAt, Check;
      while offset < |input| && IsLayoutSpace(input[offset])
        invariant offset <= |input| && View() == EMPTY_TALLY
        invariant forall i :: 0 <= i < offset ==> IsLayoutSpace(input[i])
        decreases |input| - offset
      {
        offset := offset + 1;
      }
      ok := ReadObject(Root, 1);
      if !ok { return; }
      SkipSpace();
      ok := offset == |input| && leaves != 0;
    }
  }

  // What a call that reads a value leaves behind, against the syntax and the checks.

  ghost predicate ReadAs(t: Tally, spec: Option<(nat, Json)>, role: Role, ok: bool, offset: nat, n: Tally) {
    if ok then spec.Some? && spec.value.0 == offset && Some(n) == Check(Some(t), spec.value.1, role)
    else spec.None? || Check(Some(t), spec.value.1, role) == None
  }

  ghost predicate MemberReadAs(t: Tally, spec: Option<(nat, Member)>, role: Role, ok: bool, offset: nat, n: Tally) {
    if spec.None? then !ok
    else ReadAs(t, Some((spec.value.0, spec.value.1.value)), ChildRole(role, spec.value.1.key), ok, offset, n)
  }

  ghost predicate MembersReadAs(t: Tally, spec: Option<(nat, seq<Member>)>, role: Role, ok: bool, offset: nat,
                                n: Tally) {
    if ok then spec.Some? && spec.value.0 == offset && Some(n) == CheckMembers(Some(t), spec.value.1, role)
    else spec.None? || CheckMembers(Some(t), spec.value.1, role) == None
  }

  ghost predicate ItemsReadAs(t: Tally, spec: Option<(nat, seq<Json>)>, role: Role, ok: bool, offset: nat, n: Tally) {
    if ok then spec.Some? && spec.value.0 == offset && Some(n) == CheckItems(Some(t), spec.value.1, role)
    else spec.None? || CheckItems(Some(t), spec.value.1, role) == None
  }

  lemma NoMembers(t: Option<Tally>, rest: Option<(nat, seq<Member>)>, role: Role)
    ensures CheckMembers(t, [], role) == t && FieldsOf([]) == map[] && PrefixedMembers([], rest) == rest
  {
    if rest.Some? { assert [] + rest.value.1 == rest.value.1; }
  }

  lemma NoItems(t: Option<Tally>, rest: Option<(nat, seq<Json>)>, role: Role)
    ensures CheckItems(t, [], role) == t && PrefixedItems([], rest) == rest
  {
    if rest.Some? { assert [] + rest.value.1 == rest.value.1; }
  }

  /** An array is its items, if it has any, and is checked as they are. */
  lemma ArrayAt(s: string, o: nat, depth: nat, t: Option<Tally>, role: Role)
    requires o < |s| && s[o] == '['
    ensures var first := Space(s, o + 1);
            var items := ItemsAt(s, first, depth + 1);
            ValueAt(s, o, depth) ==
              if Saved.CharAt(s, first, ']') then Some((first + 1, Array([])))
              else if items.None? || !Saved.CharAt(s, items.value.0, ']') then None
              else Some((items.value.0 + 1, Array(items.value.1)))
    ensures forall items :: Check(t, Array(items), role) == CheckItems(t, items, role)
    ensures CheckItems(t, [], role) == t
  {
    hide ItemsAt, ObjectAt, StringAt, IntegerAt, LiteralAt;
    forall items ensures Check(t, Array(items), role) == CheckItems(t, items, role) {
      if role.Ignored? { IgnoredItems(t, items); }
    }
  }

  lemma {:induction false} IgnoredMembers(t: Option<Tally>, members: seq<Member>)
    ensures CheckMembers(t, members, Ignored) == t
    decreases |members|
  {
    if members != [] { IgnoredMembers(t, members[..|members| - 1]); }
  }

  lemma {:induction false} IgnoredItems(t: Option<Tally>, items: seq<Json>)
    ensures CheckItems(t, items, Ignored) == t
    decreases |items|
  {
    if items != [] { IgnoredItems(t, items[..|items| - 1]); }
  }

  lemma ObjectFails(t: Tally, members: seq<Member>, role: Role)
    requires CheckMembers(Some(t), members, role) == None
    ensures Check(Some(t), Object(members), role) == None
  {
    if role.Ignored? { IgnoredMembers(Some(t), members); }
    hide CheckMembers, FieldsOf;
  }

  lemma MembersStep(s: string, o: nat, depth: nat, seen: set<string>)
    requires o <= |s|
    ensures var first := MemberAt(s, o, depth, seen);
            MembersAt(s, o, depth, seen) ==
              if first.None? then None
              else
                var e := Space(s, first.value.0);
                if Saved.CharAt(s, e, ',')
                then PrefixedMembers([first.value.1], MembersAt(s, e + 1, depth, seen + {first.value.1.key}))
                else Some((e, [first.value.1]))
  {
    hide MemberAt;
  }

  lemma ItemsStep(s: string, o: nat, depth: nat)
    requires o <= |s|
    ensures var first := ObjectAt(s, o, depth);
            ItemsAt(s, o, depth) ==
              if first.None? then None
              else
                var e := Space(s, first.value.0);
                if Saved.CharAt(s, e, ',') then PrefixedItems([first.value.1], ItemsAt(s, e + 1, depth))
                else Some((e, [first.value.1]))
  {
    hide ObjectAt;
  }

  lemma MembersStop(t: Tally, read: seq<Member>, rest: Option<(nat, seq<Member>)>, first: Option<(nat, Member)>,
                    role: Role)
    requires first.None? ==> rest.None?
    requires first.Some? && rest.Some? ==> rest.value.1 != [] && rest.value.1[0] == first.value.1
    requires first.Some? ==>
             Check(CheckMembers(Some(t), read, role), first.value.1.value, ChildRole(role, first.value.1.key)) == None
    ensures var whole := PrefixedMembers(read, rest); whole.None? || CheckMembers(Some(t), whole.value.1, role) == None
  {
    hide Check, CheckMembers;
    if rest.Some? {
      var m := first.value.1;
      assert rest.value.1 == [m] + rest.value.1[1..];
      MembersFail(Some(t), read, m, rest.value.1[1..], role);
    }
  }

  lemma ItemsStop(t: Tally, read: seq<Json>, rest: Option<(nat, seq<Json>)>, first: Option<(nat, Json)>, role: Role)
    requires first.None? ==> rest.None?
    requires first.Some? && rest.Some? ==> rest.value.1 != [] && rest.value.1[0] == first.value.1
    requires first.Some? ==> Check(CheckItems(Some(t), read, role), first.value.1, role) == None
    ensures var whole := PrefixedItems(read, rest); whole.None? || CheckItems(Some(t), whole.value.1, role) == None
  {
    hide Check, CheckItems;
    if rest.Some? {
      var j := first.value.1;
      assert rest.value.1 == [j] + rest.value.1[1..];
      ItemsFail(Some(t), read, j, rest.value.1[1..], role);
    }
  }
}
