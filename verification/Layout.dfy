/** The verdict on a layout argument: a preset name, a JSON saved layout, or a checksummed custom layout. */
module Layout {
  import opened Prelude
  import Saved = SavedLayout
  import Json = JsonLayout

  // ------------------------------------------------------------- preset names

  const NAMES: seq<string> := [
    "even-horizontal", "even-vertical", "main-horizontal", "main-vertical", "tiled",
    "main-horizontal-mirrored", "main-vertical-mirrored"]

  function NameCount(mirrored: bool): (n: nat)
    ensures n <= |NAMES|
  {
    if mirrored then 7 else 5
  }

  /** How many of the first `count` names start with the text. */
  function Matches(layout: string, count: nat): nat
    requires count <= |NAMES|
  {
    if count == 0 then 0 else Matches(layout, count - 1) + if StartsWith(NAMES[count - 1], layout) then 1 else 0
  }

  /** An exact name, or the beginning of exactly one. */
  predicate Named(layout: string, mirrored: bool) {
    || (exists i :: 0 <= i < NameCount(mirrored) && NAMES[i] == layout)
    || Matches(layout, NameCount(mirrored)) == 1
  }

  method FindName(layout: string, mirrored: bool) returns (found: bool)
    ensures found <==> Named(layout, mirrored)
  {
    var count := NameCount(mirrored);
    var matches := 0;
    for index := 0 to count
      invariant matches == Matches(layout, index)
      invariant forall i :: 0 <= i < index ==> NAMES[i] != layout
    {
      if layout == NAMES[index] { return true; }
      if StartsWith(NAMES[index], layout) { matches := matches + 1; }
    }
    return matches == 1;
  }

  // ---------------------------------------------------------- custom layouts

  function HexDigit(c: char): (r: Option<nat>)
    ensures r.Some? ==> r.value < 16
  {
    if '0' <= c <= '9' then Some(c as nat - '0' as nat)
    else if 'a' <= c <= 'f' then Some(c as nat - 'a' as nat + 10)
    else if 'A' <= c <= 'F' then Some(c as nat - 'A' as nat + 10)
    else None
  }

  predicate AllHex(s: string) { forall i :: 0 <= i < |s| ==> HexDigit(s[i]).Some? }

  function HexValue(s: string): nat
    requires AllHex(s)
  {
    if s == "" then 0 else HexValue(s[..|s| - 1]) * 16 + HexDigit(s[|s| - 1]).value
  }

  datatype Verdict =
    | Accepted | EmptyLayout | MalformedJson | TooFewCells | UnknownName | BadDigits | WrongChecksum | MalformedTree

  function CustomVerdict(layout: string, panes: nat): Verdict {
    if |layout| < 6 || layout[4] != ',' then UnknownName
    else if !AllHex(layout[..4]) then BadDigits
    else
      var body := layout[5..];
      if Saved.Checksum(body) != HexValue(layout[..4]) then WrongChecksum
      else
        var tree := Saved.Parse(body);
        if tree.None? then MalformedTree else if Saved.Leaves(tree.value) < panes then TooFewCells else Accepted
  }

  predicate LooksLikeJson(layout: string) { Saved.CharAt(layout, Json.LayoutSpace(layout, 0), '{') }

  function JsonVerdict(layout: string, panes: nat): Verdict {
    var leaves := Json.Accept(layout);
    if leaves.None? then MalformedJson else if leaves.value < panes then TooFewCells else Accepted
  }

  /** Without a known version either set of names will do. */
  predicate NamedFor(layout: string, mirrored: Option<bool>) {
    if mirrored.Some? then Named(layout, mirrored.value) else Named(layout, false) || Named(layout, true)
  }

  function Judge(layout: string, panes: nat, mirrored: Option<bool>): Verdict {
    if layout == "" then EmptyLayout
    else if LooksLikeJson(layout) then JsonVerdict(layout, panes)
    else if NamedFor(layout, mirrored) then Accepted
    else CustomVerdict(layout, panes)
  }

  // ------------------------------------------------------------ main results

  /** A custom layout: the checksum of a valid tree's text, a comma, and that text. */
  ghost predicate IsCustom(layout: string, tree: Saved.Cell) {
    && Saved.Valid(tree, 0) && |layout| >= 6 && AllHex(layout[..4]) && layout[4] == ','
    && layout[5..] == Saved.Print(tree) && HexValue(layout[..4]) == Saved.Checksum(Saved.Print(tree))
  }

  /** Custom layouts are accepted exactly when they carry a valid tree with enough panes and its checksum. */
  lemma CustomAccepted(layout: string, panes: nat)
    ensures CustomVerdict(layout, panes).Accepted? <==>
            exists tree :: IsCustom(layout, tree) && Saved.Leaves(tree) >= panes
  {
    hide Saved.Parse, Saved.Valid, Saved.Print, Saved.Leaves, Saved.Checksum, HexValue, AllHex;
    if |layout| >= 6 {
      Saved.AcceptsTheGrammar(layout[5..]);
      if CustomVerdict(layout, panes).Accepted? {
        var tree := Saved.Parse(layout[5..]).value;
        assert IsCustom(layout, tree);
      }
    }
  }

  /** The form of a custom layout, whatever its checksum and tree. */
  predicate CustomForm(layout: string) { |layout| >= 6 && layout[4] == ',' && AllHex(layout[..4]) }

  lemma NamesHaveNoComma(i: nat)
    requires i < |NAMES|
    ensures ',' !in NAMES[i]
  {}

  lemma {:induction false} CustomMatchesNoName(layout: string, count: nat)
    requires CustomForm(layout) && count <= |NAMES|
    ensures Matches(layout, count) == 0 && forall i :: 0 <= i < count ==> NAMES[i] != layout
    decreases count
  {
    hide StartsWith, AllHex;
    if count > 0 {
      CustomMatchesNoName(layout, count - 1);
      NamesHaveNoComma(count - 1);
      NoSuchPrefix(NAMES[count - 1], layout, 4);
    }
  }

  lemma NoSuchPrefix(name: string, layout: string, i: nat)
    requires i < |layout| && layout[i] !in name
    ensures !StartsWith(name, layout) && name != layout
  {
    if StartsWith(name, layout) {
      PrefixChar(name, layout, i);
      assert false;
    }
  }

  lemma PrefixChar(name: string, layout: string, i: nat)
    requires StartsWith(name, layout) && i < |layout|
    ensures layout[i] in name
  {
    assert name[..|layout|][i] == name[i];
  }

  /** No text of that form is taken for JSON or for a preset. */
  lemma CustomIsJudged(layout: string, panes: nat, mirrored: Option<bool>)
    requires CustomForm(layout)
    ensures Judge(layout, panes, mirrored) == CustomVerdict(layout, panes)
  {
    assert HexDigit(layout[..4][0]).Some? && layout[..4][0] == layout[0];
    assert Json.LayoutSpace(layout, 0) == 0;
    CustomMatchesNoName(layout, NameCount(false));
    CustomMatchesNoName(layout, NameCount(true));
    hide CustomVerdict, JsonVerdict, Matches, AllHex;
  }

  /** A text read as JSON whose whole tree is a layout with enough panes. */
  ghost predicate IsJsonLayout(layout: string, panes: nat) {
    && Json.ReadTree(layout).Some? && Json.IsLayout(Json.ReadTree(layout).value)
    && |Json.Panes(Json.ReadTree(layout).value, Json.Root)| >= panes
  }

  /** Exactly layouts are accepted: JSON trees where the text looks like JSON, else presets and custom layouts. */
  lemma AcceptedExactly(layout: string, panes: nat, mirrored: Option<bool>)
    ensures Judge(layout, panes, mirrored).Accepted? <==>
            && layout != ""
            && if LooksLikeJson(layout) then IsJsonLayout(layout, panes)
               else NamedFor(layout, mirrored) || exists tree :: IsCustom(layout, tree) && Saved.Leaves(tree) >= panes
  {
    Json.AcceptedIsLayout(layout);
    CustomAccepted(layout, panes);
    hide Json.ReadTree, Json.IsLayout, Json.Panes, Json.Accept, IsCustom, CustomVerdict, NamedFor, Saved.Leaves,
         LooksLikeJson;
  }

  lemma CustomBodyIsCaught(layout: string, tree: Saved.Cell, panes: nat, i: nat, b: char)
    requires IsCustom(layout, tree) && 5 <= i < |layout|
    requires layout[i] as nat < 256 && b as nat < 256 && layout[i] != b
    ensures CustomForm(layout[i := b]) && CustomVerdict(layout[i := b], panes) == WrongChecksum
  {
    hide Saved.Checksum, Saved.Parse, Saved.Leaves, Saved.Print, Saved.Valid, AllHex, HexValue;
    var changed := layout[i := b];
    assert changed[..4] == layout[..4] && changed[5..] == layout[5..][i - 5 := b];
    Saved.SubstitutionChangesChecksum(layout[5..], i - 5, b);
  }

  /** Any one wrong byte in the tree of a custom layout is reported as a checksum mismatch. */
  lemma CorruptionIsCaught(layout: string, tree: Saved.Cell, panes: nat, mirrored: Option<bool>, i: nat, b: char)
    requires IsCustom(layout, tree) && 5 <= i < |layout|
    requires layout[i] as nat < 256 && b as nat < 256 && layout[i] != b
    ensures Judge(layout[i := b], panes, mirrored) == WrongChecksum
  {
    CustomBodyIsCaught(layout, tree, panes, i, b);
    hide Judge, CustomVerdict, IsCustom, CustomForm;
    CustomIsJudged(layout[i := b], panes, mirrored);
  }

  method LayoutError(layout: string, panes: nat, mirrored: Option<bool>) returns (v: Verdict)
    ensures v == Judge(layout, panes, mirrored)
  {
    if layout == "" { return EmptyLayout; }
    if LooksLikeJson(layout) {
      var parser := new Json.JsonLayoutSyntax(layout);
      var parsed := parser.Parse();
      if !parsed { return MalformedJson; }
      if parser.leaves < panes { return TooFewCells; }
      return Accepted;
    }
    var named;
    if mirrored.Some? {
      named := FindName(layout, mirrored.value);
    } else {
      named := FindName(layout, false);
      if !named { named := FindName(layout, true); }
    }
    if named { return Accepted; }
    v := CustomError(layout, panes);
  }

  method CustomError(layout: string, panes: nat) returns (v: Verdict)
    ensures v == CustomVerdict(layout, panes)
  {
    if |layout| < 6 || layout[4] != ',' { return UnknownName; }
    var expected := 0;
    for i := 0 to 4
      invariant AllHex(layout[..i]) && expected == HexValue(layout[..i])
    {
      var value := HexDigit(layout[i]);
      if value.None? {
        assert layout[..4][i] == layout[i];
        return BadDigits;
      }
      assert layout[..i + 1][..i] == layout[..i];
      expected := expected * 16 + value.value;
    }
    var body := layout[5..];
    var checksum := Saved.ComputeChecksum(body);
    if checksum != expected { return WrongChecksum; }
    hide Saved.CellAt, Saved.Leaves;
    var parser := new Saved.LayoutSyntax(body);
    var ok := parser.CellSyntax(0);
    if !ok || parser.offset != |body| { return MalformedTree; }
    if parser.leaves < panes { return TooFewCells; }
    return Accepted;
  }
}
