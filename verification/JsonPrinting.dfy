/**
 * The text of JSON layout trees: their tokens, laid out with any space before each. The reader accepts exactly the
 * laid-out texts of well-formed trees, and each such text is the text of one tree only.
 */
module JsonPrinting {
  import opened Prelude
  import opened JsonLayout
  import Control = ControlParser
  import Saved = SavedLayout

  // ------------------------------------------------------------ well-formed trees

  ghost predicate GoodText(t: string) { t != "" && IsJsonText(t) }

  ghost predicate GoodNumber(digits: string, number: int) {
    IsJsonInteger(digits) && number == IntegerOf(digits) && -INT64_LIMIT <= number < INT64_LIMIT
  }

  ghost predicate FreshKeys(members: seq<Member>, seen: set<string>) {
    && (forall i :: 0 <= i < |members| ==> members[i].key !in seen)
    && (forall i, j :: 0 <= i < j < |members| ==> members[i].key != members[j].key)
  }

  /** A value inside an object of depth `depth`. */
  ghost predicate GoodValue(j: Json, depth: nat)
    decreases j, 1
  {
    match j
    case Text(text) => GoodText(text)
    case Number(digits, number) => GoodNumber(digits, number)
    case Truth(_) => true
    case Object(members) => depth < MAX_DEPTH && FreshKeys(members, {}) && GoodMembers(members, depth + 1)
    case Array(items) => GoodItems(items, depth)
  }

  ghost predicate GoodMembers(members: seq<Member>, depth: nat)
    decreases members, 0
  {
    forall i :: 0 <= i < |members| ==> GoodText(members[i].key) && GoodValue(members[i].value, depth)
  }

  ghost predicate GoodItems(items: seq<Json>, depth: nat)
    decreases items, 0
  {
    forall i :: 0 <= i < |items| ==> items[i].Object? && GoodValue(items[i], depth)
  }

  // ------------------------------------------------------------------ the tokens

  function Quoted(t: string): string { "\"" + (t + "\"") }

  function Tokens(j: Json): seq<string>
    decreases j, 1
  {
    match j
    case Text(text) => [Quoted(text)]
    case Number(digits, _) => [digits]
    case Truth(truth) => [if truth then "true" else "false"]
    case Object(members) => ["{"] + (MemberTokens(members) + ["}"])
    case Array(items) => ["["] + (ItemTokens(items) + ["]"])
  }

  function MemberTokens(members: seq<Member>): seq<string>
    decreases members, 0
  {
    if members == [] then []
    else if |members| == 1 then OneMember(members[0])
    else OneMember(members[0]) + ([","] + MemberTokens(members[1..]))
  }

  function OneMember(m: Member): seq<string>
    decreases m, 1
  {
    [Quoted(m.key)] + ([":"] + Tokens(m.value))
  }

  function ItemTokens(items: seq<Json>): seq<string>
    decreases items, 0
  {
    if items == [] then []
    else if |items| == 1 then Tokens(items[0])
    else Tokens(items[0]) + ([","] + ItemTokens(items[1..]))
  }

  // ------------------------------------------------------- tokens laid out in a text

  /** Where the tokens end that stand at `o`, each after any space; nothing when they do not stand there. */
  function End(s: string, o: nat, tokens: seq<string>): (r: Option<nat>)
    requires o <= |s|
    ensures r.Some? ==> o <= r.value <= |s|
    decreases |tokens|
  {
    if tokens == [] then Some(o)
    else
      var k := Space(s, o);
      if LiteralAt(s, k, tokens[0]) then End(s, k + |tokens[0]|, tokens[1..]) else None
  }

  function Then(s: string, at: Option<nat>, tokens: seq<string>): Option<nat>
    requires at.Some? ==> at.value <= |s|
  {
    if at.None? then None else End(s, at.value, tokens)
  }

  lemma {:induction false} EndJoin(s: string, o: nat, a: seq<string>, b: seq<string>)
    requires o <= |s|
    ensures End(s, o, a + b) == Then(s, End(s, o, a), b)
    decreases |a|
  {
    hide Space, LiteralAt;
    if a == [] {
      assert a + b == b;
    } else {
      assert (a + b)[0] == a[0] && (a + b)[1..] == a[1..] + b;
      var k := Space(s, o);
      if LiteralAt(s, k, a[0]) {
        LiteralBounds(s, k, a[0]);
        EndJoin(s, k + |a[0]|, a[1..], b);
      }
    }
  }

  lemma LiteralBounds(s: string, k: nat, t: string)
    requires LiteralAt(s, k, t)
    ensures k + |t| <= |s|
  {}

  /** One token, then others. */
  lemma EndCons(s: string, o: nat, t: string, rest: seq<string>)
    requires o <= |s|
    ensures End(s, o, [t] + rest) ==
            if LiteralAt(s, Space(s, o), t) then End(s, Space(s, o) + |t|, rest) else None
  {
    assert ([t] + rest)[1..] == rest;
  }

  lemma EndOne(s: string, o: nat, t: string)
    requires o <= |s|
    ensures End(s, o, [t]) == if LiteralAt(s, Space(s, o), t) then Some(Space(s, o) + |t|) else None
  {
    EndCons(s, o, t, []);
    assert [t] + [] == [t];
  }

  lemma CharIsToken(s: string, k: nat, c: char)
    ensures LiteralAt(s, k, [c]) <==> Saved.CharAt(s, k, c)
  {
    if k < |s| { assert s[k..k + 1] == [s[k]]; }
  }

  lemma SpaceStays(s: string, o: nat)
    requires o <= |s| && (o < |s| ==> !IsSpace(s[o]))
    ensures Space(s, o) == o
  {}

  lemma SpaceTwice(s: string, o: nat)
    requires o <= |s|
    ensures Space(s, Space(s, o)) == Space(s, o)
  {
    SpaceStays(s, Space(s, o));
  }

  lemma EndAfterSpace(s: string, o: nat, tokens: seq<string>)
    requires o <= |s| && tokens != []
    ensures End(s, o, tokens) == End(s, Space(s, o), tokens)
  {
    SpaceTwice(s, o);
  }

  // The same facts as predicates that are defined everywhere.

  function Skip(s: string, o: nat): nat { if o <= |s| then Space(s, o) else o }

  predicate Stands(s: string, o: nat, tokens: seq<string>, e: nat) { o <= |s| && End(s, o, tokens) == Some(e) }

  predicate Next(s: string, o: nat, c: char) { Saved.CharAt(s, Skip(s, o), c) }

  predicate NoDigit(s: string, o: nat) { o < |s| ==> !Control.IsDigit(s[o]) }

  predicate ReadsString(s: string, o: nat, e: nat, t: string) { o <= |s| && StringAt(s, o) == Some((e, t)) }

  predicate ReadsValue(s: string, o: nat, depth: nat, e: nat, j: Json) {
    o <= |s| && ValueAt(s, o, depth) == Some((e, j))
  }

  predicate ReadsObject(s: string, o: nat, depth: nat, e: nat, j: Json) {
    o <= |s| && ObjectAt(s, o, depth) == Some((e, j))
  }

  predicate ReadsMember(s: string, o: nat, depth: nat, seen: set<string>, e: nat, m: Member) {
    o <= |s| && MemberAt(s, o, depth, seen) == Some((e, m))
  }

  predicate ReadsMembers(s: string, o: nat, depth: nat, seen: set<string>, e: nat, members: seq<Member>) {
    o <= |s| && MembersAt(s, o, depth, seen) == Some((e, members))
  }

  predicate ReadsItems(s: string, o: nat, depth: nat, e: nat, items: seq<Json>) {
    o <= |s| && ItemsAt(s, o, depth) == Some((e, items))
  }

  // ------------------------------------------- how tokens stand one after another

  /** Tokens, a separator after any space, and more tokens. */
  lemma StandsSeparated(s: string, o: nat, a: seq<string>, c: char, rest: seq<string>, e: nat)
    ensures Stands(s, o, a + ([[c]] + rest), e) <==>
            exists k :: Stands(s, o, a, k) && Next(s, k, c) && Stands(s, Skip(s, k) + 1, rest, e)
  {
    hide End, Space, LiteralAt;
    if o <= |s| {
      EndJoin(s, o, a, [[c]] + rest);
      var m := End(s, o, a);
      if m.Some? {
        var k := m.value;
        CharIsToken(s, Space(s, k), c);
        EndCons(s, k, [c], rest);
        if Stands(s, o, a + ([[c]] + rest), e) {
          assert Stands(s, o, a, k) && Next(s, k, c) && Stands(s, Skip(s, k) + 1, rest, e);
        }
      }
    }
  }

  /** An opening token, inner tokens, and a closing token, each after any space. */
  lemma StandsEnclosed(s: string, o: nat, open: char, inner: seq<string>, close: char, e: nat)
    ensures Stands(s, o, [[open]] + (inner + [[close]]), e) <==>
            && Next(s, o, open)
            && exists m :: Stands(s, Skip(s, o) + 1, inner, m) && Next(s, m, close) && e == Skip(s, m) + 1
  {
    hide End, Space, LiteralAt;
    if o <= |s| {
      EndCons(s, o, [open], inner + [[close]]);
      var k := Space(s, o);
      CharIsToken(s, k, open);
      if Saved.CharAt(s, k, open) {
        StandsClosed(s, k + 1, inner, close, e);
      }
    }
  }

  lemma StandsClosed(s: string, o: nat, inner: seq<string>, close: char, e: nat)
    requires o <= |s|
    ensures Stands(s, o, inner + [[close]], e) <==>
            exists m :: Stands(s, o, inner, m) && Next(s, m, close) && e == Skip(s, m) + 1
  {
    EndJoin(s, o, inner, [[close]]);
    var m := End(s, o, inner);
    if m.Some? {
      CharIsToken(s, Space(s, m.value), close);
      EndOne(s, m.value, [close]);
      hide End, Space, LiteralAt;
      if Stands(s, o, inner + [[close]], e) { assert Stands(s, o, inner, m.value); }
    }
  }

  lemma StandsAfterSkip(s: string, o: nat, tokens: seq<string>, e: nat)
    requires tokens != []
    ensures Stands(s, o, tokens, e) <==> Stands(s, Skip(s, o), tokens, e)
  {
    if o <= |s| {
      EndAfterSpace(s, o, tokens);
      hide End;
    }
  }

  lemma SkipTwice(s: string, o: nat)
    ensures Skip(s, Skip(s, o)) == Skip(s, o)
  {
    if o <= |s| { SpaceTwice(s, o); }
  }

  // ------------------------------------------------------------ strings and integers

  lemma StringSound(s: string, o: nat)
    requires o <= |s| && StringAt(s, o).Some?
    ensures var (e, t) := StringAt(s, o).value; GoodText(t) && End(s, o, [Quoted(t)]) == Some(e)
  {
    var (e, t) := StringAt(s, o).value;
    var k := Space(s, o);
    StringsFollowSection7(s, k + 1, e - 1);
    assert s[k..e] == "\"" + (t + "\"");
    EndOne(s, o, Quoted(t));
  }

  lemma IntegerSound(s: string, k: nat)
    requires k <= |s| && Space(s, k) == k && IntegerAt(s, k).Some?
    ensures var (e, j) := IntegerAt(s, k).value; GoodNumber(j.digits, j.number) && End(s, k, [j.digits]) == Some(e)
  {
    var (e, j) := IntegerAt(s, k).value;
    IntegersFollowSection6(s, k, e, j.number);
    EndOne(s, k, j.digits);
  }

  lemma TokensNotEmpty(j: Json)
    ensures Tokens(j) != []
  {}

  lemma ArrayTokens(items: seq<Json>, depth: nat)
    ensures GoodValue(Array(items), depth) <==> GoodItems(items, depth)
    ensures Tokens(Array(items)) == [['[']] + (ItemTokens(items) + [[']']])
  {
    hide GoodItems, ItemTokens;
  }

  lemma ObjectTokens(members: seq<Member>, depth: nat)
    ensures GoodValue(Object(members), depth) <==>
            depth < MAX_DEPTH && FreshKeys(members, {}) && GoodMembers(members, depth + 1)
    ensures Tokens(Object(members)) == [['{']] + (MemberTokens(members) + [['}']])
  {
    hide GoodMembers, MemberTokens, FreshKeys;
  }

  lemma NoItems(depth: nat)
    ensures GoodItems([], depth) && ItemTokens([]) == []
  {}

  lemma NoMembers(depth: nat, seen: set<string>)
    ensures GoodMembers([], depth) && MemberTokens([]) == [] && FreshKeys([], seen)
  {}

  lemma StandsNothing(s: string, o: nat, e: nat)
    ensures Stands(s, o, [], e) <==> o == e <= |s|
  {}

  lemma ItemsNotEmpty(items: seq<Json>)
    requires items != []
    ensures ItemTokens(items) != []
  {
    TokensNotEmpty(items[0]);
    hide Tokens;
  }

  lemma MembersNotEmpty(members: seq<Member>)
    requires members != []
    ensures MemberTokens(members) != []
  {
    assert OneMember(members[0]) != [];
    hide OneMember;
  }

  lemma ItemsCons(first: Json, rest: seq<Json>, depth: nat)
    ensures GoodItems([first] + rest, depth) <==> first.Object? && GoodValue(first, depth) && GoodItems(rest, depth)
    ensures ItemTokens([first] + rest) ==
            if rest == [] then Tokens(first) else Tokens(first) + ([[',']] + ItemTokens(rest))
  {
    var all := [first] + rest;
    assert all[0] == first && all[1..] == rest && forall i :: 0 <= i < |rest| ==> all[i + 1] == rest[i];
    hide GoodValue, Tokens;
    if GoodItems(all, depth) {
      assert GoodValue(all[0], depth);
      forall i | 0 <= i < |rest| ensures rest[i].Object? && GoodValue(rest[i], depth) { assert all[i + 1].Object?; }
    }
  }

  lemma MembersCons(first: Member, rest: seq<Member>, depth: nat)
    ensures GoodMembers([first] + rest, depth) <==>
            GoodText(first.key) && GoodValue(first.value, depth) && GoodMembers(rest, depth)
    ensures MemberTokens([first] + rest) ==
            if rest == [] then OneMember(first) else OneMember(first) + ([[',']] + MemberTokens(rest))
  {
    var all := [first] + rest;
    assert all[0] == first && all[1..] == rest && forall i :: 0 <= i < |rest| ==> all[i + 1] == rest[i];
    hide GoodValue, GoodText, OneMember;
    if GoodMembers(all, depth) {
      assert GoodText(all[0].key) && GoodValue(all[0].value, depth);
      forall i | 0 <= i < |rest| ensures GoodText(rest[i].key) && GoodValue(rest[i].value, depth) {
        assert GoodText(all[i + 1].key);
      }
    }
  }

  lemma FreshCons(first: Member, rest: seq<Member>, seen: set<string>)
    ensures FreshKeys([first] + rest, seen) <==> first.key !in seen && FreshKeys(rest, seen + {first.key})
  {
    var all := [first] + rest;
    assert forall i :: 0 <= i < |rest| ==> all[i + 1] == rest[i];
    if FreshKeys(all, seen) {
      FreshTail(first, rest, seen);
    }
    if first.key !in seen && FreshKeys(rest, seen + {first.key}) {
      forall i | 0 <= i < |all| ensures all[i].key !in seen {
        if i > 0 { assert rest[i - 1].key !in seen + {first.key}; }
      }
      forall i, j | 0 <= i < j < |all| ensures all[i].key != all[j].key {
        if i > 0 { assert rest[i - 1].key != rest[j - 1].key; } else { assert rest[j - 1].key !in seen + {first.key}; }
      }
    }
  }

  lemma FreshTail(first: Member, rest: seq<Member>, seen: set<string>)
    requires FreshKeys([first] + rest, seen)
    ensures first.key !in seen && FreshKeys(rest, seen + {first.key})
  {
    var all := [first] + rest;
    assert all[0].key !in seen;
    forall i | 0 <= i < |rest| ensures rest[i].key !in seen + {first.key} {
      assert all[i + 1].key !in seen && all[0].key != all[i + 1].key;
    }
    forall i, j | 0 <= i < j < |rest| ensures rest[i].key != rest[j].key { assert all[i + 1].key != all[j + 1].key; }
  }

  // The reader's cases, as equivalences between what is read and its parts.

  lemma ArrayReads(s: string, o: nat, depth: nat, e: nat, items: seq<Json>)
    requires Next(s, o, '[')
    ensures ReadsValue(s, o, depth, e, Array(items)) <==>
            var first := Skip(s, Skip(s, o) + 1);
            if Saved.CharAt(s, first, ']') then items == [] && e == first + 1
            else e > 0 && ReadsItems(s, first, depth + 1, e - 1, items) && Saved.CharAt(s, e - 1, ']')
  {
    hide ItemsAt, ObjectAt, StringAt, IntegerAt, Space;
  }

  lemma ArrayIsArray(s: string, o: nat, depth: nat, e: nat, j: Json)
    requires Next(s, o, '[') && ReadsValue(s, o, depth, e, j)
    ensures j.Array?
  {
    hide ItemsAt, ObjectAt, StringAt, IntegerAt, Space;
  }

  lemma ObjectReads(s: string, o: nat, depth: nat, e: nat, members: seq<Member>)
    ensures ReadsObject(s, o, depth, e, Object(members)) <==>
            && depth <= MAX_DEPTH && Next(s, o, '{')
            && var first := Skip(s, Skip(s, o) + 1);
               if Saved.CharAt(s, first, '}') then members == [] && e == first + 1
               else e > 0 && ReadsMembers(s, first, depth, {}, e - 1, members) && Saved.CharAt(s, e - 1, '}')
  {
    hide MembersAt, Space;
  }

  lemma ItemsRead(s: string, o: nat, depth: nat, e: nat, first: Json, rest: seq<Json>, k: nat)
    requires ReadsObject(s, o, depth, k, first)
    ensures ReadsItems(s, o, depth, e, [first] + rest) <==>
            if Next(s, k, ',') then rest != [] && ReadsItems(s, Skip(s, k) + 1, depth, e, rest)
            else rest == [] && e == Skip(s, k)
  {
    hide ItemsAt, ObjectAt, Space, PrefixedItems, Saved.CharAt;
    ObjectBounds(s, o, depth, k, first);
    ItemsCase(s, o, depth, first, k);
    if Next(s, k, ',') {
      SamePrefixedItems(first, ItemsAt(s, Space(s, k) + 1, depth), rest, e);
    } else {
      SameRest([first], [], rest);
      assert [first] + [] == [first];
    }
  }

  lemma ItemsCase(s: string, o: nat, depth: nat, first: Json, k: nat)
    requires ReadsObject(s, o, depth, k, first) && k <= |s|
    ensures Next(s, k, ',') ==>
            Space(s, k) + 1 <= |s| && ItemsAt(s, o, depth) == PrefixedItems([first], ItemsAt(s, Space(s, k) + 1, depth))
    ensures !Next(s, k, ',') ==> ItemsAt(s, o, depth) == Some((Space(s, k), [first]))
  {
    ItemsStep(s, o, depth);
    hide ItemsAt, ObjectAt, Space, PrefixedItems;
  }

  lemma SamePrefixedItems(first: Json, r: Option<(nat, seq<Json>)>, rest: seq<Json>, e: nat)
    requires r.Some? ==> r.value.1 != []
    ensures PrefixedItems([first], r) == Some((e, [first] + rest)) <==> rest != [] && r == Some((e, rest))
  {
    if r.Some? { SameRest([first], r.value.1, rest); }
  }

  lemma SameRest<T>(a: seq<T>, x: seq<T>, y: seq<T>)
    ensures a + x == a + y <==> x == y
  {
    assert (a + x)[|a|..] == x && (a + y)[|a|..] == y;
  }

  lemma MembersRead(s: string, o: nat, depth: nat, seen: set<string>, e: nat, first: Member, rest: seq<Member>, k: nat)
    requires ReadsMember(s, o, depth, seen, k, first)
    ensures ReadsMembers(s, o, depth, seen, e, [first] + rest) <==>
            if Next(s, k, ',') then rest != [] && ReadsMembers(s, Skip(s, k) + 1, depth, seen + {first.key}, e, rest)
            else rest == [] && e == Skip(s, k)
  {
    hide MembersAt, MemberAt, Space, PrefixedMembers, Saved.CharAt;
    MemberBounds(s, o, depth, seen, k, first);
    MembersCase(s, o, depth, seen, first, k);
    if Next(s, k, ',') {
      SamePrefixed(first, MembersAt(s, Space(s, k) + 1, depth, seen + {first.key}), rest, e);
    } else {
      SameRest([first], [], rest);
      assert [first] + [] == [first];
    }
  }

  lemma MembersCase(s: string, o: nat, depth: nat, seen: set<string>, first: Member, k: nat)
    requires ReadsMember(s, o, depth, seen, k, first) && k <= |s|
    ensures Next(s, k, ',') ==>
              && Space(s, k) + 1 <= |s|
              && MembersAt(s, o, depth, seen) ==
                 PrefixedMembers([first], MembersAt(s, Space(s, k) + 1, depth, seen + {first.key}))
    ensures !Next(s, k, ',') ==> MembersAt(s, o, depth, seen) == Some((Space(s, k), [first]))
  {
    hide MembersAt, MemberAt, Space, PrefixedMembers;
    MembersStep(s, o, depth, seen);
  }

  lemma SamePrefixed(first: Member, r: Option<(nat, seq<Member>)>, rest: seq<Member>, e: nat)
    requires r.Some? ==> r.value.1 != []
    ensures PrefixedMembers([first], r) == Some((e, [first] + rest)) <==> rest != [] && r == Some((e, rest))
  {
    if r.Some? { SameRest([first], r.value.1, rest); }
  }

  lemma MemberReads(s: string, o: nat, depth: nat, seen: set<string>, e: nat, m: Member)
    ensures ReadsMember(s, o, depth, seen, e, m) <==>
            && m.key !in seen
            && exists k :: ReadsString(s, o, k, m.key) && Next(s, k, ':')
                 && ReadsValue(s, Skip(s, k) + 1, depth, e, m.value)
  {
    hide StringAt, ValueAt, Space;
    if ReadsMember(s, o, depth, seen, e, m) { assert ReadsString(s, o, StringAt(s, o).value.0, m.key); }
  }

  lemma ItemsBegin(s: string, o: nat, depth: nat, e: nat, items: seq<Json>) returns (k: nat)
    requires ReadsItems(s, o, depth, e, items)
    ensures items != [] && ReadsObject(s, o, depth, k, items[0])
  {
    ItemsStep(s, o, depth);
    hide ItemsAt, ObjectAt, Space;
    k := ObjectAt(s, o, depth).value.0;
  }

  lemma MembersBegin(s: string, o: nat, depth: nat, seen: set<string>, e: nat, members: seq<Member>) returns (k: nat)
    requires ReadsMembers(s, o, depth, seen, e, members)
    ensures members != [] && ReadsMember(s, o, depth, seen, k, members[0])
  {
    MembersStep(s, o, depth, seen);
    hide MembersAt, MemberAt, Space;
    k := MemberAt(s, o, depth, seen).value.0;
  }

  /** One member's tokens. */
  lemma MemberStands(s: string, o: nat, m: Member, e: nat)
    ensures Stands(s, o, OneMember(m), e) <==>
            exists k :: Stands(s, o, [Quoted(m.key)], k) && Next(s, k, ':')
              && Stands(s, Skip(s, k) + 1, Tokens(m.value), e)
  {
    StandsSeparated(s, o, [Quoted(m.key)], ':', Tokens(m.value), e);
    hide Stands, Quoted, Tokens;
  }

  lemma ObjectIsValue(s: string, o: nat, depth: nat, e: nat, j: Json)
    requires Next(s, o, '{')
    ensures ReadsValue(s, o, depth, e, j) <==> ReadsObject(s, o, depth + 1, e, j)
  {
    SpaceTwice(s, o);
    SameObject(s, o, depth + 1);
    hide ObjectAt, MembersAt, ItemsAt, StringAt, IntegerAt, Space;
  }

  lemma SameObject(s: string, o: nat, depth: nat)
    requires o <= |s|
    ensures ObjectAt(s, Space(s, o), depth) == ObjectAt(s, o, depth)
  {
    SpaceTwice(s, o);
    hide MembersAt, Space;
  }

  lemma ObjectIsObject(s: string, o: nat, depth: nat, e: nat, j: Json)
    requires ReadsObject(s, o, depth, e, j)
    ensures j.Object?
  {}

  // ----------------------------------------------------- what is read is laid out

  /** What is neither a bracket nor a brace: a string, a literal or an integer. */
  lemma TokenSound(s: string, o: nat, depth: nat, e: nat, j: Json)
    requires ReadsValue(s, o, depth, e, j) && !Next(s, o, '{') && !Next(s, o, '[')
    ensures GoodValue(j, depth) && Stands(s, o, Tokens(j), e)
  {
    var k := Space(s, o);
    SpaceTwice(s, o);
    if s[k] == '"' {
      StringSound(s, k);
      hide StringAt;
      EndAfterSpace(s, o, [Quoted(StringAt(s, k).value.1)]);
      hide End;
    } else if LiteralAt(s, k, "true") {
      EndOne(s, o, "true");
    } else if LiteralAt(s, k, "false") {
      EndOne(s, o, "false");
    } else {
      IntegerSound(s, k);
      hide IntegerAt;
      EndAfterSpace(s, o, [IntegerAt(s, k).value.1.digits]);
      hide End;
    }
  }

  lemma {:induction false} ValueSound(s: string, o: nat, depth: nat, e: nat, j: Json)
    requires ReadsValue(s, o, depth, e, j)
    ensures GoodValue(j, depth) && Stands(s, o, Tokens(j), e)
    decreases |s| - o, 2
  {
    hide ReadsValue, ReadsObject, Stands, GoodValue, Tokens, Next;
    Bounded(s, o, depth, e, j);
    if Next(s, o, '{') {
      ObjectIsValue(s, o, depth, e, j);
      ObjectSound(s, o, depth + 1, e, j);
    } else if Next(s, o, '[') {
      ArraySound(s, o, depth, e, j);
    } else {
      TokenSound(s, o, depth, e, j);
    }
  }

  lemma Bounded(s: string, o: nat, depth: nat, e: nat, j: Json)
    requires ReadsValue(s, o, depth, e, j)
    ensures o <= |s| && o < e
  {}

  lemma {:induction false} ArraySound(s: string, o: nat, depth: nat, e: nat, j: Json)
    requires ReadsValue(s, o, depth, e, j) && Next(s, o, '[') && o <= |s|
    ensures GoodValue(j, depth) && Stands(s, o, Tokens(j), e)
    decreases |s| - o, 1
  {
    hide ReadsValue, ReadsItems, Stands, GoodValue, Tokens, GoodItems, ItemTokens, Space;
    ArrayIsArray(s, o, depth, e, j);
    var items := j.items;
    ArrayReads(s, o, depth, e, items);
    ArrayTokens(items, depth);
    StandsEnclosed(s, o, '[', ItemTokens(items), ']', e);
    var k := Skip(s, o) + 1;
    SkipTwice(s, k);
    if Saved.CharAt(s, Skip(s, k), ']') {
      NoItems(depth);
      StandsNothing(s, k, k);
    } else {
      var m := ItemsSound(s, Skip(s, k), depth + 1, e - 1, items);
      ItemsNotEmpty(items);
      StandsAfterSkip(s, k, ItemTokens(items), m);
    }
  }

  lemma {:induction false} ItemsSound(s: string, o: nat, depth: nat, e: nat, items: seq<Json>) returns (m: nat)
    requires ReadsItems(s, o, depth, e, items) && depth >= 1 && o <= |s|
    ensures items != [] && GoodItems(items, depth - 1) && Stands(s, o, ItemTokens(items), m) && Skip(s, m) == e
    decreases |s| - o, 1
  {
    hide ReadsItems, ReadsObject, Stands, GoodValue, GoodItems, Tokens, ItemTokens, Space;
    var k := ItemsBegin(s, o, depth, e, items);
    ObjectBounds(s, o, depth, k, items[0]);
    var first, rest := items[0], items[1..];
    assert items == [first] + rest;
    ItemsRead(s, o, depth, e, first, rest, k);
    ObjectSound(s, o, depth, k, first);
    ItemsCons(first, rest, depth - 1);
    if Next(s, k, ',') {
      m := ItemsSound(s, Skip(s, k) + 1, depth, e, rest);
      StandsSeparated(s, o, Tokens(first), ',', ItemTokens(rest), m);
    } else {
      NoItems(depth - 1);
      m := k;
    }
  }

  lemma ObjectBounds(s: string, o: nat, depth: nat, e: nat, j: Json)
    requires ReadsObject(s, o, depth, e, j)
    ensures o < e <= |s| && o <= |s| && j.Object?
  {}

  lemma {:induction false} ObjectSound(s: string, o: nat, depth: nat, e: nat, j: Json)
    requires ReadsObject(s, o, depth, e, j) && depth >= 1 && o <= |s|
    ensures GoodValue(j, depth - 1) && Stands(s, o, Tokens(j), e)
    decreases |s| - o, 0
  {
    hide ReadsObject, ReadsMembers, Stands, GoodValue, Tokens, GoodMembers, MemberTokens, FreshKeys, Space;
    ObjectIsObject(s, o, depth, e, j);
    var members := j.members;
    ObjectReads(s, o, depth, e, members);
    ObjectTokens(members, depth - 1);
    StandsEnclosed(s, o, '{', MemberTokens(members), '}', e);
    var k := Skip(s, o) + 1;
    SkipTwice(s, k);
    if Saved.CharAt(s, Skip(s, k), '}') {
      NoMembers(depth, {});
      StandsNothing(s, k, k);
    } else {
      var m := MembersSound(s, Skip(s, k), depth, {}, e - 1, members);
      MembersNotEmpty(members);
      StandsAfterSkip(s, k, MemberTokens(members), m);
    }
  }

  lemma {:induction false} MembersSound(s: string, o: nat, depth: nat, seen: set<string>, e: nat, members: seq<Member>)
    returns (m: nat)
    requires ReadsMembers(s, o, depth, seen, e, members) && depth >= 1 && o <= |s|
    ensures members != [] && FreshKeys(members, seen) && GoodMembers(members, depth)
    ensures Stands(s, o, MemberTokens(members), m) && Skip(s, m) == e
    decreases |s| - o, 3
  {
    hide ReadsMembers, ReadsMember, Stands, GoodValue, GoodText, GoodMembers, OneMember, MemberTokens, FreshKeys, Space;
    var k := MembersBegin(s, o, depth, seen, e, members);
    MemberBounds(s, o, depth, seen, k, members[0]);
    var first, rest := members[0], members[1..];
    assert members == [first] + rest;
    MembersRead(s, o, depth, seen, e, first, rest, k);
    MemberSound(s, o, depth, seen, k, first);
    MembersCons(first, rest, depth);
    FreshCons(first, rest, seen);
    if Next(s, k, ',') {
      m := MembersSound(s, Skip(s, k) + 1, depth, seen + {first.key}, e, rest);
      StandsSeparated(s, o, OneMember(first), ',', MemberTokens(rest), m);
    } else {
      NoMembers(depth, seen + {first.key});
      m := k;
    }
  }

  lemma MemberBounds(s: string, o: nat, depth: nat, seen: set<string>, e: nat, m: Member)
    requires ReadsMember(s, o, depth, seen, e, m)
    ensures o < e <= |s| && o <= |s|
  {}

  lemma {:induction false} MemberSound(s: string, o: nat, depth: nat, seen: set<string>, e: nat, m: Member)
    requires ReadsMember(s, o, depth, seen, e, m) && depth >= 1 && o <= |s|
    ensures m.key !in seen && GoodText(m.key) && GoodValue(m.value, depth) && Stands(s, o, OneMember(m), e)
    decreases |s| - o, 2
  {
    hide ReadsMember, ReadsValue, Stands, GoodText, GoodValue, Quoted, OneMember, Tokens, Space;
    MemberReads(s, o, depth, seen, e, m);
    var k :| ReadsString(s, o, k, m.key) && Next(s, k, ':') && ReadsValue(s, Skip(s, k) + 1, depth, e, m.value);
    StringStands(s, o, k, m.key);
    hide ReadsString, StringAt;
    ValueSound(s, Skip(s, k) + 1, depth, e, m.value);
    MemberStands(s, o, m, e);
  }

  lemma StringStands(s: string, o: nat, e: nat, t: string)
    requires ReadsString(s, o, e, t)
    ensures GoodText(t) && Stands(s, o, [Quoted(t)], e) && o < e <= |s|
  {
    StringSound(s, o);
    hide StringAt, GoodText, Quoted;
  }

  // ----------------------------------------------------- what is laid out is read

  lemma QuotedStarts(t: string)
    ensures Quoted(t) != "" && Quoted(t)[0] == '"'
  {}

  lemma LiteralStarts(s: string, k: nat, t: string)
    requires t != "" && LiteralAt(s, k, t)
    ensures k < |s| && s[k] == t[0]
  {
    assert s[k..k + |t|][0] == t[0];
  }

  lemma QuotedParts(s: string, k: nat, t: string)
    requires LiteralAt(s, k, Quoted(t))
    ensures var q := k + 1 + |t|; q < |s| && s[k] == '"' && s[k + 1..q] == t && s[q] == '"' && |Quoted(t)| == |t| + 2
  {
    var text := s[k..k + |Quoted(t)|];
    assert forall i :: 0 <= i < |text| ==> text[i] == s[k + i];
    assert forall i :: 0 <= i < |t| ==> text[i + 1] == t[i];
    assert text[0] == '"' && text[|t| + 1] == '"';
  }

  lemma StringComplete(s: string, o: nat, t: string, e: nat)
    requires o <= |s| && GoodText(t) && End(s, o, [Quoted(t)]) == Some(e)
    ensures StringAt(s, o) == Some((e, t)) && Saved.CharAt(s, Space(s, o), '"')
  {
    EndOne(s, o, Quoted(t));
    hide End;
    var k := Space(s, o);
    QuotedParts(s, k, t);
    hide Quoted, Space, IsJsonText, LiteralAt;
    StringsFollowSection7(s, k + 1, e - 1);
    hide QuoteAt;
  }

  lemma TextComplete(s: string, o: nat, t: string, depth: nat, e: nat)
    requires o <= |s| && GoodText(t) && End(s, o, [Quoted(t)]) == Some(e)
    ensures ValueAt(s, o, depth) == Some((e, Text(t)))
  {
    SpaceTwice(s, o);
    EndAfterSpace(s, o, [Quoted(t)]);
    StringComplete(s, Space(s, o), t, e);
    hide StringAt, GoodText, Quoted, ObjectAt, ItemsAt, IntegerAt, End;
  }

  /** What is neither a bracket, nor a quote, nor a literal is read as an integer. */
  lemma FallsToInteger(s: string, o: nat, depth: nat)
    requires o <= |s| && Space(s, o) < |s| && (s[Space(s, o)] == '-' || Control.IsDigit(s[Space(s, o)]))
    ensures ValueAt(s, o, depth) == IntegerAt(s, Space(s, o))
  {
    var k := Space(s, o);
    if k + 4 <= |s| { assert s[k..k + 4][0] == s[k]; }
    if k + 5 <= |s| { assert s[k..k + 5][0] == s[k]; }
    hide IntegerAt, ObjectAt, ItemsAt, StringAt;
  }

  lemma NumberComplete(s: string, o: nat, digits: string, number: int, depth: nat, e: nat)
    requires o <= |s| && GoodNumber(digits, number) && End(s, o, [digits]) == Some(e)
             && (e < |s| ==> !Control.IsDigit(s[e]))
    ensures ValueAt(s, o, depth) == Some((e, Number(digits, number)))
  {
    EndOne(s, o, digits);
    var k := Space(s, o);
    LiteralStarts(s, k, digits);
    assert s[k..e] == digits;
    hide End, IsJsonInteger, IntegerOf;
    IntegersFollowSection6(s, k, e, number);
    IntegerStarts(digits);
    FallsToInteger(s, o, depth);
    hide ValueAt, IntegerAt;
  }

  lemma IntegerStarts(digits: string)
    requires IsJsonInteger(digits)
    ensures digits != "" && (digits[0] == '-' || Control.IsDigit(digits[0]))
  {}

  lemma TruthComplete(s: string, o: nat, b: bool, depth: nat, e: nat)
    requires o <= |s| && End(s, o, [if b then "true" else "false"]) == Some(e)
    ensures ValueAt(s, o, depth) == Some((e, Truth(b)))
  {
    EndOne(s, o, if b then "true" else "false");
    hide End;
    var k := Space(s, o);
    LiteralStarts(s, k, if b then "true" else "false");
    if k + 4 <= |s| { assert s[k..k + 4][0] == s[k]; }
    hide IntegerAt, ObjectAt, ItemsAt, StringAt;
  }

  lemma TokenComplete(s: string, o: nat, j: Json, depth: nat, e: nat)
    requires !j.Object? && !j.Array? && GoodValue(j, depth) && Stands(s, o, Tokens(j), e) && NoDigit(s, e)
    ensures ReadsValue(s, o, depth, e, j)
  {
    hide End, ValueAt;
    match j {
      case Text(t) => TextComplete(s, o, t, depth, e);
      case Number(digits, number) => NumberComplete(s, o, digits, number, depth, e);
      case Truth(b) => TruthComplete(s, o, b, depth, e);
    }
  }

  lemma {:induction false} ValueComplete(s: string, o: nat, j: Json, depth: nat, e: nat)
    requires GoodValue(j, depth) && Stands(s, o, Tokens(j), e) && NoDigit(s, e)
    ensures ReadsValue(s, o, depth, e, j)
    decreases j, 2
  {
    hide GoodValue, Stands, Tokens, ReadsValue, ReadsObject, NoDigit;
    if j.Object? {
      ObjectComplete(s, o, j, depth, e);
      ObjectReads(s, o, depth + 1, e, j.members);
      hide Next;
      ObjectIsValue(s, o, depth, e, j);
    } else if j.Array? {
      ArrayComplete(s, o, j, depth, e);
    } else {
      TokenComplete(s, o, j, depth, e);
    }
  }

  lemma {:induction false} ArrayComplete(s: string, o: nat, j: Json, depth: nat, e: nat)
    requires j.Array? && GoodValue(j, depth) && Stands(s, o, Tokens(j), e)
    ensures ReadsValue(s, o, depth, e, j)
    decreases j, 1
  {
    hide ReadsValue, ReadsItems, Stands, GoodValue, Tokens, GoodItems, ItemTokens, Space;
    var items := j.items;
    ArrayTokens(items, depth);
    StandsEnclosed(s, o, '[', ItemTokens(items), ']', e);
    ArrayReads(s, o, depth, e, items);
    var k := Skip(s, o) + 1;
    var m :| Stands(s, k, ItemTokens(items), m) && Next(s, m, ']') && e == Skip(s, m) + 1;
    if items == [] {
      NoItems(depth);
      StandsNothing(s, k, m);
    } else {
      ItemsNotEmpty(items);
      StandsAfterSkip(s, k, ItemTokens(items), m);
      ItemsStart(s, k, items, depth, m);
      ItemsComplete(s, Skip(s, k), items, depth, m);
    }
  }

  lemma ItemsStart(s: string, o: nat, items: seq<Json>, depth: nat, e: nat)
    requires items != [] && GoodItems(items, depth) && Stands(s, o, ItemTokens(items), e)
    ensures Next(s, o, '{')
  {
    hide Tokens, GoodItems, Stands;
    FirstItemToken(items, depth);
    FirstStands(s, o, ItemTokens(items), e);
    CharIsToken(s, Skip(s, o), '{');
  }

  lemma FirstItemToken(items: seq<Json>, depth: nat)
    requires items != [] && GoodItems(items, depth)
    ensures ItemTokens(items) != [] && ItemTokens(items)[0] == "{"
  {
    assert items[0].Object?;
    assert Tokens(items[0]) != [] && Tokens(items[0])[0] == "{";
  }

  lemma FirstStands(s: string, o: nat, tokens: seq<string>, e: nat)
    requires Stands(s, o, tokens, e) && tokens != []
    ensures LiteralAt(s, Skip(s, o), tokens[0])
  {}

  /** After tokens that others follow stands no digit: a comma or a bracket, or space before it. */
  lemma NoDigitBefore(s: string, m: nat, c: char)
    requires Next(s, m, c) && !Control.IsDigit(c)
    ensures NoDigit(s, m)
  {}

  lemma {:induction false} ItemsComplete(s: string, o: nat, items: seq<Json>, depth: nat, e: nat)
    requires items != [] && GoodItems(items, depth) && Stands(s, o, ItemTokens(items), e) && Next(s, e, ']')
    ensures ReadsItems(s, o, depth + 1, Skip(s, e), items)
    decreases items, 0
  {
    hide ReadsItems, ReadsObject, GoodValue, GoodItems, Tokens, ItemTokens, Stands, Space;
    var first, rest := items[0], items[1..];
    assert items == [first] + rest;
    ItemsCons(first, rest, depth);
    if rest == [] {
      ObjectComplete(s, o, first, depth, e);
      ItemsRead(s, o, depth + 1, Skip(s, e), first, rest, e);
    } else {
      StandsSeparated(s, o, Tokens(first), ',', ItemTokens(rest), e);
      var k :| Stands(s, o, Tokens(first), k) && Next(s, k, ',') && Stands(s, Skip(s, k) + 1, ItemTokens(rest), e);
      ObjectComplete(s, o, first, depth, k);
      ItemsComplete(s, Skip(s, k) + 1, rest, depth, e);
      ItemsRead(s, o, depth + 1, Skip(s, e), first, rest, k);
    }
  }

  lemma {:induction false} ObjectComplete(s: string, o: nat, j: Json, depth: nat, e: nat)
    requires j.Object? && GoodValue(j, depth) && Stands(s, o, Tokens(j), e)
    ensures ReadsObject(s, o, depth + 1, e, j)
    decreases j, 1
  {
    hide ReadsObject, ReadsMembers, Stands, GoodValue, Tokens, GoodMembers, MemberTokens, FreshKeys, Space;
    var members := j.members;
    ObjectTokens(members, depth);
    StandsEnclosed(s, o, '{', MemberTokens(members), '}', e);
    ObjectReads(s, o, depth + 1, e, members);
    var k := Skip(s, o) + 1;
    var m :| Stands(s, k, MemberTokens(members), m) && Next(s, m, '}') && e == Skip(s, m) + 1;
    if members == [] {
      NoMembers(depth + 1, {});
      StandsNothing(s, k, m);
    } else {
      MembersNotEmpty(members);
      StandsAfterSkip(s, k, MemberTokens(members), m);
      MembersStart(s, k, members, m);
      MembersComplete(s, Skip(s, k), members, depth + 1, {}, m);
    }
  }

  lemma MembersStart(s: string, o: nat, members: seq<Member>, e: nat)
    requires members != [] && Stands(s, o, MemberTokens(members), e)
    ensures Next(s, o, '"')
  {
    assert OneMember(members[0])[0] == Quoted(members[0].key);
    assert [members[0]] + members[1..] == members;
    MembersCons(members[0], members[1..], 0);
    hide OneMember, MemberTokens, Quoted;
    QuotedStarts(members[0].key);
    LiteralStarts(s, Space(s, o), Quoted(members[0].key));
  }

  lemma {:induction false} MembersComplete(s: string, o: nat, members: seq<Member>, depth: nat, seen: set<string>,
                                           e: nat)
    requires members != [] && GoodMembers(members, depth) && FreshKeys(members, seen)
    requires Stands(s, o, MemberTokens(members), e) && Next(s, e, '}')
    ensures ReadsMembers(s, o, depth, seen, Skip(s, e), members)
    decreases members, 0
  {
    hide ReadsMembers, ReadsMember, Stands, GoodValue, GoodText, GoodMembers, OneMember, MemberTokens, FreshKeys, Space;
    var first, rest := members[0], members[1..];
    assert members == [first] + rest;
    MembersCons(first, rest, depth);
    FreshCons(first, rest, seen);
    if rest == [] {
      NoDigitBefore(s, e, '}');
      hide NoDigit;
      MemberComplete(s, o, first, depth, seen, e);
      MembersRead(s, o, depth, seen, Skip(s, e), first, rest, e);
    } else {
      StandsSeparated(s, o, OneMember(first), ',', MemberTokens(rest), e);
      var k :| Stands(s, o, OneMember(first), k) && Next(s, k, ',') && Stands(s, Skip(s, k) + 1, MemberTokens(rest), e);
      NoDigitBefore(s, k, ',');
      hide NoDigit;
      MemberComplete(s, o, first, depth, seen, k);
      MembersComplete(s, Skip(s, k) + 1, rest, depth, seen + {first.key}, e);
      MembersRead(s, o, depth, seen, Skip(s, e), first, rest, k);
    }
  }

  lemma {:induction false} MemberComplete(s: string, o: nat, m: Member, depth: nat, seen: set<string>, e: nat)
    requires GoodText(m.key) && GoodValue(m.value, depth) && m.key !in seen
    requires Stands(s, o, OneMember(m), e) && NoDigit(s, e)
    ensures ReadsMember(s, o, depth, seen, e, m)
    decreases m, 1
  {
    hide ReadsMember, ReadsString, ReadsValue, Stands, GoodText, GoodValue, Quoted, OneMember, Tokens, Space, NoDigit,
         Next;
    MemberStands(s, o, m, e);
    var k :| Stands(s, o, [Quoted(m.key)], k) && Next(s, k, ':') && Stands(s, Skip(s, k) + 1, Tokens(m.value), e);
    KeyComplete(s, o, m.key, k);
    ValueComplete(s, Skip(s, k) + 1, m.value, depth, e);
    MemberReads(s, o, depth, seen, e, m);
  }

  lemma KeyComplete(s: string, o: nat, t: string, e: nat)
    requires GoodText(t) && Stands(s, o, [Quoted(t)], e)
    ensures ReadsString(s, o, e, t)
  {
    StringComplete(s, o, t, e);
    hide StringAt, End, GoodText, Quoted;
  }

  // ------------------------------------------------------------ main results

  ghost predicate GoodTree(j: Json) { j.Object? && GoodValue(j, 0) }

  /** The text is the tree's tokens, each after any space, between the space allowed at either end. */
  predicate LaysOut(s: string, j: Json) {
    var e := End(s, LayoutSpace(s, 0), Tokens(j));
    e.Some? && Space(s, e.value) == |s|
  }

  /** The reader reads a tree exactly from the laid-out texts of that tree. */
  lemma ReadsExactly(s: string, j: Json)
    ensures ReadTree(s) == Some(j) <==> GoodTree(j) && LaysOut(s, j)
  {
    var o := LayoutSpace(s, 0);
    hide End, Tokens, GoodValue;
    if ReadTree(s) == Some(j) {
      var e := ObjectAt(s, o, 1).value.0;
      ObjectSound(s, o, 1, e, j);
      hide ObjectAt;
    } else if GoodTree(j) && LaysOut(s, j) {
      ObjectComplete(s, o, j, 0, End(s, o, Tokens(j)).value);
      hide ObjectAt;
    }
  }

  /** A text is accepted exactly when it lays out a well-formed tree that meets the layout's conditions. */
  lemma LaidOutLayoutsAccepted(s: string)
    ensures Accept(s).Some? <==> exists j :: GoodTree(j) && LaysOut(s, j) && IsLayout(j)
    ensures forall j :: GoodTree(j) && LaysOut(s, j) && IsLayout(j) ==> Accept(s) == Some(|Panes(j, Root)|)
  {
    AcceptedIsLayout(s);
    hide ReadTree, IsLayout, Accept, GoodTree, LaysOut, Panes;
    forall j | GoodTree(j) && LaysOut(s, j) ensures ReadTree(s) == Some(j) { ReadsExactly(s, j); }
    if ReadTree(s).Some? { ReadsExactly(s, ReadTree(s).value); }
  }

  // ----------------------------------------------------------- the compact form

  /** The tokens one after another. */
  function Print(j: Json): string { Concat(Tokens(j)) }

  predicate PlainToken(t: string) { t != "" && !IsSpace(t[0]) }

  ghost predicate PlainTokens(tokens: seq<string>) { forall i :: 0 <= i < |tokens| ==> PlainToken(tokens[i]) }

  lemma {:induction false} TokensArePlain(j: Json, depth: nat)
    requires GoodValue(j, depth)
    ensures PlainTokens(Tokens(j))
    decreases j, 1
  {
    match j
    case Number(digits, _) => IntegerStarts(digits);
    case Object(members) => MembersArePlain(members, depth + 1); hide MemberTokens;
    case Array(items) => ItemsArePlain(items, depth); hide ItemTokens;
    case _ =>
  }

  lemma {:induction false} MembersArePlain(members: seq<Member>, depth: nat)
    requires GoodMembers(members, depth)
    ensures PlainTokens(MemberTokens(members))
    decreases members, 0
  {
    if members != [] {
      assert GoodValue(members[0].value, depth);
      TokensArePlain(members[0].value, depth);
      hide Tokens, GoodValue, GoodText;
      MembersArePlain(members[1..], depth);
    }
  }

  lemma {:induction false} ItemsArePlain(items: seq<Json>, depth: nat)
    requires GoodItems(items, depth)
    ensures PlainTokens(ItemTokens(items))
    decreases items, 0
  {
    if items != [] {
      assert GoodValue(items[0], depth);
      TokensArePlain(items[0], depth);
      hide Tokens, GoodValue;
      ItemsArePlain(items[1..], depth);
    }
  }

  /** Tokens with nothing between them stand where their text stands. */
  lemma {:induction false} ConcatStands(s: string, o: nat, tokens: seq<string>)
    requires PlainTokens(tokens) && o <= |s| && s[o..] == Concat(tokens)
    ensures End(s, o, tokens) == Some(|s|)
    decreases |tokens|
  {
    hide Space;
    if tokens != [] {
      var t, rest := tokens[0], tokens[1..];
      assert PlainToken(t) && s[o..] == t + Concat(rest);
      Divided(s, o, t, Concat(rest));
      SpaceStays(s, o);
      ConcatStands(s, o + |t|, rest);
    }
  }

  lemma Divided(s: string, o: nat, t: string, rest: string)
    requires o <= |s| && t != "" && s[o..] == t + rest
    ensures o + |t| <= |s| && s[o] == t[0] && s[o..o + |t|] == t && s[o + |t|..] == rest
  {
    assert s[o..][0] == t[0] && s[o..][..|t|] == t && s[o..][|t|..] == rest;
  }

  lemma CompactIsLaidOut(j: Json)
    requires GoodTree(j)
    ensures LaysOut(Print(j), j)
  {
    var s := Print(j);
    TokensArePlain(j, 0);
    ObjectTokens(j.members, 0);
    assert Tokens(j)[0] == "{";
    hide GoodValue, Tokens;
    assert s == "{" + Concat(Tokens(j)[1..]);
    assert s[0] == '{' && LayoutSpace(s, 0) == 0 && s[0..] == s;
    ConcatStands(s, 0, Tokens(j));
    SpaceStays(s, |s|);
  }

  /** Printing then reading gives back every well-formed tree. */
  lemma RoundTrip(j: Json)
    requires GoodTree(j)
    ensures ReadTree(Print(j)) == Some(j)
  {
    CompactIsLaidOut(j);
    hide ReadTree, GoodTree, LaysOut, Print;
    ReadsExactly(Print(j), j);
  }
}
