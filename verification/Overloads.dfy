/** Overloaded functions in scripts/generate-docs.ts: the key an ABI item is looked
    up by, against the headings a prose file documents it under. */
module Overloads {
  import opened Wrappers
  import opened Texts
  import opened Prose
  import opened ProsePrinter
  import opened ContractPage

  // ---------- The parameter list ----------

  /** The parts of a text between its commas. */
  function SplitCommas(s: string): (parts: seq<string>)
    ensures parts != [] && forall t :: t in parts ==> ',' !in t
  {
    if s == "" then [""]
    else
      var rest := SplitCommas(s[1..]);
      assert ',' !in rest[0] by { assert rest[0] in rest; }
      if s[0] == ',' then [""] + rest else [[s[0]] + rest[0]] + rest[1..]
  }

  /** Joining the parts gives the text back. */
  lemma {:induction false} JoinsBack(s: string)
    ensures JoinTypes(SplitCommas(s)) == s
    decreases |s|
  {
    if s != "" {
      JoinsBack(s[1..]);
      var rest := SplitCommas(s[1..]);
      if s[0] == ',' {
        assert SplitCommas(s)[1..] == rest;
        assert JoinTypes(SplitCommas(s)) == "" + "," + JoinTypes(rest);
      } else {
        var first := [s[0]] + rest[0];
        assert SplitCommas(s) == [first] + rest[1..] && SplitCommas(s)[1..] == rest[1..];
        if |rest| > 1 {
          assert first + "," + JoinTypes(rest[1..]) == [s[0]] + (rest[0] + "," + JoinTypes(rest[1..]));
        }
      }
    }
  }

  lemma {:induction false} SplitFirst(t: string, s: string)
    requires ',' !in t
    ensures SplitCommas(t + "," + s) == [t] + SplitCommas(s)
    ensures SplitCommas(t) == [t]
    decreases |t|
  {
    if t == "" {
      assert "" + "," + s == [','] + s && ([','] + s)[1..] == s;
    } else {
      assert (t + "," + s)[1..] == t[1..] + "," + s;
      SplitFirst(t[1..], s);
      assert [t[0]] + t[1..] == t;
    }
  }

  /** Splitting the parameter list of a key gives the item's types back. */
  lemma {:induction false} TypesBack(types: seq<string>)
    requires types != [] && forall t :: t in types ==> ',' !in t
    ensures SplitCommas(JoinTypes(types)) == types
    decreases |types|
  {
    if |types| == 1 {
      SplitFirst(types[0], "");
    } else {
      TypesBack(types[1..]);
      SplitFirst(types[0], JoinTypes(types[1..]));
      assert [types[0]] + types[1..] == types;
    }
  }

  // ---------- Removing white space ----------

  /** Removing works on each part of a text by itself, */
  lemma {:induction false} SpacesAppend(a: string, b: string)
    ensures RemoveSpaces(a + b) == RemoveSpaces(a) + RemoveSpaces(b)
    decreases |a|
  {
    hide IsSpace;
    if a == "" {
      assert a + b == b;
    } else {
      assert (a + b)[1..] == a[1..] + b;
      SpacesAppend(a[1..], b);
    }
  }

  /** takes a character exactly when it is white space, */
  lemma SpaceGoes(c: char)
    ensures RemoveSpaces([c]) == if IsSpace(c) then "" else [c]
  {
    assert [c][1..] == "";
  }

  /** and so leaves none. */
  lemma {:induction false} NoSpaceLeft(s: string)
    ensures forall i :: 0 <= i < |RemoveSpaces(s)| ==> !IsSpace(RemoveSpaces(s)[i])
    decreases |s|
  {
    hide IsSpace;
    if s != "" { NoSpaceLeft(s[1..]); }
  }

  // ---------- Headings ----------

  predicate IsName(s: string) {
    s != "" && forall i :: 0 <= i < |s| ==> IsWord(s[i])
  }

  predicate TypeText(s: string) {
    forall i :: 0 <= i < |s| ==> IsTypeChar(s[i])
  }

  /** `list` is how the types may be written between the parentheses: separated by
      commas, with white space anywhere. */
  predicate Lists(list: string, types: seq<string>) {
    TypeText(list) &&
    if types == [] then RemoveSpaces(list) == "" else SplitCommas(RemoveSpaces(list)) == types
  }

  lemma {:induction false} WordRunStops(name: string, rest: string)
    requires (forall i :: 0 <= i < |name| ==> IsWord(name[i])) && (rest != "" ==> !IsWord(rest[0]))
    ensures WordRun(name + rest) == |name|
    decreases |name|
  {
    if name == "" {
      assert name + rest == rest;
    } else {
      assert (name + rest)[1..] == name[1..] + rest;
      WordRunStops(name[1..], rest);
    }
  }

  lemma ListInParens(list: string)
    requires TypeText(list)
    ensures IsTypeList("(" + list + ")")
    ensures RemoveSpaces("(" + list + ")") == "(" + RemoveSpaces(list) + ")"
  {
    hide IsTypeChar, IsSpace;
    var s := "(" + list + ")";
    assert forall i :: 1 <= i < |s| - 1 ==> s[i] == list[i - 1];
    SpacesAppend("(" + list, ")");
    SpacesAppend("(", list);
    NoSpaceParens();
    SpaceGoes('(');
    SpaceGoes(')');
  }

  lemma NoSpaceParens()
    ensures !IsSpace('(') && !IsSpace(')')
  {
  }

  lemma NameThenList(name: string, list: string)
    requires IsName(name) && TypeText(list)
    ensures ParseKey(name + ("(" + list + ")")) == Some(name + ("(" + RemoveSpaces(list) + ")"))
  {
    hide IsTypeList, IsTypeChar, IsSpace, RemoveSpaces;
    var rest := "(" + list + ")";
    assert rest[0] == '(' && !IsWord('(');
    WordRunStops(name, rest);
    ListInParens(list);
    assert (name + rest)[..|name|] == name && (name + rest)[|name|..] == rest;
  }

  lemma ListIsJoined(list: string, types: seq<string>)
    requires Lists(list, types)
    ensures RemoveSpaces(list) == JoinTypes(types)
  {
    JoinsBack(RemoveSpaces(list));
  }

  /** A heading of a kind, a name and the written parameter list parses to exactly
      the key the item is looked up by. */
  lemma SignatureReads(kind: Kind, item: Item, list: string)
    requires kind != ReceiveBlock && IsName(item.name) && Lists(list, item.types)
    ensures ParseBlockHeading(KindWord(kind) + (item.name + ("(" + list + ")"))) == Some((kind, OverloadKey(item)))
  {
    hide ParseKey, RemoveSpaces, JoinTypes;
    NameThenList(item.name, list);
    ListIsJoined(list, item.types);
    WordAndKey(kind, item.name + ("(" + list + ")"));
  }

  /** A heading without a parameter list parses to the plain name. */
  lemma NameReads(kind: Kind, name: string)
    requires kind != ReceiveBlock && IsName(name)
    ensures ParseBlockHeading(KindWord(kind) + name) == Some((kind, name))
  {
    hide ParseKey;
    NameParses(name);
    WordAndKey(kind, name);
  }

  lemma WordAndKey(kind: Kind, text: string)
    requires kind != ReceiveBlock && ParseKey(text).Some?
    ensures ParseBlockHeading(KindWord(kind) + text) == Some((kind, ParseKey(text).value))
  {
    hide ParseKey;
    var h := KindWord(kind) + text;
    assert h[|KindWord(kind)|..] == text && KindWord(kind) <= h;
    assert "receive"[0] == 'r' && h[0] == KindWord(kind)[0] && h[1] == KindWord(kind)[1];
    assert "function "[0] == 'f' && "event "[0] == 'e' && "error "[0] == 'e';
    assert "event "[1] == 'v' && "error "[1] == 'r';
  }

  lemma TypeCharIs(c: char)
    ensures IsTypeChar(c) <==> IsWord(c) || IsSpace(c) || c in ",[]"
  {
    assert ",[]"[0] == ',' && ",[]"[1] == '[' && ",[]"[2] == ']';
  }

  /** What follows the kind is a name, or a name and a parameter list in parentheses. */
  ghost predicate KeyText(s: string) {
    IsName(s) || exists name: string, list: string :: IsName(name) && TypeText(list) && s == name + ("(" + list + ")")
  }

  lemma KeyReadsIff(s: string)
    ensures ParseKey(s).Some? <==> KeyText(s)
  {
    hide IsTypeChar, IsSpace, RemoveSpaces, IsWord;
    if ParseKey(s).Some? {
      var n := WordRun(s);
      if n < |s| {
        var name, list := s[..n], s[n + 1..|s| - 1];
        assert s == name + ("(" + list + ")");
        assert list == s[n..][1..|s[n..]| - 1];
        ListChars(s[n..], list);
        assert IsName(name);
      }
    }
    if IsName(s) {
      NameParses(s);
    } else if KeyText(s) {
      var name: string, list: string :| IsName(name) && TypeText(list) && s == name + ("(" + list + ")");
      NameThenList(name, list);
    }
  }

  lemma NameParses(name: string)
    requires IsName(name)
    ensures ParseKey(name) == Some(name)
  {
    hide IsTypeList, IsWord;
    assert name + "" == name;
    WordRunStops(name, "");
  }

  lemma ListChars(s: string, list: string)
    requires IsTypeList(s) && list == s[1..|s| - 1]
    ensures TypeText(list)
  {
    hide IsTypeChar;
    assert forall i :: 0 <= i < |list| ==> list[i] == s[i + 1];
  }

  /** A parsed block has an access line exactly when one was found in its text: none
      that is found is empty. */
  lemma {:induction false} ParsedAccess(segs: seq<Seg>, b: Block)
    requires AddSegs(segs).Ok? && b in AddSegs(segs).value.blocks
    ensures HasAccess(b) <==> b.access.Some?
    decreases |segs|
  {
    hide ParseBlockHeading, ExtractAccess, Trim, Join;
    var init, s := segs[..|segs| - 1], segs[|segs| - 1];
    if b in AddSegs(init).value.blocks {
      ParsedAccess(init, b);
    } else {
      AccessHasInk(Trim(Join(s.body)));
    }
  }

  // ---------- From headings to the page ----------

  /** Every block segment of the prose becomes a block under its heading's key. */
  lemma {:induction false} SegmentHasBlock(segs: seq<Seg>, k: nat)
    requires AddSegs(segs).Ok? && k < |segs| && segs[k].level != 1
    ensures ParseBlockHeading(segs[k].heading).Some?
    ensures ParseBlockHeading(segs[k].heading).value in Keys(AddSegs(segs).value.blocks)
    decreases |segs|
  {
    hide ParseBlockHeading, ExtractAccess, Trim, Join;
    var init := segs[..|segs| - 1];
    if k < |segs| - 1 {
      SegmentHasBlock(init, k);
      KeysGrow(AddSegs(init).value.blocks, AddSegs(segs).value.blocks);
    } else {
      var blocks := AddSegs(segs).value.blocks;
      assert blocks[|blocks| - 1] in blocks;
    }
  }

  lemma KeysGrow(a: seq<Block>, b: seq<Block>)
    requires a <= b
    ensures Keys(a) <= Keys(b)
  {
    assert forall x :: x in a ==> x in b;
  }

  /** Some segment is headed by the item's full signature. */
  ghost predicate Signed(segs: seq<Seg>, kind: Kind, item: Item) {
    exists k, list :: 0 <= k < |segs| && segs[k].level != 1 && Lists(list, item.types)
      && segs[k].heading == KindWord(kind) + (item.name + ("(" + list + ")"))
  }

  /** An item documented under its full signature is found there, overloaded or not. */
  lemma SignedIsFound(segs: seq<Seg>, functions: seq<Item>, kind: Kind, item: Item)
    requires AddSegs(segs).Ok? && kind != ReceiveBlock && IsName(item.name) && Signed(segs, kind, item)
    ensures Lookup(Keys(AddSegs(segs).value.blocks), functions, kind, item) == Some((kind, OverloadKey(item)))
  {
    hide OverloadKey, AddSegs, NameCount, ParseBlockHeading, Lists;
    var k, list :| 0 <= k < |segs| && segs[k].level != 1 && Lists(list, item.types)
      && segs[k].heading == KindWord(kind) + (item.name + ("(" + list + ")"));
    SignatureReads(kind, item, list);
    SegmentHasBlock(segs, k);
  }

  /** So an ABI whose functions are all headed by full signatures finds a block for
      every one of them. */
  lemma SignaturesFound(abi: Abi, segs: seq<Seg>)
    requires AddSegs(segs).Ok?
    requires forall i :: 0 <= i < |abi.functions| ==>
      IsName(abi.functions[i].name) && Signed(segs, FunctionBlock, abi.functions[i])
    ensures Found(abi, Keys(AddSegs(segs).value.blocks), FunctionBlock, abi.functions)
  {
    hide AddSegs, Lookup, Signed, IsName;
    forall i | 0 <= i < |abi.functions|
      ensures Lookup(Keys(AddSegs(segs).value.blocks), abi.functions, FunctionBlock, abi.functions[i]).Some?
    {
      SignedIsFound(segs, abi.functions, FunctionBlock, abi.functions[i]);
    }
  }

  // ---------- When the plain name is enough ----------

  lemma {:induction false} NameCountIs(items: seq<Item>, name: string)
    ensures NameCount(items, name) == |set i: nat | i < |items| && items[i].name == name|
    decreases |items|
  {
    var here := set i: nat | i < |items| && items[i].name == name;
    if items == [] {
      assert here == {};
    } else {
      var n := |items| - 1;
      NameCountIs(items[..n], name);
      var before := set i: nat | i < n && items[..n][i].name == name;
      assert before == here - {n};
    }
  }

  /** Two different functions of the ABI have this name. */
  ghost predicate Overloaded(functions: seq<Item>, name: string) {
    exists i, j :: 0 <= i < j < |functions| && functions[i].name == functions[j].name == name
  }

  lemma OverloadedIff(functions: seq<Item>, name: string)
    ensures NameCount(functions, name) > 1 <==> Overloaded(functions, name)
  {
    NameCountIs(functions, name);
    var here := set i: nat | i < |functions| && functions[i].name == name;
    if Overloaded(functions, name) {
      var i, j :| 0 <= i < j < |functions| && functions[i].name == functions[j].name == name;
      assert {i, j} <= here;
      SubsetSize({i, j}, here);
    } else if here != {} {
      var i :| i in here;
      assert here == {i};
    }
  }

  lemma SubsetSize(a: set<nat>, b: set<nat>)
    requires a <= b
    ensures |a| <= |b|
  {
    var rest := b - a;
    assert b == a + rest;
  }

  /** What a lookup finds: the full signature; failing that the plain name, but not
      for a function whose name is overloaded. */
  lemma LookupIs(keys: set<Key>, functions: seq<Item>, kind: Kind, item: Item)
    ensures var byName := (kind, item.name) in keys && !(kind == FunctionBlock && Overloaded(functions, item.name));
      Lookup(keys, functions, kind, item) ==
        if (kind, OverloadKey(item)) in keys then Some((kind, OverloadKey(item)))
        else if byName then Some((kind, item.name)) else None
  {
    hide OverloadKey, NameCount, Overloaded;
    OverloadedIff(functions, item.name);
  }
}
