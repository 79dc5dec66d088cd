/** scripts/generate-docs.ts: how `buildContractPage` matches a contract's ABI
    against its prose file. */
module ContractPage {
  import opened Wrappers
  import opened Prose

  datatype Mutability = Reading | Writing

  /** A function, event or error of the ABI. */
  datatype Item = Item(name: string, types: seq<string>, mutability: Mutability)

  datatype Abi = Abi(functions: seq<Item>, events: seq<Item>, errors: seq<Item>, hasReceive: bool)

  type Key = (Kind, string)

  datatype Problem =
    | NeedsOverload(item: Item)
    | MissingBlock(kind: Kind, item: Item)
    | NoAccessLine(item: Item)
    | MissingReceive
    | ReceiveHasNoAccess
    | MatchesNothing(key: Key)

  /** A function, by its ABI position, with the block that documents it. */
  datatype Slot = Slot(at: nat, block: Option<Block>)

  datatype PageError = DuplicateBlock(key: Key) | Mismatch(problems: seq<Problem>)

  datatype Page = Page(writes: seq<Slot>, receive: Option<Block>)

  function KeyOf(b: Block): Key {
    (b.kind, b.key)
  }

  function JoinTypes(types: seq<string>): string {
    if types == [] then "" else if |types| == 1 then types[0] else types[0] + "," + JoinTypes(types[1..])
  }

  /** `overloadKey`. */
  function OverloadKey(item: Item): string {
    item.name + ("(" + JoinTypes(item.types) + ")")
  }

  function NameCount(items: seq<Item>, name: string): nat {
    if items == [] then 0
    else NameCount(items[..|items| - 1], name) + if items[|items| - 1].name == name then 1 else 0
  }

  /** `lookup`: the key of the block found, if any. */
  function Lookup(keys: set<Key>, functions: seq<Item>, kind: Kind, item: Item): Option<Key> {
    if (kind, OverloadKey(item)) in keys then Some((kind, OverloadKey(item)))
    else if kind == FunctionBlock && NameCount(functions, item.name) > 1 then None
    else if (kind, item.name) in keys then Some((kind, item.name))
    else None
  }

  predicate HasAccess(b: Block) {
    b.access.Some? && b.access.value != ""
  }

  // ---------- What a page without problems is ----------

  ghost predicate NoDuplicates(blocks: seq<Block>) {
    forall i, j :: 0 <= i < j < |blocks| ==> KeyOf(blocks[i]) != KeyOf(blocks[j])
  }

  function Keys(blocks: seq<Block>): set<Key> {
    set b | b in blocks :: KeyOf(b)
  }

  ghost predicate Found(abi: Abi, keys: set<Key>, kind: Kind, items: seq<Item>) {
    forall i :: 0 <= i < |items| ==> Lookup(keys, abi.functions, kind, items[i]).Some?
  }

  /** The blocks some item of the list looks up. */
  ghost function UsedBy(abi: Abi, keys: set<Key>, kind: Kind, items: seq<Item>): set<Key> {
    set i | 0 <= i < |items| && Lookup(keys, abi.functions, kind, items[i]).Some?
      :: Lookup(keys, abi.functions, kind, items[i]).value
  }

  ghost function Used(abi: Abi, keys: set<Key>): set<Key> {
    UsedBy(abi, keys, FunctionBlock, abi.functions) + UsedBy(abi, keys, EventBlock, abi.events)
    + UsedBy(abi, keys, ErrorBlock, abi.errors) + if abi.hasReceive then {(ReceiveBlock, "receive")} else {}
  }

  ghost predicate WritesHaveAccess(abi: Abi, table: map<Key, Block>) {
    forall i :: 0 <= i < |abi.functions| && abi.functions[i].mutability == Writing ==>
      var k := Lookup(table.Keys, abi.functions, FunctionBlock, abi.functions[i]);
      k.Some? && k.value in table ==> HasAccess(table[k.value])
  }

  ghost predicate ReceiveOk(abi: Abi, table: map<Key, Block>) {
    abi.hasReceive ==> (ReceiveBlock, "receive") in table && HasAccess(table[(ReceiveBlock, "receive")])
  }

  /** Prose and ABI fit: every item finds its block, writing ones with an access
      line, and every block is found. */
  ghost predicate Fits(abi: Abi, table: map<Key, Block>) {
    && Found(abi, table.Keys, FunctionBlock, abi.functions)
    && Found(abi, table.Keys, EventBlock, abi.events)
    && Found(abi, table.Keys, ErrorBlock, abi.errors)
    && WritesHaveAccess(abi, table) && ReceiveOk(abi, table)
    && table.Keys <= Used(abi, table.Keys)
  }

  // ---------- The table of blocks ----------

  ghost predicate TableOf(blocks: seq<Block>, table: map<Key, Block>) {
    && table.Keys == Keys(blocks)
    && forall b :: b in blocks ==> KeyOf(b) in table && table[KeyOf(b)] == b
  }

  /** `proseFor`: the blocks by key. */
  function TableFor(blocks: seq<Block>): map<Key, Block> {
    if blocks == [] then map[]
    else TableFor(blocks[..|blocks| - 1])[KeyOf(blocks[|blocks| - 1]) := blocks[|blocks| - 1]]
  }

  /** Without repeated keys, the table holds exactly the blocks. */
  lemma {:induction false} TableHoldsAll(blocks: seq<Block>)
    requires NoDuplicates(blocks)
    ensures TableOf(blocks, TableFor(blocks))
    decreases |blocks|
  {
    if blocks != [] {
      var init, b := blocks[..|blocks| - 1], blocks[|blocks| - 1];
      TableHoldsAll(init);
      assert blocks == init + [b];
      assert forall x :: x in init ==> KeyOf(x) != KeyOf(b);
    }
  }

  ghost predicate Repeated(blocks: seq<Block>, key: Key) {
    exists i, j :: 0 <= i < j < |blocks| && KeyOf(blocks[i]) == key == KeyOf(blocks[j])
  }

  /** The indexing loop: refuses a repeated key. */
  method IndexBlocks(blocks: seq<Block>) returns (r: Result<map<Key, Block>, Key>)
    ensures r.Ok? <==> NoDuplicates(blocks)
    ensures r.Ok? ==> r.value == TableFor(blocks)
    ensures r.Err? ==> Repeated(blocks, r.error)
  {
    hide TableFor;
    var table: map<Key, Block> := map[];
    assert TableFor(blocks[..0]) == map[] by { TableForNone(blocks); }
    for i := 0 to |blocks|
      invariant NoDuplicates(blocks[..i]) && table == TableFor(blocks[..i])
    {
      var b := blocks[i];
      TableHoldsAll(blocks[..i]);
      assert blocks[..i + 1] == blocks[..i] + [b];
      if KeyOf(b) in table {
        var other :| other in blocks[..i] && KeyOf(other) == KeyOf(b);
        var j :| 0 <= j < i && blocks[j] == other;
        assert KeyOf(blocks[j]) == KeyOf(b) == KeyOf(blocks[i]);
        return Err(KeyOf(b));
      }
      assert forall j :: 0 <= j < i ==> blocks[j] in blocks[..i];
      TableForOne(blocks, i);
      table := table[KeyOf(b) := b];
    }
    assert blocks[..|blocks|] == blocks;
    return Ok(table);
  }

  lemma TableForNone(blocks: seq<Block>)
    ensures TableFor(blocks[..0]) == map[]
  {
  }

  lemma TableForOne(blocks: seq<Block>, i: nat)
    requires i < |blocks|
    ensures TableFor(blocks[..i + 1]) == TableFor(blocks[..i])[KeyOf(blocks[i]) := blocks[i]]
  {
    assert blocks[..i + 1][..i] == blocks[..i];
  }

  // ---------- Problems ----------

  function BlockAt(table: map<Key, Block>, k: Option<Key>): Option<Block> {
    if k.Some? && k.value in table then Some(table[k.value]) else None
  }

  function ItemsOf(abi: Abi, kind: Kind): seq<Item> {
    match kind
    case FunctionBlock => abi.functions
    case EventBlock => abi.events
    case ErrorBlock => abi.errors
    case ReceiveBlock => []
  }

  /** What each complaint says of prose and ABI. */
  ghost predicate TrueProblem(abi: Abi, table: map<Key, Block>, x: Problem) {
    var receive: Key := (ReceiveBlock, "receive");
    match x
    case NeedsOverload(item) =>
      && item in abi.functions && NameCount(abi.functions, item.name) > 1
      && (FunctionBlock, OverloadKey(item)) !in table
    case MissingBlock(kind, item) =>
      && item in ItemsOf(abi, kind) && (kind == FunctionBlock ==> NameCount(abi.functions, item.name) <= 1)
      && (kind, OverloadKey(item)) !in table && (kind, item.name) !in table
    case NoAccessLine(item) =>
      item in abi.functions && item.mutability == Writing &&
      var b := BlockAt(table, Lookup(table.Keys, abi.functions, FunctionBlock, item));
      b.Some? && !HasAccess(b.value)
    case MissingReceive => abi.hasReceive && receive !in table
    case ReceiveHasNoAccess => abi.hasReceive && receive in table && !HasAccess(table[receive])
    case MatchesNothing(key) => key in table && key !in Used(abi, table.Keys)
  }

  ghost function Members(problems: seq<Problem>): set<Problem> {
    set x | x in problems
  }

  lemma MembersGrow(problems: seq<Problem>, more: seq<Problem>)
    ensures Members(problems + more) == Members(problems) + Members(more)
  {
    assert forall x :: x in problems + more <==> x in problems || x in more;
  }

  /** What a failed lookup adds. */
  function LookupProblem(keys: set<Key>, functions: seq<Item>, kind: Kind, item: Item): seq<Problem> {
    if Lookup(keys, functions, kind, item).Some? then []
    else if kind == FunctionBlock && NameCount(functions, item.name) > 1 then [NeedsOverload(item)]
    else [MissingBlock(kind, item)]
  }

  ghost function ItemProblems(abi: Abi, keys: set<Key>, kind: Kind, items: seq<Item>): set<Problem> {
    set i, x | 0 <= i < |items| && x in LookupProblem(keys, abi.functions, kind, items[i]) :: x
  }

  lemma ItemProblemsStep(abi: Abi, keys: set<Key>, kind: Kind, items: seq<Item>, i: nat)
    requires i < |items|
    ensures ItemProblems(abi, keys, kind, items[..i + 1])
      == ItemProblems(abi, keys, kind, items[..i]) + Members(LookupProblem(keys, abi.functions, kind, items[i]))
  {
    hide LookupProblem;
    var a, b := items[..i], items[..i + 1];
    assert b[i] == items[i] && forall j :: 0 <= j < i ==> a[j] == b[j];
  }

  /** Writing functions whose block lacks the access line. */
  ghost function AccessProblems(abi: Abi, table: map<Key, Block>, n: nat): set<Problem>
    requires n <= |abi.functions|
  {
    set i | 0 <= i < n && abi.functions[i].mutability == Writing
      && var b := BlockAt(table, Lookup(table.Keys, abi.functions, FunctionBlock, abi.functions[i]));
         b.Some? && !HasAccess(b.value)
      :: NoAccessLine(abi.functions[i])
  }

  lemma AccessProblemsStep(abi: Abi, table: map<Key, Block>, i: nat)
    requires i < |abi.functions|
    ensures var f := abi.functions[i];
      var b := BlockAt(table, Lookup(table.Keys, abi.functions, FunctionBlock, f));
      AccessProblems(abi, table, i + 1) == AccessProblems(abi, table, i)
        + if f.mutability == Writing && b.Some? && !HasAccess(b.value) then {NoAccessLine(f)} else {}
  {
    hide Lookup, BlockAt, HasAccess;
  }

  ghost function ReceiveProblems(abi: Abi, table: map<Key, Block>): set<Problem> {
    var receive: Key := (ReceiveBlock, "receive");
    if !abi.hasReceive then {}
    else if receive !in table then {MissingReceive}
    else if !HasAccess(table[receive]) then {ReceiveHasNoAccess} else {}
  }

  ghost function AllProblems(abi: Abi, table: map<Key, Block>): set<Problem> {
    ItemProblems(abi, table.Keys, FunctionBlock, abi.functions) + AccessProblems(abi, table, |abi.functions|)
    + ReceiveProblems(abi, table)
    + ItemProblems(abi, table.Keys, EventBlock, abi.events) + ItemProblems(abi, table.Keys, ErrorBlock, abi.errors)
    + set k | k in table.Keys - Used(abi, table.Keys) :: MatchesNothing(k)
  }

  lemma LookupFails(abi: Abi, table: map<Key, Block>, kind: Kind, items: seq<Item>, x: Problem)
    requires kind != ReceiveBlock && items == ItemsOf(abi, kind)
    ensures x in ItemProblems(abi, table.Keys, kind, items) <==>
      match x
      case NeedsOverload(_) => kind == FunctionBlock && TrueProblem(abi, table, x)
      case MissingBlock(k, _) => k == kind && TrueProblem(abi, table, x)
      case _ => false
  {
    hide OverloadKey, NameCount;
    var mine := (x.NeedsOverload? && kind == FunctionBlock) || (x.MissingBlock? && x.kind == kind);
    if mine && TrueProblem(abi, table, x) {
      var i :| 0 <= i < |items| && items[i] == x.item;
      assert LookupProblem(table.Keys, abi.functions, kind, items[i]) == [x];
      assert x in LookupProblem(table.Keys, abi.functions, kind, items[i]);
    }
  }

  /** The complaints are exactly the true ones. */
  lemma ProblemsAreTrue(abi: Abi, table: map<Key, Block>, x: Problem)
    ensures x in AllProblems(abi, table) <==> TrueProblem(abi, table, x)
  {
    hide Lookup, Used, ItemProblems;
    LookupFails(abi, table, FunctionBlock, abi.functions, x);
    LookupFails(abi, table, EventBlock, abi.events, x);
    LookupFails(abi, table, ErrorBlock, abi.errors, x);
  }

  // ---------- Matching ----------

  /** `lookup`, with what it records: a used block or a problem. */
  method LookUp(abi: Abi, table: map<Key, Block>, kind: Kind, item: Item, used: set<Key>, problems: seq<Problem>)
    returns (block: Option<Block>, used': set<Key>, problems': seq<Problem>)
    ensures var k := Lookup(table.Keys, abi.functions, kind, item);
      && block == BlockAt(table, k) && (block.Some? <==> k.Some?)
      && used' == used + (if k.Some? then {k.value} else {})
      && problems' == problems + LookupProblem(table.Keys, abi.functions, kind, item)
  {
    var overload := OverloadKey(item);
    assert problems + [] == problems;
    if (kind, overload) in table {
      return Some(table[(kind, overload)]), used + {(kind, overload)}, problems;
    }
    if kind == FunctionBlock && NameCount(abi.functions, item.name) > 1 {
      return None, used, problems + [NeedsOverload(item)];
    }
    if (kind, item.name) in table {
      return Some(table[(kind, item.name)]), used + {(kind, item.name)}, problems;
    }
    return None, used, problems + [MissingBlock(kind, item)];
  }

  lemma UsedByStep(abi: Abi, keys: set<Key>, kind: Kind, items: seq<Item>, i: nat)
    requires i < |items|
    ensures var k := Lookup(keys, abi.functions, kind, items[i]);
      && UsedBy(abi, keys, kind, items[..i + 1])
         == UsedBy(abi, keys, kind, items[..i]) + (if k.Some? then {k.value} else {})
      && (Found(abi, keys, kind, items[..i + 1]) <==> Found(abi, keys, kind, items[..i]) && k.Some?)
  {
    hide Lookup;
    var a, b := items[..i], items[..i + 1];
    assert b == a + [items[i]] && b[i] == items[i];
    assert forall j :: 0 <= j < i ==> a[j] == b[j];
  }

  /** The event and error loops. */
  method MatchItems(abi: Abi, table: map<Key, Block>, kind: Kind, items: seq<Item>, used: set<Key>,
                    problems: seq<Problem>)
    returns (used': set<Key>, problems': seq<Problem>)
    ensures used' == used + UsedBy(abi, table.Keys, kind, items)
    ensures problems' == [] <==> problems == [] && Found(abi, table.Keys, kind, items)
    ensures Members(problems') == Members(problems) + ItemProblems(abi, table.Keys, kind, items)
  {
    hide Lookup, Members, ItemProblems;
    used', problems' := used, problems;
    NoItemProblems(abi, table.Keys, kind);
    for i := 0 to |items|
      invariant used' == used + UsedBy(abi, table.Keys, kind, items[..i])
      invariant problems' == [] <==> problems == [] && Found(abi, table.Keys, kind, items[..i])
      invariant Members(problems') == Members(problems) + ItemProblems(abi, table.Keys, kind, items[..i])
    {
      var block;
      ItemProblemsStep(abi, table.Keys, kind, items, i);
      MembersGrow(problems', LookupProblem(table.Keys, abi.functions, kind, items[i]));
      block, used', problems' := LookUp(abi, table, kind, items[i], used', problems');
      UsedByStep(abi, table.Keys, kind, items, i);
    }
    assert items[..|items|] == items;
  }

  lemma NoItemProblems(abi: Abi, keys: set<Key>, kind: Kind)
    ensures ItemProblems(abi, keys, kind, []) == {} && Members([]) == {}
  {
  }

  /** The writing functions among the first `n`, in ABI order, with their blocks. */
  function WriteSlots(abi: Abi, table: map<Key, Block>, n: nat): seq<Slot>
    requires n <= |abi.functions|
  {
    if n == 0 then []
    else
      var f := abi.functions[n - 1];
      WriteSlots(abi, table, n - 1) +
      if f.mutability == Writing then
        [Slot(n - 1, BlockAt(table, Lookup(table.Keys, abi.functions, FunctionBlock, f)))]
      else []
  }

  /** The first `n` writing functions have their access lines. */
  ghost predicate AccessBelow(abi: Abi, table: map<Key, Block>, n: nat)
    requires n <= |abi.functions|
  {
    forall i :: 0 <= i < n && abi.functions[i].mutability == Writing ==>
      var k := Lookup(table.Keys, abi.functions, FunctionBlock, abi.functions[i]);
      k.Some? && k.value in table ==> HasAccess(table[k.value])
  }

  /** The function loop. */
  method MatchFunctions(abi: Abi, table: map<Key, Block>)
    returns (writes: seq<Slot>, used: set<Key>, problems: seq<Problem>)
    ensures used == UsedBy(abi, table.Keys, FunctionBlock, abi.functions)
    ensures problems == [] <==> Found(abi, table.Keys, FunctionBlock, abi.functions) && WritesHaveAccess(abi, table)
    ensures Members(problems) ==
      ItemProblems(abi, table.Keys, FunctionBlock, abi.functions) + AccessProblems(abi, table, |abi.functions|)
    ensures writes == WriteSlots(abi, table, |abi.functions|)
  {
    hide Lookup, Members, ItemProblems, AccessProblems;
    writes, used, problems := [], {}, [];
    NoItemProblems(abi, table.Keys, FunctionBlock);
    NoAccessProblems(abi, table);
    for i := 0 to |abi.functions|
      invariant used == UsedBy(abi, table.Keys, FunctionBlock, abi.functions[..i])
      invariant problems == [] <==>
        Found(abi, table.Keys, FunctionBlock, abi.functions[..i]) && AccessBelow(abi, table, i)
      invariant writes == WriteSlots(abi, table, i)
      invariant Members(problems) ==
        ItemProblems(abi, table.Keys, FunctionBlock, abi.functions[..i]) + AccessProblems(abi, table, i)
    {
      var f, block := abi.functions[i], None;
      ItemProblemsStep(abi, table.Keys, FunctionBlock, abi.functions, i);
      AccessProblemsStep(abi, table, i);
      MembersGrow(problems, LookupProblem(table.Keys, abi.functions, FunctionBlock, f));
      block, used, problems := LookUp(abi, table, FunctionBlock, f, used, problems);
      UsedByStep(abi, table.Keys, FunctionBlock, abi.functions, i);
      if f.mutability == Writing && block.Some? && !HasAccess(block.value) {
        MembersGrow(problems, [NoAccessLine(f)]);
        MembersOne(NoAccessLine(f));
        problems := problems + [NoAccessLine(f)];
      }
      if f.mutability == Writing { writes := writes + [Slot(i, block)]; }
    }
    assert abi.functions[..|abi.functions|] == abi.functions;
  }

  lemma NoAccessProblems(abi: Abi, table: map<Key, Block>)
    ensures AccessProblems(abi, table, 0) == {}
  {
  }

  lemma MembersOne(x: Problem)
    ensures Members([x]) == {x}
  {
  }

  // ---------- The prose order ----------

  function OrderOf(s: Slot): nat {
    if s.block.Some? then s.block.value.order else 1_000_000_000
  }

  ghost predicate InProseOrder(slots: seq<Slot>) {
    forall i, j :: 0 <= i < j < |slots| ==> OrderOf(slots[i]) < OrderOf(slots[j])
  }

  ghost predicate DistinctOrders(slots: seq<Slot>) {
    forall i, j :: 0 <= i < j < |slots| ==> OrderOf(slots[i]) != OrderOf(slots[j])
  }

  function InsertSlot(s: seq<Slot>, x: Slot): (r: seq<Slot>)
    ensures multiset(r) == multiset(s) + multiset{x}
  {
    if s == [] || OrderOf(x) < OrderOf(s[0]) then [x] + s
    else
      assert s == [s[0]] + s[1..];
      [s[0]] + InsertSlot(s[1..], x)
  }

  function SortSlots(s: seq<Slot>): (r: seq<Slot>)
    ensures multiset(r) == multiset(s)
  {
    if s == [] then []
    else
      assert s == s[..|s| - 1] + [s[|s| - 1]];
      InsertSlot(SortSlots(s[..|s| - 1]), s[|s| - 1])
  }

  lemma InsertMembers(s: seq<Slot>, x: Slot)
    ensures forall y :: y in InsertSlot(s, x) <==> y in s || y == x
  {
    forall y
      ensures y in InsertSlot(s, x) <==> y in s || y == x
    {
      assert y in InsertSlot(s, x) <==> y in multiset(InsertSlot(s, x));
    }
  }

  lemma {:induction false} InsertInOrder(s: seq<Slot>, x: Slot)
    requires InProseOrder(s) && forall y :: y in s ==> OrderOf(y) != OrderOf(x)
    ensures InProseOrder(InsertSlot(s, x))
    decreases |s|
  {
    hide OrderOf;
    if s != [] && OrderOf(s[0]) <= OrderOf(x) {
      InsertInOrder(s[1..], x);
      InsertMembers(s[1..], x);
      assert s[0] in s && forall y :: y in s[1..] ==> OrderOf(s[0]) < OrderOf(y);
      var r := InsertSlot(s[1..], x);
      assert forall y :: y in r ==> OrderOf(s[0]) < OrderOf(y);
      assert forall i :: 0 <= i < |r| ==> r[i] in r;
    }
  }

  lemma SortMembers(s: seq<Slot>)
    ensures forall y :: y in SortSlots(s) <==> y in s
  {
    forall y
      ensures y in SortSlots(s) <==> y in s
    {
      assert y in SortSlots(s) <==> y in multiset(SortSlots(s));
    }
  }

  lemma {:induction false} SortedInOrder(s: seq<Slot>)
    requires DistinctOrders(s)
    ensures InProseOrder(SortSlots(s))
    decreases |s|
  {
    hide OrderOf;
    if s != [] {
      var init := s[..|s| - 1];
      SortedInOrder(init);
      SortMembers(init);
      InsertInOrder(SortSlots(init), s[|s| - 1]);
    }
  }

  // ---------- The page ----------

  /** The write functions in prose order, and the receive block. */
  function PageOf(abi: Abi, table: map<Key, Block>): Page {
    Page(SortSlots(WriteSlots(abi, table, |abi.functions|)),
         if abi.hasReceive then BlockAt(table, Some((ReceiveBlock, "receive"))) else None)
  }

  /** The matching part of `buildContractPage`: it succeeds exactly when no block
      is repeated and prose and ABI fit, and otherwise says which block is repeated
      or lists exactly what does not fit. */
  method BuildPage(abi: Abi, blocks: seq<Block>) returns (r: Result<Page, PageError>)
    ensures r.Ok? <==> NoDuplicates(blocks) && Fits(abi, TableFor(blocks))
    ensures r.Ok? ==> r.value == PageOf(abi, TableFor(blocks))
    ensures r.Err? && r.error.DuplicateBlock? ==> Repeated(blocks, r.error.key)
    ensures r.Err? && r.error.Mismatch? ==>
      forall x :: x in r.error.problems <==> TrueProblem(abi, TableFor(blocks), x)
  {
    hide Lookup, SortSlots, TableFor, Found, WritesHaveAccess, NoDuplicates, TrueProblem, Members, ItemProblems,
      AccessProblems, HasAccess, Repeated;
    var indexed := IndexBlocks(blocks);
    if indexed.Err? { return Err(DuplicateBlock(indexed.error)); }
    var proseFor := indexed.value;
    var writes, used, problems := MatchFunctions(abi, proseFor);
    var receive: Option<Block> := None;
    var key: Key := (ReceiveBlock, "receive");
    if abi.hasReceive {
      if key in proseFor {
        receive := Some(proseFor[key]);
        used := used + {key};
        if !HasAccess(proseFor[key]) {
          MembersGrow(problems, [ReceiveHasNoAccess]);
          MembersOne(ReceiveHasNoAccess);
          problems := problems + [ReceiveHasNoAccess];
        }
      } else {
        MembersGrow(problems, [MissingReceive]);
        MembersOne(MissingReceive);
        problems := problems + [MissingReceive];
      }
    }
    used, problems := MatchItems(abi, proseFor, EventBlock, abi.events, used, problems);
    used, problems := MatchItems(abi, proseFor, ErrorBlock, abi.errors, used, problems);
    problems := UnusedBlocks(proseFor.Keys, used, problems);
    ProblemsListed(abi, proseFor, problems);
    if problems != [] { return Err(Mismatch(problems)); }
    return Ok(Page(SortSlots(writes), receive));
  }

  lemma ProblemsListed(abi: Abi, table: map<Key, Block>, problems: seq<Problem>)
    requires Members(problems) == AllProblems(abi, table)
    ensures forall x :: x in problems <==> TrueProblem(abi, table, x)
  {
    hide TrueProblem, AllProblems;
    forall x
      ensures x in problems <==> TrueProblem(abi, table, x)
    {
      assert x in problems <==> x in Members(problems);
      ProblemsAreTrue(abi, table, x);
    }
  }

  /** The loop over all blocks for those nothing used. */
  method UnusedBlocks(keys: set<Key>, used: set<Key>, problems: seq<Problem>) returns (problems': seq<Problem>)
    ensures problems' == [] <==> problems == [] && keys <= used
    ensures Members(problems') == Members(problems) + set k | k in keys - used :: MatchesNothing(k)
  {
    hide Members;
    problems' := problems;
    var left := keys;
    while left != {}
      invariant left <= keys
      invariant problems' == [] <==> problems == [] && keys - left <= used
      invariant Members(problems') == Members(problems) + set k | k in keys - left - used :: MatchesNothing(k)
      decreases left
    {
      var k :| k in left;
      if k !in used {
        MembersGrow(problems', [MatchesNothing(k)]);
        MembersOne(MatchesNothing(k));
        problems' := problems' + [MatchesNothing(k)];
      }
      left := left - {k};
    }
  }

  // ---------- What a page without problems guarantees ----------

  /** The ABI's functions are told apart by their overload keys, and a name is a
      plain identifier. */
  ghost predicate AbiOk(abi: Abi) {
    && (forall i, j :: 0 <= i < j < |abi.functions| ==> OverloadKey(abi.functions[i]) != OverloadKey(abi.functions[j]))
    && (forall i :: 0 <= i < |abi.functions| ==> '(' !in abi.functions[i].name)
  }

  lemma {:induction false} NameCounted(items: seq<Item>, i: nat)
    requires i < |items|
    ensures NameCount(items, items[i].name) >= 1
    decreases |items|
  {
    if i < |items| - 1 { NameCounted(items[..|items| - 1], i); }
  }

  lemma {:induction false} SameNameCounts(items: seq<Item>, i: nat, j: nat)
    requires i < j < |items| && items[i].name == items[j].name
    ensures NameCount(items, items[i].name) > 1
    decreases |items|
  {
    if j < |items| - 1 {
      SameNameCounts(items[..|items| - 1], i, j);
    } else {
      NameCounted(items[..|items| - 1], i);
    }
  }

  lemma OverloadHasParen(item: Item)
    ensures '(' in OverloadKey(item)
  {
    assert OverloadKey(item)[|item.name|] == '(';
  }

  /** Two functions never share a block. */
  lemma FunctionsOneToOne(abi: Abi, keys: set<Key>, i: nat, j: nat)
    requires AbiOk(abi) && Found(abi, keys, FunctionBlock, abi.functions) && i < j < |abi.functions|
    ensures Lookup(keys, abi.functions, FunctionBlock, abi.functions[i])
      != Lookup(keys, abi.functions, FunctionBlock, abi.functions[j])
  {
    hide OverloadKey, NameCount;
    var f, g := abi.functions[i], abi.functions[j];
    OverloadHasParen(f);
    OverloadHasParen(g);
    if f.name == g.name { SameNameCounts(abi.functions, i, j); }
  }

  /** Every function block documents a function, every event and error block an
      event or error; a receive block only exists for a contract that has one. */
  lemma BlocksAllUsed(abi: Abi, table: map<Key, Block>, key: Key)
    requires Fits(abi, table) && key in table
    ensures match key.0
      case FunctionBlock => key in UsedBy(abi, table.Keys, FunctionBlock, abi.functions)
      case EventBlock => key in UsedBy(abi, table.Keys, EventBlock, abi.events)
      case ErrorBlock => key in UsedBy(abi, table.Keys, ErrorBlock, abi.errors)
      case ReceiveBlock => abi.hasReceive && key.1 == "receive"
  {
    hide OverloadKey, NameCount;
    assert key in Used(abi, table.Keys);
  }

  /** Functions and function blocks correspond one to one. */
  lemma FunctionsMatchBlocks(abi: Abi, table: map<Key, Block>)
    requires AbiOk(abi) && Fits(abi, table)
    ensures UsedBy(abi, table.Keys, FunctionBlock, abi.functions) == set k | k in table.Keys && k.0 == FunctionBlock
    ensures |UsedBy(abi, table.Keys, FunctionBlock, abi.functions)| == |abi.functions|
  {
    hide AbiOk, Fits, Found;
    FitsFound(abi, table);
    forall k | k in table.Keys && k.0 == FunctionBlock
      ensures k in UsedBy(abi, table.Keys, FunctionBlock, abi.functions)
    {
      BlocksAllUsed(abi, table, k);
    }
    CountUsed(abi, table.Keys, |abi.functions|);
    assert abi.functions[..|abi.functions|] == abi.functions;
  }

  lemma FitsFound(abi: Abi, table: map<Key, Block>)
    requires Fits(abi, table)
    ensures Found(abi, table.Keys, FunctionBlock, abi.functions) && WritesHaveAccess(abi, table)
  {
    hide Found, WritesHaveAccess;
  }

  lemma {:induction false} CountUsed(abi: Abi, keys: set<Key>, n: nat)
    requires AbiOk(abi) && Found(abi, keys, FunctionBlock, abi.functions) && n <= |abi.functions|
    ensures |UsedBy(abi, keys, FunctionBlock, abi.functions[..n])| == n
    decreases n
  {
    hide Lookup, AbiOk;
    if n > 0 {
      CountUsed(abi, keys, n - 1);
      UsedByStep(abi, keys, FunctionBlock, abi.functions, n - 1);
      var k := Lookup(keys, abi.functions, FunctionBlock, abi.functions[n - 1]).value;
      var init := abi.functions[..n - 1];
      forall i | 0 <= i < n - 1
        ensures Lookup(keys, abi.functions, FunctionBlock, init[i]) != Some(k)
      {
        FunctionsOneToOne(abi, keys, i, n - 1);
      }
    }
  }

  ghost predicate SlotOf(abi: Abi, table: map<Key, Block>, n: nat, x: Slot) {
    && x.at < n <= |abi.functions| && abi.functions[x.at].mutability == Writing
    && x.block == BlockAt(table, Lookup(table.Keys, abi.functions, FunctionBlock, abi.functions[x.at]))
  }

  ghost function PositionsOf(slots: seq<Slot>): set<nat> {
    set x | x in slots :: x.at
  }

  /** The positions of the writing functions among the first `n`. */
  ghost function Writers(abi: Abi, n: nat): set<nat>
    requires n <= |abi.functions|
  {
    set f: nat | f < n && abi.functions[f].mutability == Writing
  }

  lemma PositionsGrow(slots: seq<Slot>, x: Slot)
    ensures PositionsOf(slots + [x]) == PositionsOf(slots) + {x.at}
  {
    assert forall y :: y in slots + [x] <==> y in slots || y == x;
  }

  /** The slots are exactly the writing functions, each once, in ABI order. */
  lemma {:induction false} SlotsExact(abi: Abi, table: map<Key, Block>, n: nat)
    requires n <= |abi.functions|
    ensures var s := WriteSlots(abi, table, n);
      && (forall x :: x in s ==> SlotOf(abi, table, n, x))
      && (forall i, j :: 0 <= i < j < |s| ==> s[i].at < s[j].at)
      && PositionsOf(s) == Writers(abi, n)
    decreases n
  {
    hide Lookup, BlockAt, PositionsOf, Writers;
    WritersStep(abi, n);
    if n == 0 {
      NoPositions();
    } else {
      SlotsExact(abi, table, n - 1);
      var s, init := WriteSlots(abi, table, n), WriteSlots(abi, table, n - 1);
      forall x | x in s
        ensures SlotOf(abi, table, n, x)
      {
        assert x in init ==> SlotOf(abi, table, n - 1, x);
      }
      forall i | 0 <= i < |init|
        ensures init[i].at < n - 1
      {
        assert init[i] in init && SlotOf(abi, table, n - 1, init[i]);
      }
      if abi.functions[n - 1].mutability == Writing {
        PositionsGrow(init, s[|init|]);
      } else {
        assert s == init;
      }
    }
  }

  lemma WritersStep(abi: Abi, n: nat)
    requires n <= |abi.functions|
    ensures n == 0 ==> Writers(abi, n) == {}
    ensures n > 0 ==>
      Writers(abi, n) == Writers(abi, n - 1) + (if abi.functions[n - 1].mutability == Writing then {n - 1} else {})
    ensures n !in Writers(abi, n)
  {
  }

  lemma {:induction false} SlotsCount(abi: Abi, table: map<Key, Block>, n: nat)
    requires n <= |abi.functions|
    ensures |WriteSlots(abi, table, n)| == |Writers(abi, n)|
    decreases n
  {
    hide Lookup, BlockAt, Writers;
    WritersStep(abi, n);
    if n > 0 {
      WritersStep(abi, n - 1);
      SlotsCount(abi, table, n - 1);
    }
  }

  lemma NoPositions()
    ensures PositionsOf([]) == {}
  {
  }

  lemma SlotBlock(abi: Abi, blocks: seq<Block>, table: map<Key, Block>, at: nat)
    requires TableOf(blocks, table) && Fits(abi, table) && at < |abi.functions|
    requires abi.functions[at].mutability == Writing
    ensures var k := Lookup(table.Keys, abi.functions, FunctionBlock, abi.functions[at]);
      && k.Some? && k.value in table && table[k.value] in blocks && KeyOf(table[k.value]) == k.value
      && HasAccess(table[k.value])
  {
    hide OverloadKey, NameCount;
    var k := Lookup(table.Keys, abi.functions, FunctionBlock, abi.functions[at]);
    assert k.value in Keys(blocks);
  }

  lemma SlotsDiffer(abi: Abi, blocks: seq<Block>, table: map<Key, Block>, i: nat, j: nat)
    requires AbiOk(abi) && Numbered(blocks) && TableOf(blocks, table) && Fits(abi, table)
    requires i < j < |abi.functions| && abi.functions[i].mutability == abi.functions[j].mutability == Writing
    ensures table[Lookup(table.Keys, abi.functions, FunctionBlock, abi.functions[i]).value].order
      != table[Lookup(table.Keys, abi.functions, FunctionBlock, abi.functions[j]).value].order
  {
    hide OverloadKey, NameCount, AbiOk;
    SlotBlock(abi, blocks, table, i);
    SlotBlock(abi, blocks, table, j);
    FunctionsOneToOne(abi, table.Keys, i, j);
  }

  /** Documented by a block of the file that has an access line. */
  predicate Documented(blocks: seq<Block>, x: Slot) {
    x.block.Some? && x.block.value in blocks && HasAccess(x.block.value)
  }

  lemma SlotsEmitted(abi: Abi, blocks: seq<Block>, table: map<Key, Block>)
    requires AbiOk(abi) && Numbered(blocks) && TableOf(blocks, table) && Fits(abi, table)
    ensures var w := SortSlots(WriteSlots(abi, table, |abi.functions|));
      && InProseOrder(w) && (forall x :: x in w ==> Documented(blocks, x))
      && PositionsOf(w) == Writers(abi, |abi.functions|) && |w| == |Writers(abi, |abi.functions|)|
  {
    hide AbiOk, Numbered, Fits, TableOf, Lookup, WriteSlots, HasAccess;
    var s := WriteSlots(abi, table, |abi.functions|);
    SlotsExact(abi, table, |abi.functions|);
    forall x | x in s
      ensures Documented(blocks, x)
    {
      assert SlotOf(abi, table, |abi.functions|, x);
      SlotBlock(abi, blocks, table, x.at);
    }
    forall i, j | 0 <= i < j < |s|
      ensures OrderOf(s[i]) != OrderOf(s[j])
    {
      assert s[i] in s && SlotOf(abi, table, |abi.functions|, s[i]);
      assert s[j] in s && SlotOf(abi, table, |abi.functions|, s[j]);
      SlotBlock(abi, blocks, table, s[i].at);
      SlotBlock(abi, blocks, table, s[j].at);
      SlotsDiffer(abi, blocks, table, s[i].at, s[j].at);
    }
    SortedInOrder(s);
    SortMembers(s);
    SlotsCount(abi, table, |abi.functions|);
    assert |multiset(SortSlots(s))| == |multiset(s)|;
  }

  /** The emitted write functions, when there is no problem: the ABI's, each once,
      each with a block that has an access line, strictly in prose order. */
  lemma WritesEmitted(abi: Abi, blocks: seq<Block>)
    requires AbiOk(abi) && Numbered(blocks) && NoDuplicates(blocks) && Fits(abi, TableFor(blocks))
    ensures var w := PageOf(abi, TableFor(blocks)).writes;
      && InProseOrder(w) && (forall x :: x in w ==> Documented(blocks, x))
      && PositionsOf(w) == Writers(abi, |abi.functions|) && |w| == |Writers(abi, |abi.functions|)|
  {
    hide AbiOk, Numbered, NoDuplicates, Fits, TableFor, TableOf, SortSlots, WriteSlots, InProseOrder, Documented;
    TableHoldsAll(blocks);
    SlotsEmitted(abi, blocks, TableFor(blocks));
  }

  /** Prose and ABI fit exactly when there is nothing to complain of. */
  lemma FitsIff(abi: Abi, table: map<Key, Block>)
    ensures Fits(abi, table) <==> forall x :: !TrueProblem(abi, table, x)
  {
    hide TrueProblem;
    if Fits(abi, table) {
      forall x
        ensures !TrueProblem(abi, table, x)
      {
        ProblemsAreTrue(abi, table, x);
        NothingWrong(abi, table);
      }
    } else {
      var x := SomethingWrong(abi, table);
      ProblemsAreTrue(abi, table, x);
    }
  }

  lemma NothingWrong(abi: Abi, table: map<Key, Block>)
    requires Fits(abi, table)
    ensures AllProblems(abi, table) == {}
  {
    hide Lookup, Used, HasAccess;
  }

  lemma SomethingWrong(abi: Abi, table: map<Key, Block>) returns (x: Problem)
    requires !Fits(abi, table)
    ensures x in AllProblems(abi, table)
  {
    hide Lookup, Used, HasAccess;
    if !Found(abi, table.Keys, FunctionBlock, abi.functions) {
      x := NotFound(abi, table, FunctionBlock, abi.functions);
    } else if !Found(abi, table.Keys, EventBlock, abi.events) {
      x := NotFound(abi, table, EventBlock, abi.events);
    } else if !Found(abi, table.Keys, ErrorBlock, abi.errors) {
      x := NotFound(abi, table, ErrorBlock, abi.errors);
    } else if !WritesHaveAccess(abi, table) {
      x := NoAccess(abi, table);
    } else if !ReceiveOk(abi, table) {
      x := if (ReceiveBlock, "receive") in table then ReceiveHasNoAccess else MissingReceive;
    } else {
      var k :| k in table.Keys && k !in Used(abi, table.Keys);
      x := MatchesNothing(k);
    }
  }

  lemma NotFound(abi: Abi, table: map<Key, Block>, kind: Kind, items: seq<Item>) returns (x: Problem)
    requires !Found(abi, table.Keys, kind, items)
    ensures x in ItemProblems(abi, table.Keys, kind, items)
  {
    hide Lookup;
    var i :| 0 <= i < |items| && Lookup(table.Keys, abi.functions, kind, items[i]) == None;
    x := LookupProblem(table.Keys, abi.functions, kind, items[i])[0];
    assert x in LookupProblem(table.Keys, abi.functions, kind, items[i]);
  }

  lemma NoAccess(abi: Abi, table: map<Key, Block>) returns (x: Problem)
    requires !WritesHaveAccess(abi, table)
    ensures x in AccessProblems(abi, table, |abi.functions|)
  {
    hide Lookup, HasAccess;
    var i :| 0 <= i < |abi.functions| && abi.functions[i].mutability == Writing &&
      var k := Lookup(table.Keys, abi.functions, FunctionBlock, abi.functions[i]);
      k.Some? && k.value in table && !HasAccess(table[k.value]);
    x := NoAccessLine(abi.functions[i]);
  }

  /** The page has a receive block exactly when the contract can receive: the file's,
      with its access line. */
  lemma ReceiveEmitted(abi: Abi, blocks: seq<Block>)
    requires NoDuplicates(blocks) && Fits(abi, TableFor(blocks))
    ensures var receive := PageOf(abi, TableFor(blocks)).receive;
      && (receive.Some? <==> abi.hasReceive)
      && (receive.Some? ==> receive.value in blocks && KeyOf(receive.value) == (ReceiveBlock, "receive")
                            && HasAccess(receive.value))
  {
    hide SortSlots, TableFor, Used, Found, WritesHaveAccess;
    TableHoldsAll(blocks);
  }

  /** From the prose text to the page: when the text parses and fits the ABI, the
      emitted write functions are the ABI's, each once, each with the block of its
      number in the text, and those numbers strictly rise. */
  lemma TextOrderEmitted(abi: Abi, body: string)
    requires AbiOk(abi) && ParseProse(body).Ok?
    requires NoDuplicates(ParseProse(body).value.blocks) && Fits(abi, TableFor(ParseProse(body).value.blocks))
    ensures var blocks := ParseProse(body).value.blocks;
      var w := PageOf(abi, TableFor(blocks)).writes;
      && PositionsOf(w) == Writers(abi, |abi.functions|) && |w| == |Writers(abi, |abi.functions|)|
      && (forall i :: 0 <= i < |w| ==> Documented(blocks, w[i]) && w[i].block.value.order < |blocks|
                                       && blocks[w[i].block.value.order] == w[i].block.value)
      && (forall i, j :: 0 <= i < j < |w| ==> OrderOf(w[i]) < OrderOf(w[j]))
  {
    hide AbiOk, NoDuplicates, Fits, TableFor, PageOf, ParseProse, HasAccess;
    var blocks := ParseProse(body).value.blocks;
    ParsedNumbered(body);
    WritesEmitted(abi, blocks);
    var w := PageOf(abi, TableFor(blocks)).writes;
    forall i | 0 <= i < |w|
      ensures Documented(blocks, w[i]) && w[i].block.value.order < |blocks|
              && blocks[w[i].block.value.order] == w[i].block.value
    {
      assert w[i] in w && w[i].block.value in blocks;
    }
  }
}
