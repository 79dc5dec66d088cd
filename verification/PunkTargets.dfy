/** From a wallet's Punks to the target each would be recorded for:
    `buildTraitOptions` (app/lib/trait-options.ts) groups them by trait,
    rarest first, and `derivePunkTargets` (app/components/AcceptBidFlow.tsx)
    turns the groups around again. The composition is compared with the
    contract's `canonicalTargetOf`. */
module PunkTargets {
  import opened Wrappers
  import opened TraitMasks
  import opened Collection

  /** One Punk with its mask and sole-carrier constraint. */
  datatype Entry = Entry(punk: nat, mask: nat, required: bool, requiredTrait: nat)

  datatype Group = NormalizedType | HeadVariant | AttributeCount | Accessory

  datatype TraitOption = TraitOption(traitId: nat, carriers: nat, group: Group, punkIds: seq<nat>, uniqueCarrier: bool)

  datatype Target = Target(punk: nat, traitId: nat, carriers: nat, group: Group, uniqueCarrier: bool)

  /** The group of a trait, with the fallback for one the table does not list. */
  function GroupOf(categories: seq<Group>, t: nat): Group {
    if t < |categories| then categories[t] else Accessory
  }

  /** `isOffered`. */
  predicate IsOffered(mask: nat, collected: nat, pending: set<nat>, t: nat) {
    Bit(mask, t) && !Bit(collected, t) && t !in pending
  }

  /** May the Punk of `e` be listed under trait `t`? */
  predicate Offers(e: Entry, collected: nat, pending: set<nat>, t: nat) {
    IsOffered(e.mask, collected, pending, t) && if e.required then t == e.requiredTrait else t < TRAIT_COUNT
  }

  ghost predicate OfferedBy(entries: seq<Entry>, collected: nat, pending: set<nat>, t: nat, p: nat) {
    exists i :: 0 <= i < |entries| && entries[i].punk == p && Offers(entries[i], collected, pending, t)
  }

  predicate Has(groups: map<nat, seq<nat>>, t: nat, p: nat) {
    t in groups && p in groups[t]
  }

  ghost predicate GroupsOk(groups: map<nat, seq<nat>>) {
    forall t :: t in groups ==> groups[t] != [] && NoRepeats(groups[t])
  }

  /** `offer`. */
  function Offer(groups: map<nat, seq<nat>>, t: nat, p: nat): (r: map<nat, seq<nat>>)
    requires GroupsOk(groups)
    ensures GroupsOk(r)
    ensures forall u: nat, q: nat :: Has(r, u, q) <==> Has(groups, u, q) || (u == t && q == p)
  {
    if t !in groups then groups[t := [p]]
    else if p !in groups[t] then groups[t := groups[t] + [p]]
    else groups
  }

  lemma OfferedByStep(entries: seq<Entry>, i: nat, collected: nat, pending: set<nat>, t: nat, p: nat)
    requires i < |entries|
    ensures OfferedBy(entries[..i + 1], collected, pending, t, p) <==>
      OfferedBy(entries[..i], collected, pending, t, p)
      || (entries[i].punk == p && Offers(entries[i], collected, pending, t))
  {
    var a, b := entries[..i], entries[..i + 1];
    assert b[i] == entries[i] && forall k :: 0 <= k < i ==> a[k] == b[k];
  }

  /** The grouping loop. */
  method GroupByTrait(entries: seq<Entry>, collected: nat, pending: set<nat>) returns (groups: map<nat, seq<nat>>)
    ensures GroupsOk(groups)
    ensures forall t: nat, p: nat :: Has(groups, t, p) <==> OfferedBy(entries, collected, pending, t, p)
  {
    hide OfferedBy, Offers, IsOffered;
    groups := map[];
    assert forall t: nat, p: nat :: !OfferedBy(entries[..0], collected, pending, t, p) by {
      NothingOffered(collected, pending);
    }
    for i := 0 to |entries|
      invariant GroupsOk(groups)
      invariant forall t: nat, p: nat :: Has(groups, t, p) <==> OfferedBy(entries[..i], collected, pending, t, p)
    {
      ghost var before := groups;
      groups := GroupOne(groups, entries[i], collected, pending);
      forall t: nat, p: nat
        ensures Has(groups, t, p) <==> OfferedBy(entries[..i + 1], collected, pending, t, p)
      {
        assert Has(before, t, p) <==> OfferedBy(entries[..i], collected, pending, t, p);
        OfferedByStep(entries, i, collected, pending, t, p);
      }
    }
    assert entries[..|entries|] == entries;
  }

  lemma NothingOffered(collected: nat, pending: set<nat>)
    ensures forall t: nat, p: nat :: !OfferedBy([], collected, pending, t, p)
  {
  }

  /** Its body: one Punk into the groups it may be listed under. */
  method GroupOne(before: map<nat, seq<nat>>, e: Entry, collected: nat, pending: set<nat>)
    returns (groups: map<nat, seq<nat>>)
    requires GroupsOk(before)
    ensures GroupsOk(groups)
    ensures forall t: nat, p: nat :: Has(groups, t, p) <==>
      Has(before, t, p) || (e.punk == p && Offers(e, collected, pending, t))
  {
    hide Bit;
    groups := before;
    if e.required {
      if IsOffered(e.mask, collected, pending, e.requiredTrait) {
        groups := Offer(groups, e.requiredTrait, e.punk);
      }
    } else {
      for bit := 0 to TRAIT_COUNT
        invariant GroupsOk(groups)
        invariant forall t: nat, p: nat :: Has(groups, t, p) <==>
          Has(before, t, p) || (e.punk == p && t < bit && IsOffered(e.mask, collected, pending, t))
      {
        if IsOffered(e.mask, collected, pending, bit) {
          groups := Offer(groups, bit, e.punk);
        }
      }
    }
  }

  // ---------- Sorting ----------

  function InsertId(s: seq<nat>, x: nat): (r: seq<nat>)
    ensures forall y :: y in r <==> y in s || y == x
  {
    if s == [] || x < s[0] then [x] + s else [s[0]] + InsertId(s[1..], x)
  }

  /** `punkIds.sort((a, b) => a - b)`. */
  function SortIds(s: seq<nat>): (r: seq<nat>)
    ensures forall y :: y in r <==> y in s
  {
    if s == [] then [] else InsertId(SortIds(s[..|s| - 1]), s[|s| - 1])
  }

  lemma {:induction false} InsertAscends(s: seq<nat>, x: nat)
    requires Ascending(s) && x !in s
    ensures Ascending(InsertId(s, x))
    decreases |s|
  {
    if s != [] {
      assert s[0] in s;
      assert forall y :: y in s[1..] ==> s[0] < y;
      if s[0] < x {
        InsertAscends(s[1..], x);
        var r := InsertId(s[1..], x);
        assert forall y :: y in r ==> s[0] < y;
        assert forall i :: 0 <= i < |r| ==> r[i] in r;
      }
    }
  }

  lemma {:induction false} SortAscends(s: seq<nat>)
    requires NoRepeats(s)
    ensures Ascending(SortIds(s))
    decreases |s|
  {
    if s != [] {
      var init := s[..|s| - 1];
      SortAscends(init);
      assert s[|s| - 1] !in init;
      InsertAscends(SortIds(init), s[|s| - 1]);
    }
  }

  /** The comparator of the option list. */
  predicate Before(a: TraitOption, b: TraitOption) {
    a.carriers < b.carriers || (a.carriers == b.carriers && a.traitId < b.traitId)
  }

  ghost predicate RarestFirst(options: seq<TraitOption>) {
    forall i, j :: 0 <= i < j < |options| ==> Before(options[i], options[j])
  }

  function InsertOption(s: seq<TraitOption>, x: TraitOption): (r: seq<TraitOption>)
    ensures forall y :: y in r <==> y in s || y == x
  {
    if s == [] || Before(x, s[0]) then [x] + s else [s[0]] + InsertOption(s[1..], x)
  }

  lemma {:induction false} InsertKeepsOrder(s: seq<TraitOption>, x: TraitOption)
    requires RarestFirst(s) && forall y :: y in s ==> y.traitId != x.traitId
    ensures RarestFirst(InsertOption(s, x))
    decreases |s|
  {
    if s != [] {
      assert forall y :: y in s[1..] ==> Before(s[0], y);
      if !Before(x, s[0]) {
        assert s[0] in s;
        InsertKeepsOrder(s[1..], x);
        var r := InsertOption(s[1..], x);
        assert forall y :: y in r ==> Before(s[0], y);
        assert forall i :: 0 <= i < |r| ==> r[i] in r;
      }
    }
  }

  /** `options` is the grouping of `entries`, rarest first. */
  ghost predicate OptionsOf(options: seq<TraitOption>, entries: seq<Entry>, collected: nat, pending: set<nat>,
                            rarity: nat -> nat, categories: seq<Group>) {
    && RarestFirst(options)
    && (forall o :: o in options ==>
          && o.carriers == rarity(o.traitId) && o.group == GroupOf(categories, o.traitId)
          && (o.uniqueCarrier <==> o.carriers == 1) && Ascending(o.punkIds) && o.punkIds != []
          && forall p: nat :: p in o.punkIds <==> OfferedBy(entries, collected, pending, o.traitId, p))
    && (forall t: nat, p: nat :: OfferedBy(entries, collected, pending, t, p) ==>
          exists o :: o in options && o.traitId == t)
  }

  /** `buildTraitOptions`. */
  method BuildTraitOptions(entries: seq<Entry>, collected: nat, pending: set<nat>, rarity: nat -> nat,
                           categories: seq<Group>)
    returns (options: seq<TraitOption>)
    ensures OptionsOf(options, entries, collected, pending, rarity, categories)
  {
    hide OfferedBy;
    var groups := GroupByTrait(entries, collected, pending);
    options := [];
    var left := groups.Keys;
    while left != {}
      invariant left <= groups.Keys && RarestFirst(options)
      invariant forall o :: o in options ==> o.traitId in groups && o.traitId !in left
      invariant forall o :: o in options ==>
        o.carriers == rarity(o.traitId) && o.group == GroupOf(categories, o.traitId)
        && (o.uniqueCarrier <==> o.carriers == 1) && Ascending(o.punkIds) && o.punkIds != []
        && forall p: nat :: p in o.punkIds <==> p in groups[o.traitId]
      invariant forall t :: t in groups && t !in left ==> exists o :: o in options && o.traitId == t
      decreases left
    {
      var t :| t in left;
      var o := TraitOption(t, rarity(t), GroupOf(categories, t), SortIds(groups[t]), rarity(t) == 1);
      SortAscends(groups[t]);
      assert groups[t][0] in SortIds(groups[t]);
      InsertKeepsOrder(options, o);
      ghost var was := options;
      options := InsertOption(options, o);
      left := left - {t};
      assert o in options && o.traitId == t;
      assert forall x :: x in was ==> x in options;
    }
    assert forall t: nat, p: nat :: p in (if t in groups then groups[t] else []) <==> Has(groups, t, p);
  }

  // ---------- derivePunkTargets ----------

  /** The first of the first `n` options that lists `p`. */
  function FirstOption(options: seq<TraitOption>, n: nat, p: nat): (k: Option<nat>)
    requires n <= |options|
    ensures k == None ==> forall i :: 0 <= i < n ==> p !in options[i].punkIds
    ensures k.Some? ==> k.value < n && p in options[k.value].punkIds
                        && forall i :: 0 <= i < k.value ==> p !in options[i].punkIds
  {
    if n == 0 then None
    else
      var k := FirstOption(options, n - 1, p);
      if k.Some? then k else if p in options[n - 1].punkIds then Some(n - 1) else None
  }

  function TargetIn(o: TraitOption, p: nat): Target {
    Target(p, o.traitId, o.carriers, o.group, o.uniqueCarrier)
  }

  /** The two nested loops over options and their Punks. */
  method FirstSeen(options: seq<TraitOption>) returns (byPunk: map<nat, Target>)
    ensures forall p: nat :: p in byPunk <==> FirstOption(options, |options|, p).Some?
    ensures forall p: nat :: p in byPunk ==>
      byPunk[p] == TargetIn(options[FirstOption(options, |options|, p).value], p)
  {
    byPunk := map[];
    for i := 0 to |options|
      invariant forall p: nat :: p in byPunk <==> FirstOption(options, i, p).Some?
      invariant forall p: nat :: p in byPunk ==> byPunk[p] == TargetIn(options[FirstOption(options, i, p).value], p)
    {
      var opt := options[i];
      ghost var before := byPunk;
      for j := 0 to |opt.punkIds|
        invariant forall p: nat :: p in byPunk <==> p in before || p in opt.punkIds[..j]
        invariant forall p: nat :: p in byPunk ==>
          byPunk[p] == if p in before then before[p] else TargetIn(opt, p)
      {
        var p := opt.punkIds[j];
        if p !in byPunk { byPunk := byPunk[p := TargetIn(opt, p)]; }
      }
      assert opt.punkIds[..|opt.punkIds|] == opt.punkIds;
    }
  }

  ghost predicate ByPunk(targets: seq<Target>) {
    forall i, j :: 0 <= i < j < |targets| ==> targets[i].punk < targets[j].punk
  }

  function InsertTarget(s: seq<Target>, x: Target): (r: seq<Target>)
    ensures forall y :: y in r <==> y in s || y == x
  {
    if s == [] || x.punk < s[0].punk then [x] + s else [s[0]] + InsertTarget(s[1..], x)
  }

  lemma {:induction false} InsertByPunk(s: seq<Target>, x: Target)
    requires ByPunk(s) && forall y :: y in s ==> y.punk != x.punk
    ensures ByPunk(InsertTarget(s, x))
    decreases |s|
  {
    if s != [] {
      HeadIsLeast(s);
      if s[0].punk < x.punk {
        InsertByPunk(s[1..], x);
        PrependByPunk(s[0], InsertTarget(s[1..], x));
      } else {
        PrependByPunk(x, s);
      }
    }
  }

  lemma HeadIsLeast(s: seq<Target>)
    requires ByPunk(s) && s != []
    ensures ByPunk(s[1..]) && forall y :: y in s[1..] ==> s[0].punk < y.punk && y in s
  {
  }

  lemma PrependByPunk(x: Target, s: seq<Target>)
    requires ByPunk(s) && forall y :: y in s ==> x.punk < y.punk
    ensures ByPunk([x] + s)
  {
    assert forall i :: 0 <= i < |s| ==> s[i] in s;
  }

  /** `targets` has one row per Punk some option lists, in Punk order, with the
      first option that lists it. */
  ghost predicate TargetsOf(targets: seq<Target>, options: seq<TraitOption>) {
    && ByPunk(targets)
    && (forall x :: x in targets ==>
          var k := FirstOption(options, |options|, x.punk);
          k.Some? && x == TargetIn(options[k.value], x.punk))
    && (forall o, p: nat :: o in options && p in o.punkIds ==> exists x :: x in targets && x.punk == p)
  }

  /** `derivePunkTargets`. */
  method DerivePunkTargets(options: seq<TraitOption>) returns (targets: seq<Target>)
    ensures TargetsOf(targets, options)
  {
    var byPunk := FirstSeen(options);
    targets := [];
    var left := byPunk.Keys;
    while left != {}
      invariant left <= byPunk.Keys && ByPunk(targets)
      invariant forall x :: x in targets ==> x.punk in byPunk && x.punk !in left && x == byPunk[x.punk]
      invariant forall p :: p in byPunk && p !in left ==> byPunk[p] in targets
      decreases left
    {
      var p :| p in left;
      InsertByPunk(targets, byPunk[p]);
      targets := InsertTarget(targets, byPunk[p]);
      left := left - {p};
    }
    forall o, p: nat | o in options && p in o.punkIds
      ensures exists x :: x in targets && x.punk == p
    {
      assert p in byPunk && byPunk[p] in targets;
    }
  }

  /** Whatever the options, as long as their carrier counts do not decrease: each
      Punk's target is a rarest trait it is listed under. */
  lemma RarestListed(targets: seq<Target>, options: seq<TraitOption>, x: Target, o: TraitOption)
    requires TargetsOf(targets, options) && x in targets && o in options && x.punk in o.punkIds
    requires forall i, j :: 0 <= i < j < |options| ==> options[i].carriers <= options[j].carriers
    ensures x.carriers <= o.carriers
  {
    var k := FirstOption(options, |options|, x.punk).value;
    var i :| 0 <= i < |options| && options[i] == o;
    assert k <= i;
  }

  // ---------- The composition is the contract's derivation ----------

  /** The entries the data adapter builds: each owned Punk once, with its sealed
      mask and the contract's sole-carrier constraint. */
  ghost predicate EntriesFor(d: Dataset, c: Core, owned: seq<nat>, entries: seq<Entry>) {
    && |entries| == |owned| && NoRepeats(owned) && |d.masks| == PUNK_COUNT
    && forall i :: 0 <= i < |owned| ==>
      && owned[i] < PUNK_COUNT
      && entries[i] == EntryFor(d, c, owned[i])
  }

  /** `soleCarrierConstraint`: #8348 is reserved for bit 23 until it is collected. */
  function EntryFor(d: Dataset, c: Core, p: nat): Entry
    requires p < |d.masks|
  {
    var required := p == SOLE_CARRIER_PUNK_ID && !Bit(c.collected, SOLE_CARRIER_TRAIT_BIT);
    Entry(p, d.masks[p], required, if required then SOLE_CARRIER_TRAIT_BIT else 0)
  }

  ghost predicate PendingSet(c: Core, pending: set<nat>) {
    forall t: nat :: t in pending <==> PendingOf(c, t) > 0
  }

  /** The one Punk and the one moment where page and contract differ: bit 23 is
      in flight with another Punk while #8348 carries some other open trait. */
  predicate Reserved(c: Core, p: nat) {
    p == SOLE_CARRIER_PUNK_ID && !Bit(c.collected, SOLE_CARRIER_TRAIT_BIT)
    && PendingOf(c, SOLE_CARRIER_TRAIT_BIT) > 0
  }

  lemma OffersIsEligible(d: Dataset, c: Core, pending: set<nat>, p: nat, t: nat)
    requires Sealed(d) && p < PUNK_COUNT && PendingSet(c, pending)
    ensures Offers(EntryFor(d, c, p), c.collected, pending, t) <==>
      Eligible(d, c, p, t)
      && (p == SOLE_CARRIER_PUNK_ID && !Bit(c.collected, SOLE_CARRIER_TRAIT_BIT) ==> t == SOLE_CARRIER_TRAIT_BIT)
  {
  }

  lemma OfferedIsEntry(d: Dataset, c: Core, owned: seq<nat>, entries: seq<Entry>, pending: set<nat>, p: nat, t: nat)
    requires EntriesFor(d, c, owned, entries) && p in owned
    ensures p < |d.masks|
    ensures OfferedBy(entries, c.collected, pending, t, p) <==> Offers(EntryFor(d, c, p), c.collected, pending, t)
  {
    hide Offers;
    var i :| 0 <= i < |owned| && owned[i] == p;
    assert entries[i] == EntryFor(d, c, p);
  }

  /** A row is the rarest trait its Punk is offered under. */
  lemma RowIsRarest(options: seq<TraitOption>, entries: seq<Entry>, collected: nat, pending: set<nat>,
                    rarity: nat -> nat, categories: seq<Group>, targets: seq<Target>, x: Target, u: nat)
    requires OptionsOf(options, entries, collected, pending, rarity, categories) && TargetsOf(targets, options)
    requires x in targets
    ensures OfferedBy(entries, collected, pending, x.traitId, x.punk)
    ensures OfferedBy(entries, collected, pending, u, x.punk) ==>
      rarity(x.traitId) < rarity(u) || (rarity(x.traitId) == rarity(u) && x.traitId <= u)
  {
    hide OfferedBy;
    var k := FirstOption(options, |options|, x.punk).value;
    assert options[k] in options;
    if OfferedBy(entries, collected, pending, u, x.punk) {
      var o :| o in options && o.traitId == u;
      assert x.punk in o.punkIds;
      var i :| 0 <= i < |options| && options[i] == o;
      assert k <= i;
    }
  }

  /** An offered Punk has a row. */
  lemma OfferedHasRow(options: seq<TraitOption>, entries: seq<Entry>, collected: nat, pending: set<nat>,
                      rarity: nat -> nat, categories: seq<Group>, targets: seq<Target>, p: nat, t: nat)
    returns (x: Target)
    requires OptionsOf(options, entries, collected, pending, rarity, categories) && TargetsOf(targets, options)
    requires OfferedBy(entries, collected, pending, t, p)
    ensures x in targets && x.punk == p
  {
    hide OfferedBy;
    var o :| o in options && o.traitId == t;
    assert p in o.punkIds;
    x :| x in targets && x.punk == p;
  }

  ghost predicate HasRow(targets: seq<Target>, p: nat) {
    exists x :: x in targets && x.punk == p
  }

  /** The page's answer for `p`, as the contract would give it. */
  ghost predicate Agrees(d: Dataset, c: Core, targets: seq<Target>, p: nat)
    requires |d.masks| == PUNK_COUNT && |d.carriers| == TRAIT_COUNT && p < PUNK_COUNT
  {
    && (HasRow(targets, p) <==> CanonicalTarget(d, c, p).Some?)
    && (forall x :: x in targets && x.punk == p ==> CanonicalTarget(d, c, p) == Some(x.traitId))
  }

  /** For every owned Punk, page and contract agree on the target exactly unless
      the Punk is reserved for a trait in flight elsewhere and still has another
      eligible one. */
  lemma PageMatchesContract(d: Dataset, c: Core, owned: seq<nat>, entries: seq<Entry>, pending: set<nat>,
                            rarity: nat -> nat, categories: seq<Group>, options: seq<TraitOption>,
                            targets: seq<Target>, p: nat)
    requires Sealed(d) && |d.masks| == PUNK_COUNT && |d.carriers| == TRAIT_COUNT
    requires EntriesFor(d, c, owned, entries) && PendingSet(c, pending) && p in owned && p < PUNK_COUNT
    requires forall t :: 0 <= t < TRAIT_COUNT ==> rarity(t) == d.carriers[t]
    requires OptionsOf(options, entries, c.collected, pending, rarity, categories) && TargetsOf(targets, options)
    ensures Agrees(d, c, targets, p) <==> !(Reserved(c, p) && CanonicalTarget(d, c, p).Some?)
  {
    hide Sealed, EntriesFor, PendingSet, OptionsOf, TargetsOf, OfferedBy, Offers, Scan, Eligible;
    var target := CanonicalTarget(d, c, p);
    forall t: nat
      ensures OfferedBy(entries, c.collected, pending, t, p) <==>
        Eligible(d, c, p, t)
        && (p == SOLE_CARRIER_PUNK_ID && !Bit(c.collected, SOLE_CARRIER_TRAIT_BIT) ==> t == SOLE_CARRIER_TRAIT_BIT)
    {
      OfferedIsEntry(d, c, owned, entries, pending, p, t);
      OffersIsEligible(d, c, pending, p, t);
    }
    ScanIsRarest(d, c, p, TRAIT_COUNT);
    EligibleBelow(d, c, p);
    if target.Some? && !Reserved(c, p) {
      if p == SOLE_CARRIER_PUNK_ID && !Bit(c.collected, SOLE_CARRIER_TRAIT_BIT) {
        SoleIsEligible(d, c);
        SoleCarrierCanonical(d, c, target.value);
      }
      var x := OfferedHasRow(options, entries, c.collected, pending, rarity, categories, targets, p, target.value);
    }
    forall x | x in targets && x.punk == p
      ensures Eligible(d, c, p, x.traitId) && (Reserved(c, p) ==> x.traitId == SOLE_CARRIER_TRAIT_BIT)
      ensures !Reserved(c, p) ==> target == Some(x.traitId)
    {
      RowIsRarest(options, entries, c.collected, pending, rarity, categories, targets, x, x.traitId);
      if !Reserved(c, p) {
        RowIsRarest(options, entries, c.collected, pending, rarity, categories, targets, x, target.value);
      }
    }
    if Reserved(c, p) { SoleIsPending(d, c); }
  }

  lemma EligibleBelow(d: Dataset, c: Core, p: nat)
    requires p < |d.masks|
    ensures forall t: nat :: Eligible(d, c, p, t) ==> t < TRAIT_COUNT
  {
  }

  lemma SoleIsEligible(d: Dataset, c: Core)
    requires Sealed(d) && SOLE_CARRIER_PUNK_ID < |d.masks|
    requires !Bit(c.collected, SOLE_CARRIER_TRAIT_BIT) && PendingOf(c, SOLE_CARRIER_TRAIT_BIT) == 0
    ensures Eligible(d, c, SOLE_CARRIER_PUNK_ID, SOLE_CARRIER_TRAIT_BIT)
  {
  }

  lemma SoleIsPending(d: Dataset, c: Core)
    requires SOLE_CARRIER_PUNK_ID < |d.masks| && PendingOf(c, SOLE_CARRIER_TRAIT_BIT) > 0
    ensures !Eligible(d, c, SOLE_CARRIER_PUNK_ID, SOLE_CARRIER_TRAIT_BIT)
  {
  }

  /** In every reachable storage no Punk that can be acquired is so reserved, so
      page and contract agree wherever the page's answer can be acted on. */
  lemma AcquirableNeverReserved(d: Dataset, c: Core, p: nat)
    requires Sealed(d) && CoreInv(d, c) && Acquirable(c, p)
    ensures !Reserved(c, p)
  {
    hide CoreInv, Sealed;
    SoleCarrierFate(d, c);
  }
}
