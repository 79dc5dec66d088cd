/** Whether the protocol can lose a trait for good: docs/MISSION_PROPERTIES.md
    says no mechanic renders a trait uncollectable and no single acquisition
    consumes the last path to one. What decides it is a game on the sealed
    dataset. */
module Stranding {
  import opened Wrappers
  import opened TraitMasks
  import opened Collection
  import opened Protocol
  import opened ProtocolSafety
  import opened ProtocolRuns
  import opened ProtocolTheorems
  import opened CollectionGame
  import opened GameRuns

  /** Not collected, with every carrier in the vault. */
  ghost predicate StrandedIn(d: Dataset, c: Core, t: nat) {
    !Bit(c.collected, t) && forall p: nat :: Carries(d, p, t) ==> IsVaulted(c, p)
  }

  // ---------- The position of a storage ----------

  ghost function BoardOf(c: Core): Board {
    var flying := map p |
      p in c.custody && c.custody[p] == InReturnAuction && p in c.indexOf && 1 <= c.indexOf[p] <= |c.log|
      :: c.log[c.indexOf[p] - 1].target;
    var vaulted := set p | p in c.custody && c.custody[p] == Vaulted;
    Board(c.firstVaulted.Keys, flying, vaulted, c.attempts)
  }

  lemma BoardShows(d: Dataset, c: Core)
    requires CoreInv(d, c)
    ensures Shows(c, BoardOf(c))
  {
    hide RowsMatch, HistoryFrozen, PendingExact, AttemptsExact, TargetsReal, ClaimsOpen;
    var rows: Rows, claims: map<nat, nat> :| CoreInvAt(d, c, rows, claims);
  }

  lemma StrandedShown(d: Dataset, c: Core, b: Board, t: nat)
    requires Shows(c, b)
    ensures StrandedIn(d, c, t) <==> Stranded(d, b, t)
  {
    hide TargetsKnown, AttemptsShown;
    assert forall p: nat :: IsVaulted(c, p) <==> p in b.vaulted;
  }

  // ---------- The exact condition ----------

  /** Some legal play strands `t`. */
  ghost predicate Strandable(d: Dataset, b: Board, t: nat) {
    exists moves :: LegalAll(d, b, moves) && Stranded(d, Play(b, moves), t)
  }

  /** From any reachable state without live auctions in which ordinary accounts own
      the acquirable Punks: some run of the protocol strands the trait if and only if
      some play of the game does. Prices, bids, listings and time decide nothing. */
  lemma StrandableIff(d: Dataset, s: State, t: nat)
    requires Sealed(d) && Inv(d, s) && Sellable(s) && forall p: nat :: !LiveSale(s.sales, p)
    ensures (exists ops :: StrandedIn(d, Run(d, s, ops).core, t)) <==> Strandable(d, BoardOf(s.core), t)
  {
    hide Sealed, Inv, Run, Shows, Sellable, LegalAll, Play, StrandedIn, Stranded, BoardOf;
    InvHasCore(d, s);
    var b := BoardOf(s.core);
    BoardShows(d, s.core);
    if ops :| StrandedIn(d, Run(d, s, ops).core, t) {
      RunIsPlay(d, s, b, ops);
      StrandedShown(d, Run(d, s, ops).core, Play(b, PlayOf(d, s, ops)), t);
    }
    if moves :| LegalAll(d, b, moves) && Stranded(d, Play(b, moves), t) {
      var ops := PlayIsRun(d, s, b, moves);
      StrandedShown(d, Run(d, s, ops).core, Play(b, moves), t);
    }
  }

  /** Some legal play collects all of `traits`. */
  ghost predicate Collectable(d: Dataset, b: Board, traits: set<nat>) {
    exists moves :: LegalAll(d, b, moves) && traits <= Play(b, moves).collected
  }

  ghost predicate CollectedIn(c: Core, traits: set<nat>) {
    forall t :: t in traits ==> Bit(c.collected, t)
  }

  lemma CollectedShown(c: Core, b: Board, traits: set<nat>)
    requires Shows(c, b)
    ensures CollectedIn(c, traits) <==> traits <= b.collected
  {
    hide PlacesShown, TargetsKnown, AttemptsShown;
  }

  /** The same for collecting: one trait, the full set, or anything between. */
  lemma CollectableIff(d: Dataset, s: State, traits: set<nat>)
    requires Sealed(d) && Inv(d, s) && Sellable(s) && forall p: nat :: !LiveSale(s.sales, p)
    ensures (exists ops :: CollectedIn(Run(d, s, ops).core, traits)) <==> Collectable(d, BoardOf(s.core), traits)
  {
    hide Sealed, Inv, Run, Shows, Sellable, LegalAll, Play, CollectedIn, BoardOf;
    InvHasCore(d, s);
    var b := BoardOf(s.core);
    BoardShows(d, s.core);
    if ops :| CollectedIn(Run(d, s, ops).core, traits) {
      RunIsPlay(d, s, b, ops);
      CollectedShown(Run(d, s, ops).core, Play(b, PlayOf(d, s, ops)), traits);
    }
    if moves :| LegalAll(d, b, moves) && traits <= Play(b, moves).collected {
      var ops := PlayIsRun(d, s, b, moves);
      CollectedShown(Run(d, s, ops).core, Play(b, moves), traits);
    }
  }

  // ---------- Stranded for good ----------

  lemma {:induction false} PlayStaysStranded(d: Dataset, b: Board, moves: seq<Move>, t: nat)
    requires BoardInv(d, b) && LegalAll(d, b, moves) && Stranded(d, b, t)
    ensures Stranded(d, Play(b, moves), t)
    decreases |moves|
  {
    hide BoardInv, Legal, After, Stranded;
    if moves != [] {
      MoveKeeps(d, b, moves[0]);
      StaysStranded(d, b, moves[0], t);
      PlayStaysStranded(d, After(b, moves[0]), moves[1..], t);
    }
  }

  /** Once every carrier of an uncollected trait is vaulted, no run ever collects it. */
  lemma StrandedForever(d: Dataset, s: State, ops: seq<Op>, t: nat)
    requires Sealed(d) && Inv(d, s) && StrandedIn(d, s.core, t)
    ensures StrandedIn(d, Run(d, s, ops).core, t)
  {
    hide Sealed, Inv, Run, Shows, LegalAll, Play, StrandedIn, Stranded, BoardOf, BoardInv;
    InvHasCore(d, s);
    var b := BoardOf(s.core);
    BoardShows(d, s.core);
    InvShown(d, s.core, b);
    StrandedShown(d, s.core, b, t);
    RunIsPlay(d, s, b, ops);
    PlayStaysStranded(d, b, PlayOf(d, s, ops), t);
    StrandedShown(d, Run(d, s, ops).core, Play(b, PlayOf(d, s, ops)), t);
  }

  // ---------- The step that strands ----------

  /** Every other carrier of `t` is vaulted. */
  ghost predicate LastLeft(d: Dataset, c: Core, p: nat, t: nat) {
    Carries(d, p, t) && forall q: nat :: Carries(d, q, t) && q != p ==> IsVaulted(c, q)
  }

  /** The settlement of an unsold auction of the last carrier left, for another trait. */
  ghost predicate StrandsAt(d: Dataset, s: State, op: Op, t: nat) {
    && op.OpSettle? && LiveSale(s.sales, op.punk) && s.now >= s.sales[op.punk].endsAt
    && s.sales[op.punk].highBidder == Zero && s.sales[op.punk].target != t
    && !Bit(s.core.collected, t) && LastLeft(d, s.core, op.punk, t)
  }

  /** Of all transactions, from any reachable state, exactly those strand an
      uncollected trait that still has a carrier outside the vault. */
  lemma StepStrandsIff(d: Dataset, s: State, op: Op, t: nat)
    requires Sealed(d) && Inv(d, s) && |d.masks| == PUNK_COUNT && |d.carriers| == TRAIT_COUNT
    requires forall p :: p in s.core.indexOf ==> 1 <= s.core.indexOf[p] <= |s.core.log|
    requires Step(d, s, op).Ok? && !Bit(s.core.collected, t) && !StrandedIn(d, s.core, t)
    ensures StrandedIn(d, Step(d, s, op).value.core, t) <==> StrandsAt(d, s, op, t)
  {
    hide Sealed, Inv, Step, Shows, BoardOf, BoardInv, StrandedIn, Stranded, After, LastCarrier, LastLeft;
    InvHasCore(d, s);
    var b, moves := BoardOf(s.core), MovesOf(s, op);
    BoardShows(d, s.core);
    InvShown(d, s.core, b);
    StepIsMove(d, s, b, op);
    StrandedShown(d, s.core, b, t);
    StrandedShown(d, Step(d, s, op).value.core, Play(b, moves), t);
    if moves != [] {
      PlayOne(d, b, moves[0]);
      NotCollected(s.core, b, t);
      StrandsIff(d, b, moves[0], t);
      if op.OpSettle? { LastShown(d, s, b, op, t); }
    }
  }

  lemma NotCollected(c: Core, b: Board, t: nat)
    requires Shows(c, b)
    ensures Bit(c.collected, t) <==> t in b.collected
  {
  }

  lemma LastShown(d: Dataset, s: State, b: Board, op: Op, t: nat)
    requires Inv(d, s) && Shows(s.core, b) && op.OpSettle?
    requires forall p :: p in s.core.indexOf ==> 1 <= s.core.indexOf[p] <= |s.core.log|
    requires |d.masks| == PUNK_COUNT && |d.carriers| == TRAIT_COUNT
    requires Step(d, s, op).Ok? && !Bit(s.core.collected, t)
    ensures LiveSale(s.sales, op.punk) && s.now >= s.sales[op.punk].endsAt
    ensures op.punk in b.flying && b.flying[op.punk] == s.sales[op.punk].target
    ensures LastCarrier(d, b, op.punk, t) <==> LastLeft(d, s.core, op.punk, t)
  {
    hide CoreInv, Held, OffersReal, ProofsExact, ProofsPaid, Solvent, Settle, AttemptsShown;
    var p := op.punk;
    SettleNeeds(s, p, op.referrerOk, op.forwardOk);
    SaleKnown(s.sales, s.core.log, s.core.indexOf, s.core.custody, p);
    assert forall q: nat :: IsVaulted(s.core, q) <==> q in b.vaulted;
  }

  /** Over any run: an uncollected trait with a carrier outside the vault ends
      stranded if and only if some transaction of the run is such a settlement. */
  lemma {:induction false} RunStrandsIff(d: Dataset, s: State, ops: seq<Op>, t: nat)
    requires Sealed(d) && Inv(d, s) && !StrandedIn(d, s.core, t)
    ensures StrandedIn(d, Run(d, s, ops).core, t) <==>
      exists i :: 0 <= i < |ops| && StrandsAt(d, Run(d, s, ops[..i]), ops[i], t)
    decreases |ops|
  {
    hide Sealed, Inv, Step, Run, StrandedIn, StrandsAt;
    if ops == [] {
      RunNothing(d, s);
    } else {
      FirstStep(d, s, ops, t);
      var s1 := Run(d, s, [ops[0]]);
      RunParts(d, s, [ops[0]], ops[1..]);
      assert [ops[0]] + ops[1..] == ops && ops[..0] == [];
      RunNothing(d, s);
      if StrandedIn(d, s1.core, t) {
        StrandedForever(d, s1, ops[1..], t);
        assert StrandsAt(d, Run(d, s, ops[..0]), ops[0], t);
      } else {
        RunStrandsIff(d, s1, ops[1..], t);
        forall i | 0 <= i < |ops| - 1
          ensures Run(d, s1, ops[1..][..i]) == Run(d, s, ops[..i + 1]) && ops[1..][i] == ops[i + 1]
        {
          RunParts(d, s, [ops[0]], ops[1..][..i]);
          assert [ops[0]] + ops[1..][..i] == ops[..i + 1];
        }
        if StrandedIn(d, Run(d, s, ops).core, t) {
          var i :| 0 <= i < |ops[1..]| && StrandsAt(d, Run(d, s1, ops[1..][..i]), ops[1..][i], t);
          assert StrandsAt(d, Run(d, s, ops[..i + 1]), ops[i + 1], t);
        }
        if i :| 0 <= i < |ops| && StrandsAt(d, Run(d, s, ops[..i]), ops[i], t) {
          assert i > 0;
          assert StrandsAt(d, Run(d, s1, ops[1..][..i - 1]), ops[1..][i - 1], t);
        }
      }
    }
  }

  /** One transaction, as a run. */
  lemma FirstStep(d: Dataset, s: State, ops: seq<Op>, t: nat)
    requires Sealed(d) && Inv(d, s) && ops != [] && !StrandedIn(d, s.core, t)
    ensures StrandedIn(d, Run(d, s, [ops[0]]).core, t) <==> StrandsAt(d, s, ops[0], t)
  {
    hide Sealed, Inv, Step, StrandedIn;
    SealedSizes(d);
    InvIndex(d, s);
    assert [ops[0]][1..] == [];
    match Step(d, s, ops[0])
    case Err(_) =>
      if StrandsAt(d, s, ops[0], t) { StrandsLands(d, s, ops[0], t); }
    case Ok(s1) =>
      if Bit(s.core.collected, t) {
        StaysCollected(d, s, ops[0], t);
      } else {
        StepStrandsIff(d, s, ops[0], t);
      }
  }

  lemma StrandsLands(d: Dataset, s: State, op: Op, t: nat)
    requires Inv(d, s) && |d.masks| == PUNK_COUNT && |d.carriers| == TRAIT_COUNT && StrandsAt(d, s, op, t)
    requires forall p :: p in s.core.indexOf ==> 1 <= s.core.indexOf[p] <= |s.core.log|
    ensures Step(d, s, op).Ok?
  {
    hide Inv, Settle;
    InvIndex(d, s);
    SettleLands(d, s, op.punk, op.referrerOk, op.forwardOk);
  }

  lemma StaysCollected(d: Dataset, s: State, op: Op, t: nat)
    requires Sealed(d) && Inv(d, s) && |d.masks| == PUNK_COUNT && |d.carriers| == TRAIT_COUNT
    requires forall p :: p in s.core.indexOf ==> 1 <= s.core.indexOf[p] <= |s.core.log|
    requires Step(d, s, op).Ok? && Bit(s.core.collected, t)
    ensures !StrandedIn(d, Step(d, s, op).value.core, t) && !StrandsAt(d, s, op, t)
  {
    hide Sealed, Inv, Step;
    StepLater(d, s, op);
  }

  // ---------- Leading traits are never stranded ----------

  /** A trait is leading exactly when, in every storage the records core can be in,
      every acquirable carrier is recorded for it as long as it is open. */
  lemma LeadingIff(d: Dataset, t: nat)
    requires Sealed(d) && |d.masks| == PUNK_COUNT && |d.carriers| == TRAIT_COUNT && t < TRAIT_COUNT
    requires exists p: nat :: p < PUNK_COUNT && Carries(d, p, t)
    ensures Leading(d, t) <==>
      forall c, p: nat :: CoreInv(d, c) && p < PUNK_COUNT && Acquirable(c, p) && Eligible(d, c, p, t)
        ==> CanonicalTarget(d, c, p) == Some(t)
  {
    hide Sealed, CoreInv, CanonicalTarget;
    if Leading(d, t) {
      forall c, p: nat | CoreInv(d, c) && p < PUNK_COUNT && Acquirable(c, p) && Eligible(d, c, p, t)
        ensures CanonicalTarget(d, c, p) == Some(t)
      {
        assert Carries(d, p, t);
        assert forall u: nat :: Eligible(d, c, p, u) ==> Carries(d, p, u) && u < TRAIT_COUNT;
        CanonicalIff(d, c, p, t);
      }
    } else {
      var p: nat, u: nat :| Carries(d, p, t) && Carries(d, p, u) && u < TRAIT_COUNT && !Before(d, t, u);
      EmptyCore(d);
      EmptyEligible(d, p, t);
      EmptyEligible(d, p, u);
      CanonicalIff(d, EMPTY, p, t);
      assert Acquirable(EMPTY, p);
    }
  }

  lemma EmptyEligible(d: Dataset, p: nat, t: nat)
    requires Carries(d, p, t) && t < TRAIT_COUNT
    ensures Eligible(d, EMPTY, p, t)
  {
    ZeroHasNoBits(t);
  }

  lemma {:induction false} PlayKeepsLeading(d: Dataset, b: Board, moves: seq<Move>, t: nat)
    requires BoardInv(d, b) && LegalAll(d, b, moves) && Leading(d, t) && Reachable(d, b, t) && |d.masks| == PUNK_COUNT
    ensures Reachable(d, Play(b, moves), t)
    decreases |moves|
  {
    hide BoardInv, Legal, After, Leading, Reachable;
    if moves != [] {
      MoveKeeps(d, b, moves[0]);
      LeadingKept(d, b, moves[0], t);
      PlayKeepsLeading(d, After(b, moves[0]), moves[1..], t);
    }
  }

  /** From deployment, along any run, a leading trait is collected, or in flight,
      or carried by a Punk that can be acquired and would be recorded for it. */
  lemma LeadingNeverStranded(d: Dataset, s: State, ops: seq<Op>, t: nat)
    requires Sealed(d) && Initial(s) && Leading(d, t) && |d.masks| == PUNK_COUNT && |d.carriers| == TRAIT_COUNT
    ensures Inv(d, s)
    ensures var c := Run(d, s, ops).core;
      || Bit(c.collected, t)
      || PendingOf(c, t) > 0
      || exists p: nat :: p < PUNK_COUNT && Carries(d, p, t) && Acquirable(c, p) && CanonicalTarget(d, c, p) == Some(t)
  {
    hide Sealed, Inv, CoreInv, Run, Shows, LegalAll, Play, Leading, BoardInv, CanonicalTarget, Reachable;
    InitialInv(d, s);
    EmptyShows();
    InvHasCore(d, s);
    InvShown(d, s.core, START);
    RunIsPlay(d, s, START, ops);
    StartReachable(d, t);
    PlayKeepsLeading(d, START, PlayOf(d, s, ops), t);
    InvHasCore(d, Run(d, s, ops));
    ReachableShown(d, Run(d, s, ops).core, Play(START, PlayOf(d, s, ops)), t);
  }

  lemma StartReachable(d: Dataset, t: nat)
    requires Leading(d, t)
    ensures Reachable(d, START, t)
  {
  }

  lemma ReachableShown(d: Dataset, c: Core, b: Board, t: nat)
    requires Sealed(d) && CoreInv(d, c) && Shows(c, b) && Leading(d, t) && Reachable(d, b, t)
    requires |d.masks| == PUNK_COUNT && |d.carriers| == TRAIT_COUNT
    ensures
      || Bit(c.collected, t)
      || PendingOf(c, t) > 0
      || exists p: nat :: p < PUNK_COUNT && Carries(d, p, t) && Acquirable(c, p) && CanonicalTarget(d, c, p) == Some(t)
  {
    hide Sealed, CoreInv, CanonicalTarget, TargetsKnown, AttemptsShown, Before;
    PendingShown(d, c, b, t);
    if t !in b.collected && !Flown(b.flying, t) {
      var p: nat :| p < PUNK_COUNT && Carries(d, p, t) && p !in b.flying && p !in b.vaulted;
      TargetsShown(d, c, b, p, t);
      CustodyCases(d, c, b, p);
    }
  }

  lemma CustodyCases(d: Dataset, c: Core, b: Board, p: nat)
    requires Shows(c, b) && p !in b.flying && p !in b.vaulted
    ensures Acquirable(c, p)
  {
  }

  // ---------- The sole carrier's trait is leading ----------

  lemma SoleIsLeading(d: Dataset)
    requires Sealed(d)
    ensures Leading(d, SOLE_CARRIER_TRAIT_BIT)
  {
    SoleCarrierUnique(d);
    forall p: nat, u: nat | Carries(d, p, SOLE_CARRIER_TRAIT_BIT) && Carries(d, p, u) && u < TRAIT_COUNT
      ensures Before(d, SOLE_CARRIER_TRAIT_BIT, u)
    {
      CarriersCount(d.masks, u, p);
    }
    assert Carries(d, SOLE_CARRIER_PUNK_ID, SOLE_CARRIER_TRAIT_BIT);
  }

  /** From deployment, along any run, trait 23 is collected, or its one carrier
      is in flight for it, or that carrier can still be acquired and would be
      recorded for it. */
  lemma SoleCarrierNeverStranded(d: Dataset, s: State, ops: seq<Op>)
    requires Sealed(d) && Initial(s) && |d.masks| == PUNK_COUNT && |d.carriers| == TRAIT_COUNT
    ensures Inv(d, s)
    ensures var c := Run(d, s, ops).core;
      || Bit(c.collected, SOLE_CARRIER_TRAIT_BIT)
      || (InAuction(c, SOLE_CARRIER_PUNK_ID) && PendingOf(c, SOLE_CARRIER_TRAIT_BIT) == 1)
      || (Acquirable(c, SOLE_CARRIER_PUNK_ID)
          && CanonicalTarget(d, c, SOLE_CARRIER_PUNK_ID) == Some(SOLE_CARRIER_TRAIT_BIT))
  {
    hide Sealed, Inv, CoreInv, Run, CanonicalTarget, Leading, Acquirable;
    SoleIsLeading(d);
    LeadingNeverStranded(d, s, ops, SOLE_CARRIER_TRAIT_BIT);
    var c := Run(d, s, ops).core;
    InvHasCore(d, Run(d, s, ops));
    SoleCarrierFate(d, c);
    PendingAtMostOne(d, c, SOLE_CARRIER_TRAIT_BIT);
    SoleCarrierUnique(d);
  }
}
