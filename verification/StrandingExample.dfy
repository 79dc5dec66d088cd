/** A dataset as the contract describes it, and a run from deployment on it after
    which a trait can never be collected. */
module StrandingExample {
  import opened TraitMasks
  import opened Collection
  import opened Protocol
  import opened ProtocolSafety
  import opened ProtocolRuns
  import opened CollectionGame
  import opened GameRuns
  import opened Stranding

  // ---------- The dataset ----------

  /** Punk 0 carries traits 0 and 1, Punk 1 traits 1 and 2, Punk 2 trait 0,
      Punks 3 and 4 trait 2, and #8348 trait 23. */
  function SmallMask(p: nat): nat {
    if p == 0 then 3
    else if p == 1 then 6
    else if p == 2 then 1
    else if p == 3 || p == 4 then 4
    else if p == SOLE_CARRIER_PUNK_ID then Pow2(SOLE_CARRIER_TRAIT_BIT)
    else 0
  }

  predicate InSmall(p: nat, t: nat) {
    || (p == 0 && (t == 0 || t == 1)) || (p == 1 && (t == 1 || t == 2)) || (p == 2 && t == 0)
    || ((p == 3 || p == 4) && t == 2) || (p == SOLE_CARRIER_PUNK_ID && t == SOLE_CARRIER_TRAIT_BIT)
  }

  function Small(): Dataset {
    var masks := seq(PUNK_COUNT, p requires 0 <= p => SmallMask(p));
    Dataset(masks, RarityTable(masks, TRAIT_COUNT))
  }

  lemma SmallBits(p: nat, t: nat)
    ensures Bit(SmallMask(p), t) <==> InSmall(p, t)
  {
    hide Bit;
    ZeroHasNoBits(t);
    ZeroHasNoBits(SOLE_CARRIER_TRAIT_BIT);
    AddBit(0, SOLE_CARRIER_TRAIT_BIT, t);
    SmallNumbers(t);
  }

  lemma SmallNumbers(t: nat)
    ensures Bit(1, t) <==> t == 0
    ensures Bit(3, t) <==> t == 0 || t == 1
    ensures Bit(4, t) <==> t == 2
    ensures Bit(6, t) <==> t == 1 || t == 2
  {
    if t >= 3 {
      ZeroHasNoBits(t - 1);
      ZeroHasNoBits(t - 2);
      ZeroHasNoBits(t - 3);
    }
  }

  lemma SmallCarries(p: nat, t: nat)
    ensures Carries(Small(), p, t) <==> p < PUNK_COUNT && InSmall(p, t)
  {
    hide Bit;
    SmallBits(p, t);
  }

  lemma {:induction false} CarriersAre(masks: seq<nat>, t: nat, carrying: set<nat>)
    requires forall p: nat :: p in carrying <==> p < |masks| && Bit(masks[p], t)
    ensures Carriers(masks, t) == |carrying|
    decreases |masks|
  {
    hide Bit;
    if masks != [] {
      var n := |masks| - 1;
      assert forall p: nat :: p < n ==> masks[..n][p] == masks[p];
      CarriersAre(masks[..n], t, carrying - {n});
    }
  }

  lemma SmallCounts(t: nat)
    requires t < TRAIT_COUNT
    ensures |Small().carriers| == TRAIT_COUNT
    ensures Small().carriers[t] ==
      if t == 0 || t == 1 then 2 else if t == 2 then 3 else if t == SOLE_CARRIER_TRAIT_BIT then 1 else 0
  {
    hide Bit, Carriers;
    var carrying: set<nat> := if t == 0 then {0, 2} else if t == 1 then {0, 1} else if t == 2 then {1, 3, 4}
      else if t == SOLE_CARRIER_TRAIT_BIT then {SOLE_CARRIER_PUNK_ID} else {};
    forall p: nat
      ensures p in carrying <==> p < PUNK_COUNT && Bit(SmallMask(p), t)
    {
      SmallBits(p, t);
    }
    CarriersAre(Small().masks, t, carrying);
  }

  lemma SmallFits(p: nat)
    ensures SmallMask(p) < Pow2(TRAIT_COUNT)
  {
    hide Pow2;
    PowersRise(SOLE_CARRIER_TRAIT_BIT, TRAIT_COUNT);
    PowersRise(3, TRAIT_COUNT);
    EightIsPower();
  }

  lemma EightIsPower()
    ensures Pow2(3) == 8
  {
    assert Pow2(0) == 1 && Pow2(1) == 2 && Pow2(2) == 4;
  }

  /** It is a dataset as the contract states it. */
  lemma SmallIsSealed()
    ensures Sealed(Small())
  {
    hide Bit, Carriers, Pow2, SmallMask;
    forall p: nat | p < PUNK_COUNT
      ensures Small().masks[p] < Pow2(TRAIT_COUNT)
    {
      SmallFits(p);
    }
    forall t: nat | t < TRAIT_COUNT
      ensures Small().carriers[t] == 1 <==> t == SOLE_CARRIER_TRAIT_BIT
    {
      SmallCounts(t);
    }
    SmallBits(SOLE_CARRIER_PUNK_ID, SOLE_CARRIER_TRAIT_BIT);
  }

  // ---------- The play ----------

  lemma SmallTargets(b: Board, p: nat, t: nat)
    requires InSmall(p, t) && p <= 2 && t !in b.collected && !Flown(b.flying, t)
    requires forall u: nat :: u < t && InSmall(p, u) ==> u in b.collected || Flown(b.flying, u)
    ensures Targets(Small(), b, p, t)
  {
    hide Bit, Carriers, Carries, Small, Flown;
    SmallCarries(p, t);
    SmallCounts(t);
    forall u: nat | Open(Small(), b, p, u)
      ensures Before(Small(), t, u)
    {
      SmallCarries(p, u);
      SmallCounts(u);
    }
  }

  lemma SmallTake(b: Board, p: nat, t: nat)
    requires InSmall(p, t) && p <= 2 && t !in b.collected && !Flown(b.flying, t) && p !in b.flying && p !in b.vaulted
    requires forall u: nat :: u < t && InSmall(p, u) ==> u in b.collected || Flown(b.flying, u)
    requires CounterOf(b.attempts, t) <= 1
    ensures Legal(Small(), b, Take(p, t))
  {
    hide Small, Targets, Flown;
    SmallTargets(b, p, t);
  }

  /** Trait 1 is held in flight by Punk 0 while Punk 1 is vaulted for trait 2; then
      trait 0 is freed and Punk 0 is vaulted for that. */
  function StrandingPlay(): seq<Move> {
    [Take(2, 0), Take(0, 1), Take(1, 2), Vaulting(1), Return(0), Return(2), Take(0, 0), Vaulting(0)]
  }

  lemma Next(d: Dataset, b: Board, moves: seq<Move>, m: Move, b1: Board, rest: seq<Move>)
    requires moves == [m] + rest && Legal(d, b, m) && b1 == After(b, m)
    ensures LegalAll(d, b1, rest) ==> LegalAll(d, b, moves)
    ensures Play(b, moves) == Play(b1, rest)
  {
    hide Legal, After;
    assert moves[0] == m && moves[1..] == rest;
  }

  /** The first half: both traits around trait 1 are held in flight. */
  lemma Opening() returns (b: Board)
    ensures b == Board({}, map[2 := 0, 0 := 1, 1 := 2], {}, map[0 := 1, 1 := 1, 2 := 1])
    ensures LegalAll(Small(), START, StrandingPlay()[..3]) && Play(START, StrandingPlay()[..3]) == b
  {
    hide Small, Targets, Affordable, Legal;
    var d := Small();
    var b1 := Board({}, map[2 := 0], {}, map[0 := 1]);
    var b2 := Board({}, map[2 := 0, 0 := 1], {}, map[0 := 1, 1 := 1]);
    b := Board({}, map[2 := 0, 0 := 1, 1 := 2], {}, map[0 := 1, 1 := 1, 2 := 1]);
    SmallTake(START, 2, 0);
    assert b1.flying[2] == 0;
    SmallTake(b1, 0, 1);
    assert b2.flying[0] == 1;
    SmallTake(b2, 1, 2);
    var m := StrandingPlay();
    Next(d, b2, [m[2]], m[2], b, []);
    Next(d, b1, [m[1], m[2]], m[1], b2, [m[2]]);
    Next(d, START, [m[0], m[1], m[2]], m[0], b1, [m[1], m[2]]);
    assert m[..3] == [m[0], m[1], m[2]];
  }

  lemma Middle(b: Board)
    requires b == Board({}, map[2 := 0, 0 := 1, 1 := 2], {}, map[0 := 1, 1 := 1, 2 := 1])
    ensures LegalAll(Small(), b, StrandingPlay()[3..6])
    ensures Play(b, StrandingPlay()[3..6]) == Board({2}, map[], {1}, map[0 := 1, 1 := 1, 2 := 1])
  {
    hide Small, Targets, Affordable;
    var d, m := Small(), StrandingPlay();
    var b1 := Board({2}, map[2 := 0, 0 := 1], {1}, b.attempts);
    var b2 := Board({2}, map[2 := 0], {1}, b.attempts);
    var b3 := Board({2}, map[], {1}, b.attempts);
    Next(d, b2, [m[5]], m[5], b3, []);
    Next(d, b1, [m[4], m[5]], m[4], b2, [m[5]]);
    Next(d, b, [m[3], m[4], m[5]], m[3], b1, [m[4], m[5]]);
    assert m[3..6] == [m[3], m[4], m[5]];
  }

  lemma Ending(b: Board)
    requires b == Board({2}, map[], {1}, map[0 := 1, 1 := 1, 2 := 1])
    ensures LegalAll(Small(), b, StrandingPlay()[6..])
    ensures Play(b, StrandingPlay()[6..]).collected == {0, 2} && Play(b, StrandingPlay()[6..]).vaulted == {0, 1}
  {
    hide Small, Targets, Affordable;
    var d, m := Small(), StrandingPlay();
    SmallTake(b, 0, 0);
    var b1 := After(b, m[6]);
    var b2 := After(b1, m[7]);
    assert b1.flying == map[0 := 0];
    Next(d, b1, [m[7]], m[7], b2, []);
    Next(d, b, [m[6], m[7]], m[6], b1, [m[7]]);
    assert m[6..] == [m[6], m[7]];
  }

  lemma StrandingPlayLegal()
    ensures LegalAll(Small(), START, StrandingPlay()) && Stranded(Small(), Play(START, StrandingPlay()), 1)
  {
    hide Small, Legal, After, Carries;
    var d, m := Small(), StrandingPlay();
    var b := Opening();
    Middle(b);
    var b' := Play(b, m[3..6]);
    Ending(b');
    assert m == m[..3] + (m[3..6] + m[6..]);
    PlayParts(d, b, m[3..6], m[6..]);
    PlayParts(d, START, m[..3], m[3..6] + m[6..]);
    forall p: nat | Carries(d, p, 1)
      ensures p == 0 || p == 1
    {
      SmallCarries(p, 1);
    }
  }

  // ---------- The run ----------

  /** The deployed protocol, every Punk owned by an ordinary account. */
  function Deployed(): State {
    State(EMPTY, map[], map[], {}, map p: nat | p < PUNK_COUNT :: User(p), map[],
          Ledger(0, 0, 0, 0, 0, map[], 0, 0), 0)
  }

  /** Some run from deployment strands a trait: no continuation collects it. */
  lemma StrandingRun() returns (d: Dataset, s: State, ops: seq<Op>)
    ensures Sealed(d) && Initial(s) && Inv(d, s)
    ensures StrandedIn(d, Run(d, s, ops).core, 1)
    ensures forall more :: !Bit(Run(d, s, ops + more).core.collected, 1)
    ensures d == Small() && s == Deployed()
  {
    hide Sealed, Inv, Run, Small, Shows, Play, LegalAll, StrandingPlay;
    d, s := Small(), Deployed();
    SmallIsSealed();
    InitialInv(d, s);
    EmptyShows();
    StrandingPlayLegal();
    ops := PlayIsRun(d, s, START, StrandingPlay());
    StrandedShown(d, Run(d, s, ops).core, Play(START, StrandingPlay()), 1);
    forall more
      ensures !Bit(Run(d, s, ops + more).core.collected, 1)
    {
      RunParts(d, s, ops, more);
      StrandedForever(d, Run(d, s, ops), more, 1);
    }
  }
}
