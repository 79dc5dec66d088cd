/** scripts/pick-canonical-punks.ts: one exemplar Punk per trait. */
module CanonicalPicks {
  import opened Wrappers
  import opened TraitMasks

  const TYPES: nat := 5       // traits 0..4
  const HEAD_TIER: nat := 16  // types, then head variants 5..15
  const MIN_TYPE_BITS: nat := 4

  function From(start: nat, n: nat): (r: seq<nat>)
    ensures |r| == n && forall i :: 0 <= i < n ==> r[i] == start + i
  {
    seq(n, i requires 0 <= i => start + i)
  }

  /** `pickOrder`: head variants, types, attribute counts, accessories. */
  function PickOrder(): seq<nat> {
    From(5, 11) + From(0, 5) + From(16, 8) + From(24, 87)
  }

  /** The step at which trait `t` is picked. */
  function StepOf(t: nat): nat {
    if t < 5 then 11 + t else if t < 16 then t - 5 else t
  }

  /** The order visits each of the 111 traits exactly once. */
  lemma PickOrderPermutes()
    ensures |PickOrder()| == TRAIT_COUNT
    ensures forall t: nat :: t < TRAIT_COUNT ==> StepOf(t) < TRAIT_COUNT && PickOrder()[StepOf(t)] == t
    ensures forall k :: 0 <= k < TRAIT_COUNT ==> PickOrder()[k] < TRAIT_COUNT && StepOf(PickOrder()[k]) == k
  {
  }

  /** May Punk `p` stand for trait `t`? A type needs an accessorized Punk that no
      head tile uses yet. */
  predicate Admissible(masks: seq<nat>, used: set<nat>, t: nat, p: nat)
    requires p < |masks|
  {
    Bit(masks[p], t) && (t < TYPES ==> PopCount(masks[p]) >= MIN_TYPE_BITS && p !in used)
  }

  /** The scan over the first `n` Punks. */
  function Best(masks: seq<nat>, used: set<nat>, t: nat, n: nat): (best: Option<nat>)
    requires n <= |masks|
    ensures best.Some? ==> best.value < n
  {
    if n == 0 then None
    else
      var best := Best(masks, used, t, n - 1);
      if Admissible(masks, used, t, n - 1)
         && (best == None || PopCount(masks[n - 1]) < PopCount(masks[best.value])) then Some(n - 1)
      else best
  }

  /** `p` comes no later than `q` by (population count, id). */
  predicate NoLater(masks: seq<nat>, p: nat, q: nat)
    requires p < |masks| && q < |masks|
  {
    PopCount(masks[p]) < PopCount(masks[q]) || (PopCount(masks[p]) == PopCount(masks[q]) && p <= q)
  }

  /** The scan finds the lexicographically least admissible Punk, and nothing
      exactly when none is admissible. */
  lemma {:induction false} BestIsLeast(masks: seq<nat>, used: set<nat>, t: nat, n: nat)
    requires n <= |masks|
    ensures Best(masks, used, t, n) == None <==> forall p :: 0 <= p < n ==> !Admissible(masks, used, t, p)
    ensures Best(masks, used, t, n).Some? ==>
      && Admissible(masks, used, t, Best(masks, used, t, n).value)
      && forall p :: 0 <= p < n && Admissible(masks, used, t, p) ==> NoLater(masks, Best(masks, used, t, n).value, p)
    decreases n
  {
    hide Bit, PopCount;
    if n > 0 { BestIsLeast(masks, used, t, n - 1); }
  }

  datatype Picked = Picked(byTrait: map<nat, nat>, used: set<nat>)

  /** The outcome of the first `k` steps; an error names the trait with no Punk. */
  function Picks(masks: seq<nat>, k: nat): Result<Picked, nat>
    requires k <= TRAIT_COUNT
  {
    if k == 0 then Ok(Picked(map[], {}))
    else
      PickOrderPermutes();
      match Picks(masks, k - 1)
      case Err(t) => Err(t)
      case Ok(s) =>
        var t := PickOrder()[k - 1];
        match Best(masks, s.used, t, |masks|)
        case None => Err(t)
        case Some(p) => Ok(Picked(s.byTrait[t := p], if t < HEAD_TIER then s.used + {p} else s.used))
  }

  lemma {:induction false} PicksStop(masks: seq<nat>, j: nat, k: nat)
    requires j <= k <= TRAIT_COUNT && Picks(masks, j).Err?
    ensures Picks(masks, k) == Picks(masks, j)
    decreases k
  {
    hide Best;
    if j < k { PicksStop(masks, j, k - 1); }
  }

  /** One step's inner loop. */
  method PickOne(masks: seq<nat>, used: set<nat>, t: nat) returns (best: Option<nat>)
    ensures best == Best(masks, used, t, |masks|)
  {
    best := None;
    var bestBits := 0;
    for p := 0 to |masks|
      invariant best == Best(masks, used, t, p)
      invariant best.Some? ==> bestBits == PopCount(masks[best.value])
    {
      if !Bit(masks[p], t) { continue; }
      if t < TYPES {
        if PopCount(masks[p]) < MIN_TYPE_BITS { continue; }
        if p in used { continue; }
      }
      var bits := PopCount(masks[p]);
      if best == None || bits < bestBits {
        bestBits := bits;
        best := Some(p);
      }
    }
  }

  /** The picking loop. */
  method PickAll(masks: seq<nat>) returns (r: Result<map<nat, nat>, nat>)
    ensures match Picks(masks, TRAIT_COUNT)
      case Ok(s) => r == Ok(s.byTrait)
      case Err(t) => r == Err(t)
  {
    hide Best;
    PickOrderPermutes();
    var byTrait: map<nat, nat>, used := map[], {};
    for k := 0 to TRAIT_COUNT
      invariant Picks(masks, k) == Ok(Picked(byTrait, used))
    {
      var t := PickOrder()[k];
      var best := PickOne(masks, used, t);
      if best == None {
        PicksStop(masks, k + 1, TRAIT_COUNT);
        return Err(t);
      }
      byTrait := byTrait[t := best.value];
      if t < HEAD_TIER { used := used + {best.value}; }
    }
    return Ok(byTrait);
  }

  // ---------- What the picks are ----------

  /** The Punks the head tiles had taken when trait `t` was picked. */
  ghost function UsedBefore(byTrait: map<nat, nat>, t: nat): set<nat> {
    set u | u in byTrait.Keys && u < HEAD_TIER && StepOf(u) < StepOf(t) :: byTrait[u]
  }

  ghost predicate PickExact(masks: seq<nat>, byTrait: map<nat, nat>, t: nat) {
    && t in byTrait && byTrait[t] < |masks|
    && Admissible(masks, UsedBefore(byTrait, t), t, byTrait[t])
    && forall p :: 0 <= p < |masks| && Admissible(masks, UsedBefore(byTrait, t), t, p) ==>
         NoLater(masks, byTrait[t], p)
  }

  /** The first `k` steps picked exactly their traits, exactly right. */
  ghost predicate PicksOk(masks: seq<nat>, s: Picked, k: nat) {
    && (forall t: nat :: t in s.byTrait <==> t < TRAIT_COUNT && StepOf(t) < k)
    && (forall t: nat :: t in s.byTrait ==> PickExact(masks, s.byTrait, t))
    && s.used == HeadPunks(s.byTrait)
  }

  ghost function HeadPunks(byTrait: map<nat, nat>): set<nat> {
    set u | u in byTrait.Keys && u < HEAD_TIER :: byTrait[u]
  }

  lemma UsedBeforeStable(byTrait: map<nat, nat>, t: nat, p: nat, u: nat)
    requires t !in byTrait && StepOf(u) <= StepOf(t)
    ensures UsedBefore(byTrait[t := p], u) == UsedBefore(byTrait, u)
  {
  }

  lemma OldPickExact(masks: seq<nat>, byTrait: map<nat, nat>, t: nat, p: nat, u: nat)
    requires t !in byTrait && StepOf(u) <= StepOf(t) && u != t && PickExact(masks, byTrait, u)
    ensures PickExact(masks, byTrait[t := p], u)
  {
    hide Admissible, NoLater, UsedBefore;
    UsedBeforeStable(byTrait, t, p, u);
  }

  lemma NewPickExact(masks: seq<nat>, s: Picked, k: nat, t: nat, p: nat)
    requires PicksOk(masks, s, k) && t < TRAIT_COUNT && StepOf(t) == k && Best(masks, s.used, t, |masks|) == Some(p)
    ensures PickExact(masks, s.byTrait[t := p], t)
  {
    hide Admissible, NoLater, Best, UsedBefore, PickExact;
    AllEarlier(masks, s, k, t);
    UsedBeforeStable(s.byTrait, t, p, t);
    NewPick(masks, s.byTrait[t := p], s.used, t, p);
  }

  lemma AllEarlier(masks: seq<nat>, s: Picked, k: nat, t: nat)
    requires PicksOk(masks, s, k) && StepOf(t) == k
    ensures s.used == UsedBefore(s.byTrait, t)
  {
    hide PickExact;
  }

  lemma NewPick(masks: seq<nat>, byTrait: map<nat, nat>, used: set<nat>, t: nat, p: nat)
    requires Best(masks, used, t, |masks|) == Some(p)
    requires t in byTrait && byTrait[t] == p && used == UsedBefore(byTrait, t)
    ensures PickExact(masks, byTrait, t)
  {
    hide Admissible, NoLater, Best, UsedBefore;
    BestIsLeast(masks, used, t, |masks|);
  }

  lemma HeadAdded(byTrait: map<nat, nat>, t: nat, p: nat)
    requires t !in byTrait
    ensures HeadPunks(byTrait[t := p]) == HeadPunks(byTrait) + if t < HEAD_TIER then {p} else {}
  {
    var after := byTrait[t := p];
    forall x | x in HeadPunks(byTrait)
      ensures x in HeadPunks(after)
    {
      var u :| u in byTrait.Keys && u < HEAD_TIER && byTrait[u] == x;
      assert u in after.Keys && after[u] == x;
    }
    if t < HEAD_TIER { assert t in after.Keys && after[t] == p; }
  }

  /** The picks so far are the right ones, step by step. */
  lemma {:induction false} PicksExact(masks: seq<nat>, k: nat)
    requires k <= TRAIT_COUNT && Picks(masks, k).Ok?
    ensures PicksOk(masks, Picks(masks, k).value, k)
    decreases k
  {
    hide Best, PickExact, StepOf, HeadPunks;
    if k == 0 {
      NothingPicked();
    } else {
      PicksExact(masks, k - 1);
      PickOrderPermutes();
      var s0, s, t := Picks(masks, k - 1).value, Picks(masks, k).value, PickOrder()[k - 1];
      HeadAdded(s0.byTrait, t, s.byTrait[t]);
      NewPickExact(masks, s0, k - 1, t, s.byTrait[t]);
      forall u: nat | u in s0.byTrait
        ensures PickExact(masks, s.byTrait, u)
      {
        OldPickExact(masks, s0.byTrait, t, s.byTrait[t], u);
      }
      forall u: nat
        ensures u in s.byTrait <==> u < TRAIT_COUNT && StepOf(u) < k
      {
        assert u < TRAIT_COUNT && StepOf(u) == k - 1 ==> u == t;
      }
    }
  }

  lemma NothingPicked()
    ensures HeadPunks(map[]) == {}
  {
  }

  /** A pick for each of the 111 traits, each the least admissible one. */
  ghost predicate AllPicked(masks: seq<nat>, byTrait: map<nat, nat>) {
    && (forall t: nat :: t in byTrait <==> t < TRAIT_COUNT)
    && (forall t: nat :: t in byTrait ==> PickExact(masks, byTrait, t))
  }

  /** No Punk is admissible for `t` when its turn comes. */
  ghost predicate NoneFor(masks: seq<nat>, t: nat) {
    && t < TRAIT_COUNT && StepOf(t) < TRAIT_COUNT && Picks(masks, StepOf(t)).Ok?
    && forall p :: 0 <= p < |masks| ==> !Admissible(masks, Picks(masks, StepOf(t)).value.used, t, p)
  }

  /** The script succeeds with, for every trait, the least admissible carrier; it
      stops exactly at the first trait, in pick order, that has none. */
  lemma PicksAreLeast(masks: seq<nat>)
    ensures Picks(masks, TRAIT_COUNT).Ok? ==> AllPicked(masks, Picks(masks, TRAIT_COUNT).value.byTrait)
    ensures Picks(masks, TRAIT_COUNT).Err? ==> NoneFor(masks, Picks(masks, TRAIT_COUNT).error)
  {
    hide Picks, PickExact, Admissible, Best;
    if Picks(masks, TRAIT_COUNT).Ok? {
      PicksExact(masks, TRAIT_COUNT);
      PickOrderPermutes();
    } else {
      FirstMissing(masks, TRAIT_COUNT);
    }
  }

  lemma {:induction false} FirstMissing(masks: seq<nat>, k: nat)
    requires k <= TRAIT_COUNT && Picks(masks, k).Err?
    ensures NoneFor(masks, Picks(masks, k).error)
    decreases k
  {
    hide Best, Admissible, StepOf;
    PickOrderPermutes();
    match Picks(masks, k - 1)
    case Err(_) => FirstMissing(masks, k - 1);
    case Ok(s) => BestIsLeast(masks, s.used, PickOrder()[k - 1], |masks|);
  }

  /** A type's exemplar differs from every other head tile's. */
  lemma TypesStandApart(masks: seq<nat>, byTrait: map<nat, nat>, t: nat, u: nat)
    requires AllPicked(masks, byTrait)
    requires t < TYPES && u < HEAD_TIER && u != t
    ensures byTrait[t] != byTrait[u]
  {
    hide NoLater, Bit, PopCount;
    assert PickExact(masks, byTrait, t) && PickExact(masks, byTrait, u);
    if u < TYPES && StepOf(t) < StepOf(u) {
      assert byTrait[t] in UsedBefore(byTrait, u);
    } else {
      assert byTrait[u] in UsedBefore(byTrait, t);
    }
  }

  /** `q` is the exemplar of a head variant, or of a type picked before type `t`. */
  ghost predicate TakenFor(byTrait: map<nat, nat>, t: nat, q: nat) {
    exists u: nat :: u in byTrait && byTrait[u] == q && (5 <= u < 16 || u < t)
  }

  /** A type's exemplar carries it with at least four traits in all and stands for no
      head variant or earlier type; of all such Punks it has the fewest traits, and of
      those the lowest id. */
  lemma TypePicks(masks: seq<nat>, byTrait: map<nat, nat>, t: nat)
    requires AllPicked(masks, byTrait) && t < 5
    ensures var b := byTrait[t];
      && b < |masks| && Bit(masks[b], t) && PopCount(masks[b]) >= 4 && !TakenFor(byTrait, t, b)
      && forall p :: 0 <= p < |masks| && Bit(masks[p], t) && PopCount(masks[p]) >= 4 && !TakenFor(byTrait, t, p) ==>
           PopCount(masks[b]) < PopCount(masks[p]) || (PopCount(masks[b]) == PopCount(masks[p]) && b <= p)
  {
    hide PopCount, Bit;
    assert PickExact(masks, byTrait, t);
    forall q: nat
      ensures q in UsedBefore(byTrait, t) <==> TakenFor(byTrait, t, q)
    {
      UsedIs(byTrait, t, q);
    }
    forall p | 0 <= p < |masks| && Bit(masks[p], t) && PopCount(masks[p]) >= 4 && !TakenFor(byTrait, t, p)
      ensures NoLater(masks, byTrait[t], p)
    {
      assert Admissible(masks, UsedBefore(byTrait, t), t, p);
    }
  }

  lemma UsedIs(byTrait: map<nat, nat>, t: nat, q: nat)
    requires t < 5
    ensures q in UsedBefore(byTrait, t) <==> TakenFor(byTrait, t, q)
  {
    if TakenFor(byTrait, t, q) {
      var u: nat :| u in byTrait && byTrait[u] == q && (5 <= u < 16 || u < t);
      assert u in byTrait.Keys && u < HEAD_TIER && StepOf(u) < StepOf(t);
    }
  }

  /** Any other trait's exemplar carries it with the fewest traits, and of those has
      the lowest id. */
  lemma OtherPicks(masks: seq<nat>, byTrait: map<nat, nat>, t: nat)
    requires AllPicked(masks, byTrait) && 5 <= t < 111
    ensures var b := byTrait[t];
      && b < |masks| && Bit(masks[b], t)
      && forall p :: 0 <= p < |masks| && Bit(masks[p], t) ==>
           PopCount(masks[b]) < PopCount(masks[p]) || (PopCount(masks[b]) == PopCount(masks[p]) && b <= p)
  {
    hide PopCount, Bit, UsedBefore;
    assert PickExact(masks, byTrait, t);
    forall p | 0 <= p < |masks| && Bit(masks[p], t)
      ensures NoLater(masks, byTrait[t], p)
    {
      assert Admissible(masks, UsedBefore(byTrait, t), t, p);
    }
  }

  ghost predicate OneVariantEach(masks: seq<nat>) {
    forall p, a: nat, b: nat ::
      0 <= p < |masks| && TYPES <= a < HEAD_TIER && TYPES <= b < HEAD_TIER && Bit(masks[p], a) && Bit(masks[p], b)
      ==> a == b
  }

  /** When no mask has two head-variant bits, all 16 head tiles differ. */
  lemma HeadTierDistinct(masks: seq<nat>, byTrait: map<nat, nat>, t: nat, u: nat)
    requires AllPicked(masks, byTrait)
    requires OneVariantEach(masks)
    requires t < HEAD_TIER && u < HEAD_TIER && t != u
    ensures byTrait[t] != byTrait[u]
  {
    hide NoLater, Bit, PopCount, UsedBefore;
    if t < TYPES {
      TypesStandApart(masks, byTrait, t, u);
    } else if u < TYPES {
      TypesStandApart(masks, byTrait, u, t);
    } else {
      assert PickExact(masks, byTrait, t) && PickExact(masks, byTrait, u);
    }
  }
}
