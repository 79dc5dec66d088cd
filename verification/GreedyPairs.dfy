/** scripts/seed-title-threshold.ts: the greedy choice of (Punk, trait) pairs. */
module GreedyPairs {
  import opened Wrappers
  import opened TraitMasks
  import opened Collection
  import opened Protocol

  datatype Pair = Pair(punk: nat, traitId: nat)

  /** The state read before picking: per Punk its mask and whether it may be
      used, and the traits already collected or pending. */
  datatype Snapshot = Snapshot(
    masks: seq<nat>, recorded: seq<bool>, owned: seq<bool>, collected: nat, pending: seq<nat>)

  ghost predicate Sized(s: Snapshot) {
    |s.recorded| == |s.owned| == |s.masks| && |s.pending| == TRAIT_COUNT
  }

  predicate Usable(s: Snapshot, p: nat)
    requires Sized(s) && p < |s.masks|
  {
    !s.recorded[p] && s.owned[p]
  }

  predicate TakenBefore(s: Snapshot, t: nat)
    requires Sized(s)
  {
    t < TRAIT_COUNT && (Bit(s.collected, t) || s.pending[t] > 0)
  }

  /** One pair stands on its own. */
  predicate PairOk(s: Snapshot, x: Pair)
    requires Sized(s)
  {
    x.punk < |s.masks| && Usable(s, x.punk) && Bit(s.masks[x.punk], x.traitId) && !TakenBefore(s, x.traitId)
  }

  ghost predicate Matching(pairs: seq<Pair>) {
    forall i, j :: 0 <= i < j < |pairs| ==> pairs[i].punk != pairs[j].punk && pairs[i].traitId != pairs[j].traitId
  }

  /** A valid pairing: good pairs, no Punk and no trait used twice. */
  ghost predicate Pairing(s: Snapshot, pairs: seq<Pair>)
    requires Sized(s)
  {
    Matching(pairs) && forall x :: x in pairs ==> PairOk(s, x)
  }

  ghost predicate RisingPunks(pairs: seq<Pair>) {
    forall i, j :: 0 <= i < j < |pairs| ==> pairs[i].punk < pairs[j].punk
  }

  ghost function Punks(pairs: seq<Pair>): set<nat> {
    set x | x in pairs :: x.punk
  }

  ghost function Traits(pairs: seq<Pair>): set<nat> {
    set x | x in pairs :: x.traitId
  }

  /** No pair of a Punk below `n` can be added any more. */
  ghost predicate Exhausted(s: Snapshot, pairs: seq<Pair>, n: nat)
    requires Sized(s)
  {
    forall x :: PairOk(s, x) && x.punk < n ==> x.punk in Punks(pairs) || x.traitId in Traits(pairs)
  }

  /** Pair `i` was the greedy choice: no earlier Punk could be paired, and the
      trait is the lowest one its Punk had to offer. */
  ghost predicate GreedyAt(s: Snapshot, pairs: seq<Pair>, i: nat)
    requires Sized(s) && i < |pairs| && pairs[i].punk < |s.masks|
  {
    && Exhausted(s, pairs[..i], pairs[i].punk)
    && forall b: nat :: Bit(s.masks[pairs[i].punk], b) && b < pairs[i].traitId ==>
         TakenBefore(s, b) || b in Traits(pairs[..i])
  }

  ghost predicate Greedy(s: Snapshot, pairs: seq<Pair>)
    requires Sized(s)
  {
    forall i: nat :: i < |pairs| ==> pairs[i].punk < |s.masks| && GreedyAt(s, pairs, i)
  }

  lemma GreedyAdded(s: Snapshot, pairs: seq<Pair>, x: Pair)
    requires Sized(s) && Greedy(s, pairs) && x.punk < |s.masks| && Exhausted(s, pairs, x.punk)
    requires forall b: nat :: Bit(s.masks[x.punk], b) && b < x.traitId ==> TakenBefore(s, b) || b in Traits(pairs)
    ensures Greedy(s, pairs + [x])
  {
    hide Exhausted, Bit, TakenBefore, Traits;
    var after := pairs + [x];
    forall i: nat | i < |after|
      ensures after[i].punk < |s.masks| && GreedyAt(s, after, i)
    {
      if i < |pairs| {
        assert GreedyAt(s, pairs, i) && after[..i] == pairs[..i] && after[i] == pairs[i];
      } else {
        assert after[..i] == pairs;
      }
    }
  }

  /** The inner loop: the first bit of the mask that is not taken. */
  method FirstFree(mask: nat, taken: set<nat>) returns (t: Option<nat>)
    ensures t == None ==> forall b: nat :: Bit(mask, b) ==> b in taken
    ensures t.Some? ==> Bit(mask, t.value) && t.value !in taken
    ensures t.Some? ==> forall b: nat :: Bit(mask, b) && b < t.value ==> b in taken
  {
    var bits := BitsOf(mask);
    BitsAscend(mask, 0);
    forall b: nat
      ensures b in bits <==> Bit(mask, b)
    {
      BitsExact(mask, 0, b);
    }
    for i := 0 to |bits|
      invariant forall j :: 0 <= j < i ==> bits[j] in taken
    {
      if bits[i] !in taken {
        forall b: nat | Bit(mask, b) && b < bits[i]
          ensures b in taken
        {
          var j :| 0 <= j < |bits| && bits[j] == b;
        }
        return Some(bits[i]);
      }
    }
    return None;
  }

  method TakenTraits(s: Snapshot) returns (taken: set<nat>)
    requires Sized(s)
    ensures forall t: nat :: t in taken <==> TakenBefore(s, t)
  {
    taken := {};
    for t := 0 to TRAIT_COUNT
      invariant forall u: nat :: u in taken <==> u < t && TakenBefore(s, u)
    {
      if Bit(s.collected, t) { taken := taken + {t}; }
      if s.pending[t] > 0 { taken := taken + {t}; }
    }
  }

  /** The picker: at most `needed` pairs, Punks rising, each the greedy choice, and
      short only when no pair of any scanned Punk can be added. */
  method PickPairs(s: Snapshot, needed: nat) returns (pairs: seq<Pair>)
    requires Sized(s)
    ensures Pairing(s, pairs) && RisingPunks(pairs) && Greedy(s, pairs) && |pairs| <= needed
    ensures |pairs| < needed ==> Exhausted(s, pairs, |s.masks|)
  {
    hide Bit, Greedy;
    var taken := TakenTraits(s);
    assert Greedy(s, []) by { NothingGreedy(s); }
    pairs := [];
    var p := 0;
    while p < |s.masks| && |pairs| < needed
      invariant p <= |s.masks| && |pairs| <= needed
      invariant Pairing(s, pairs) && RisingPunks(pairs) && forall x :: x in pairs ==> x.punk < p
      invariant forall t: nat :: t in taken <==> TakenBefore(s, t) || t in Traits(pairs)
      invariant Exhausted(s, pairs, p) && Greedy(s, pairs)
    {
      if Usable(s, p) {
        var t := FirstFree(s.masks[p], taken);
        if t.Some? {
          PairAdded(s, pairs, Pair(p, t.value));
          GreedyAdded(s, pairs, Pair(p, t.value));
          pairs := pairs + [Pair(p, t.value)];
          taken := taken + {t.value};
        }
      }
      p := p + 1;
    }
  }

  lemma NothingGreedy(s: Snapshot)
    requires Sized(s)
    ensures Greedy(s, [])
  {
  }

  lemma SetsAdded(pairs: seq<Pair>, x: Pair)
    ensures Punks(pairs + [x]) == Punks(pairs) + {x.punk} && Traits(pairs + [x]) == Traits(pairs) + {x.traitId}
  {
    assert forall y :: y in pairs + [x] <==> y in pairs || y == x;
  }

  lemma OrderAdded(pairs: seq<Pair>, x: Pair)
    requires Matching(pairs) && RisingPunks(pairs)
    requires x.traitId !in Traits(pairs) && forall y :: y in pairs ==> y.punk < x.punk
    ensures Matching(pairs + [x]) && RisingPunks(pairs + [x])
  {
    assert forall i :: 0 <= i < |pairs| ==> pairs[i] in pairs && pairs[i].traitId in Traits(pairs);
  }

  lemma PairAdded(s: Snapshot, pairs: seq<Pair>, x: Pair)
    requires Sized(s) && Pairing(s, pairs) && RisingPunks(pairs) && Exhausted(s, pairs, x.punk)
    requires PairOk(s, x) && x.traitId !in Traits(pairs) && forall y :: y in pairs ==> y.punk < x.punk
    ensures Pairing(s, pairs + [x]) && RisingPunks(pairs + [x]) && Exhausted(s, pairs + [x], x.punk + 1)
    ensures Traits(pairs + [x]) == Traits(pairs) + {x.traitId}
  {
    hide PairOk, Matching, RisingPunks, Punks, Traits;
    SetsAdded(pairs, x);
    OrderAdded(pairs, x);
    assert forall y :: y in pairs + [x] <==> y in pairs || y == x;
  }

  // ---------- How far from the best ----------

  lemma {:induction false} PunksBySize(pairs: seq<Pair>)
    ensures |Punks(pairs)| <= |pairs| && |Traits(pairs)| <= |pairs|
    decreases |pairs|
  {
    if pairs != [] {
      var init, x := pairs[..|pairs| - 1], pairs[|pairs| - 1];
      PunksBySize(init);
      assert pairs == init + [x];
      assert Punks(pairs) == Punks(init) + {x.punk} && Traits(pairs) == Traits(init) + {x.traitId};
    }
  }

  /** A matching whose every pair touches `punks` or `traits` is no longer than
      the two sets together. */
  lemma {:induction false} CoverBound(other: seq<Pair>, punks: set<nat>, traits: set<nat>)
    requires Matching(other) && forall x :: x in other ==> x.punk in punks || x.traitId in traits
    ensures |other| <= |punks| + |traits|
    decreases |other|
  {
    if other != [] {
      var init, x := other[..|other| - 1], other[|other| - 1];
      assert forall i :: 0 <= i < |init| ==>
        init[i] == other[i] && init[i].punk != x.punk && init[i].traitId != x.traitId;
      assert x in other && forall y :: y in init ==> y in other && y.punk != x.punk && y.traitId != x.traitId;
      if x.punk in punks {
        CoverBound(init, punks - {x.punk}, traits);
      } else {
        CoverBound(init, punks, traits - {x.traitId});
      }
    }
  }

  /** When the picker falls short, no valid pairing of the scanned Punks is more
      than twice as long. */
  lemma AtLeastHalf(s: Snapshot, pairs: seq<Pair>, other: seq<Pair>)
    requires Sized(s) && Pairing(s, pairs) && Exhausted(s, pairs, |s.masks|) && Pairing(s, other)
    ensures |other| <= 2 * |pairs|
  {
    CoverBound(other, Punks(pairs), Traits(pairs));
    PunksBySize(pairs);
  }

  /** The bound is attained: Punk 0 carries traits 0 and 1, Punk 1 only trait 0.
      The picker gives trait 0 to Punk 0 and is stuck; two pairs exist. */
  lemma HalfIsAttained()
    ensures var s := Snapshot([3, 1], [false, false], [true, true], 0, seq(TRAIT_COUNT, _ => 0));
      Pairing(s, [Pair(0, 0)]) && Exhausted(s, [Pair(0, 0)], 2)
      && Pairing(s, [Pair(0, 1), Pair(1, 0)])
  {
    var s := Snapshot([3, 1], [false, false], [true, true], 0, seq(TRAIT_COUNT, _ => 0));
    ZeroHasNoBits(0);
    ZeroHasNoBits(1);
    assert Bit(3, 0) && Bit(3, 1) && Bit(1, 0);
    assert Pair(0, 0) in [Pair(0, 0)];
    assert 0 in Punks([Pair(0, 0)]) && 0 in Traits([Pair(0, 0)]);
    forall x | PairOk(s, x) && x.punk == 1
      ensures x.traitId == 0
    {
      OneHasOneBit(x.traitId);
    }
  }

  lemma OneHasOneBit(t: nat)
    requires Bit(1, t)
    ensures t == 0
  {
    if t > 0 { ZeroHasNoBits(t - 1); }
  }

  // ---------- What the contract says to the script's listings ----------

  /** The script lists each picked Punk at price zero; no state of the protocol
      accepts such a listing, whatever the target. */
  lemma ZeroPriceIsRefused(d: Dataset, s: State, p: nat, t: nat, owner: Addr, expected: nat)
    requires |d.masks| == PUNK_COUNT && |d.carriers| == TRAIT_COUNT && p < PUNK_COUNT
    requires List(s, p, owner, 0, Patron).Ok?
    ensures AcceptBid(d, List(s, p, owner, 0, Patron).value, p, t, expected) == Err(ZeroListingPrice)
  {
    hide Acquire, TargetProblem;
  }
}
