/** Trait masks: a Punk's traits are the set bits of an unsigned integer.

    The repository walks masks in three ways: shifting the mask down
    (`bitsOf`, `popcount`), testing each of the 111 positions
    (`traitBitsFromMask`, `writeMasksFile`), and setting one bit
    (`collectedMask | targetBit`). */
module TraitMasks {

  const TRAIT_COUNT: nat := 111

  function Pow2(n: nat): (r: nat)
    ensures r > 0
  {
    if n == 0 then 1 else 2 * Pow2(n - 1)
  }

  /** `(m >> i) & 1 == 1`. */
  predicate Bit(m: nat, i: nat)
    decreases i, m
  {
    if i == 0 then m % 2 == 1 else Bit(m / 2, i - 1)
  }

  function PopCount(m: nat): nat {
    if m == 0 then 0 else m % 2 + PopCount(m / 2)
  }

  /** The positions of the set bits of `m`, lowest first, counted from `at`. */
  function BitsFrom(m: nat, at: nat): seq<nat> {
    if m == 0 then [] else (if m % 2 == 1 then [at] else []) + BitsFrom(m / 2, at + 1)
  }

  /** The set bits among positions `[lo, hi)`, lowest first. */
  function BitsIn(m: nat, lo: nat, hi: nat): seq<nat>
    requires lo <= hi
    decreases hi - lo
  {
    if lo == hi then [] else BitsIn(m, lo, hi - 1) + (if Bit(m, hi - 1) then [hi - 1] else [])
  }

  /** The mask whose set bits are listed in `bits`: the sum of 2^b. */
  function MaskOf(bits: seq<nat>): nat {
    if bits == [] then 0 else Pow2(bits[0]) + MaskOf(bits[1..])
  }

  ghost predicate Ascending(s: seq<nat>) {
    forall i, j :: 0 <= i < j < |s| ==> s[i] < s[j]
  }

  // ---------- The definition of Bit, in terms of shifting ----------

  /** `Bit` is the shift-and-mask expression of the sources. */
  lemma {:induction false} BitIsShift(m: nat, i: nat)
    ensures Bit(m, i) <==> (m / Pow2(i)) % 2 == 1
    decreases i
  {
    if i > 0 {
      BitIsShift(m / 2, i - 1);
      DivDiv(m, Pow2(i - 1));
    }
  }

  lemma DivDiv(m: nat, p: nat)
    requires p > 0
    ensures m / 2 / p == m / (2 * p)
  {
    var q := m / (2 * p);
    var r := m % (2 * p);
    assert m == 2 * p * q + r;
    assert m / 2 == p * q + r / 2;
    assert 0 <= r / 2 < p;
    DivUnique(m / 2, p, q, r / 2);
  }

  lemma DivUnique(a: nat, p: nat, q: nat, r: nat)
    requires p > 0 && a == p * q + r && r < p
    ensures a / p == q
  {
    var q' := a / p;
    assert p * (q' - q) == r - a % p;
    if q' != q { MulAtLeast(p, q' - q); }
  }

  lemma MulAtLeast(p: nat, x: int)
    requires p > 0 && x != 0
    ensures p * x >= p || p * x + p <= 0
  {
  }

  // ---------- bitsOf ----------

  /** scripts/seed-title-threshold.ts: `bitsOf`. */
  method BitsOf(mask: nat) returns (out: seq<nat>)
    ensures out == BitsFrom(mask, 0)
  {
    out := [];
    var bit := 0;
    var m := mask;
    while m != 0
      invariant out + BitsFrom(m, bit) == BitsFrom(mask, 0)
      decreases m
    {
      if m % 2 == 1 {
        out := out + [bit];
      }
      bit := bit + 1;
      m := m / 2;
    }
  }

  /** A position is listed exactly when its bit is set. */
  lemma {:induction false} BitsExact(m: nat, at: nat, k: nat)
    ensures k in BitsFrom(m, at) <==> at <= k && Bit(m, k - at)
    decreases m, k
  {
    if m == 0 {
      if at <= k { ZeroHasNoBits(k - at); }
    } else {
      BitsExact(m / 2, at + 1, k);
      if k == at {
        assert Bit(m, 0) <==> m % 2 == 1;
      } else if at < k {
        assert Bit(m, k - at) == Bit(m / 2, k - at - 1);
      }
    }
  }

  lemma {:induction false} ZeroHasNoBits(i: nat)
    ensures !Bit(0, i)
    decreases i
  {
    if i > 0 { ZeroHasNoBits(i - 1); }
  }

  /** The list is strictly ascending. */
  lemma {:induction false} BitsAscend(m: nat, at: nat)
    ensures Ascending(BitsFrom(m, at))
    ensures forall k :: k in BitsFrom(m, at) ==> at <= k
    decreases m
  {
    if m != 0 {
      BitsAscend(m / 2, at + 1);
      var rest := BitsFrom(m / 2, at + 1);
      forall i, j | 0 <= i < j < |BitsFrom(m, at)|
        ensures BitsFrom(m, at)[i] < BitsFrom(m, at)[j]
      {
        if m % 2 == 1 {
          assert BitsFrom(m, at) == [at] + rest;
          assert BitsFrom(m, at)[j] == rest[j - 1];
          assert rest[j - 1] in rest;
        } else {
          assert BitsFrom(m, at) == rest;
        }
      }
    }
  }

  /** The list rebuilds the mask as a sum of powers of two. */
  lemma {:induction false} BitsRebuild(m: nat, at: nat)
    ensures MaskOf(BitsFrom(m, at)) == m * Pow2(at)
    decreases m
  {
    if m != 0 {
      BitsRebuild(m / 2, at + 1);
      var rest := BitsFrom(m / 2, at + 1);
      var h := m / 2;
      assert MaskOf(rest) == h * (2 * Pow2(at));
      if m % 2 == 1 {
        assert BitsFrom(m, at) == [at] + rest;
        assert ([at] + rest)[1..] == rest;
        assert m == 2 * h + 1;
        Distribute(h, Pow2(at), 1);
      } else {
        assert BitsFrom(m, at) == rest;
        assert m == 2 * h;
        Distribute(h, Pow2(at), 0);
      }
    }
  }

  lemma Distribute(h: nat, p: nat, b: nat)
    ensures h * (2 * p) + b * p == (2 * h + b) * p
  {
  }

  // ---------- popcount ----------

  /** scripts/pick-canonical-punks.ts: `popcount`. */
  method CountBits(mask: nat) returns (count: nat)
    ensures count == |BitsFrom(mask, 0)|
  {
    count := 0;
    var n := mask;
    while n != 0
      invariant count + PopCount(n) == PopCount(mask)
      decreases n
    {
      count := count + n % 2;
      n := n / 2;
    }
    PopCountIsLength(mask, 0);
  }

  lemma {:induction false} PopCountIsLength(m: nat, at: nat)
    ensures PopCount(m) == |BitsFrom(m, at)|
    decreases m
  {
    if m != 0 { PopCountIsLength(m / 2, at + 1); }
  }

  // ---------- traitBitsFromMask ----------

  /** app/components/AcceptBidFlow.tsx: `traitBitsFromMask`. */
  method TraitBitsFromMask(mask: nat) returns (bits: seq<nat>)
    ensures bits == BitsIn(mask, 0, TRAIT_COUNT)
  {
    bits := [];
    for i := 0 to TRAIT_COUNT
      invariant bits == BitsIn(mask, 0, i)
    {
      if Bit(mask, i) {
        bits := bits + [i];
      }
    }
  }

  /** Peeling the lowest position instead of the highest. */
  lemma {:induction false} BitsInPeelLow(m: nat, lo: nat, hi: nat)
    requires lo < hi
    ensures BitsIn(m, lo, hi) == (if Bit(m, lo) then [lo] else []) + BitsIn(m, lo + 1, hi)
    decreases hi - lo
  {
    if lo + 1 < hi { BitsInPeelLow(m, lo, hi - 1); }
  }

  /** The two walkers agree on `m`, shifted to start at position `at`, once
      every bit of `m` lies below the limit. */
  lemma {:induction false} WalkersAgreeFrom(m: nat, whole: nat, at: nat, hi: nat)
    requires at <= hi && m < Pow2(hi - at)
    requires forall k: nat :: at <= k ==> Bit(whole, k) == Bit(m, k - at)
    ensures BitsFrom(m, at) == BitsIn(whole, at, hi)
    decreases hi - at
  {
    if at == hi {
      assert m == 0;
    } else {
      BitsInPeelLow(whole, at, hi);
      assert Bit(whole, at) == Bit(m, 0);
      forall k: nat | at + 1 <= k
        ensures Bit(whole, k) == Bit(m / 2, k - (at + 1))
      {
        assert Bit(whole, k) == Bit(m, k - at);
      }
      WalkersAgreeFrom(m / 2, whole, at + 1, hi);
      if m == 0 {
        assert BitsFrom(0, at + 1) == [];
      }
    }
  }

  /** The shifting walker and the 111-position walker return the same list
      exactly when the mask fits in 111 bits. */
  lemma WalkersAgree(m: nat)
    ensures BitsFrom(m, 0) == BitsIn(m, 0, TRAIT_COUNT) <==> m < Pow2(TRAIT_COUNT)
  {
    if m < Pow2(TRAIT_COUNT) {
      WalkersAgreeFrom(m, m, 0, TRAIT_COUNT);
    } else {
      var k := HighBit(m, TRAIT_COUNT);
      BitsExact(m, 0, k);
      BitsInRange(m, 0, TRAIT_COUNT);
      assert k in BitsFrom(m, 0) && k !in BitsIn(m, 0, TRAIT_COUNT);
    }
  }

  /** A mask of at least 2^n has a set bit at or above position n. */
  lemma {:induction false} HighBit(m: nat, n: nat) returns (k: nat)
    requires Pow2(n) <= m
    ensures n <= k && Bit(m, k)
    decreases m + n
  {
    if n > 0 {
      var k' := HighBit(m / 2, n - 1);
      k := k' + 1;
    } else if m == 1 {
      k := 0;
    } else {
      var k' := HighBit(m / 2, 0);
      k := k' + 1;
    }
  }

  lemma {:induction false} BitsInRange(m: nat, lo: nat, hi: nat)
    requires lo <= hi
    ensures forall k :: k in BitsIn(m, lo, hi) <==> lo <= k < hi && Bit(m, k)
    decreases hi - lo
  {
    if lo < hi { BitsInRange(m, lo, hi - 1); }
  }

  // ---------- Setting a bit ----------

  /** `m | (1 << t)`. */
  function SetBit(m: nat, t: nat): nat {
    if Bit(m, t) then m else m + Pow2(t)
  }

  /** Setting a clear bit changes that position only. */
  lemma {:induction false} AddBit(m: nat, t: nat, i: nat)
    requires !Bit(m, t)
    ensures Bit(m + Pow2(t), i) <==> i == t || Bit(m, i)
    decreases t
  {
    if t == 0 {
      assert (m + 1) / 2 == m / 2;
    } else {
      assert (m + 2 * Pow2(t - 1)) / 2 == m / 2 + Pow2(t - 1);
      assert (m + 2 * Pow2(t - 1)) % 2 == m % 2;
      if i > 0 { AddBit(m / 2, t - 1, i - 1); }
    }
  }

  lemma {:induction false} AddBitCounts(m: nat, t: nat)
    requires !Bit(m, t)
    ensures PopCount(m + Pow2(t)) == PopCount(m) + 1
    decreases t
  {
    if t == 0 {
      assert (m + 1) / 2 == m / 2;
      assert PopCount(m) == m % 2 + PopCount(m / 2);
    } else {
      assert (m + 2 * Pow2(t - 1)) / 2 == m / 2 + Pow2(t - 1);
      assert (m + 2 * Pow2(t - 1)) % 2 == m % 2;
      AddBitCounts(m / 2, t - 1);
      assert PopCount(m) == m % 2 + PopCount(m / 2);
    }
  }

  /** `SetBit` is bitwise or with one bit: it sets that bit, keeps the others,
      and adds one to the population count exactly when the bit was clear. */
  lemma SetBitIsOr(m: nat, t: nat)
    ensures forall i: nat :: Bit(SetBit(m, t), i) <==> i == t || Bit(m, i)
    ensures PopCount(SetBit(m, t)) == PopCount(m) + (if Bit(m, t) then 0 else 1)
  {
    if !Bit(m, t) {
      forall i: nat
        ensures Bit(m + Pow2(t), i) <==> i == t || Bit(m, i)
      {
        AddBit(m, t, i);
      }
      AddBitCounts(m, t);
    }
  }

  // ---------- Rarity counting ----------

  /** The number of Punks whose mask has bit `b`. */
  function Carriers(masks: seq<nat>, b: nat): nat {
    if masks == [] then 0 else Carriers(masks[..|masks| - 1], b) + (if Bit(masks[|masks| - 1], b) then 1 else 0)
  }

  function SumOf(counts: seq<nat>): nat {
    if counts == [] then 0 else SumOf(counts[..|counts| - 1]) + counts[|counts| - 1]
  }

  function TotalBits(masks: seq<nat>): nat {
    if masks == [] then 0 else TotalBits(masks[..|masks| - 1]) + PopCount(masks[|masks| - 1])
  }

  /** scripts/snapshot-punksdata.ts: the counting loop of `writeMasksFile`. */
  method CountRarity(masks: seq<nat>) returns (rarity: array<nat>)
    ensures fresh(rarity) && rarity.Length == TRAIT_COUNT
    ensures forall b :: 0 <= b < TRAIT_COUNT ==> rarity[b] == Carriers(masks, b)
  {
    rarity := new nat[TRAIT_COUNT](_ => 0);
    for k := 0 to |masks|
      invariant forall b :: 0 <= b < TRAIT_COUNT ==> rarity[b] == Carriers(masks[..k], b)
    {
      assert masks[..k + 1][..k] == masks[..k];
      for bit := 0 to TRAIT_COUNT
        invariant forall b :: 0 <= b < bit ==> rarity[b] == Carriers(masks[..k + 1], b)
        invariant forall b :: bit <= b < TRAIT_COUNT ==> rarity[b] == Carriers(masks[..k], b)
      {
        if Bit(masks[k], bit) {
          rarity[bit] := rarity[bit] + 1;
        }
      }
    }
    assert masks[..|masks|] == masks;
  }

  function RarityTable(masks: seq<nat>, n: nat): (r: seq<nat>)
    ensures |r| == n
    ensures forall b :: 0 <= b < n ==> r[b] == Carriers(masks, b)
  {
    seq(n, b requires 0 <= b => Carriers(masks, b))
  }

  /** Double counting: the rarity table sums to the total number of set bits,
      over any number of 111-bit masks. */
  lemma {:induction false} RaritySumsToBits(masks: seq<nat>)
    requires forall k :: 0 <= k < |masks| ==> masks[k] < Pow2(TRAIT_COUNT)
    ensures SumOf(RarityTable(masks, TRAIT_COUNT)) == TotalBits(masks)
    decreases |masks|
  {
    if masks == [] {
      SumOfZeros(RarityTable([], TRAIT_COUNT));
    } else {
      var init, m := masks[..|masks| - 1], masks[|masks| - 1];
      RaritySumsToBits(init);
      AppendMask(init, m, masks, TRAIT_COUNT);
      WalkersAgree(m);
      PopCountIsLength(m, 0);
    }
  }

  lemma {:induction false} SumOfZeros(s: seq<nat>)
    requires forall i :: 0 <= i < |s| ==> s[i] == 0
    ensures SumOf(s) == 0
    decreases |s|
  {
    if s != [] { SumOfZeros(s[..|s| - 1]); }
  }

  /** One more mask adds its own bits to the sum of the first `n` counters. */
  lemma {:induction false} AppendMask(init: seq<nat>, m: nat, masks: seq<nat>, n: nat)
    requires masks == init + [m]
    ensures SumOf(RarityTable(masks, n)) == SumOf(RarityTable(init, n)) + |BitsIn(m, 0, n)|
    decreases n
  {
    if n > 0 {
      AppendMask(init, m, masks, n - 1);
      assert masks[..|masks| - 1] == init;
      assert RarityTable(masks, n)[..n - 1] == RarityTable(masks, n - 1);
      assert RarityTable(init, n)[..n - 1] == RarityTable(init, n - 1);
    }
  }
}
