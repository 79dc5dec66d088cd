/** The exemplar ids as a hex blob: emitted by scripts/pick-canonical-punks.ts,
    decoded by app/lib/canonical-punks.ts. */
module CanonicalBlob {
  import opened Wrappers
  import opened TraitMasks

  const LINE: nat := 64
  const LIMIT: nat := 65_536

  // ---------- Hex ----------

  function Digit(n: nat): char
    requires n < 16
  {
    "0123456789abcdef"[n]
  }

  function DigitValue(c: char): (n: nat)
    ensures n < 16
  {
    if '0' <= c <= '9' then (c - '0') as nat else if 'a' <= c <= 'f' then (c - 'a') as nat + 10 else 0
  }

  /** `toString(16)`. */
  function Hex(n: nat): (s: string)
    ensures |s| > 0
  {
    if n < 16 then [Digit(n)] else Hex(n / 16) + [Digit(n % 16)]
  }

  /** `Number.parseInt(s, 16)` on hex digits. */
  function Value(s: string): nat {
    if s == "" then 0 else 16 * Value(s[..|s| - 1]) + DigitValue(s[|s| - 1])
  }

  function Zeros(n: nat): (s: string)
    ensures |s| == n && forall i :: 0 <= i < n ==> s[i] == '0'
  {
    if n == 0 then "" else "0" + Zeros(n - 1)
  }

  /** `padStart(4, '0')`. */
  function Pad4(s: string): string {
    if |s| < 4 then Zeros(4 - |s|) + s else s
  }

  /** Decimal digits, then the letters from `a`. */
  lemma DigitIs(n: nat)
    requires n < 16
    ensures Digit(n) as nat == if n < 10 then '0' as nat + n else 'a' as nat + (n - 10)
  {
  }

  lemma DigitReads(n: nat)
    requires n < 16
    ensures DigitValue(Digit(n)) == n
  {
  }

  lemma {:induction false} HexReads(n: nat)
    ensures Value(Hex(n)) == n
    decreases n
  {
    DigitReads(n % 16);
    if n >= 16 {
      HexReads(n / 16);
      assert Hex(n)[..|Hex(n)| - 1] == Hex(n / 16);
    } else {
      assert [Digit(n)][..0] == "";
    }
  }

  lemma {:induction false} HexWidth(n: nat, w: nat)
    requires w > 0 && n < Pow2(4 * w)
    ensures |Hex(n)| <= w
    decreases w
  {
    Pow2By4(4 * w);
    if n >= 16 { HexWidth(n / 16, w - 1); }
  }

  lemma Pow2By4(n: nat)
    requires n >= 4
    ensures Pow2(n) == 16 * Pow2(n - 4)
  {
    assert Pow2(n) == 2 * Pow2(n - 1) && Pow2(n - 1) == 2 * Pow2(n - 2);
    assert Pow2(n - 2) == 2 * Pow2(n - 3) && Pow2(n - 3) == 2 * Pow2(n - 4);
  }

  lemma {:induction false} PadReads(zeros: nat, s: string)
    ensures Value(Zeros(zeros) + s) == Value(s)
    decreases zeros + |s|
  {
    if s != "" {
      assert (Zeros(zeros) + s)[..zeros + |s| - 1] == Zeros(zeros) + s[..|s| - 1];
      PadReads(zeros, s[..|s| - 1]);
    } else if zeros > 0 {
      var z := Zeros(zeros);
      assert z[..zeros - 1] == Zeros(zeros - 1) + "";
      PadReads(zeros - 1, "");
      assert z + "" == z;
    }
  }

  /** An id below 65536 takes exactly four digits and reads back. */
  lemma PadExact(id: nat)
    requires id < LIMIT
    ensures |Pad4(Hex(id))| == 4 && Value(Pad4(Hex(id))) == id
  {
    assert Pow2(16) == 65_536 by {
      Pow2By4(16);
      Pow2By4(12);
      Pow2By4(8);
      Pow2By4(4);
    }
    HexWidth(id, 4);
    HexReads(id);
    PadReads(4 - |Hex(id)|, Hex(id));
  }

  // ---------- Emission ----------

  /** The ids as one string of hex digits. */
  function Emit(ids: seq<nat>): string {
    if ids == [] then "" else Emit(ids[..|ids| - 1]) + Pad4(Hex(ids[|ids| - 1]))
  }

  function Concat(lines: seq<string>): string {
    if lines == [] then "" else Concat(lines[..|lines| - 1]) + lines[|lines| - 1]
  }

  /** The emitter: four digits an id, then lines of 64 digits. */
  method EmitLines(ids: seq<nat>) returns (lines: seq<string>)
    ensures Concat(lines) == Emit(ids)
    ensures forall i :: 0 <= i < |lines| ==> 0 < |lines[i]| <= LINE && (i < |lines| - 1 ==> |lines[i]| == LINE)
  {
    hide Hex, Pad4;
    var flat := "";
    for k := 0 to |ids|
      invariant flat == Emit(ids[..k])
    {
      assert ids[..k + 1][..k] == ids[..k];
      flat := flat + Pad4(Hex(ids[k]));
    }
    assert ids[..|ids|] == ids;
    lines := CutLines(flat);
  }

  method CutLines(flat: string) returns (lines: seq<string>)
    ensures Concat(lines) == flat
    ensures forall i :: 0 <= i < |lines| ==> 0 < |lines[i]| <= LINE && (i < |lines| - 1 ==> |lines[i]| == LINE)
  {
    lines := [];
    var i := 0;
    while i < |flat|
      invariant 0 <= i && Concat(lines) == flat[..if i < |flat| then i else |flat|]
      invariant forall j :: 0 <= j < |lines| ==> 0 < |lines[j]| <= LINE
      invariant forall j :: 0 <= j < |lines| ==> (j < |lines| - 1 || i < |flat|) ==> |lines[j]| == LINE
      decreases |flat| - i
    {
      var end := if i + LINE < |flat| then i + LINE else |flat|;
      ghost var was := lines;
      lines := lines + [flat[i..end]];
      assert lines[..|lines| - 1] == was && flat[..end] == flat[..i] + flat[i..end];
      i := i + LINE;
    }
    assert flat[..|flat|] == flat;
  }

  // ---------- Decoding ----------

  /** The bytes of a hex string, two digits each. */
  function BytesOf(hex: string, n: nat): (bytes: seq<nat>)
    requires 2 * n <= |hex| + 1
    ensures |bytes| == n && forall b :: b in bytes ==> b < 256
  {
    if n == 0 then []
    else
      var end := if 2 * n <= |hex| then 2 * n else |hex|;
      TwoDigits(hex[2 * n - 2..end]);
      BytesOf(hex, n - 1) + [Value(hex[2 * n - 2..end])]
  }

  lemma TwoDigits(s: string)
    requires |s| <= 2
    ensures Value(s) < 256
  {
    if |s| == 2 {
      assert Value(s[..1]) == 16 * Value(s[..1][..0]) + DigitValue(s[0]);
    }
  }

  method Decode(hex: string) returns (bytes: seq<nat>)
    ensures bytes == BytesOf(hex, (|hex| + 1) / 2)
  {
    bytes := [];
    var i := 0;
    while i < |hex|
      invariant i % 2 == 0 && i <= |hex| + 1 && bytes == BytesOf(hex, i / 2)
      decreases |hex| - i
    {
      var end := if i + 2 <= |hex| then i + 2 else |hex|;
      bytes := bytes + [Value(hex[i..end])];
      i := i + 2;
    }
  }

  /** Bitwise or. */
  function Or(a: nat, b: nat): nat
    decreases a + b
  {
    if a == 0 then b else if b == 0 then a
    else (if a % 2 == 1 || b % 2 == 1 then 1 else 0) + 2 * Or(a / 2, b / 2)
  }

  /** Or sets exactly the bits set on either side. */
  lemma {:induction false} OrIsBitwise(a: nat, b: nat, i: nat)
    ensures Bit(Or(a, b), i) <==> Bit(a, i) || Bit(b, i)
    decreases a + b
  {
    if a == 0 {
      ZeroHasNoBits(i);
    } else if b == 0 {
      ZeroHasNoBits(i);
    } else if i > 0 {
      OrIsBitwise(a / 2, b / 2, i - 1);
    }
  }

  lemma {:induction false} OrIsSum(x: nat, n: nat, low: nat)
    requires low < Pow2(n)
    ensures Or(x * Pow2(n), low) == x * Pow2(n) + low
    decreases n
  {
    if n > 0 && x > 0 && low > 0 {
      var half := x * Pow2(n - 1);
      assert x * Pow2(n) == 2 * half;
      OrIsSum(x, n - 1, low / 2);
    }
  }

  datatype RangeError = OutOfRange(traitId: int)

  function ByteAt(bytes: seq<nat>, i: nat): nat {
    if i < |bytes| then bytes[i] else 0
  }

  /** `canonicalPunkId`. */
  function CanonicalPunkId(bytes: seq<nat>, traitId: int): Result<nat, RangeError> {
    if traitId < 0 || traitId >= TRAIT_COUNT then Err(OutOfRange(traitId))
    else Ok(Or(ByteAt(bytes, 2 * traitId) * 256, ByteAt(bytes, 2 * traitId + 1)))
  }

  // ---------- The round trip ----------

  lemma {:induction false} EmitAt(ids: seq<nat>, k: nat)
    requires k < |ids| && forall i :: 0 <= i < |ids| ==> ids[i] < LIMIT
    ensures |Emit(ids)| == 4 * |ids| && Emit(ids)[4 * k..4 * k + 4] == Pad4(Hex(ids[k]))
    decreases |ids|
  {
    hide Pad4, Hex;
    var init := ids[..|ids| - 1];
    PadExact(ids[|ids| - 1]);
    if k < |init| {
      EmitAt(init, k);
      assert Emit(ids)[4 * k..4 * k + 4] == Emit(init)[4 * k..4 * k + 4];
    } else if init != [] {
      EmitAt(init, 0);
    }
  }

  lemma {:induction false} ByteReads(hex: string, n: nat, i: nat)
    requires 2 * n <= |hex| && i < n
    ensures BytesOf(hex, n)[i] == Value(hex[2 * i..2 * i + 2])
    decreases n
  {
    if i < n - 1 { ByteReads(hex, n - 1, i); }
  }

  lemma FourDigits(s: string)
    requires |s| == 4
    ensures Value(s) == 256 * Value(s[..2]) + Value(s[2..])
  {
    assert s[..3][..2] == s[..2] && s[..3][2] == s[2];
    assert s[2..][..1] == [s[2]] && s[2..][1] == s[3] && [s[2]][..0] == "";
    assert Value(s[..3]) == 16 * Value(s[..2]) + DigitValue(s[2]);
    assert Value(s[2..]) == 16 * Value([s[2]]) + DigitValue(s[3]);
  }

  /** What the app reads for trait `t` from the emitted blob. */
  function ReadBack(ids: seq<nat>, t: int): Result<nat, RangeError> {
    CanonicalPunkId(BytesOf(Emit(ids), (|Emit(ids)| + 1) / 2), t)
  }

  lemma ReadsId(ids: seq<nat>, t: nat)
    requires t < |ids| && t < TRAIT_COUNT && forall i :: 0 <= i < |ids| ==> ids[i] < LIMIT
    ensures ReadBack(ids, t) == Ok(ids[t])
  {
    hide Pad4, Hex, Emit, Value, CanonicalPunkId, BytesOf;
    EmitAt(ids, t);
    PadExact(ids[t]);
    ReadsFour(Emit(ids), 2 * |ids|, t);
  }

  lemma ReadsFour(hex: string, n: nat, t: nat)
    requires |hex| == 2 * n && 4 * t + 4 <= |hex| && t < TRAIT_COUNT
    ensures CanonicalPunkId(BytesOf(hex, n), t) == Ok(Value(hex[4 * t..4 * t + 4]))
  {
    hide Value, CanonicalPunkId, BytesOf;
    FourDigits(hex[4 * t..4 * t + 4]);
    TwoBytes(hex, n, t);
    OrReads(BytesOf(hex, n), t);
  }

  lemma TwoBytes(hex: string, n: nat, t: nat)
    requires 2 * n <= |hex| && 4 * t + 4 <= |hex| && 2 * t + 1 < n
    ensures var four := hex[4 * t..4 * t + 4];
      BytesOf(hex, n)[2 * t] == Value(four[..2]) && BytesOf(hex, n)[2 * t + 1] == Value(four[2..])
  {
    hide Value;
    ByteReads(hex, n, 2 * t);
    ByteReads(hex, n, 2 * t + 1);
    var four := hex[4 * t..4 * t + 4];
    assert hex[2 * (2 * t)..2 * (2 * t) + 2] == four[..2];
    assert hex[2 * (2 * t + 1)..2 * (2 * t + 1) + 2] == four[2..];
  }

  lemma OrReads(bytes: seq<nat>, t: nat)
    requires t < TRAIT_COUNT && forall b :: b in bytes ==> b < 256
    ensures var hi, lo := ByteAt(bytes, 2 * t), ByteAt(bytes, 2 * t + 1);
      hi < 256 && lo < 256 && CanonicalPunkId(bytes, t) == Ok(256 * hi + lo)
  {
    Pow2By4(8);
    Pow2By4(4);
    assert forall i :: 0 <= i < |bytes| ==> bytes[i] in bytes;
    OrIsSum(ByteAt(bytes, 2 * t), 8, ByteAt(bytes, 2 * t + 1));
  }

  /** Every id is read back at its trait exactly when all of them are below
      65536; outside 0..110 the reader refuses. */
  lemma BlobRoundTrip(ids: seq<nat>)
    requires |ids| == TRAIT_COUNT
    ensures (forall t: nat :: t < TRAIT_COUNT ==> ReadBack(ids, t) == Ok(ids[t]))
      <==> (forall t: nat :: t < TRAIT_COUNT ==> ids[t] < LIMIT)
    ensures forall t: int :: ReadBack(ids, t).Err? <==> !(0 <= t < TRAIT_COUNT)
  {
    hide Emit, Or;
    if forall t: nat :: t < TRAIT_COUNT ==> ids[t] < LIMIT {
      forall t: nat | t < TRAIT_COUNT
        ensures ReadBack(ids, t) == Ok(ids[t])
      {
        ReadsId(ids, t);
      }
    } else {
      var t: nat :| t < TRAIT_COUNT && ids[t] >= LIMIT;
      OrReads(BytesOf(Emit(ids), (|Emit(ids)| + 1) / 2), t);
    }
  }
}
