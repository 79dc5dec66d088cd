/** The amounts of app/components/BidComposer.tsx: the displayed minimum, the
    quick-bid chips and the validity check, with the formatting helpers of
    app/lib/format.ts. `parseEther` comes from viem and is modelled on amounts of
    at most 18 decimals. */
module BidChips {
  import opened Wrappers

  const ETHER: nat := 1_000_000_000_000_000_000
  const MILLI: nat := 1_000_000_000_000_000
  const CENT: nat := 10_000_000_000_000_000

  // ---------- Decimal strings ----------

  function Pow10(n: nat): (r: nat)
    ensures r > 0
  {
    if n == 0 then 1 else 10 * Pow10(n - 1)
  }

  predicate IsDigit(c: char) {
    '0' <= c <= '9'
  }

  predicate Digits(s: string) {
    forall i :: 0 <= i < |s| ==> IsDigit(s[i])
  }

  function Digit(n: nat): (c: char)
    requires n < 10
    ensures IsDigit(c) && (c - '0') as nat == n
  {
    "0123456789"[n]
  }

  /** `BigInt(s)`. */
  function Value(s: string): nat
    requires Digits(s)
  {
    if s == "" then 0 else 10 * Value(s[..|s| - 1]) + (s[|s| - 1] - '0') as nat
  }

  /** `n.toString()`. */
  function Dec(n: nat): (s: string)
    ensures Digits(s) && s != ""
  {
    if n < 10 then [Digit(n)] else Dec(n / 10) + [Digit(n % 10)]
  }

  /** `padStart(3, '0')`. */
  function Pad3(s: string): (r: string)
    requires Digits(s)
    ensures Digits(r)
    decreases 3 - |s|
  {
    if |s| < 3 then Pad3("0" + s) else s
  }

  /** `replace(/0+$/, '')`. */
  function TrimZeros(s: string): (r: string)
    ensures r <= s
  {
    if s != "" && s[|s| - 1] == '0' then TrimZeros(s[..|s| - 1]) else s
  }

  lemma {:induction false} DecReads(n: nat)
    ensures Value(Dec(n)) == n
    decreases n
  {
    if n >= 10 {
      DecReads(n / 10);
      assert Dec(n)[..|Dec(n)| - 1] == Dec(n / 10);
    } else {
      assert [Digit(n)][..0] == "";
    }
  }

  lemma {:induction false} ZeroInFront(s: string)
    requires Digits(s)
    ensures Digits("0" + s) && Value("0" + s) == Value(s)
    decreases |s|
  {
    if s == "" {
      assert "0"[..0] == "";
      assert "0" + s == "0";
    } else {
      assert ("0" + s)[..|s|] == "0" + s[..|s| - 1];
      ZeroInFront(s[..|s| - 1]);
    }
  }

  lemma {:induction false} PadReads(s: string)
    requires Digits(s)
    ensures Value(Pad3(s)) == Value(s) && |Pad3(s)| == (if |s| < 3 then 3 else |s|)
    decreases 3 - |s|
  {
    if |s| < 3 {
      ZeroInFront(s);
      PadReads("0" + s);
    }
  }

  lemma {:induction false} TrimReads(s: string)
    requires Digits(s)
    ensures Digits(TrimZeros(s)) && |TrimZeros(s)| <= |s|
    ensures Value(TrimZeros(s)) * Pow10(|s| - |TrimZeros(s)|) == Value(s)
    decreases |s|
  {
    if s != "" && s[|s| - 1] == '0' {
      var init := s[..|s| - 1];
      TrimReads(init);
      var k := |init| - |TrimZeros(init)|;
      TimesTen(Value(TrimZeros(init)), Pow10(k));
      assert Pow10(k + 1) == 10 * Pow10(k);
    } else {
      assert Value(s) * Pow10(0) == Value(s);
    }
  }

  lemma TimesTen(v: nat, p: nat)
    ensures v * (10 * p) == 10 * (v * p)
  {
  }

  // ---------- Amounts ----------

  /** `formatEthBare`: three decimals, cut off, trailing zeros dropped. */
  function FormatBare(wei: nat): string {
    var frac := TrimZeros(Pad3(Dec(wei % ETHER * 1000 / ETHER)));
    Dec(wei / ETHER) + if frac != "" then "." + frac else ""
  }

  function DigitRun(s: string): (n: nat)
    ensures n <= |s| && Digits(s[..n]) && (n < |s| ==> !IsDigit(s[n]))
  {
    if s == "" || !IsDigit(s[0]) then 0
    else
      var n := DigitRun(s[1..]);
      assert s[..n + 1] == [s[0]] + s[1..][..n];
      n + 1
  }

  /** `n` decimals, in wei. */
  function Decimals(value: nat, n: nat): nat
    requires n <= 18
  {
    value * Pow10(18 - n)
  }

  /** `parseEther`. */
  function ParseEther(s: string): Option<nat> {
    ParseAt(s[..DigitRun(s)], s[DigitRun(s)..])
  }

  /** Whole digits followed by nothing, or by a point and at most 18 decimals. */
  function ParseAt(whole: string, tail: string): Option<nat>
    requires Digits(whole)
  {
    if tail == "" then Some(Value(whole) * ETHER)
    else if tail[0] == '.' && Digits(tail[1..]) && |tail| <= 19 then
      Some(Value(whole) * ETHER + Decimals(Value(tail[1..]), |tail| - 1))
    else None
  }

  lemma {:induction false} DigitRunStops(a: string, b: string)
    requires Digits(a) && (b != "" ==> !IsDigit(b[0]))
    ensures DigitRun(a + b) == |a|
    decreases |a|
  {
    if a == "" {
      assert a + b == b;
    } else {
      assert (a + b)[1..] == a[1..] + b;
      DigitRunStops(a[1..], b);
    }
  }

  lemma Pow10Values()
    ensures Pow10(0) == 1 && Pow10(1) == 10 && Pow10(2) == 100 && Pow10(3) == 1000
    ensures Pow10(15) == MILLI && Pow10(16) == 10 * MILLI && Pow10(17) == 100 * MILLI && Pow10(18) == 1000 * MILLI
  {
    assert Pow10(4) == 10_000 && Pow10(5) == 100_000 && Pow10(6) == 1_000_000;
    assert Pow10(7) == 10_000_000 && Pow10(8) == 100_000_000 && Pow10(9) == 1_000_000_000;
    assert Pow10(10) == 10 * Pow10(9) && Pow10(11) == 10 * Pow10(10) && Pow10(12) == 10 * Pow10(11);
    assert Pow10(13) == 10 * Pow10(12) && Pow10(14) == 10 * Pow10(13) && Pow10(15) == 10 * Pow10(14);
  }

  /** The three shown decimals, scaled back to wei. */
  lemma FractionReads(milli: nat)
    requires milli < 1000
    ensures var frac := TrimZeros(Pad3(Dec(milli)));
      Digits(frac) && |frac| <= 3 && Decimals(Value(frac), |frac|) == milli * MILLI
  {
    DecReads(milli);
    ShortDec(milli);
    PadReads(Dec(milli));
    var padded := Pad3(Dec(milli));
    TrimReads(padded);
    var frac := TrimZeros(padded);
    Pow10Values();
    var v := Value(frac);
    if |frac| == 3 {
      assert v * Pow10(0) == milli;
    } else if |frac| == 2 {
      assert v * Pow10(1) == milli;
    } else if |frac| == 1 {
      assert v * Pow10(2) == milli;
    } else {
      assert v * Pow10(3) == milli;
    }
  }

  lemma ShortDec(milli: nat)
    requires milli < 1000
    ensures |Dec(milli)| <= 3
  {
    assert milli / 10 < 100 && milli / 10 / 10 < 10;
    assert |Dec(milli / 10 / 10)| == 1;
    assert milli / 10 >= 10 ==> |Dec(milli / 10)| == 2;
  }

  /** Whole digits, and decimals if any, parse as they should. */
  lemma PartsParse(s: string, frac: string)
    requires Digits(s) && Digits(frac) && |frac| <= 18
    ensures ParseEther(s + if frac != "" then "." + frac else "")
      == Some(Value(s) * ETHER + Decimals(Value(frac), |frac|))
  {
    hide ParseAt, DigitRun, Value, Decimals;
    var tail := if frac != "" then "." + frac else "";
    DigitRunStops(s, tail);
    assert (s + tail)[..|s|] == s && (s + tail)[|s|..] == tail;
    if frac == "" { WholeParses(s); } else { TailParses(s, frac); }
  }

  lemma WholeParses(s: string)
    requires Digits(s)
    ensures ParseAt(s, "") == Some(Value(s) * ETHER + Decimals(Value(""), 0))
  {
  }

  lemma TailParses(s: string, frac: string)
    requires Digits(s) && Digits(frac) && 0 < |frac| <= 18
    ensures ParseAt(s, "." + frac) == Some(Value(s) * ETHER + Decimals(Value(frac), |frac|))
  {
    hide Value, Decimals;
    assert ("." + frac)[1..] == frac;
  }

  /** Printing cuts an amount down to a whole number of thousandths. */
  lemma PrintedReads(wei: nat)
    ensures ParseEther(FormatBare(wei)) == Some(wei - wei % MILLI)
  {
    hide ParseEther, TrimZeros, Pad3, Dec, Value, Decimals;
    var whole, milli := wei / ETHER, wei % ETHER * 1000 / ETHER;
    Thousandths(wei);
    DecReads(whole);
    FractionReads(milli);
    PartsParse(Dec(whole), TrimZeros(Pad3(Dec(milli))));
  }

  lemma Thousandths(wei: nat)
    ensures wei % ETHER * 1000 / ETHER < 1000
    ensures wei / ETHER * ETHER + wei % ETHER * 1000 / ETHER * MILLI == wei - wei % MILLI
  {
    var rest := wei % ETHER;
    assert rest * 1000 / ETHER == rest / MILLI;
    assert wei == wei / ETHER * ETHER + rest && ETHER == 1000 * MILLI;
    assert wei % MILLI == rest % MILLI;
  }

  /** An amount survives printing and parsing exactly when it has no more than
      three decimals: a floor shown as it is would otherwise read back lower. */
  lemma PrintRoundTrip(wei: nat)
    ensures ParseEther(FormatBare(wei)) == Some(wei) <==> wei % MILLI == 0
  {
    PrintedReads(wei);
  }

  // ---------- The composer ----------

  /** `ceilWeiToDecimals`. */
  function CeilMilli(wei: nat): nat {
    if wei == 0 then 0 else (wei + MILLI - 1) / MILLI * MILLI
  }

  /** The displayed minimum is the least amount of three decimals at or above. */
  lemma CeilIsLeast(wei: nat, other: nat)
    ensures CeilMilli(wei) >= wei && CeilMilli(wei) % MILLI == 0
    ensures other >= wei && other % MILLI == 0 ==> other >= CeilMilli(wei)
  {
    var q := (wei + MILLI - 1) / MILLI;
    assert q * MILLI % MILLI == 0;
    if other >= wei && other % MILLI == 0 {
      assert other == other / MILLI * MILLI;
    }
  }

  function MinPositive(floor: nat): nat {
    if CeilMilli(floor) > 0 then CeilMilli(floor) else CENT
  }

  /** `quickAdds`: min, +5%, +10%, +25%. */
  function Chips(floor: nat): seq<nat> {
    var least := MinPositive(floor);
    [least, CeilMilli(least * 105 / 100), CeilMilli(least * 110 / 100), CeilMilli(least * 125 / 100)]
  }

  /** `valid`: the amount parses and is not too low. */
  predicate Valid(floor: nat, amount: string) {
    var parsed := ParseEther(amount);
    parsed.Some? && !(if floor > 0 then parsed.value < floor else parsed.value == 0)
  }

  lemma CeilMonotone(a: nat, b: nat)
    requires a <= b
    ensures CeilMilli(a) <= CeilMilli(b)
  {
    CeilIsLeast(b, b);
    CeilIsLeast(a, CeilMilli(b));
  }

  lemma ChipFacts(floor: nat, i: nat)
    requires i < 4
    ensures Chips(floor)[i] >= MinPositive(floor) >= floor && Chips(floor)[i] > 0 && Chips(floor)[i] % MILLI == 0
  {
    var least := MinPositive(floor);
    CeilIsLeast(floor, 0);
    CeilIsLeast(least * 105 / 100, 0);
    CeilIsLeast(least * 110 / 100, 0);
    CeilIsLeast(least * 125 / 100, 0);
  }

  /** Whatever the floor: every chip is at or above it, the chips do not
      decrease, and clicking one writes an amount that parses back to exactly the
      chip (so it shows as selected) and that can be submitted. */
  lemma ChipsWork(floor: nat, i: nat)
    requires i < 4
    ensures Chips(floor)[i] >= floor && (i > 0 ==> Chips(floor)[i - 1] <= Chips(floor)[i])
    ensures ParseEther(FormatBare(Chips(floor)[i])) == Some(Chips(floor)[i])
    ensures Valid(floor, FormatBare(Chips(floor)[i]))
  {
    hide FormatBare, ParseEther, CeilMilli;
    ChipFacts(floor, i);
    PrintRoundTrip(Chips(floor)[i]);
    if i == 1 {
      ChipFacts(floor, 1);
    } else if i > 1 {
      var least := MinPositive(floor);
      CeilMonotone(least * 105 / 100, least * 110 / 100);
      CeilMonotone(least * 110 / 100, least * 125 / 100);
    }
  }

  /** `c` is the least amount of three decimals at or above `x` wei. */
  predicate LeastMilli(c: nat, x: nat) {
    c % MILLI == 0 && x <= c < x + MILLI
  }

  /** `x` is so many hundredths of an amount, rounded down to wei. */
  predicate HundredthsOf(x: nat, hundredths: nat, amount: nat) {
    100 * x <= hundredths * amount < 100 * (x + 1)
  }

  lemma CeilIs(x: nat)
    ensures LeastMilli(CeilMilli(x), x)
  {
    CeilIsLeast(x, 0);
  }

  /** The first chip is the displayed minimum, a hundredth of an ether when there is
      none; the others are the least three-decimal amounts at or above 105, 110 and
      125 hundredths of it. */
  lemma ChipsAre(floor: nat)
    ensures |Chips(floor)| == 4
    ensures if floor == 0 then Chips(floor)[0] == 10_000_000_000_000_000 else LeastMilli(Chips(floor)[0], floor)
    ensures exists x: nat :: HundredthsOf(x, 105, Chips(floor)[0]) && LeastMilli(Chips(floor)[1], x)
    ensures exists x: nat :: HundredthsOf(x, 110, Chips(floor)[0]) && LeastMilli(Chips(floor)[2], x)
    ensures exists x: nat :: HundredthsOf(x, 125, Chips(floor)[0]) && LeastMilli(Chips(floor)[3], x)
  {
    hide CeilMilli, LeastMilli;
    ChipFacts(floor, 0);
    var least := MinPositive(floor);
    MinIs(floor);
    CeilIs(least * 105 / 100);
    CeilIs(least * 110 / 100);
    CeilIs(least * 125 / 100);
    assert HundredthsOf(least * 105 / 100, 105, least);
    assert HundredthsOf(least * 110 / 100, 110, least);
    assert HundredthsOf(least * 125 / 100, 125, least);
  }

  lemma MinIs(floor: nat)
    ensures if floor == 0 then MinPositive(floor) == 10_000_000_000_000_000 else LeastMilli(MinPositive(floor), floor)
  {
    CeilIs(floor);
  }

  /** An amount can be submitted exactly when it parses, is positive and meets the
      floor. */
  lemma ValidIff(floor: nat, amount: string)
    ensures Valid(floor, amount) <==>
      exists v: nat :: ParseEther(amount) == Some(v) && v > 0 && v >= floor
  {
    hide ParseEther;
    if Valid(floor, amount) { assert ParseEther(amount) == Some(ParseEther(amount).value); }
  }

  lemma BarePrints(wei: nat, whole: nat, milli: nat)
    requires wei / ETHER == whole && wei % ETHER * 1000 / ETHER == milli
    ensures var frac := TrimZeros(Pad3(Dec(milli)));
      FormatBare(wei) == Dec(whole) + if frac != "" then "." + frac else ""
  {
    hide TrimZeros, Pad3, Dec;
  }

  lemma PartsOf(whole: nat, milli: nat)
    requires milli < 1000
    ensures var wei := whole * ETHER + milli * MILLI;
      wei / ETHER == whole && wei % ETHER * 1000 / ETHER == milli
  {
    Quotient(whole, milli * MILLI);
    Quotient(milli, 0);
    assert milli * MILLI * 1000 == milli * ETHER + 0;
  }

  lemma Quotient(q: nat, r: nat)
    requires r < ETHER
    ensures (q * ETHER + r) / ETHER == q && (q * ETHER + r) % ETHER == r
  {
  }

  lemma SmallNumbers()
    ensures Dec(0) == "0" && Dec(33) == "33" && Dec(500) == "500"
  {
    assert Dec(3) == "3" && Dec(5) == "5" && Dec(50) == "50";
  }

  lemma PadZero()
    ensures Pad3("0") == "000" && Pad3("500") == "500"
  {
    hide TrimZeros, Dec;
    assert "0" + "0" == "00" && "0" + "00" == "000";
    assert Pad3("00") == Pad3("000");
  }

  lemma ZerosTrimmed()
    ensures TrimZeros("000") == "" && TrimZeros("500") == "5"
  {
    assert "000"[..2] == "00" && "00"[..1] == "0" && "0"[..0] == "";
    assert TrimZeros("0") == "" && TrimZeros("00") == "";
    assert "500"[..2] == "50" && "50"[..1] == "5" && TrimZeros("5") == "5" && TrimZeros("50") == "5";
  }

  /** The amounts the formatter's documentation gives. */
  lemma PrintedExamples()
    ensures FormatBare(33 * ETHER) == "33" && FormatBare(ETHER / 2) == "0.5" && FormatBare(0) == "0"
  {
    hide FormatBare, TrimZeros, Pad3, Dec;
    PartsOf(33, 0);
    PartsOf(0, 500);
    BarePrints(33 * ETHER, 33, 0);
    BarePrints(ETHER / 2, 0, 500);
    BarePrints(0, 0, 0);
    SmallNumbers();
    PadZero();
    ZerosTrimmed();
  }
}
