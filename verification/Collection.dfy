/** The records core, contracts/src/PermanentCollection.sol.

    `Core` holds the contract's storage. The two writers are functions from
    storage to storage (or to the error they revert with); `CoreInv` is what
    every storage reachable through them satisfies. */
module Collection {
  import opened Wrappers
  import opened TraitMasks

  const PUNK_COUNT: nat := 10_000
  const SOLE_CARRIER_TRAIT_BIT: nat := 23
  const SOLE_CARRIER_PUNK_ID: nat := 8348
  const UINT16_MAX: nat := 65_535

  /** The sealed PunksData masks and the pinned per-trait carrier counts. */
  datatype Dataset = Dataset(masks: seq<nat>, carriers: seq<nat>)

  /** What the contract states of the sealed dataset: 10,000 masks of 111 bits,
      the counts summarize the masks, and exactly one trait has one carrier. */
  ghost predicate Sealed(d: Dataset) {
    && |d.masks| == PUNK_COUNT && |d.carriers| == TRAIT_COUNT
    && (forall p :: 0 <= p < PUNK_COUNT ==> d.masks[p] < Pow2(TRAIT_COUNT))
    && (forall t :: 0 <= t < TRAIT_COUNT ==> d.carriers[t] == Carriers(d.masks, t))
    && (forall t :: 0 <= t < TRAIT_COUNT ==> (d.carriers[t] == 1 <==> t == SOLE_CARRIER_TRAIT_BIT))
    && Bit(d.masks[SOLE_CARRIER_PUNK_ID], SOLE_CARRIER_TRAIT_BIT)
  }

  datatype Addr = Zero | Patron | Module | Vault | User(id: nat)

  datatype Custody = NotAcquired | InReturnAuction | ReturnedToMarket | Vaulted

  datatype Acquisition = Acquisition(
    punk: nat, target: nat, mask: nat, acquirer: Addr, originalSeller: Addr, price: nat, custody: Custody)

  datatype Core = Core(
    collected: nat,
    pending: map<nat, nat>,
    attempts: map<nat, nat>,
    log: seq<Acquisition>,
    indexOf: map<nat, nat>, // 1-based; absent = not recorded
    custody: map<nat, Custody>,
    firstVaulted: map<nat, nat>)

  datatype CoreError =
    | ZeroAddress | PunkOutOfRange | AlreadyRecorded | MaskMismatch | BadCategoryId
    | TargetTraitNotInMask | TargetTraitAlreadyCollected | SoleCarrierMustTargetTrait
    | TargetTraitAlreadyPending | NoEligibleTarget | TargetNotCanonical
    | NotRecorded | CustodyAlreadySet | InvalidCustodyTransition

  const EMPTY: Core := Core(0, map[], map[], [], map[], map[], map[])

  // ---------- Views ----------

  function CounterOf(counters: map<nat, nat>, t: nat): nat {
    if t in counters then counters[t] else 0
  }

  function PendingOf(c: Core, t: nat): nat {
    CounterOf(c.pending, t)
  }

  function AttemptsOf(c: Core, t: nat): nat {
    CounterOf(c.attempts, t)
  }

  function CustodyOf(c: Core, p: nat): Custody {
    if p in c.custody then c.custody[p] else NotAcquired
  }

  predicate InAuction(c: Core, p: nat) {
    CustodyOf(c, p) == InReturnAuction
  }

  predicate IsVaulted(c: Core, p: nat) {
    CustodyOf(c, p) == Vaulted
  }

  /** The gate on (re-)acquisition: never acquired, or returned earlier. */
  predicate Acquirable(c: Core, p: nat) {
    CustodyOf(c, p) == NotAcquired || CustodyOf(c, p) == ReturnedToMarket
  }

  /** A trait of `p` that is neither collected nor in flight. */
  predicate Eligible(d: Dataset, c: Core, p: nat, t: nat)
    requires p < |d.masks|
  {
    t < TRAIT_COUNT && Bit(d.masks[p], t) && !Bit(c.collected, t) && PendingOf(c, t) == 0
  }

  /** `t` is at least as rare as `u`, the lower index winning a tie. */
  predicate RarerOrTied(d: Dataset, t: nat, u: nat)
    requires t < |d.carriers| && u < |d.carriers|
  {
    d.carriers[t] < d.carriers[u] || (d.carriers[t] == d.carriers[u] && t <= u)
  }

  /** The scan of `canonicalTargetOf` over the first `n` traits. */
  function Scan(d: Dataset, c: Core, p: nat, n: nat): (best: Option<nat>)
    requires p < |d.masks| && n <= TRAIT_COUNT == |d.carriers|
    ensures best.Some? ==> best.value < n
  {
    if n == 0 then None
    else
      var best := Scan(d, c, p, n - 1);
      var bestCount := if best.Some? then d.carriers[best.value] else UINT16_MAX;
      if Eligible(d, c, p, n - 1) && d.carriers[n - 1] < bestCount then Some(n - 1) else best
  }

  /** `canonicalTargetOf`; `None` is the `NoEligibleTarget` revert. */
  function CanonicalTarget(d: Dataset, c: Core, p: nat): (best: Option<nat>)
    requires p < |d.masks| && |d.carriers| == TRAIT_COUNT
    ensures best.Some? ==> best.value < TRAIT_COUNT
  {
    Scan(d, c, p, TRAIT_COUNT)
  }

  // ---------- The two writers ----------

  /** Storage after a successful `recordAcquisition`. */
  function Recorded(c: Core, p: nat, row: Acquisition): Core {
    c.(pending := c.pending[row.target := PendingOf(c, row.target) + 1],
       attempts := c.attempts[row.target := AttemptsOf(c, row.target) + 1],
       log := c.log + [row],
       indexOf := c.indexOf[p := |c.log| + 1],
       custody := c.custody[p := InReturnAuction])
  }

  function RecordAcquisition(d: Dataset, c: Core, p: nat, t: nat, mask: nat, acquirer: Addr, seller: Addr, price: nat)
    : Result<Core, CoreError>
    requires |d.masks| == PUNK_COUNT && |d.carriers| == TRAIT_COUNT
  {
    if seller == Zero then Err(ZeroAddress)
    else if p >= PUNK_COUNT then Err(PunkOutOfRange)
    else if !Acquirable(c, p) then Err(AlreadyRecorded)
    else if mask != d.masks[p] then Err(MaskMismatch)
    else match TargetFault(d, c, p, t)
      case Some(e) => Err(e)
      case None => Ok(Recorded(c, p, Acquisition(p, t, mask, acquirer, seller, price, InReturnAuction)))
  }

  /** The checks of `recordAcquisition` on the target. */
  function TargetFault(d: Dataset, c: Core, p: nat, t: nat): Option<CoreError>
    requires |d.masks| == PUNK_COUNT && |d.carriers| == TRAIT_COUNT && p < PUNK_COUNT
  {
    if t >= TRAIT_COUNT then Some(BadCategoryId)
    else if !Bit(d.masks[p], t) then Some(TargetTraitNotInMask)
    else if Bit(c.collected, t) then Some(TargetTraitAlreadyCollected)
    else if SoleCarrierBlocks(c, p, t) then Some(SoleCarrierMustTargetTrait)
    else if PendingOf(c, t) > 0 then Some(TargetTraitAlreadyPending)
    else if CanonicalTarget(d, c, p) == None then Some(NoEligibleTarget)
    else if CanonicalTarget(d, c, p) != Some(t) then Some(TargetNotCanonical)
    else None
  }

  /** The sole-carrier guard: #8348 must target bit 23 while it is uncollected. */
  predicate SoleCarrierBlocks(c: Core, p: nat, t: nat) {
    p == SOLE_CARRIER_PUNK_ID && !Bit(c.collected, SOLE_CARRIER_TRAIT_BIT) && t != SOLE_CARRIER_TRAIT_BIT
  }

  /** Storage after a successful `markCustody` of the row at `i`. */
  function Marked(c: Core, p: nat, i: nat, outcome: Custody): Core
    requires i < |c.log|
  {
    var t := c.log[i].target;
    var n := PendingOf(c, t);
    var c1 := c.(
      pending := if n > 0 then c.pending[t := n - 1] else c.pending,
      custody := c.custody[p := outcome],
      log := c.log[i := c.log[i].(custody := outcome)]);
    if outcome == Vaulted && !Bit(c.collected, t) then
      c1.(firstVaulted := c.firstVaulted[t := p], collected := SetBit(c.collected, t))
    else c1
  }

  function MarkCustody(c: Core, p: nat, outcome: Custody): Result<Core, CoreError>
    requires p in c.indexOf ==> 1 <= c.indexOf[p] <= |c.log|
  {
    if p !in c.indexOf then Err(NotRecorded)
    else if !InAuction(c, p) then Err(CustodyAlreadySet)
    else if outcome != ReturnedToMarket && outcome != Vaulted then Err(InvalidCustodyTransition)
    else Ok(Marked(c, p, c.indexOf[p] - 1, outcome))
  }

  // ---------- The invariant ----------

  /** Every recorded Punk points at its latest row, which mirrors its custody. */
  predicate IndexOk(log: seq<Acquisition>, indexOf: map<nat, nat>, custody: map<nat, Custody>) {
    && (forall p :: p in indexOf ==>
          && 1 <= indexOf[p] <= |log|
          && p < PUNK_COUNT
          && p in custody && custody[p] != NotAcquired
          && log[indexOf[p] - 1].punk == p
          && log[indexOf[p] - 1].custody == custody[p])
    && (forall p :: p in custody && custody[p] != NotAcquired ==> p in indexOf)
  }

  /** A row that is not its Punk's latest stays frozen as returned. */
  predicate FrozenAt(log: seq<Acquisition>, indexOf: map<nat, nat>, i: nat) {
    i < |log| ==>
      && log[i].originalSeller != Zero
      && log[i].punk in indexOf
      && i < indexOf[log[i].punk]
      && (i + 1 < indexOf[log[i].punk] ==> log[i].custody == ReturnedToMarket)
  }

  ghost predicate HistoryFrozen(log: seq<Acquisition>, indexOf: map<nat, nat>) {
    forall i: nat :: FrozenAt(log, indexOf, i)
  }

  type Rows = map<nat, Acquisition>

  /** `rows` holds the latest acquisition row of every recorded Punk. */
  ghost predicate RowsMatch(log: seq<Acquisition>, indexOf: map<nat, nat>, rows: Rows) {
    && indexOf.Keys == rows.Keys
    && (forall p :: p in rows ==> 1 <= indexOf[p] <= |log| && log[indexOf[p] - 1] == rows[p])
  }

  predicate Flying(rows: Rows, p: nat) {
    p in rows && rows[p].custody == InReturnAuction
  }

  predicate Locked(rows: Rows, p: nat) {
    p in rows && rows[p].custody == Vaulted
  }

  /** In-flight traits and the Punks claiming them correspond one to one, and
      the pending counters record exactly those claims. */
  ghost predicate PendingExact(pending: map<nat, nat>, rows: Rows, claims: map<nat, nat>) {
    && (forall t: nat :: t in claims ==> Flying(rows, claims[t]) && rows[claims[t]].target == t)
    && (forall p: nat :: Flying(rows, p) ==> rows[p].target in claims && claims[rows[p].target] == p)
    && (forall t: nat :: CounterOf(pending, t) == if t in claims then 1 else 0)
  }

  /** Collected traits and vaulted Punks correspond one to one. */
  ghost predicate CollectedExact(collected: nat, firstVaulted: map<nat, nat>, rows: Rows) {
    && (forall t: nat :: t in firstVaulted ==> Locked(rows, firstVaulted[t]) && rows[firstVaulted[t]].target == t)
    && (forall p: nat :: Locked(rows, p) ==>
          rows[p].target in firstVaulted && firstVaulted[rows[p].target] == p)
    && (forall t: nat :: Bit(collected, t) <==> t in firstVaulted)
    && |firstVaulted| == PopCount(collected)
  }

  /** A Punk in flight or vaulted carries its target, one of the 111 traits;
      #8348 only ever carries bit 23 there. */
  ghost predicate TargetsReal(d: Dataset, rows: Rows) {
    forall p: nat :: Flying(rows, p) || Locked(rows, p) ==>
      && p < |d.masks| && rows[p].target < TRAIT_COUNT && Bit(d.masks[p], rows[p].target)
      && (p == SOLE_CARRIER_PUNK_ID ==> rows[p].target == SOLE_CARRIER_TRAIT_BIT)
  }

  /** No trait in flight is collected. */
  ghost predicate ClaimsOpen(collected: nat, claims: map<nat, nat>) {
    forall t: nat :: t in claims ==> !Bit(collected, t)
  }

  function CountTargets(log: seq<Acquisition>, t: nat): nat {
    if log == [] then 0
    else CountTargets(log[..|log| - 1], t) + (if log[|log| - 1].target == t then 1 else 0)
  }

  /** `attemptCount` is the number of acquisitions that ever targeted the trait. */
  ghost predicate AttemptsExact(attempts: map<nat, nat>, log: seq<Acquisition>) {
    forall t: nat :: CounterOf(attempts, t) == CountTargets(log, t)
  }

  ghost predicate CoreInvAt(d: Dataset, c: Core, rows: Rows, claims: map<nat, nat>) {
    && IndexOk(c.log, c.indexOf, c.custody)
    && RowsMatch(c.log, c.indexOf, rows)
    && HistoryFrozen(c.log, c.indexOf)
    && PendingExact(c.pending, rows, claims)
    && CollectedExact(c.collected, c.firstVaulted, rows)
    && TargetsReal(d, rows)
    && ClaimsOpen(c.collected, claims)
    && AttemptsExact(c.attempts, c.log)
  }

  /** What every reachable storage satisfies. */
  ghost predicate CoreInv(d: Dataset, c: Core) {
    exists rows: Rows, claims: map<nat, nat> :: CoreInvAt(d, c, rows, claims)
  }

  // ---------- Facts about the dataset ----------

  lemma {:induction false} CarriersBound(masks: seq<nat>, b: nat)
    ensures Carriers(masks, b) <= |masks|
    decreases |masks|
  {
    if masks != [] { CarriersBound(masks[..|masks| - 1], b); }
  }

  lemma {:induction false} CarriersCount(masks: seq<nat>, b: nat, p: nat)
    requires p < |masks| && Bit(masks[p], b)
    ensures Carriers(masks, b) >= 1
    ensures Carriers(masks, b) == 1 ==> forall q :: 0 <= q < |masks| && Bit(masks[q], b) ==> q == p
    decreases |masks|
  {
    var init := masks[..|masks| - 1];
    if p < |masks| - 1 {
      CarriersCount(init, b, p);
      assert forall q :: 0 <= q < |init| ==> init[q] == masks[q];
    } else if Carriers(init, b) == 0 {
      NoCarriers(init, b);
      assert forall q :: 0 <= q < |init| ==> init[q] == masks[q];
    }
  }

  lemma {:induction false} NoCarriers(masks: seq<nat>, b: nat)
    requires Carriers(masks, b) == 0
    ensures forall q :: 0 <= q < |masks| ==> !Bit(masks[q], b)
    decreases |masks|
  {
    if masks != [] {
      var init := masks[..|masks| - 1];
      NoCarriers(init, b);
      assert forall q :: 0 <= q < |init| ==> init[q] == masks[q];
    }
  }

  lemma {:induction false} CarriedBy(masks: seq<nat>, b: nat, p: nat)
    requires forall q :: 0 <= q < |masks| ==> (Bit(masks[q], b) <==> q == p)
    ensures Carriers(masks, b) == if p < |masks| then 1 else 0
    decreases |masks|
  {
    if masks != [] { CarriedBy(masks[..|masks| - 1], b, p); }
  }

  /** What the contract states of its dataset can be met. */
  lemma SealedIsPossible() returns (d: Dataset)
    ensures Sealed(d)
  {
    var mask := Pow2(SOLE_CARRIER_TRAIT_BIT);
    var masks := seq(PUNK_COUNT, p requires 0 <= p => if p == SOLE_CARRIER_PUNK_ID then mask else 0);
    d := Dataset(masks, RarityTable(masks, TRAIT_COUNT));
    forall t: nat
      ensures !Bit(0, t) && (Bit(mask, t) <==> t == SOLE_CARRIER_TRAIT_BIT)
    {
      ZeroHasNoBits(t);
      ZeroHasNoBits(SOLE_CARRIER_TRAIT_BIT);
      AddBit(0, SOLE_CARRIER_TRAIT_BIT, t);
    }
    forall t: nat | t < TRAIT_COUNT
      ensures Carriers(masks, t) == if t == SOLE_CARRIER_TRAIT_BIT then 1 else 0
    {
      CarriedBy(masks, t, if t == SOLE_CARRIER_TRAIT_BIT then SOLE_CARRIER_PUNK_ID else PUNK_COUNT);
    }
    PowersRise(SOLE_CARRIER_TRAIT_BIT, TRAIT_COUNT);
  }

  lemma {:induction false} PowersRise(a: nat, b: nat)
    requires a < b
    ensures Pow2(a) < Pow2(b)
    decreases b
  {
    if a < b - 1 { PowersRise(a, b - 1); }
  }

  /** No other Punk carries bit 23. */
  lemma SoleCarrierUnique(d: Dataset)
    requires Sealed(d)
    ensures forall p :: 0 <= p < PUNK_COUNT ==>
      (Bit(d.masks[p], SOLE_CARRIER_TRAIT_BIT) <==> p == SOLE_CARRIER_PUNK_ID)
  {
    CarriersCount(d.masks, SOLE_CARRIER_TRAIT_BIT, SOLE_CARRIER_PUNK_ID);
  }

  lemma SealedSizes(d: Dataset)
    requires Sealed(d)
    ensures |d.masks| == PUNK_COUNT && |d.carriers| == TRAIT_COUNT
  {
  }

  // ---------- canonicalTargetOf ----------

  /** The scan returns the rarest eligible trait, the lowest index on a tie,
      and nothing exactly when no trait is eligible. */
  lemma {:induction false} ScanIsRarest(d: Dataset, c: Core, p: nat, n: nat)
    requires Sealed(d) && p < PUNK_COUNT && n <= TRAIT_COUNT
    ensures Scan(d, c, p, n) == None ==> forall u :: 0 <= u < n ==> !Eligible(d, c, p, u)
    ensures Scan(d, c, p, n).Some? ==>
      && Eligible(d, c, p, Scan(d, c, p, n).value)
      && forall u :: 0 <= u < n && Eligible(d, c, p, u) ==> RarerOrTied(d, Scan(d, c, p, n).value, u)
    decreases n
  {
    if n > 0 {
      ScanIsRarest(d, c, p, n - 1);
      CarriersBound(d.masks, n - 1);
    }
  }

  /** The rarest eligible trait is unique, so it is what the scan returns. */
  lemma CanonicalIff(d: Dataset, c: Core, p: nat, t: nat)
    requires Sealed(d) && p < PUNK_COUNT
    ensures CanonicalTarget(d, c, p) == Some(t) <==>
      Eligible(d, c, p, t) && forall u :: 0 <= u < TRAIT_COUNT && Eligible(d, c, p, u) ==> RarerOrTied(d, t, u)
  {
    ScanIsRarest(d, c, p, TRAIT_COUNT);
  }

  // ---------- The sole carrier ----------

  /** Bit 23 is in flight exactly with #8348, and collected exactly when #8348
      is vaulted: its one carrier is never spent on another trait. */
  lemma SoleCarrierFate(d: Dataset, c: Core)
    requires Sealed(d) && CoreInv(d, c)
    ensures PendingOf(c, SOLE_CARRIER_TRAIT_BIT) > 0 <==> InAuction(c, SOLE_CARRIER_PUNK_ID)
    ensures Bit(c.collected, SOLE_CARRIER_TRAIT_BIT) <==> IsVaulted(c, SOLE_CARRIER_PUNK_ID)
  {
    var rows: Rows, claims: map<nat, nat> :| CoreInvAt(d, c, rows, claims);
    SoleCarrierUnique(d);
    assert InAuction(c, SOLE_CARRIER_PUNK_ID) <==> Flying(rows, SOLE_CARRIER_PUNK_ID);
    assert IsVaulted(c, SOLE_CARRIER_PUNK_ID) <==> Locked(rows, SOLE_CARRIER_PUNK_ID);
    if SOLE_CARRIER_TRAIT_BIT in claims {
      assert Flying(rows, claims[SOLE_CARRIER_TRAIT_BIT]);
    }
    if SOLE_CARRIER_TRAIT_BIT in c.firstVaulted {
      assert Locked(rows, c.firstVaulted[SOLE_CARRIER_TRAIT_BIT]);
    }
  }

  /** While bit 23 is open, the scan gives it to its sole carrier: the guard
      never rejects a canonical target. */
  lemma CanonicalSubsumesGuard(d: Dataset, c: Core, p: nat, t: nat)
    requires Sealed(d) && CoreInv(d, c) && p < PUNK_COUNT && Acquirable(c, p)
    requires CanonicalTarget(d, c, p) == Some(t)
    ensures !SoleCarrierBlocks(c, p, t)
    ensures p == SOLE_CARRIER_PUNK_ID ==> t == SOLE_CARRIER_TRAIT_BIT
  {
    if p == SOLE_CARRIER_PUNK_ID {
      SoleCarrierFate(d, c);
      SoleCarrierCanonical(d, c, t);
    }
  }

  lemma SoleCarrierCanonical(d: Dataset, c: Core, t: nat)
    requires Sealed(d) && CanonicalTarget(d, c, SOLE_CARRIER_PUNK_ID) == Some(t)
    requires Eligible(d, c, SOLE_CARRIER_PUNK_ID, SOLE_CARRIER_TRAIT_BIT)
    ensures t == SOLE_CARRIER_TRAIT_BIT
  {
    CanonicalIff(d, c, SOLE_CARRIER_PUNK_ID, t);
    assert RarerOrTied(d, t, SOLE_CARRIER_TRAIT_BIT);
    CarriersCount(d.masks, t, SOLE_CARRIER_PUNK_ID);
  }

  // ---------- When recordAcquisition succeeds ----------

  lemma RecordNeeds(d: Dataset, c: Core, p: nat, t: nat, mask: nat, acquirer: Addr, seller: Addr, price: nat)
    requires |d.masks| == PUNK_COUNT && |d.carriers| == TRAIT_COUNT
    requires RecordAcquisition(d, c, p, t, mask, acquirer, seller, price).Ok?
    ensures seller != Zero && p < PUNK_COUNT && Acquirable(c, p) && mask == d.masks[p]
    ensures CanonicalTarget(d, c, p) == Some(t)
    ensures RecordAcquisition(d, c, p, t, mask, acquirer, seller, price)
      == Ok(Recorded(c, p, Acquisition(p, t, mask, acquirer, seller, price, InReturnAuction)))
  {
  }

  lemma RecordSuffices(d: Dataset, c: Core, p: nat, t: nat, mask: nat, acquirer: Addr, seller: Addr, price: nat)
    requires |d.masks| == PUNK_COUNT && |d.carriers| == TRAIT_COUNT
    requires seller != Zero && p < PUNK_COUNT && Acquirable(c, p) && mask == d.masks[p]
    requires CanonicalTarget(d, c, p) == Some(t) && Eligible(d, c, p, t) && !SoleCarrierBlocks(c, p, t)
    ensures RecordAcquisition(d, c, p, t, mask, acquirer, seller, price)
      == Ok(Recorded(c, p, Acquisition(p, t, mask, acquirer, seller, price, InReturnAuction)))
  {
  }

  /** In every reachable storage, `recordAcquisition` succeeds exactly on an
      acquirable Punk with a real seller, its own mask and its canonical target;
      every other check is implied. */
  lemma RecordSucceedsIff(d: Dataset, c: Core, p: nat, t: nat, mask: nat, acquirer: Addr, seller: Addr, price: nat)
    requires Sealed(d) && CoreInv(d, c)
    ensures RecordAcquisition(d, c, p, t, mask, acquirer, seller, price).Ok? <==>
      && seller != Zero && p < PUNK_COUNT && Acquirable(c, p) && mask == d.masks[p]
      && CanonicalTarget(d, c, p) == Some(t)
  {
    if RecordAcquisition(d, c, p, t, mask, acquirer, seller, price).Ok? {
      RecordNeeds(d, c, p, t, mask, acquirer, seller, price);
    } else if seller != Zero && p < PUNK_COUNT && Acquirable(c, p) && mask == d.masks[p]
              && CanonicalTarget(d, c, p) == Some(t) {
      CanonicalIff(d, c, p, t);
      CanonicalSubsumesGuard(d, c, p, t);
      RecordSuffices(d, c, p, t, mask, acquirer, seller, price);
    }
  }

  // ---------- The writers keep the invariant, part by part ----------

  lemma AppendRow(log: seq<Acquisition>, indexOf: map<nat, nat>, custody: map<nat, Custody>, rows: Rows, p: nat,
                  row: Acquisition)
    requires IndexOk(log, indexOf, custody) && RowsMatch(log, indexOf, rows)
    requires row.punk == p && row.custody != NotAcquired && p < PUNK_COUNT
    ensures IndexOk(log + [row], indexOf[p := |log| + 1], custody[p := row.custody])
    ensures RowsMatch(log + [row], indexOf[p := |log| + 1], rows[p := row])
  {
  }

  lemma AppendHistory(log: seq<Acquisition>, indexOf: map<nat, nat>, custody: map<nat, Custody>, p: nat,
                      row: Acquisition)
    requires IndexOk(log, indexOf, custody) && HistoryFrozen(log, indexOf)
    requires row.punk == p && row.originalSeller != Zero
    requires p in custody ==> custody[p] == NotAcquired || custody[p] == ReturnedToMarket
    ensures HistoryFrozen(log + [row], indexOf[p := |log| + 1])
  {
    var log', indexOf' := log + [row], indexOf[p := |log| + 1];
    forall i: nat
      ensures FrozenAt(log', indexOf', i)
    {
      assert FrozenAt(log, indexOf, i);
      assert p in indexOf ==> log[indexOf[p] - 1].custody == ReturnedToMarket;
    }
  }

  lemma ReplaceRow(log: seq<Acquisition>, indexOf: map<nat, nat>, custody: map<nat, Custody>, rows: Rows, p: nat,
                   row: Acquisition)
    requires IndexOk(log, indexOf, custody) && RowsMatch(log, indexOf, rows) && p in indexOf
    requires row.punk == p && row.custody != NotAcquired
    ensures IndexOk(log[indexOf[p] - 1 := row], indexOf, custody[p := row.custody])
    ensures RowsMatch(log[indexOf[p] - 1 := row], indexOf, rows[p := row])
  {
  }

  lemma ReplaceHistory(log: seq<Acquisition>, indexOf: map<nat, nat>, p: nat, row: Acquisition)
    requires HistoryFrozen(log, indexOf) && p in indexOf && 1 <= indexOf[p] <= |log|
    requires log[indexOf[p] - 1].punk == row.punk == p && row.originalSeller != Zero
    ensures HistoryFrozen(log[indexOf[p] - 1 := row], indexOf)
  {
    var log' := log[indexOf[p] - 1 := row];
    forall i: nat
      ensures FrozenAt(log', indexOf, i)
    {
      assert FrozenAt(log, indexOf, i);
    }
  }

  lemma FlyRow(pending: map<nat, nat>, rows: Rows, claims: map<nat, nat>, p: nat, row: Acquisition)
    requires PendingExact(pending, rows, claims) && !Flying(rows, p)
    requires row.custody == InReturnAuction && CounterOf(pending, row.target) == 0
    ensures PendingExact(pending[row.target := CounterOf(pending, row.target) + 1], rows[p := row],
              claims[row.target := p])
  {
  }

  lemma LandRow(pending: map<nat, nat>, rows: Rows, claims: map<nat, nat>, p: nat, row: Acquisition)
    requires PendingExact(pending, rows, claims) && Flying(rows, p) && row.custody != InReturnAuction
    ensures PendingExact(pending[rows[p].target := 0], rows[p := row], claims - {rows[p].target})
    ensures CounterOf(pending, rows[p].target) == 1
  {
    var t := rows[p].target;
    assert CounterOf(pending, t) == 1;
    assert forall q: nat :: Flying(rows[p := row], q) <==> q != p && Flying(rows, q);
  }

  lemma CollectRow(collected: nat, firstVaulted: map<nat, nat>, rows: Rows, p: nat, row: Acquisition)
    requires CollectedExact(collected, firstVaulted, rows) && Flying(rows, p)
    requires !Bit(collected, row.target) && row.custody == Vaulted
    ensures CollectedExact(SetBit(collected, row.target), firstVaulted[row.target := p], rows[p := row])
  {
    var t := row.target;
    SetBitIsOr(collected, t);
    assert firstVaulted[t := p].Keys == firstVaulted.Keys + {t};
    assert forall q: nat :: Locked(rows[p := row], q) <==> q == p || Locked(rows, q);
  }

  lemma RowNotCollected(collected: nat, firstVaulted: map<nat, nat>, rows: Rows, p: nat, row: Acquisition)
    requires CollectedExact(collected, firstVaulted, rows) && !Locked(rows, p) && row.custody != Vaulted
    ensures CollectedExact(collected, firstVaulted, rows[p := row])
  {
    assert forall q: nat :: Locked(rows[p := row], q) <==> Locked(rows, q);
  }

  lemma {:induction false} CountTargetsCustody(log: seq<Acquisition>, i: nat, outcome: Custody, t: nat)
    requires i < |log|
    ensures CountTargets(log[i := log[i].(custody := outcome)], t) == CountTargets(log, t)
    decreases |log|
  {
    var log' := log[i := log[i].(custody := outcome)];
    var n := |log| - 1;
    if i == n {
      assert log'[..n] == log[..n];
    } else {
      assert log'[..n] == log[..n][i := log[i].(custody := outcome)];
      CountTargetsCustody(log[..n], i, outcome, t);
    }
  }

  lemma AppendAttempt(attempts: map<nat, nat>, log: seq<Acquisition>, row: Acquisition)
    requires AttemptsExact(attempts, log)
    ensures AttemptsExact(attempts[row.target := CounterOf(attempts, row.target) + 1], log + [row])
  {
    assert (log + [row])[..|log|] == log;
    forall t: nat
      ensures CountTargets(log + [row], t) == CountTargets(log, t) + (if row.target == t then 1 else 0)
    {
    }
  }

  lemma ReplaceAttempt(attempts: map<nat, nat>, log: seq<Acquisition>, i: nat, outcome: Custody)
    requires AttemptsExact(attempts, log) && i < |log|
    ensures AttemptsExact(attempts, log[i := log[i].(custody := outcome)])
  {
    forall t: nat
      ensures CountTargets(log[i := log[i].(custody := outcome)], t) == CountTargets(log, t)
    {
      CountTargetsCustody(log, i, outcome, t);
    }
  }

  lemma CollectClosesClaim(collected: nat, claims: map<nat, nat>, t: nat)
    requires ClaimsOpen(collected, claims)
    ensures ClaimsOpen(SetBit(collected, t), claims - {t})
  {
    SetBitIsOr(collected, t);
  }

  // ---------- The writers keep the invariant ----------

  lemma EmptyCore(d: Dataset)
    ensures CoreInv(d, EMPTY)
  {
    forall t: nat
      ensures !Bit(0, t)
    {
      ZeroHasNoBits(t);
    }
    assert CoreInvAt(d, EMPTY, map[], map[]);
  }

  lemma FlyingFacts(d: Dataset, c: Core, rows: Rows, claims: map<nat, nat>, p: nat)
    requires CoreInvAt(d, c, rows, claims) && Flying(rows, p)
    ensures p in c.indexOf && 1 <= c.indexOf[p] <= |c.log|
    ensures c.log[c.indexOf[p] - 1] == rows[p] && rows[p].punk == p && rows[p].originalSeller != Zero
    ensures rows[p].target in claims && CounterOf(c.pending, rows[p].target) == 1
  {
    hide CollectedExact, AttemptsExact;
    assert FrozenAt(c.log, c.indexOf, c.indexOf[p] - 1);
  }

  lemma GroundedFacts(d: Dataset, c: Core, rows: Rows, claims: map<nat, nat>, p: nat)
    requires CoreInvAt(d, c, rows, claims) && Acquirable(c, p)
    ensures !Flying(rows, p) && !Locked(rows, p)
  {
  }

  lemma RecordedKeeps(d: Dataset, c: Core, rows: Rows, claims: map<nat, nat>, p: nat, row: Acquisition)
    requires |d.masks| == PUNK_COUNT && CoreInvAt(d, c, rows, claims) && p < PUNK_COUNT && Acquirable(c, p)
    requires row.punk == p && row.custody == InReturnAuction && row.originalSeller != Zero
    requires Eligible(d, c, p, row.target)
    requires p == SOLE_CARRIER_PUNK_ID ==> row.target == SOLE_CARRIER_TRAIT_BIT
    ensures CoreInvAt(d, Recorded(c, p, row), rows[p := row], claims[row.target := p])
  {
    hide IndexOk, RowsMatch, HistoryFrozen, PendingExact, CollectedExact, AttemptsExact;
    GroundedFacts(d, c, rows, claims, p);
    AppendHistory(c.log, c.indexOf, c.custody, p, row);
    FlyRow(c.pending, rows, claims, p, row);
    RowNotCollected(c.collected, c.firstVaulted, rows, p, row);
    AppendAttempt(c.attempts, c.log, row);
    AppendRow(c.log, c.indexOf, c.custody, rows, p, row);
  }

  /** A recorded acquisition keeps the invariant. */
  lemma RecordKeeps(d: Dataset, c: Core, p: nat, t: nat, mask: nat, acquirer: Addr, seller: Addr, price: nat)
    requires Sealed(d) && CoreInv(d, c)
    requires RecordAcquisition(d, c, p, t, mask, acquirer, seller, price).Ok?
    ensures CoreInv(d, RecordAcquisition(d, c, p, t, mask, acquirer, seller, price).value)
  {
    hide CoreInvAt, Scan, Sealed;
    assert |d.masks| == PUNK_COUNT && |d.carriers| == TRAIT_COUNT by { SealedSizes(d); }
    RecordNeeds(d, c, p, t, mask, acquirer, seller, price);
    CanonicalIff(d, c, p, t);
    CanonicalSubsumesGuard(d, c, p, t);
    var rows: Rows, claims: map<nat, nat> :| CoreInvAt(d, c, rows, claims);
    RecordedKeeps(d, c, rows, claims, p, Acquisition(p, t, mask, acquirer, seller, price, InReturnAuction));
  }

  lemma MarkedReturned(d: Dataset, c: Core, rows: Rows, claims: map<nat, nat>, p: nat)
    requires CoreInvAt(d, c, rows, claims) && p in c.indexOf && Flying(rows, p)
    ensures CoreInvAt(d, Marked(c, p, c.indexOf[p] - 1, ReturnedToMarket),
              rows[p := rows[p].(custody := ReturnedToMarket)], claims - {rows[p].target})
  {
    hide IndexOk, RowsMatch, HistoryFrozen, PendingExact, CollectedExact, AttemptsExact;
    var row := rows[p].(custody := ReturnedToMarket);
    FlyingFacts(d, c, rows, claims, p);
    ReplaceHistory(c.log, c.indexOf, p, row);
    LandRow(c.pending, rows, claims, p, row);
    RowNotCollected(c.collected, c.firstVaulted, rows, p, row);
    ReplaceAttempt(c.attempts, c.log, c.indexOf[p] - 1, ReturnedToMarket);
    ReplaceRow(c.log, c.indexOf, c.custody, rows, p, row);
  }

  lemma MarkedVaulted(d: Dataset, c: Core, rows: Rows, claims: map<nat, nat>, p: nat)
    requires CoreInvAt(d, c, rows, claims) && p in c.indexOf && Flying(rows, p)
    ensures !Bit(c.collected, rows[p].target)
    ensures CoreInvAt(d, Marked(c, p, c.indexOf[p] - 1, Vaulted),
              rows[p := rows[p].(custody := Vaulted)], claims - {rows[p].target})
  {
    hide IndexOk, RowsMatch, HistoryFrozen, PendingExact, CollectedExact, AttemptsExact;
    var row, t := rows[p].(custody := Vaulted), rows[p].target;
    FlyingFacts(d, c, rows, claims, p);
    ReplaceHistory(c.log, c.indexOf, p, row);
    LandRow(c.pending, rows, claims, p, row);
    CollectRow(c.collected, c.firstVaulted, rows, p, row);
    CollectClosesClaim(c.collected, claims, t);
    ReplaceAttempt(c.attempts, c.log, c.indexOf[p] - 1, Vaulted);
    ReplaceRow(c.log, c.indexOf, c.custody, rows, p, row);
  }

  lemma IndexFacts(d: Dataset, c: Core, p: nat)
    requires CoreInv(d, c)
    ensures p in c.indexOf ==> 1 <= c.indexOf[p] <= |c.log| && p < PUNK_COUNT
    ensures p in c.indexOf <==> CustodyOf(c, p) != NotAcquired
  {
    var rows: Rows, claims: map<nat, nat> :| CoreInvAt(d, c, rows, claims);
    hide RowsMatch, HistoryFrozen, PendingExact, CollectedExact, AttemptsExact;
  }

  lemma FlyingIff(d: Dataset, c: Core, rows: Rows, claims: map<nat, nat>, p: nat)
    requires CoreInvAt(d, c, rows, claims) && InAuction(c, p)
    ensures Flying(rows, p) && p in c.indexOf
  {
    hide HistoryFrozen, PendingExact, CollectedExact, AttemptsExact;
  }

  lemma FlyingInAuction(d: Dataset, c: Core, rows: Rows, claims: map<nat, nat>, p: nat)
    requires CoreInvAt(d, c, rows, claims) && Flying(rows, p)
    ensures InAuction(c, p)
  {
    hide HistoryFrozen, PendingExact, CollectedExact, AttemptsExact;
  }

  /** A settled acquisition keeps the invariant and releases its claim; the
      vault outcome collects exactly the recorded target, which was open. */
  lemma MarkKeeps(d: Dataset, c: Core, p: nat, outcome: Custody)
    requires CoreInv(d, c) && InAuction(c, p) && p in c.indexOf && 1 <= c.indexOf[p] <= |c.log|
    requires outcome == ReturnedToMarket || outcome == Vaulted
    ensures MarkCustody(c, p, outcome) == Ok(Marked(c, p, c.indexOf[p] - 1, outcome))
    ensures CoreInv(d, Marked(c, p, c.indexOf[p] - 1, outcome))
    ensures outcome == Vaulted ==> !Bit(c.collected, c.log[c.indexOf[p] - 1].target)
  {
    hide CoreInvAt;
    var rows: Rows, claims: map<nat, nat> :| CoreInvAt(d, c, rows, claims);
    FlyingIff(d, c, rows, claims, p);
    FlyingFacts(d, c, rows, claims, p);
    if outcome == Vaulted {
      MarkedVaulted(d, c, rows, claims, p);
    } else {
      MarkedReturned(d, c, rows, claims, p);
    }
  }
}
