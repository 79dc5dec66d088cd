/** How scripts/seed-acquisitions.ts pays for its listings: simulated trades that
    accrue in the adapter, then, if they fall short, a minted buffer and one
    sweep. */
module SeedFunding {
  import opened Wrappers
  import opened Collection
  import opened Protocol
  import opened ProtocolSafety
  import opened ProtocolRuns
  import opened Chain
  import opened LiveBid
  import opened SeedSteps

  const SLACK_WEI: nat := 200_000_000_000_000_000
  const MINT_EXTRA_WEI: nat := 500_000_000_000_000_000
  const MAX_BATCHES: nat := 12
  const SEED_THRESHOLD: nat := 30_000_000_000_000_000_000

  // ---------- Trades ----------

  /** What a batch of trades does to the adapter. */
  datatype Trade = SkimIn(wei: nat) | Streamed(block: nat) | SweptAt(block: nat, keeperOk: bool)

  /** A batch, and whether its process exits cleanly. */
  datatype Batch = Batch(trades: seq<Trade>, ok: bool)

  function Traded(g: Gauge, log: seq<Acquisition>, trade: Trade): Gauge {
    match trade
    case SkimIn(wei) => g.(wei := g.wei.(adapter := g.wei.adapter + wei))
    case Streamed(block) => AfterStream(g, block)
    case SweptAt(block, keeperOk) => (match AfterSweep(g, log, block, keeperOk) case Ok(g') => g' case Err(_) => g)
  }

  function AllTraded(g: Gauge, log: seq<Acquisition>, trades: seq<Trade>): Gauge
    decreases |trades|
  {
    if trades == [] then g
    else Traded(AllTraded(g, log, trades[..|trades| - 1]), log, trades[|trades| - 1])
  }

  /** Batch after batch while the bid is short, up to twelve, or until one fails. */
  function Batches(g: Gauge, log: seq<Acquisition>, needed: nat, batches: nat -> Batch, i: nat): Gauge
    decreases MAX_BATCHES - i
  {
    if i >= MAX_BATCHES || g.wei.liveBid >= needed then g
    else
      var g1 := AllTraded(g, log, batches(i).trades);
      if batches(i).ok then Batches(g1, log, needed, batches, i + 1) else g1
  }

  // ---------- Minting ----------

  /** How a transaction of the script fares: it lands and is waited for, it never
      lands, or it lands and waiting for it throws. */
  datatype Send = Mined | NotSent | NoReceipt

  datatype Mint = Mint(block: nat, keeperOk: bool, send: Send)

  function WithBuffer(g: Gauge, wei: nat): Gauge {
    g.(wei := g.wei.(adapter := wei))
  }

  /** `mintBid`: overwrite the buffer, sweep once. The flag says it did not throw. */
  function Minted(g: Gauge, log: seq<Acquisition>, needed: nat, mint: Mint): (Gauge, bool) {
    var filled := WithBuffer(g, needed + MINT_EXTRA_WEI);
    if mint.send == NotSent then (filled, false)
    else match AfterSweep(filled, log, mint.block, mint.keeperOk)
      case Err(_) => (filled, false)
      case Ok(g') => (g', mint.send == Mined)
  }

  /** Whether one sweep of the minted buffer gets the bid to `needed`: below the
      threshold, if that is no less; above it, past the cooldown and within the cap. */
  predicate MintReaches(m: Meter, needed: nat, bid: nat, block: nat) {
    if bid < m.threshold then needed <= m.threshold
    else
      && block >= m.lastSweep + m.minBlocks
      && (needed + MINT_EXTRA_WEI <= m.maxSweep || needed + Carved(m.maxSweep) <= bid + m.maxSweep)
  }

  /** The mint gives the bid what is needed exactly then. */
  lemma MintReachesIff(g: Gauge, log: seq<Acquisition>, needed: nat, mint: Mint)
    ensures var (g', done) := Minted(g, log, needed, mint);
      done && g'.wei.liveBid >= needed <==>
        mint.send == Mined && MintReaches(Synced(g.meter, log), needed, g.wei.liveBid, mint.block)
  {
  }

  /** `fundBid`, and whether it returned. */
  function Funded(g: Gauge, log: seq<Acquisition>, needed: nat, fast: bool, batches: nat -> Batch, mint: Mint)
    : (Gauge, bool)
  {
    if fast then Minted(g, log, needed, mint)
    else
      var g1 := Batches(g, log, needed, batches, 0);
      if g1.wei.liveBid >= needed then (g1, true) else Minted(g1, log, needed, mint)
  }

  predicate Reaches(g: Gauge, log: seq<Acquisition>, needed: nat, fast: bool, batches: nat -> Batch, mint: Mint) {
    var (g', done) := Funded(g, log, needed, fast, batches, mint);
    done && g'.wei.liveBid >= needed
  }

  lemma {:induction false} TradedKeeps(g: Gauge, log: seq<Acquisition>, trades: seq<Trade>)
    ensures var g' := AllTraded(g, log, trades);
      && g'.wei.liveBid >= g.wei.liveBid
      && g'.wei == g.wei.(liveBid := g'.wei.liveBid, adapter := g'.wei.adapter, paidOut := g'.wei.paidOut)
      && (|log| <= g.meter.synced ==> g'.meter == g.meter.(lastSweep := g'.meter.lastSweep))
    decreases |trades|
  {
    if trades != [] { TradedKeeps(g, log, trades[..|trades| - 1]); }
  }

  lemma {:induction false} BatchesKeep(g: Gauge, log: seq<Acquisition>, needed: nat, batches: nat -> Batch, i: nat)
    ensures var g' := Batches(g, log, needed, batches, i);
      && g'.wei.liveBid >= g.wei.liveBid
      && g'.wei == g.wei.(liveBid := g'.wei.liveBid, adapter := g'.wei.adapter, paidOut := g'.wei.paidOut)
      && (|log| <= g.meter.synced ==> g'.meter == g.meter.(lastSweep := g'.meter.lastSweep))
    decreases MAX_BATCHES - i
  {
    hide AllTraded;
    if i < MAX_BATCHES && g.wei.liveBid < needed {
      TradedKeeps(g, log, batches(i).trades);
      BatchesKeep(AllTraded(g, log, batches(i).trades), log, needed, batches, i + 1);
    }
  }

  /** The wei that trades bring in. */
  function Skimmed(trades: seq<Trade>): nat
    decreases |trades|
  {
    if trades == [] then 0
    else Skimmed(trades[..|trades| - 1]) + if trades[|trades| - 1].SkimIn? then trades[|trades| - 1].wei else 0
  }

  /** All of it is then in the buffer, in the bid, or with the keepers. */
  lemma {:induction false} TradesConserve(g: Gauge, log: seq<Acquisition>, trades: seq<Trade>)
    ensures var w, w' := g.wei, AllTraded(g, log, trades).wei;
      w'.liveBid + w'.adapter + w'.paidOut == w.liveBid + w.adapter + w.paidOut + Skimmed(trades)
    decreases |trades|
  {
    if trades != [] { TradesConserve(g, log, trades[..|trades| - 1]); }
  }

  /** A mint first makes the buffer exactly half an ether more than is needed. */
  lemma MintOverwrites(g: Gauge, log: seq<Acquisition>, needed: nat, mint: Mint)
    ensures var (g', done) := Minted(g, log, needed, mint);
      var swept := AfterSweep(g.(wei := g.wei.(adapter := needed + 500_000_000_000_000_000)), log, mint.block,
                              mint.keeperOk);
      && (mint.send == NotSent || swept.Err? ==>
            !done && g' == g.(wei := g.wei.(adapter := needed + 500_000_000_000_000_000)))
      && (mint.send != NotSent && swept.Ok? ==> g' == swept.value && (done <==> mint.send == Mined))
  {
    hide AfterSweep;
  }

  /** The first `n` batches, one after the other. */
  function FirstBatches(g: Gauge, log: seq<Acquisition>, batches: nat -> Batch, n: nat): Gauge {
    if n == 0 then g else AllTraded(FirstBatches(g, log, batches, n - 1), log, batches(n - 1).trades)
  }

  /** The trading loop runs its batches up to the first after which the bid is there,
      or that fails, or that is the twelfth; none if the bid is there at once. */
  lemma BatchesRun(g: Gauge, log: seq<Acquisition>, needed: nat, batches: nat -> Batch) returns (n: nat)
    ensures n <= 12 && Batches(g, log, needed, batches, 0) == FirstBatches(g, log, batches, n)
    ensures forall k: nat :: k < n ==> FirstBatches(g, log, batches, k).wei.liveBid < needed
    ensures forall k: nat :: k + 1 < n ==> batches(k).ok
    ensures n == 12 || FirstBatches(g, log, batches, n).wei.liveBid >= needed || (n > 0 && !batches(n - 1).ok)
  {
    n := BatchesFrom(g, log, needed, batches, 0);
  }

  lemma {:induction false} BatchesFrom(g: Gauge, log: seq<Acquisition>, needed: nat, batches: nat -> Batch, i: nat)
    returns (n: nat)
    requires i <= MAX_BATCHES
    ensures i <= n <= MAX_BATCHES
    ensures Batches(FirstBatches(g, log, batches, i), log, needed, batches, i) == FirstBatches(g, log, batches, n)
    ensures forall k: nat :: i <= k < n ==> FirstBatches(g, log, batches, k).wei.liveBid < needed
    ensures forall k: nat :: i <= k && k + 1 < n ==> batches(k).ok
    ensures n == MAX_BATCHES || FirstBatches(g, log, batches, n).wei.liveBid >= needed || (n > i && !batches(n - 1).ok)
    decreases MAX_BATCHES - i
  {
    hide AllTraded;
    n := i;
    if i < MAX_BATCHES && FirstBatches(g, log, batches, i).wei.liveBid < needed {
      if batches(i).ok { n := BatchesFrom(g, log, needed, batches, i + 1); } else { n := i + 1; }
    }
  }

  /** Funding only ever adds to the bid, and moves nothing but the bid, the buffer
      and the keepers' rewards. */
  lemma FundedKeeps(g: Gauge, log: seq<Acquisition>, needed: nat, fast: bool, batches: nat -> Batch, mint: Mint)
    ensures var g' := Funded(g, log, needed, fast, batches, mint).0;
      && g'.wei.liveBid >= g.wei.liveBid
      && g'.wei == g.wei.(liveBid := g'.wei.liveBid, adapter := g'.wei.adapter, paidOut := g'.wei.paidOut)
  {
    hide Batches;
    BatchesKeep(g, log, needed, batches, 0);
  }

  /** Before the first acquisition the threshold is still the deployment's 30
      ether, and whatever the trades did the mint suffices for up to 2980 listings. */
  lemma FreshIsFunded(g: Gauge, listings: nat, batches: nat -> Batch, mint: Mint)
    requires g.meter.threshold == SEED_THRESHOLD && listings <= 2980 && mint.send == Mined
    ensures Reaches(g, [], LIST_WEI * listings + SLACK_WEI, false, batches, mint)
    ensures g.wei.liveBid < SEED_THRESHOLD ==>
      Reaches(g, [], LIST_WEI * listings + SLACK_WEI, true, batches, mint)
  {
    hide Batches, Minted, MintReaches;
    var needed := LIST_WEI * listings + SLACK_WEI;
    BatchesKeep(g, [], needed, batches, 0);
    var g1 := Batches(g, [], needed, batches, 0);
    MintReachesIff(g1, [], needed, mint);
    MintReachesIff(g, [], needed, mint);
    if g1.wei.liveBid < needed { ReachesBelow(g1.meter, needed, g1.wei.liveBid, mint.block); }
    if g.wei.liveBid < SEED_THRESHOLD { ReachesBelow(g.meter, needed, g.wei.liveBid, mint.block); }
  }

  lemma ReachesBelow(m: Meter, needed: nat, bid: nat, block: nat)
    requires bid < m.threshold && needed <= m.threshold
    ensures MintReaches(m, needed, bid, block)
  {
  }

  /** Once the latest acquisition is one of the script's own, the threshold is
      three quarters of a listing and a mint reaches what is needed only through
      the throttle: with a bid already there, past the cooldown, within the cap. */
  lemma RerunNeedsDrip(g: Gauge, log: seq<Acquisition>, listings: nat, mint: Mint)
    requires log != [] && g.meter.synced < |log|
    requires SetsThreshold(log[|log| - 1]) && log[|log| - 1].price == LIST_WEI
    ensures var (g', done) := Minted(g, log, LIST_WEI * listings + SLACK_WEI, mint);
      var needed := LIST_WEI * listings + SLACK_WEI;
      done && g'.wei.liveBid >= needed <==>
        && mint.send == Mined && 4 * g.wei.liveBid >= 3 * LIST_WEI
        && mint.block >= g.meter.lastSweep + g.meter.minBlocks
        && (needed + MINT_EXTRA_WEI <= g.meter.maxSweep
            || needed + Carved(g.meter.maxSweep) <= g.wei.liveBid + g.meter.maxSweep)
  {
    hide Minted;
    MintReachesIff(g, log, LIST_WEI * listings + SLACK_WEI, mint);
  }

  /** For example with an empty bid after one row of the script's own: the mint goes
      through, whatever the cap, the cooldown and the block, and leaves three quarters
      of one listing. */
  lemma RerunFallsShort(maxSweep: nat, minBlocks: nat, block: nat, listings: nat) returns (g: Gauge, row: Acquisition)
    ensures g.wei.liveBid == 0 && SetsThreshold(row) && row.price == LIST_WEI
    ensures g.meter == Meter(SEED_THRESHOLD, 0, 0, maxSweep, minBlocks)
    ensures var (g', done) := Minted(g, [row], LIST_WEI * listings + SLACK_WEI, Mint(block, true, Mined));
      done && 4 * g'.wei.liveBid == 3 * LIST_WEI && g'.wei.liveBid < LIST_WEI
  {
    row := Acquisition(0, 0, 1, User(0), User(0), LIST_WEI, Vaulted);
    g := Gauge(Meter(SEED_THRESHOLD, 0, 0, maxSweep, minBlocks), Ledger(0, 0, 0, 0, 0, map[], 0, 0));
  }

  // ---------- On the contracts ----------

  method RunBatchOf(chain: Contracts, adapter: Adapter, trades: seq<Trade>)
    requires chain.Valid()
    modifies chain`wei, adapter
    ensures chain.Valid() && chain.Abs() == old(chain.Abs()).(wei := chain.wei)
    ensures Gauge(adapter.Abs(), chain.wei) ==
      AllTraded(Gauge(old(adapter.Abs()), old(chain.wei)), chain.core.log, trades)
  {
    ghost var g := Gauge(adapter.Abs(), chain.wei);
    assert trades[..0] == [];
    for i := 0 to |trades|
      invariant chain.Valid() && chain.Abs() == old(chain.Abs()).(wei := chain.wei)
      invariant Gauge(adapter.Abs(), chain.wei) == AllTraded(g, chain.core.log, trades[..i])
    {
      assert trades[..i + 1][..i] == trades[..i];
      match trades[i]
      case SkimIn(wei) => chain.wei := chain.wei.(adapter := chain.wei.adapter + wei);
      case Streamed(block) => adapter.StreamForward(chain, block);
      case SweptAt(block, keeperOk) => var error := adapter.Sweep(chain, block, keeperOk);
    }
    assert trades[..|trades|] == trades;
  }

  /** `mintBid`. */
  method MintBid(chain: Contracts, adapter: Adapter, needed: nat, mint: Mint) returns (done: bool)
    requires chain.Valid()
    modifies chain`wei, adapter
    ensures chain.Valid() && chain.Abs() == old(chain.Abs()).(wei := chain.wei)
    ensures (Gauge(adapter.Abs(), chain.wei), done) ==
      Minted(Gauge(old(adapter.Abs()), old(chain.wei)), chain.core.log, needed, mint)
  {
    chain.wei := chain.wei.(adapter := needed + MINT_EXTRA_WEI);
    if mint.send == NotSent { return false; }
    var error := adapter.Sweep(chain, mint.block, mint.keeperOk);
    return error == None && mint.send == Mined;
  }

  /** `fundBid`: nothing but the bid, the buffer and the keepers' rewards moves. */
  method FundBid(chain: Contracts, adapter: Adapter, needed: nat, fast: bool, batches: nat -> Batch, mint: Mint)
    returns (done: bool)
    requires chain.Valid() && Sealed(chain.data) && Inv(chain.data, chain.Abs())
    modifies chain`wei, adapter
    ensures chain.Valid() && Inv(chain.data, chain.Abs()) && chain.Abs() == old(chain.Abs()).(wei := chain.wei)
    ensures (Gauge(adapter.Abs(), chain.wei), done) ==
      Funded(Gauge(old(adapter.Abs()), old(chain.wei)), chain.core.log, needed, fast, batches, mint)
    ensures chain.wei.liveBid >= old(chain.wei.liveBid) && chain.wei.pool == old(chain.wei.pool)
  {
    hide Inv, Sealed, AllTraded, Minted;
    ghost var g, s := Gauge(adapter.Abs(), chain.wei), chain.Abs();
    done := true;
    if !fast {
      var i := 0;
      while i < MAX_BATCHES && chain.wei.liveBid < needed
        invariant i <= MAX_BATCHES && chain.Valid() && chain.Abs() == s.(wei := chain.wei)
        invariant Batches(g, chain.core.log, needed, batches, 0) ==
          Batches(Gauge(adapter.Abs(), chain.wei), chain.core.log, needed, batches, i)
      {
        RunBatchOf(chain, adapter, batches(i).trades);
        if !batches(i).ok { break; }
        i := i + 1;
      }
    }
    if fast || chain.wei.liveBid < needed { done := MintBid(chain, adapter, needed, mint); }
    FundedKeeps(g, chain.core.log, needed, fast, batches, mint);
    WeiKeeps(chain.data, s, chain.wei, s.now);
  }
}
