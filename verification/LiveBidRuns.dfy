/** What the meter of the live bid keeps over whole runs: the bid grows past the
    threshold only at the drip rate, no wei is lost on the way, keepers get at
    most half a percent, and a full buffer always drains. */
module LiveBidRuns {
  import opened Wrappers
  import opened Collection
  import opened Protocol
  import opened LiveBid

  /** Everything that can happen to the meter, in any order. */
  datatype Event =
    | FuelIn(wei: nat)                        // fees, contributions, refunds
    | BidSpent(wei: nat)                      // an acquisition
    | RowAdded(row: Acquisition)              // its row in the records core
    | ThresholdSet(wei: nat)                  // the admin's override
    | SweepCalled(block: nat, keeperOk: bool)
    | StreamCalled(block: nat)

  datatype Fuel = Fuel(gauge: Gauge, log: seq<Acquisition>)

  function Apply(f: Fuel, e: Event): Fuel {
    var g := f.gauge;
    match e
    case FuelIn(wei) => f.(gauge := g.(wei := g.wei.(adapter := g.wei.adapter + wei)))
    case BidSpent(wei) =>
      if wei > g.wei.liveBid then f else f.(gauge := g.(wei := g.wei.(liveBid := g.wei.liveBid - wei)))
    case RowAdded(row) => f.(log := f.log + [row])
    case ThresholdSet(wei) => if wei > THRESHOLD_HI then f else f.(gauge := g.(meter := g.meter.(threshold := wei)))
    case SweepCalled(block, keeperOk) =>
      (match AfterSweep(g, f.log, block, keeperOk) case Ok(g') => f.(gauge := g') case Err(_) => f)
    case StreamCalled(block) => f.(gauge := AfterStream(g, block))
  }

  function Run(f: Fuel, events: seq<Event>): Fuel
    decreases |events|
  {
    if events == [] then f else Run(Apply(f, events[0]), events[1..])
  }

  /** The meter an event acts under: a sweep syncs first. */
  function Acting(f: Fuel, e: Event): Meter {
    if e.SweepCalled? then Synced(f.gauge.meter, f.log) else f.gauge.meter
  }

  /** What an event sends to the bid. */
  function Sent(f: Fuel, e: Event): nat {
    if (e.SweepCalled? || e.StreamCalled?) && Apply(f, e).gauge.wei.liveBid > f.gauge.wei.liveBid
    then Apply(f, e).gauge.wei.liveBid - f.gauge.wei.liveBid else 0
  }

  /** What it sends at or above the threshold. */
  function Dripped(f: Fuel, e: Event): nat {
    if Throttled(Acting(f, e), f.gauge.wei.liveBid) then Sent(f, e) else 0
  }

  function AllSent(f: Fuel, events: seq<Event>): nat
    decreases |events|
  {
    if events == [] then 0 else Sent(f, events[0]) + AllSent(Apply(f, events[0]), events[1..])
  }

  function AllDripped(f: Fuel, events: seq<Event>): nat
    decreases |events|
  {
    if events == [] then 0 else Dripped(f, events[0]) + AllDripped(Apply(f, events[0]), events[1..])
  }

  // ---------- The rate cap ----------

  lemma DripPaced(f: Fuel, e: Event)
    ensures var m, m' := f.gauge.meter, Apply(f, e).gauge.meter;
      && m'.maxSweep == m.maxSweep && m'.minBlocks == m.minBlocks && m'.lastSweep >= m.lastSweep
      && Dripped(f, e) <= m.maxSweep
      && (Dripped(f, e) > 0 ==> m'.lastSweep >= m.lastSweep + m.minBlocks)
  {
  }

  /** Over any run, whoever calls and however much has piled up: at most
      `maxSweep` per `minBlocks` blocks goes to the bid at or above the threshold. */
  lemma {:induction false} RateCap(f: Fuel, events: seq<Event>)
    ensures var m, m' := f.gauge.meter, Run(f, events).gauge.meter;
      && m'.lastSweep >= m.lastSweep && m'.minBlocks == m.minBlocks && m'.maxSweep == m.maxSweep
      && AllDripped(f, events) * m.minBlocks <= m.maxSweep * (m'.lastSweep - m.lastSweep)
    decreases |events|
  {
    hide Apply, Dripped;
    if events != [] {
      var f1 := Apply(f, events[0]);
      DripPaced(f, events[0]);
      RateCap(f1, events[1..]);
      var m, m1, m' := f.gauge.meter, f1.gauge.meter, Run(f, events).gauge.meter;
      PacedOnce(Dripped(f, events[0]), m.maxSweep, m.minBlocks, m1.lastSweep - m.lastSweep);
      PacedSum(Dripped(f, events[0]), AllDripped(f1, events[1..]), m.minBlocks, m.maxSweep,
               m1.lastSweep - m.lastSweep, m'.lastSweep - m1.lastSweep);
    }
  }

  lemma PacedOnce(drip: nat, cap: nat, min: nat, gap: nat)
    requires drip <= cap && (drip > 0 ==> gap >= min)
    ensures drip * min <= cap * gap
  {
    if drip > 0 {
      assert drip * min <= cap * min;
      assert cap * min <= cap * gap;
    }
  }

  lemma PacedSum(a: nat, b: nat, min: nat, cap: nat, x: nat, y: nat)
    requires a * min <= cap * x && b * min <= cap * y
    ensures (a + b) * min <= cap * (x + y)
  {
  }

  /** The last forward happened in the block of some call. */
  lemma {:induction false} LastIsCalled(f: Fuel, events: seq<Event>, block: nat)
    requires f.gauge.meter.lastSweep <= block
    requires forall e :: e in events ==>
      (e.SweepCalled? ==> e.block <= block) && (e.StreamCalled? ==> e.block <= block)
    ensures Run(f, events).gauge.meter.lastSweep <= block
    decreases |events|
  {
    if events != [] {
      assert events[0] in events;
      LastIsCalled(Apply(f, events[0]), events[1..], block);
    }
  }

  // ---------- How far the bid can grow ----------

  /** Every threshold that can come into force is at most `c`. */
  ghost predicate Capped(f: Fuel, c: nat) {
    f.gauge.meter.threshold <= c && forall row :: row in f.log && SetsThreshold(row) ==> Applied(row.price) <= c
  }

  ghost predicate CappedEvent(e: Event, c: nat) {
    && (e.RowAdded? && SetsThreshold(e.row) ==> Applied(e.row.price) <= c)
    && (e.ThresholdSet? && e.wei <= THRESHOLD_HI ==> e.wei <= c)
  }

  lemma CappedStep(f: Fuel, e: Event, c: nat)
    requires Capped(f, c) && CappedEvent(e, c)
    ensures Capped(Apply(f, e), c)
    ensures Apply(f, e).gauge.wei.liveBid <= Max(f.gauge.wei.liveBid, c) + Dripped(f, e)
  {
    assert f.log != [] ==> f.log[|f.log| - 1] in f.log;
  }

  lemma {:induction false} BidBelow(f: Fuel, events: seq<Event>, c: nat)
    requires Capped(f, c) && forall e :: e in events ==> CappedEvent(e, c)
    ensures Run(f, events).gauge.wei.liveBid <= Max(f.gauge.wei.liveBid, c) + AllDripped(f, events)
    decreases |events|
  {
    hide Capped, CappedEvent, Apply, Dripped;
    if events != [] {
      assert events[0] in events;
      CappedStep(f, events[0], c);
      BidBelow(Apply(f, events[0]), events[1..], c);
    }
  }

  /** The bid outgrows the thresholds in force only at the drip rate: by at most
      `maxSweep` for every `minBlocks` blocks, over any run. */
  lemma BidPaced(f: Fuel, events: seq<Event>, c: nat, block: nat)
    requires Capped(f, c) && forall e :: e in events ==> CappedEvent(e, c)
    requires f.gauge.meter.lastSweep <= block
    requires forall e :: e in events ==>
      (e.SweepCalled? ==> e.block <= block) && (e.StreamCalled? ==> e.block <= block)
    ensures var over := Run(f, events).gauge.wei.liveBid - Max(f.gauge.wei.liveBid, c);
      over * f.gauge.meter.minBlocks <= f.gauge.meter.maxSweep * (block - f.gauge.meter.lastSweep)
  {
    hide Capped, CappedEvent, Run, AllDripped;
    BidBelow(f, events, c);
    RateCap(f, events);
    LastIsCalled(f, events, block);
    var m := f.gauge.meter;
    var last := Run(f, events).gauge.meter.lastSweep;
    var over := Run(f, events).gauge.wei.liveBid - Max(f.gauge.wei.liveBid, c);
    assert over * m.minBlocks <= AllDripped(f, events) * m.minBlocks;
    assert m.maxSweep * (last - m.lastSweep) <= m.maxSweep * (block - m.lastSweep);
  }

  /** Whatever is accepted and whatever the admin sets, 100 ether is such a cap. */
  lemma BidPacedAlways(f: Fuel, events: seq<Event>, block: nat)
    requires f.gauge.meter.threshold <= THRESHOLD_HI && f.gauge.meter.lastSweep <= block
    requires forall e :: e in events ==>
      (e.SweepCalled? ==> e.block <= block) && (e.StreamCalled? ==> e.block <= block)
    ensures var over := Run(f, events).gauge.wei.liveBid - Max(f.gauge.wei.liveBid, THRESHOLD_HI);
      over * f.gauge.meter.minBlocks <= f.gauge.meter.maxSweep * (block - f.gauge.meter.lastSweep)
  {
    AppliedCapped();
    BidPaced(f, events, THRESHOLD_HI, block);
  }

  lemma AppliedCapped()
    ensures forall price: nat :: Applied(price) <= THRESHOLD_HI
  {
  }

  // ---------- No wei is lost ----------

  function Fueled(f: Fuel, e: Event): int {
    match e
    case FuelIn(wei) => wei
    case BidSpent(wei) => if wei > f.gauge.wei.liveBid then 0 else 0 - (wei as int)
    case _ => 0
  }

  function AllFueled(f: Fuel, events: seq<Event>): int
    decreases |events|
  {
    if events == [] then 0 else Fueled(f, events[0]) + AllFueled(Apply(f, events[0]), events[1..])
  }

  function Holdings(w: Ledger): nat {
    w.liveBid + w.adapter + w.paidOut
  }

  lemma FuelStep(f: Fuel, e: Event)
    ensures var w, w' := f.gauge.wei, Apply(f, e).gauge.wei;
      && Holdings(w') == Holdings(w) + Fueled(f, e)
      && 0 <= 199 * (w'.paidOut - w.paidOut) <= Sent(f, e)
      && w' == w.(liveBid := w'.liveBid, adapter := w'.adapter, paidOut := w'.paidOut)
  {
  }

  /** Over any run every wei that came in is in the buffer, in the bid, was spent
      by it, or was a keeper's, and the keepers together got at most one wei for
      199 sent to the bid. */
  lemma {:induction false} FuelConserved(f: Fuel, events: seq<Event>)
    ensures var w, w' := f.gauge.wei, Run(f, events).gauge.wei;
      && Holdings(w') == Holdings(w) + AllFueled(f, events)
      && 0 <= 199 * (w'.paidOut - w.paidOut) <= AllSent(f, events)
      && w' == w.(liveBid := w'.liveBid, adapter := w'.adapter, paidOut := w'.paidOut)
    decreases |events|
  {
    hide Apply, Fueled, Sent;
    if events != [] {
      FuelStep(f, events[0]);
      FuelConserved(Apply(f, events[0]), events[1..]);
    }
  }

  // ---------- A full buffer drains ----------

  /** `n` sweeps, `minBlocks` apart. */
  function Paced(block: nat, minBlocks: nat, n: nat): (events: seq<Event>)
    ensures |events| == n
    decreases n
  {
    if n == 0 then [] else [SweepCalled(block, true)] + Paced(block + minBlocks, minBlocks, n - 1)
  }

  /** One sweep past the cooldown empties the buffer, or takes the full cap from
      it, or lands the bid on the threshold. */
  lemma DrainStep(f: Fuel, block: nat)
    requires block >= f.gauge.meter.lastSweep + f.gauge.meter.minBlocks
    ensures var m, g := Synced(f.gauge.meter, f.log), f.gauge;
      var f' := Apply(f, SweepCalled(block, true));
      var g' := f'.gauge;
      && f'.log == f.log && Synced(g'.meter, f.log) == g'.meter
      && g'.meter == m.(lastSweep := g'.meter.lastSweep) && g'.meter.lastSweep <= block
      && g'.wei.liveBid >= g.wei.liveBid
      && (g'.wei.adapter == 0
          || (Throttled(m, g.wei.liveBid) && g'.wei.adapter + m.maxSweep == g.wei.adapter)
          || (!Throttled(m, g.wei.liveBid) && Throttled(g'.meter, g'.wei.liveBid) && g'.wei.adapter <= g.wei.adapter))
  {
  }

  /** From any state of the meter and any buffer, sweeps once per cooldown empty
      it in `buffer / maxSweep + 2` calls: the throttle paces, it never stops. */
  lemma {:induction false} Drains(f: Fuel, block: nat, n: nat)
    requires f.gauge.meter.maxSweep > 0
    requires block >= f.gauge.meter.lastSweep + f.gauge.meter.minBlocks
    requires n * f.gauge.meter.maxSweep >= f.gauge.wei.adapter +
      if Throttled(Synced(f.gauge.meter, f.log), f.gauge.wei.liveBid) then 0 else f.gauge.meter.maxSweep
    ensures Run(f, Paced(block, f.gauge.meter.minBlocks, n)).gauge.wei.adapter == 0
    ensures Run(f, Paced(block, f.gauge.meter.minBlocks, n)).gauge.wei.liveBid >= f.gauge.wei.liveBid
    decreases n
  {
    hide Synced, Apply;
    if n > 0 {
      DrainStep(f, block);
      var m, f' := f.gauge.meter, Apply(f, SweepCalled(block, true));
      SyncKeepsCap(m, f.log);
      var rest := Paced(block + m.minBlocks, m.minBlocks, n - 1);
      assert Paced(block, m.minBlocks, n)[1..] == rest;
      assert (n - 1) * m.maxSweep == n * m.maxSweep - m.maxSweep;
      assert (n - 1) * m.maxSweep >= 0;
      if f'.gauge.wei.adapter == 0 {
        EmptyStays(f', block + m.minBlocks, n - 1);
      } else {
        Drains(f', block + m.minBlocks, n - 1);
      }
    }
  }

  lemma SyncKeepsCap(m: Meter, log: seq<Acquisition>)
    ensures Synced(m, log).maxSweep == m.maxSweep && Synced(m, log).minBlocks == m.minBlocks
  {
  }

  lemma {:induction false} EmptyStays(f: Fuel, block: nat, n: nat)
    requires f.gauge.wei.adapter == 0
    ensures Run(f, Paced(block, f.gauge.meter.minBlocks, n)).gauge.wei == f.gauge.wei
    decreases n
  {
    if n > 0 {
      var f' := Apply(f, SweepCalled(block, true));
      assert f'.gauge.wei == f.gauge.wei && f'.gauge.meter.minBlocks == f.gauge.meter.minBlocks;
      var rest := Paced(block + f.gauge.meter.minBlocks, f.gauge.meter.minBlocks, n - 1);
      assert Paced(block, f.gauge.meter.minBlocks, n)[1..] == rest;
      EmptyStays(f', block + f.gauge.meter.minBlocks, n - 1);
    }
  }

  /** All of it but the keepers' share reaches the bid. */
  lemma DrainReachesBid(f: Fuel, block: nat, n: nat)
    requires f.gauge.meter.maxSweep > 0
    requires block >= f.gauge.meter.lastSweep + f.gauge.meter.minBlocks
    requires n >= f.gauge.wei.adapter / f.gauge.meter.maxSweep + 2
    ensures var w, w' := f.gauge.wei, Run(f, Paced(block, f.gauge.meter.minBlocks, n)).gauge.wei;
      && w'.adapter == 0
      && 200 * (w'.liveBid - w.liveBid) >= 199 * w.adapter
  {
    hide Run;
    var m, w := f.gauge.meter, f.gauge.wei;
    var events := Paced(block, m.minBlocks, n);
    Enough(w.adapter, m.maxSweep, n);
    Drains(f, block, n);
    FuelConserved(f, events);
    SweepsOnly(f, block, m.minBlocks, n);
  }

  lemma Enough(buffer: nat, cap: nat, n: nat)
    requires cap > 0 && n >= buffer / cap + 2
    ensures n * cap >= buffer + cap
  {
    var q := buffer / cap;
    assert buffer == q * cap + buffer % cap;
    assert n * cap >= (q + 2) * cap == q * cap + 2 * cap;
  }

  lemma {:induction false} SweepsOnly(f: Fuel, block: nat, minBlocks: nat, n: nat)
    ensures var events := Paced(block, minBlocks, n);
      && AllFueled(f, events) == 0
      && AllSent(f, events) == Run(f, events).gauge.wei.liveBid - f.gauge.wei.liveBid
    decreases n
  {
    if n > 0 {
      var f' := Apply(f, SweepCalled(block, true));
      assert f'.gauge.wei.liveBid >= f.gauge.wei.liveBid;
      assert Paced(block, minBlocks, n)[1..] == Paced(block + minBlocks, minBlocks, n - 1);
      SweepsOnly(f', block + minBlocks, minBlocks, n - 1);
    }
  }
}
