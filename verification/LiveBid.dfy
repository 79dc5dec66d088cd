/** contracts/src/LiveBidAdapter.sol: the one way into the live bid. Below the
    activation threshold a forward fills the bid up to it at once; at or above it
    forwards are capped and spaced. */
module LiveBid {
  import opened Wrappers
  import opened Collection
  import opened Protocol
  import opened Chain

  const BPS: nat := 10_000
  const KEEPER_REWARD_BPS: nat := 50
  const KEEPER_REWARD_CAP: nat := 10_000_000_000_000_000
  const MIN_STREAM_WEI: nat := 10_000_000_000_000_000
  const THRESHOLD_HI: nat := 100_000_000_000_000_000_000

  /** The adapter's own storage. `synced` is how many acquisitions the threshold
      already reflects. */
  datatype Meter = Meter(threshold: nat, synced: nat, lastSweep: nat, maxSweep: nat, minBlocks: nat)

  /** The adapter with the ledger it moves wei in: `wei.adapter` is its buffer. */
  datatype Gauge = Gauge(meter: Meter, wei: Ledger)

  function Min(a: nat, b: nat): nat {
    if a < b then a else b
  }

  function Max(a: nat, b: nat): nat {
    if a < b then b else a
  }

  function Reward(amount: nat): nat {
    Min(amount * KEEPER_REWARD_BPS / BPS, KEEPER_REWARD_CAP)
  }

  /** The threshold an accepted price leads to. */
  function Applied(price: nat): nat {
    if price > THRESHOLD_HI * 100 / 75 then THRESHOLD_HI else price * 75 / 100
  }

  /** A row `acceptBid` wrote: the seller is the acquirer. */
  predicate SetsThreshold(row: Acquisition) {
    row.acquirer == row.originalSeller && row.acquirer != Zero
  }

  /** `_syncActivationThreshold`. */
  function Synced(m: Meter, log: seq<Acquisition>): Meter {
    if |log| <= m.synced then m
    else
      var row := log[|log| - 1];
      m.(synced := |log|, threshold := if SetsThreshold(row) then Applied(row.price) else m.threshold)
  }

  predicate Throttled(m: Meter, bid: nat) {
    bid >= m.threshold
  }

  predicate Cooling(m: Meter, block: nat) {
    block < m.lastSweep + m.minBlocks
  }

  /** What a forward sends to the bid and to the keeper. */
  datatype Forward = Forward(meter: Meter, toBid: nat, reward: nat)

  /** The decision of `sweep`, on the synced meter; the error is the block to wait for. */
  function SweepForward(m: Meter, buffer: nat, bid: nat, block: nat): (r: Result<Forward, nat>)
    ensures r.Ok? ==> r.value.toBid + r.value.reward <= buffer && 199 * r.value.reward <= r.value.toBid
  {
    if buffer == 0 then Ok(Forward(m, 0, 0))
    else if Throttled(m, bid) then
      if Cooling(m, block) then Err(m.lastSweep + m.minBlocks)
      else
        var amount := Min(buffer, m.maxSweep);
        Ok(Forward(m.(lastSweep := block), amount - Carved(amount), Carved(amount)))
    else
      var room := m.threshold - bid;
      if buffer < room then Ok(Forward(m, buffer - Carved(buffer), Carved(buffer)))
      else Ok(Forward(m, room, Min(Reward(room), buffer - room)))
  }

  /** The decision does not look at how many acquisitions are synced. */
  lemma SyncCountsNothing(m: Meter, synced: nat, buffer: nat, bid: nat, block: nat)
    ensures SweepForward(m.(synced := synced), buffer, bid, block) ==
      match SweepForward(m, buffer, bid, block)
      case Err(next) => Err(next)
      case Ok(f) => Ok(f.(meter := f.meter.(synced := synced)))
  {
  }

  /** The reward taken off a forward. */
  function Carved(amount: nat): (r: nat)
    ensures r <= amount && 200 * r <= amount
  {
    if Reward(amount) >= amount then 0 else Reward(amount)
  }

  /** The buffer reaches the bid; a keeper that cannot be paid leaves its reward
      in the buffer. */
  function Forwarded(w: Ledger, toBid: nat, reward: nat): Ledger
    requires toBid + reward <= w.adapter
  {
    w.(liveBid := w.liveBid + toBid, adapter := w.adapter - toBid - reward, paidOut := w.paidOut + reward)
  }

  /** `sweep`. */
  function AfterSweep(g: Gauge, log: seq<Acquisition>, block: nat, keeperOk: bool): Result<Gauge, nat> {
    match SweepForward(Synced(g.meter, log), g.wei.adapter, g.wei.liveBid, block)
    case Err(next) => Err(next)
    case Ok(f) => Ok(Gauge(f.meter, Forwarded(g.wei, f.toBid, if keeperOk then f.reward else 0)))
  }

  /** What `streamForward` moves: no reward, no sync, and never an error. */
  function StreamAmount(m: Meter, buffer: nat, bid: nat, block: nat): (amount: nat)
    ensures amount <= buffer
  {
    if buffer < MIN_STREAM_WEI then 0
    else if !Throttled(m, bid) then Min(buffer, m.threshold - bid)
    else if Cooling(m, block) then 0
    else Min(buffer, m.maxSweep)
  }

  /** `streamForward`. */
  function AfterStream(g: Gauge, block: nat): Gauge {
    var throttled := Throttled(g.meter, g.wei.liveBid);
    var idle := g.wei.adapter < MIN_STREAM_WEI || (throttled && Cooling(g.meter, block));
    Gauge(if throttled && !idle then g.meter.(lastSweep := block) else g.meter,
          Forwarded(g.wei, StreamAmount(g.meter, g.wei.adapter, g.wei.liveBid, block), 0))
  }

  // ---------- The adapter as it runs ----------

  class Adapter {
    const maxSweep: nat
    const minBlocks: nat
    var threshold: nat
    var synced: nat
    var lastSweep: nat

    function Abs(): Meter
      reads this
    {
      Meter(threshold, synced, lastSweep, maxSweep, minBlocks)
    }

    constructor (threshold: nat, maxSweep: nat, minBlocks: nat)
      ensures Abs() == Meter(threshold, 0, 0, maxSweep, minBlocks)
    {
      this.threshold, this.maxSweep, this.minBlocks := threshold, maxSweep, minBlocks;
      synced, lastSweep := 0, 0;
    }

    /** The meter after a sync, which a revert would undo. */
    method Sync(log: seq<Acquisition>) returns (threshold': nat, synced': nat)
      ensures Abs().(threshold := threshold', synced := synced') == Synced(Abs(), log)
    {
      threshold', synced' := threshold, synced;
      if |log| > synced {
        var row := log[|log| - 1];
        if row.acquirer == row.originalSeller && row.acquirer != Zero {
          threshold' := Applied(row.price);
        }
        synced' := |log|;
      }
    }

    /** What a sweep on a synced threshold would send, or the block to wait for. */
    method Decide(threshold': nat, buffer: nat, bid: nat, block: nat)
      returns (early: Option<nat>, drips: bool, toBid: nat, reward: nat)
      ensures var m := Abs().(threshold := threshold');
        match SweepForward(m, buffer, bid, block)
        case Err(next) => early == Some(next)
        case Ok(f) =>
          && early == None && f.toBid == toBid && f.reward == reward
          && f.meter == if drips then m.(lastSweep := block) else m
    {
      early, drips, toBid, reward := None, false, 0, 0;
      if buffer > 0 && bid >= threshold' {
        if block < lastSweep + minBlocks {
          early := Some(lastSweep + minBlocks);
        } else {
          toBid := Min(buffer, maxSweep);
          reward := Carved(toBid);
          toBid := toBid - reward;
          drips := true;
        }
      } else if buffer > 0 {
        toBid := Min(buffer, threshold' - bid);
        if buffer < threshold' - bid {
          reward := Carved(toBid);
          toBid := toBid - reward;
        } else {
          reward := Min(Reward(toBid), buffer - toBid);
        }
      }
    }

    method Sweep(chain: Contracts, block: nat, keeperOk: bool) returns (error: Option<nat>)
      requires chain.Valid()
      modifies this, chain`wei
      ensures var r := AfterSweep(Gauge(old(Abs()), old(chain.wei)), chain.core.log, block, keeperOk);
        && error == Failure(r)
        && Gauge(Abs(), chain.wei) == if r.Ok? then r.value else Gauge(old(Abs()), old(chain.wei))
      ensures chain.Valid() && chain.Abs() == old(chain.Abs()).(wei := chain.wei)
    {
      hide SweepForward;
      var threshold', synced' := Sync(chain.core.log);
      var early, drips, toBid, reward := Decide(threshold', chain.wei.adapter, chain.wei.liveBid, block);
      SyncCountsNothing(Abs().(threshold := threshold'), synced', chain.wei.adapter, chain.wei.liveBid, block);
      if early.Some? { return early; }
      if drips { lastSweep := block; }
      threshold, synced := threshold', synced';
      Pay(chain, toBid, if keeperOk then reward else 0);
      return None;
    }

    method StreamForward(chain: Contracts, block: nat)
      requires chain.Valid()
      modifies this, chain`wei
      ensures Gauge(Abs(), chain.wei) == AfterStream(Gauge(old(Abs()), old(chain.wei)), block)
      ensures chain.Valid() && chain.Abs() == old(chain.Abs()).(wei := chain.wei)
    {
      var buffer, bid := chain.wei.adapter, chain.wei.liveBid;
      var amount := 0;
      if buffer >= MIN_STREAM_WEI {
        if bid < threshold {
          amount := Min(buffer, threshold - bid);
        } else if block >= lastSweep + minBlocks {
          amount := Min(buffer, maxSweep);
          lastSweep := block;
        }
      }
      Pay(chain, amount, 0);
    }

    method Pay(chain: Contracts, toBid: nat, reward: nat)
      requires chain.Valid() && toBid + reward <= chain.wei.adapter
      modifies chain`wei
      ensures chain.wei == Forwarded(old(chain.wei), toBid, reward)
      ensures chain.Valid() && chain.Abs() == old(chain.Abs()).(wei := chain.wei)
    {
      chain.wei := chain.wei.(liveBid := chain.wei.liveBid + toBid, adapter := chain.wei.adapter - toBid);
      chain.wei := chain.wei.(adapter := chain.wei.adapter - reward, paidOut := chain.wei.paidOut + reward);
    }
  }

  // ---------- One call ----------

  /** Three quarters of a price, rounded down, but at most 100 ether. */
  ghost predicate ThresholdOf(threshold: nat, price: nat) {
    if 3 * price < 4 * THRESHOLD_HI then 4 * threshold <= 3 * price < 4 * (threshold + 1)
    else threshold == THRESHOLD_HI
  }

  /** A sync looks at the newest acquisition only, and only if it is new: an accepted
      bid sets the threshold to three quarters of its price, a listing found by
      someone else leaves it. */
  lemma SyncIs(m: Meter, log: seq<Acquisition>)
    ensures |log| <= m.synced ==> Synced(m, log) == m
    ensures |log| > m.synced ==>
      var row, m' := log[|log| - 1], Synced(m, log);
      && m' == m.(synced := |log|, threshold := m'.threshold)
      && (if row.acquirer == row.originalSeller && row.acquirer != Zero then ThresholdOf(m'.threshold, row.price)
          else m'.threshold == m.threshold)
  {
  }

  /** Half a percent of an amount, rounded down, but at most a hundredth of an ether. */
  ghost predicate RewardOf(reward: nat, amount: nat) {
    && 200 * reward <= amount && reward <= 10_000_000_000_000_000
    && (reward < 10_000_000_000_000_000 ==> amount < 200 * (reward + 1))
  }

  lemma RewardIs(amount: nat)
    ensures RewardOf(Reward(amount), amount) && Carved(amount) == Reward(amount)
  {
    assert amount * KEEPER_REWARD_BPS / BPS == amount / 200;
  }

  /** What a sweep that lands moves. Short of the threshold the whole buffer leaves,
      reaching it exactly the gap does, and above it the buffer up to the cap. The
      reward is taken off what leaves, or off the rest when the gap was filled, and
      stays in the buffer when the keeper can not be paid. */
  ghost predicate SweepEffect(g: Gauge, g': Gauge, m: Meter, block: nat, keeperOk: bool) {
    var buffer, bid := g.wei.adapter, g.wei.liveBid;
    var toBid, paid := g'.wei.liveBid - bid, g'.wei.paidOut - g.wei.paidOut;
    && toBid >= 0 && paid >= 0 && (!keeperOk ==> paid == 0)
    && g'.wei == g.wei.(liveBid := bid + toBid, adapter := g'.wei.adapter, paidOut := g.wei.paidOut + paid)
    && g'.wei.adapter + toBid + paid == buffer
    && (if buffer == 0 then toBid == 0 && g'.meter == m
        else if bid < m.threshold && bid + buffer < m.threshold then
          g'.meter == m && toBid <= buffer && RewardOf(buffer - toBid, buffer) && (keeperOk ==> g'.wei.adapter == 0)
        else if bid < m.threshold then
          && g'.meter == m && toBid == m.threshold - bid
          && (keeperOk ==> RewardOf(paid, toBid) || (g'.wei.adapter == 0 && 200 * (paid + 1) <= toBid))
        else
          var amount := if buffer < m.maxSweep then buffer else m.maxSweep;
          && g'.meter == m.(lastSweep := block) && toBid <= amount && RewardOf(amount - toBid, amount)
          && (keeperOk ==> paid == amount - toBid))
  }

  lemma SweepIs(g: Gauge, log: seq<Acquisition>, block: nat, keeperOk: bool)
    ensures AfterSweep(g, log, block, keeperOk).Ok? ==>
      SweepEffect(g, AfterSweep(g, log, block, keeperOk).value, Synced(g.meter, log), block, keeperOk)
    ensures AfterSweep(g, log, block, keeperOk).Err? ==>
      AfterSweep(g, log, block, keeperOk).error == Synced(g.meter, log).lastSweep + g.meter.minBlocks
  {
    hide Reward, Carved, RewardOf, Synced;
    var m, buffer, bid := Synced(g.meter, log), g.wei.adapter, g.wei.liveBid;
    SyncKeeps(g.meter, log);
    RewardIs(buffer);
    RewardIs(Min(buffer, m.maxSweep));
    if bid < m.threshold {
      RewardIs(m.threshold - bid);
      RewardAtMost(m.threshold - bid, buffer);
    }
  }

  lemma RewardAtMost(room: nat, buffer: nat)
    ensures Reward(room) > buffer - room ==> 200 * (buffer - room + 1) <= room
  {
  }

  lemma SyncKeeps(m: Meter, log: seq<Acquisition>)
    ensures Synced(m, log).minBlocks == m.minBlocks && Synced(m, log).maxSweep == m.maxSweep
  {
  }

  /** What a stream moves, with at least a hundredth of an ether buffered: up to the
      threshold all that fits, and at or above it, past the cooldown, the buffer up to
      the cap. Otherwise nothing; and never a reward. */
  lemma StreamIs(g: Gauge, block: nat)
    ensures var m, buffer, bid, g' := g.meter, g.wei.adapter, g.wei.liveBid, AfterStream(g, block);
      && g'.wei == g.wei.(liveBid := g'.wei.liveBid, adapter := g'.wei.adapter)
      && g'.wei.liveBid + g'.wei.adapter == bid + buffer
      && (if buffer >= 10_000_000_000_000_000 && bid < m.threshold then
            g'.meter == m && g'.wei.liveBid == if bid + buffer < m.threshold then bid + buffer else m.threshold
          else if buffer >= 10_000_000_000_000_000 && block >= m.lastSweep + m.minBlocks then
            && g'.meter == m.(lastSweep := block)
            && g'.wei.liveBid == bid + if buffer < m.maxSweep then buffer else m.maxSweep
          else g' == g)
  {
  }

  /** A sweep is refused only while the throttle cools down. */
  lemma SweepOkIff(g: Gauge, log: seq<Acquisition>, block: nat, keeperOk: bool)
    ensures var m := Synced(g.meter, log);
      AfterSweep(g, log, block, keeperOk).Ok? <==>
        g.wei.adapter == 0 || g.wei.liveBid < m.threshold || block >= m.lastSweep + m.minBlocks
  {
  }

  /** Fuel in the buffer always moves: a sweep that lands sends something to the bid. */
  lemma SweepMoves(g: Gauge, log: seq<Acquisition>, block: nat, keeperOk: bool)
    requires g.wei.adapter > 0 && g.meter.maxSweep > 0 && AfterSweep(g, log, block, keeperOk).Ok?
    ensures AfterSweep(g, log, block, keeperOk).value.wei.liveBid > g.wei.liveBid
  {
  }

  /** Below the threshold a forward never overshoots it, and lands on it exactly
      when the buffer is large enough, so that the throttle engages. */
  lemma FastLandsAtThreshold(g: Gauge, log: seq<Acquisition>, block: nat, keeperOk: bool)
    requires g.wei.liveBid < Synced(g.meter, log).threshold
    ensures var m := Synced(g.meter, log);
      && AfterSweep(g, log, block, keeperOk).Ok?
      && AfterSweep(g, log, block, keeperOk).value.meter == m
      && var bid' := AfterSweep(g, log, block, keeperOk).value.wei.liveBid;
      && bid' <= m.threshold
      && (bid' == m.threshold <==> g.wei.liveBid + g.wei.adapter >= m.threshold)
  {
  }
}
