/** scripts/seed-acquisitions.ts: the driver that opens auctions, rescues some,
    settles all of them and leaves a demo auction ended but unsettled. */
module SeedAcquisitions {
  import opened Wrappers
  import opened TraitMasks
  import opened Collection
  import opened ReturnAuctions
  import opened Protocol
  import opened ProtocolSafety
  import opened ProtocolRuns
  import opened ProtocolTheorems
  import opened Chain
  import opened SeedSteps
  import opened SettleOrder
  import opened LiveBid
  import opened SeedFunding

  const SETTLE_DELAY: nat := 72 * 3600 + 300

  /** How the network treats a run: each Punk of the two open loops, each bid, the
      waits, each settlement. A failed read or simulator call before a
      transaction is one that was not sent. */
  datatype Network = Network(
    opens: nat -> Fault, bids: nat -> Send, wait: Send, settles: nat -> Send,
    demoOpens: nat -> Fault, demoWait: Send)

  predicate Throws(fault: Fault) {
    fault == RecordedLost || fault == OwnerLost
  }

  /** Nothing is lost that the script does not catch. */
  ghost predicate Smooth(net: Network) {
    && (forall p: nat :: !Throws(net.opens(p)) && !Throws(net.demoOpens(p)))
    && (forall p: nat :: net.bids(p) == Mined && net.settles(p) == Mined)
    && net.wait == Mined && net.demoWait == Mined
  }

  /** The Punks whose acceptance would land unnoticed. */
  ghost function Strays(net: nat -> Fault): set<nat> {
    set p: nat | p < PUNK_COUNT && net(p) == ReceiptLost
  }

  ghost predicate Ready(chain: Contracts)
    reads chain
  {
    chain.Valid() && Sealed(chain.data) && Inv(chain.data, chain.Abs())
  }

  /** Every Punk up to the last one opened is exhausted. */
  ghost predicate NoneSkipped(d: Dataset, s0: State, c: Core, net: nat -> Fault, started: seq<nat>) {
    started != [] ==>
      var n := started[|started| - 1] + 1;
      && |d.masks| == PUNK_COUNT && |d.carriers| == TRAIT_COUNT && n <= PUNK_COUNT
      && (ReservesOverflow(c.attempts) || AllExhausted(d, s0, c, net, n))
  }

  /** The body of the open loop. */
  method TryOpen(chain: Contracts, p: nat, fault: Fault) returns (outcome: Outcome)
    requires chain.Valid() && p < PUNK_COUNT
    modifies chain
    ensures chain.Valid() && (chain.Abs(), outcome) == Attempt(chain.data, old(chain.Abs()), p, fault)
  {
    hide AcceptBid, CanonicalTarget;
    if fault == RecordedLost { return Thrown; }
    if p in chain.core.indexOf || fault == TargetLost { return Skipped; }
    var target := chain.CanonicalTargetOf(p);
    if target == None { return Skipped; }
    if fault == OwnerLost { return Thrown; }
    var owner := if p in chain.owner then chain.owner[p] else Zero;
    if owner == Zero { return Skipped; }
    if fault == ListLost { return Failed; }
    var listed := chain.List(p, owner, LIST_WEI, Patron);
    if listed.Some? || fault == AcceptLost { return Failed; }
    var accepted := chain.AcceptBid(p, target.value, LIST_WEI);
    if accepted.Some? { return Failed; }
    return if fault == ReceiptLost then Stray else Opened;
  }

  /** Open up to `total` auctions, walking the Punks upward, unless a read throws.
      Every auction is paid from the live bid. When the bid was funded for `total`
      listings and the strays, no Punk before the last one was passed over that
      could still be opened, and the loop falls short only once there is none at
      all. */
  method OpenAuctions(chain: Contracts, total: nat, net: nat -> Fault)
    returns (done: bool, started: seq<nat>, ghost spent: seq<nat>)
    requires Ready(chain)
    modifies chain
    ensures Ready(chain) && Opening(chain.data, old(chain.Abs()), chain.Abs(), spent)
    ensures |started| <= total && Ascending(started) && forall p :: p in started ==> p in spent
    ensures |started| <= |spent| <= |started| + |Strays(net)|
    ensures old(chain.wei.liveBid) >= LIST_WEI * (total + |Strays(net)|) ==>
      NoneSkipped(chain.data, old(chain.Abs()), chain.core, net, started)
    ensures done && |started| < total && old(chain.wei.liveBid) >= LIST_WEI * (total + |Strays(net)|) ==>
      NothingLeft(chain.data, chain.Abs(), net)
    ensures !done ==> exists p: nat :: p < PUNK_COUNT && Throws(net(p))
  {
    hide Inv, Sealed, Attempt, Opening, AllExhausted, Ascending, ReservesOverflow, NothingLeft, NoneSkipped;
    ghost var d, s0 := chain.data, chain.Abs();
    ghost var strays: set<nat> := {};
    ghost var funded := s0.wei.liveBid >= LIST_WEI * (total + |Strays(net)|);
    done, started, spent := true, [], [];
    var p := 0;
    OpeningStarts(d, s0, net);
    while p < PUNK_COUNT && |started| < total && done
      invariant !done ==> exists q: nat :: q < PUNK_COUNT && Throws(net(q))
      invariant p <= PUNK_COUNT && chain.Valid() && Sealed(d)
      invariant Opening(d, s0, chain.Abs(), spent)
      invariant |started| <= total && Ascending(started)
      invariant forall q :: q in started ==> q in spent
      invariant forall q :: q in spent ==> q < p
      invariant strays <= Strays(net) && |spent| == |started| + |strays| && forall q :: q in strays ==> q < p
      invariant funded ==> ReservesOverflow(chain.core.attempts) || AllExhausted(d, s0, chain.core, net, p)
    {
      ghost var s := chain.Abs();
      var outcome := TryOpen(chain, p, net(p));
      SealedSizes(d);
      AttemptKeeps(d, s0, s, spent, p, net(p));
      if funded {
        StrayBound(strays, Strays(net));
        BidCovers(d, s0, s, spent, total, |Strays(net)|);
        AttemptExhausts(d, s0, s, spent, net, p);
      }
      AttemptStray(d, s, p, net(p));
      if outcome == Thrown {
        AttemptThrown(d, s, p, net(p));
        done := false;
      } else if outcome == Stray {
        strays := strays + {p};
        spent := spent + [p];
      } else if outcome == Opened {
        AscendingGrows(started, p);
        started := started + [p];
        spent := spent + [p];
      }
      p := p + 1;
    }
    StrayBound(strays, Strays(net));
    OpeningInv(d, s0, chain.Abs(), spent);
    SealedSizes(d);
    if funded { NoneSkippedBelow(d, s0, chain.core, net, started, spent, p); }
    if funded && p == PUNK_COUNT { ExhaustedNow(d, s0, chain.Abs(), spent, net); }
  }

  lemma NoneSkippedBelow(d: Dataset, s0: State, c: Core, net: nat -> Fault, started: seq<nat>, spent: seq<nat>, p: nat)
    requires |d.masks| == PUNK_COUNT && |d.carriers| == TRAIT_COUNT && p <= PUNK_COUNT
    requires (forall q :: q in started ==> q in spent) && forall q :: q in spent ==> q < p
    requires ReservesOverflow(c.attempts) || AllExhausted(d, s0, c, net, p)
    ensures NoneSkipped(d, s0, c, net, started)
  {
    hide Exhausted, ReservesOverflow;
    if started != [] { assert started[|started| - 1] in started; }
  }

  lemma OpeningStarts(d: Dataset, s: State, net: nat -> Fault)
    requires Inv(d, s) && |d.masks| == PUNK_COUNT && |d.carriers| == TRAIT_COUNT
    ensures Opening(d, s, s, []) && AllExhausted(d, s, s.core, net, 0) && Ascending([])
  {
    hide Inv;
  }

  lemma OpeningInv(d: Dataset, s0: State, s: State, spent: seq<nat>)
    requires Opening(d, s0, s, spent)
    ensures Inv(d, s)
  {
    hide Inv;
  }

  lemma StrayBound(a: set<nat>, b: set<nat>)
    requires a <= b
    ensures |a| <= |b|
  {
    if a != b {
      var rest := b - a;
      assert b == a + rest;
    }
  }

  /** The budget: before every attempt the live bid still covers the listing. */
  lemma BidCovers(d: Dataset, s0: State, s: State, spent: seq<nat>, total: nat, slack: nat)
    requires Opening(d, s0, s, spent) && s0.wei.liveBid >= LIST_WEI * (total + slack) && |spent| < total + slack
    ensures LIST_WEI <= s.wei.liveBid
  {
    hide Inv, Ascending, SalesKept;
  }

  lemma AttemptStray(d: Dataset, s: State, p: nat, fault: Fault)
    requires |d.masks| == PUNK_COUNT && |d.carriers| == TRAIT_COUNT && p < PUNK_COUNT
    ensures Attempt(d, s, p, fault).1 == Stray ==> fault == ReceiptLost
  {
    hide AcceptBid, CanonicalTarget;
  }

  lemma AttemptThrown(d: Dataset, s: State, p: nat, fault: Fault)
    requires |d.masks| == PUNK_COUNT && |d.carriers| == TRAIT_COUNT && p < PUNK_COUNT
    ensures Attempt(d, s, p, fault).1 == Thrown ==> Throws(fault)
  {
    hide AcceptBid, CanonicalTarget;
  }

  // ---------- Rescue bids ----------

  /** The first `n` of `ids` have a bid, the rest are as opened. */
  ghost predicate Bidding(d: Dataset, s0: State, s: State, ids: seq<nat>, n: nat, bidder: nat)
    requires n <= |ids|
  {
    && Inv(d, s) && s.core == s0.core && s.now == s0.now && s.owner == s0.owner
    && s.wei.liveBid == s0.wei.liveBid && s.wei.pool == s0.wei.pool
    && SalesKept(s0.sales, s.sales, ids)
    && (forall i :: 0 <= i < n ==> BidAt(s.sales, ids[i], s.now, bidder))
    && (forall i :: n <= i < |ids| ==> OpenAt(s.sales, ids[i], s.now))
  }

  lemma BiddingStep(d: Dataset, s0: State, s: State, s': State, ids: seq<nat>, n: nat, bidder: nat)
    requires n < |ids| && NoRepeats(ids) && Bidding(d, s0, s, ids, n, bidder)
    requires Inv(d, s') && BidAt(s'.sales, ids[n], s'.now, bidder) && SalesKept(s.sales, s'.sales, [ids[n]])
    requires s'.core == s.core && s'.now == s.now && s'.owner == s.owner
    requires s'.wei.liveBid == s.wei.liveBid && s'.wei.pool == s.wei.pool
    ensures Bidding(d, s0, s', ids, n + 1, bidder)
  {
    hide Inv;
    assert forall p: nat :: p !in ids ==> p !in [ids[n]];
    assert forall i :: 0 <= i < |ids| && i != n ==> ids[i] !in [ids[n]];
  }

  /** How many transactions land when they are sent one after the other until a
      call throws. */
  function Reached(ids: seq<nat>, net: nat -> Send): (n: nat)
    ensures n <= |ids|
  {
    if ids == [] || net(ids[0]) == NotSent then 0
    else if net(ids[0]) == NoReceipt then 1
    else 1 + Reached(ids[1..], net)
  }

  /** Bid the reserve on each auction to be rescued, up to the first call that
      throws. */
  method RescueBids(chain: Contracts, ids: seq<nat>, bidder: nat, net: nat -> Send)
    returns (done: bool, ghost n: nat)
    requires Ready(chain) && NoRepeats(ids) && forall i :: 0 <= i < |ids| ==> OpenAt(chain.sales, ids[i], chain.now)
    modifies chain
    ensures n == Reached(ids, net) && (done <==> forall i :: 0 <= i < |ids| ==> net(ids[i]) == Mined)
    ensures done ==> n == |ids|
    ensures Ready(chain) && Bidding(chain.data, old(chain.Abs()), chain.Abs(), ids, n, bidder)
  {
    hide Inv, Sealed, OpenAt, BidAt, MinNext;
    ghost var d, s0 := chain.data, chain.Abs();
    for i := 0 to |ids|
      invariant chain.Valid() && Sealed(d) && Bidding(d, s0, chain.Abs(), ids, i, bidder)
      invariant Reached(ids, net) == i + Reached(ids[i..], net)
      invariant forall k :: 0 <= k < i ==> net(ids[k]) == Mined
    {
      ghost var s := chain.Abs();
      assert ids[i..][0] == ids[i] && ids[i..][1..] == ids[i + 1..];
      if net(ids[i]) == NotSent { return false, i; }
      OpenIsKnown(s.sales, ids[i], s.now);
      RescueLands(d, s, ids[i], bidder);
      var revert := chain.PlaceBid(ids[i], User(bidder), chain.sales[ids[i]].reserve, Zero, true);
      BiddingStep(d, s0, s, chain.Abs(), ids, i, bidder);
      if net(ids[i]) == NoReceipt { return false, i + 1; }
    }
    return true, |ids|;
  }

  lemma OpenIsKnown(sales: map<nat, Sale>, p: nat, now: nat)
    requires OpenAt(sales, p, now)
    ensures p in sales
  {
  }

  // ---------- The settle loop ----------

  /** Settle one after the other, up to the first call that throws. */
  method SettleAuctions(chain: Contracts, ids: seq<nat>, net: nat -> Send) returns (done: bool, ghost n: nat)
    requires Ready(chain) && AllDue(chain.sales, chain.now, ids)
    modifies chain
    ensures n == Reached(ids, net) && (done <==> forall i :: 0 <= i < |ids| ==> net(ids[i]) == Mined)
    ensures done ==> n == |ids|
    ensures Ready(chain) && AllDue(old(chain.sales), old(chain.now), ids[..n])
    ensures chain.Abs() == SettleAll(chain.data, old(chain.Abs()), ids[..n])
  {
    hide Inv, Sealed, Protocol.Settle, SettledTo, AllDue, Due;
    ghost var d, s0 := chain.data, chain.Abs();
    DuePrefix(s0, ids, 0);
    for i := 0 to |ids|
      invariant Ready(chain) && AllDue(s0.sales, s0.now, ids[..i])
      invariant chain.Abs() == SettleAll(d, s0, ids[..i])
      invariant Reached(ids, net) == i + Reached(ids[i..], net)
      invariant forall k :: 0 <= k < i ==> net(ids[k]) == Mined
    {
      assert ids[i..][0] == ids[i] && ids[i..][1..] == ids[i + 1..];
      if net(ids[i]) == NotSent { return false, i; }
      SettleAllNext(d, s0, ids, i);
      var revert := chain.Settle(ids[i], true, true);
      if net(ids[i]) == NoReceipt { return false, i + 1; }
    }
    return true, |ids|;
  }

  // ---------- One whole batch: open, rescue, wait, settle ----------

  lemma OpeningFacts(d: Dataset, s0: State, s: State, spent: seq<nat>)
    requires Opening(d, s0, s, spent)
    ensures s.core.collected == s0.core.collected && s.wei.pool == s0.wei.pool && s.now == s0.now
    ensures s.wei.liveBid + LIST_WEI * |spent| == s0.wei.liveBid
    ensures forall p :: p in spent ==> p in s.core.indexOf && p !in s0.core.indexOf
    ensures SalesKept(s0.sales, s.sales, spent)
  {
    hide Inv, SalesKept, OpenAt, Ascending;
  }

  lemma StartedOpen(d: Dataset, s0: State, s: State, spent: seq<nat>, started: seq<nat>)
    requires Opening(d, s0, s, spent) && Ascending(started) && forall p :: p in started ==> p in spent
    ensures NoRepeats(started) && forall i :: 0 <= i < |started| ==> OpenAt(s.sales, started[i], s.now)
  {
    hide Inv, SalesKept, OpenAt;
  }

  /** After the bids and the wait every auction is due; the rescued ones are sold
      and the others are not. */
  lemma AfterTheWait(d: Dataset, s: State, s': State, started: seq<nat>, n: nat, bidder: nat)
    requires n <= |started| && NoRepeats(started)
    requires forall i :: 0 <= i < |started| ==> OpenAt(s.sales, started[i], s.now)
    requires Bidding(d, s, s', started[..n], n, bidder)
    ensures AllDue(s'.sales, s'.now + SETTLE_DELAY, started[n..] + started[..n])
    ensures forall p :: p in started[n..] ==> p in s'.sales && Unsold(s'.sales, p)
    ensures forall p :: p in started[..n] ==> p in s'.sales && !Unsold(s'.sales, p)
  {
    hide Inv;
    forall p | p in started[n..]
      ensures OpenAt(s'.sales, p, s'.now)
    {
      var i :| n <= i < |started| && started[i] == p;
      assert p !in started[..n];
    }
    forall p | p in started[..n]
      ensures BidAt(s'.sales, p, s'.now, bidder)
    {
      var i :| 0 <= i < n && started[i] == p;
      assert started[..n][i] == p;
    }
  }

  /** The script's order: the pool ends at the rescued shares alone, once any
      auction is vaulted. */
  lemma {:induction false} ScriptPool(sales: map<nat, Sale>, pool: nat, vaults: seq<nat>, rescues: seq<nat>)
    requires forall p :: p in vaults ==> p in sales && Unsold(sales, p)
    requires forall p :: p in rescues ==> p in sales && !Unsold(sales, p)
    ensures forall p :: p in vaults + rescues ==> p in sales
    ensures PoolAfter(sales, pool, vaults + rescues) == (if vaults == [] then pool else 0) + Shares(sales, rescues)
    ensures UnsoldCount(sales, vaults + rescues) == |vaults|
    decreases |vaults| + |rescues|
  {
    hide Share;
    if vaults != [] {
      ScriptPool(sales, 0, vaults[1..], rescues);
      assert (vaults + rescues)[1..] == vaults[1..] + rescues;
    } else if rescues != [] {
      ScriptPool(sales, pool + Share(sales[rescues[0]]), [], rescues[1..]);
      assert [] + rescues == rescues && [] + rescues[1..] == rescues[1..];
    }
  }

  /** The script's order is a best one: no order of the same settlements leaves
      the pool higher. */
  lemma ScriptOrderIsBest(d: Dataset, s: State, vaults: seq<nat>, rescues: seq<nat>, perm: seq<nat>)
    requires Inv(d, s) && AllDue(s.sales, s.now, vaults + rescues) && AllDue(s.sales, s.now, perm)
    requires forall p :: p in vaults ==> p in s.sales && Unsold(s.sales, p)
    requires forall p :: p in rescues ==> p in s.sales && !Unsold(s.sales, p)
    requires multiset(perm) == multiset(vaults + rescues)
    ensures SettleAll(d, s, perm).wei.pool <= SettleAll(d, s, vaults + rescues).wei.pool
  {
    hide Inv, AllDue, SettleAll;
    DueFirst(s, perm);
    ScriptOrder(s.sales, vaults, rescues);
    SettleOrderIsBest(d, s, vaults + rescues, perm);
  }

  lemma {:induction false} ClosedShares(before: map<nat, Sale>, after: map<nat, Sale>, ids: seq<nat>, some: seq<nat>)
    requires SalesClosed(before, after, ids) && forall p :: p in some ==> p in before
    ensures Shares(after, some) == Shares(before, some)
    decreases |some|
  {
    if some != [] { ClosedShares(before, after, ids, some[1..]); }
  }

  lemma ScriptOrder(sales: map<nat, Sale>, vaults: seq<nat>, rescues: seq<nat>)
    requires forall p :: p in vaults ==> p in sales && Unsold(sales, p)
    requires forall p :: p in rescues ==> p in sales && !Unsold(sales, p)
    ensures forall p :: p in vaults + rescues ==> p in sales
    ensures UnsoldFirst(sales, vaults + rescues)
  {
  }

  /** What a whole batch of `need` vaultings and `rescueN` rescues leaves. */
  ghost predicate BatchDone(s0: State, s: State, started: seq<nat>, need: nat, rescueN: nat)
    requires |started| == need + rescueN
  {
    && PopCount(s.core.collected) == PopCount(s0.core.collected) + need
    && MaskGrows(s0.core.collected, s.core.collected)
    && (forall p :: p in started[..rescueN] ==> p in s.sales && p in s.core.indexOf)
    && s.wei.pool == (if need == 0 then s0.wei.pool else 0) + Shares(s.sales, started[..rescueN])
  }

  lemma BatchSettles(s0: State, s: State, s': State, started: seq<nat>, need: nat, rescueN: nat)
    requires |started| == need + rescueN
    requires forall p :: p in started[rescueN..] ==> p in s.sales && Unsold(s.sales, p)
    requires forall p :: p in started[..rescueN] ==> p in s.sales && !Unsold(s.sales, p)
    requires forall p :: p in started[rescueN..] + started[..rescueN] ==> p in s.sales
    requires SettledAll(s, s', started[rescueN..] + started[..rescueN])
    requires s.core.collected == s0.core.collected && s.wei.pool == s0.wei.pool
    requires forall p :: p in started ==> p in s.core.indexOf
    ensures BatchDone(s0, s', started, need, rescueN)
  {
    hide PopCount, Share, PoolAfter, Shares, UnsoldCount;
    var order := started[rescueN..] + started[..rescueN];
    ScriptPool(s.sales, s.wei.pool, started[rescueN..], started[..rescueN]);
    ClosedShares(s.sales, s'.sales, order, started[..rescueN]);
  }

  /** Where a run can be stopped by the network. */
  datatype Stage = AtFunding | AtOpening | AtBidding | AtWaiting | AtSettling | AtDemo

  /** At most `need` traits more than in `c0`, and none lost. */
  ghost predicate Between(c0: Core, c: Core, need: nat) {
    && MaskGrows(c0.collected, c.collected)
    && PopCount(c0.collected) <= PopCount(c.collected) <= PopCount(c0.collected) + need
  }

  lemma NothingCollected(c0: Core, c: Core, need: nat)
    requires c.collected == c0.collected
    ensures Between(c0, c, need)
  {
  }

  /** However many of the settlements were made. */
  lemma PartlySettled(s0: State, s: State, s': State, vaults: seq<nat>, rescues: seq<nat>, n: nat)
    requires n <= |vaults| + |rescues| && s.core.collected == s0.core.collected
    requires forall p :: p in vaults ==> p in s.sales && Unsold(s.sales, p)
    requires forall p :: p in rescues ==> p in s.sales && !Unsold(s.sales, p)
    requires forall p :: p in (vaults + rescues)[..n] ==> p in s.sales
    requires SettledAll(s, s', (vaults + rescues)[..n])
    ensures Between(s0.core, s'.core, |vaults|)
  {
    hide PopCount, Share, PoolAfter, Shares, UnsoldCount, SalesClosed;
    ScriptPool(s.sales, s.wei.pool, vaults, rescues);
    UnsoldPrefix(s.sales, vaults + rescues, n);
  }

  /** Settle the auctions without a bid first, then the rescued ones. */
  method SettleBatch(chain: Contracts, started: seq<nat>, need: nat, rescueN: nat, net: nat -> Send)
    returns (done: bool)
    requires Ready(chain) && |started| == need + rescueN
    requires AllDue(chain.sales, chain.now, started[rescueN..] + started[..rescueN])
    requires forall p :: p in started[rescueN..] ==> p in chain.sales && Unsold(chain.sales, p)
    requires forall p :: p in started[..rescueN] ==> p in chain.sales && !Unsold(chain.sales, p)
    requires forall p :: p in started ==> p in chain.core.indexOf
    modifies chain
    ensures Ready(chain) && Between(old(chain.core), chain.core, need)
    ensures chain.wei.liveBid == old(chain.wei.liveBid) && ((forall p :: net(p) == Mined) ==> done)
    ensures done ==> BatchDone(old(chain.Abs()), chain.Abs(), started, need, rescueN)
  {
    hide Inv, Sealed, BatchDone, AllDue, SettledAll, Unsold, Share, Between;
    ghost var d, s := chain.data, chain.Abs();
    var rescues, vaults := started[..rescueN], started[rescueN..];
    ghost var n;
    done, n := SettleAuctions(chain, vaults + rescues, net);
    SettleAllEffect(d, s, (vaults + rescues)[..n]);
    SettledBid(s, chain.Abs(), (vaults + rescues)[..n]);
    PartlySettled(s, s, chain.Abs(), vaults, rescues, n);
    if done {
      assert (vaults + rescues)[..n] == vaults + rescues;
      BatchSettles(s, s, chain.Abs(), started, need, rescueN);
    }
  }

  /** Bid on the first `rescueN` opened, wait, settle the rest first. */
  method FinishBatch(chain: Contracts, started: seq<nat>, need: nat, rescueN: nat, bidder: nat, net: Network)
    returns (stop: Option<Stage>)
    requires Ready(chain) && |started| == need + rescueN && NoRepeats(started)
    requires forall i :: 0 <= i < |started| ==> OpenAt(chain.sales, started[i], chain.now)
    requires forall p :: p in started ==> p in chain.core.indexOf
    modifies chain
    ensures Ready(chain) && Between(old(chain.core), chain.core, need)
    ensures chain.wei.liveBid == old(chain.wei.liveBid)
    ensures stop in {None, Some(AtBidding), Some(AtWaiting), Some(AtSettling)} && (Smooth(net) ==> stop == None)
    ensures stop.Some? && stop != Some(AtSettling) ==> chain.core.collected == old(chain.core.collected)
    ensures stop == None ==> BatchDone(old(chain.Abs()), chain.Abs(), started, need, rescueN)
  {
    hide Inv, Sealed, BatchDone, OpenAt, BidAt, AllDue, SalesKept, Unsold, Between;
    ghost var d, s1 := chain.data, chain.Abs();
    NothingCollected(s1.core, s1.core, need);
    var done; ghost var n;
    done, n := RescueBids(chain, started[..rescueN], bidder, net.bids);
    if !done { return Some(AtBidding); }
    if net.wait == NotSent { return Some(AtWaiting); }
    AfterTheWait(d, s1, chain.Abs(), started, rescueN, bidder);
    WeiKeeps(d, chain.Abs(), chain.wei, chain.now + SETTLE_DELAY);
    chain.Warp(SETTLE_DELAY);
    if net.wait == NoReceipt { return Some(AtWaiting); }
    ghost var s2 := chain.Abs();
    done := SettleBatch(chain, started, need, rescueN, net.settles);
    FromStart(s1, s2, chain.Abs(), started, need, rescueN);
    return if done then None else Some(AtSettling);
  }

  /** Open, bid, wait, settle. Wherever the network stops it, the protocol is
      consistent and no more than `need` traits were collected, none at all before
      the settlements. */
  method RunBatch(chain: Contracts, need: nat, rescueN: nat, bidder: nat, net: Network)
    returns (stop: Option<Stage>, started: seq<nat>, ghost spent: seq<nat>)
    requires Ready(chain)
    modifies chain
    ensures Ready(chain) && |started| <= need + rescueN && Between(old(chain.core), chain.core, need)
    ensures |started| <= |spent| <= |started| + |Strays(net.opens)|
    ensures chain.wei.liveBid + LIST_WEI * |spent| == old(chain.wei.liveBid)
    ensures stop in {None, Some(AtOpening), Some(AtBidding), Some(AtWaiting), Some(AtSettling)}
    ensures Smooth(net) ==> stop == None
    ensures stop.Some? && stop != Some(AtSettling) ==> chain.core.collected == old(chain.core.collected)
    ensures stop == None && |started| == need + rescueN ==>
      BatchDone(old(chain.Abs()), chain.Abs(), started, need, rescueN)
    ensures stop == None && |started| < need + rescueN ==>
      && Opening(chain.data, old(chain.Abs()), chain.Abs(), spent)
      && (old(chain.wei.liveBid) >= LIST_WEI * (need + rescueN + |Strays(net.opens)|) ==>
            NothingLeft(chain.data, chain.Abs(), net.opens))
  {
    hide Inv, Sealed, Ascending, NothingLeft, BatchDone, OpenAt, Opening, Between;
    ghost var d, s0 := chain.data, chain.Abs();
    var done;
    done, started, spent := OpenAuctions(chain, need + rescueN, net.opens);
    ghost var s1 := chain.Abs();
    OpeningFacts(d, s0, s1, spent);
    NothingCollected(s0.core, s1.core, need);
    if !done { return Some(AtOpening), started, spent; }
    if |started| < need + rescueN { return None, started, spent; }
    StartedOpen(d, s0, s1, spent, started);
    stop := FinishBatch(chain, started, need, rescueN, bidder, net);
    FromStart(s0, s1, chain.Abs(), started, need, rescueN);
  }

  lemma FromStart(s0: State, s1: State, s: State, started: seq<nat>, need: nat, rescueN: nat)
    requires |started| == need + rescueN
    requires s1.core.collected == s0.core.collected && s1.wei.pool == s0.wei.pool
    ensures Between(s1.core, s.core, need) ==> Between(s0.core, s.core, need)
    ensures BatchDone(s1, s, started, need, rescueN) ==> BatchDone(s0, s, started, need, rescueN)
  {
    hide PopCount, Shares, MaskGrows;
  }

  lemma SettledBid(s: State, s': State, ids: seq<nat>)
    requires (forall p :: p in ids ==> p in s.sales) && SettledAll(s, s', ids)
    ensures s'.wei.liveBid == s.wei.liveBid
  {
    hide PopCount, PoolAfter, UnsoldCount, SalesClosed;
  }

  // ---------- The driver ----------

  datatype SeedResult =
    | BadCount
    | NothingToDo
    | Stopped(stage: Stage)
    | TooFewOpened(started: seq<nat>)
    | BelowTarget
    | Seeded(collected: nat, started: seq<nat>, demo: Option<nat>)

  function Need(collected: nat, target: nat): nat {
    if target > collected then target - collected else 0
  }

  /** `openOneAuction` and the wait after it: the open loop with a limit of one. */
  method OpenDemo(chain: Contracts, net: Network) returns (done: bool, demo: Option<nat>)
    requires Ready(chain)
    modifies chain
    ensures Smooth(net) ==> done
    ensures Ready(chain) && chain.core.collected == old(chain.core.collected) && chain.wei.pool == old(chain.wei.pool)
    ensures forall p :: p in old(chain.core.indexOf) && p in old(chain.sales) ==>
      p in chain.sales && chain.sales[p] == old(chain.sales)[p]
    ensures done && demo.Some? ==> Due(chain.sales, chain.now, demo.value) && Unsold(chain.sales, demo.value)
    ensures done && demo == None && old(chain.wei.liveBid) >= LIST_WEI * (1 + |Strays(net.demoOpens)|) ==>
      NothingLeft(chain.data, chain.Abs(), net.demoOpens)
  {
    hide Inv, Sealed, Ascending, Opening, NothingLeft;
    ghost var d, s0 := chain.data, chain.Abs();
    var started; ghost var spent;
    done, started, spent := OpenAuctions(chain, 1, net.demoOpens);
    OpeningFacts(d, s0, chain.Abs(), spent);
    StartedOpen(d, s0, chain.Abs(), spent, started);
    if !done || |started| == 0 { return done, None; }
    if net.demoWait == NotSent { return false, None; }
    WeiKeeps(d, chain.Abs(), chain.wei, chain.now + SETTLE_DELAY);
    chain.Warp(SETTLE_DELAY);
    return net.demoWait == Mined, Some(started[0]);
  }

  /** What a finished run reports and leaves. */
  ghost predicate SeededState(s0: State, s: State, target: nat, rescueN: nat, collected: nat, started: seq<nat>) {
    var before := PopCount(s0.core.collected);
    && collected == PopCount(s.core.collected) == before + Need(before, target)
    && |started| == Need(before, target) + rescueN
    && (forall p :: p in started[..rescueN] ==> p in s.sales)
    && s.wei.pool == (if Need(before, target) == 0 then s0.wei.pool else 0) + Shares(s.sales, started[..rescueN])
  }

  lemma {:induction false} SharesFrame(before: map<nat, Sale>, after: map<nat, Sale>, ids: seq<nat>)
    requires forall p :: p in ids ==> p in before && p in after && after[p] == before[p]
    ensures Shares(after, ids) == Shares(before, ids)
    decreases |ids|
  {
    if ids != [] { SharesFrame(before, after, ids[1..]); }
  }

  ghost predicate ReachedTarget(c0: Core, c: Core, target: nat) {
    PopCount(c.collected) == PopCount(c0.collected) + Need(PopCount(c0.collected), target)
  }

  /** The simulated trades before the demo auction; what they throw is caught. */
  method SideTrades(chain: Contracts, adapter: Adapter, trades: seq<Trade>)
    requires Ready(chain)
    modifies chain, adapter
    ensures Ready(chain) && chain.Abs() == old(chain.Abs()).(wei := chain.wei)
    ensures chain.wei.liveBid >= old(chain.wei.liveBid) && chain.wei.pool == old(chain.wei.pool)
  {
    hide Inv, Sealed, AllTraded;
    ghost var g, s := Gauge(adapter.Abs(), chain.wei), chain.Abs();
    RunBatchOf(chain, adapter, trades);
    TradedKeeps(g, chain.core.log, trades);
    WeiKeeps(chain.data, s, chain.wei, s.now);
  }

  /** What the run has to fund, and whether its funding provides it. */
  function Budget(collected: nat, target: nat, rescueN: nat, wantDemo: bool): nat {
    LIST_WEI * (Need(collected, target) + rescueN + if wantDemo then 1 else 0) + SLACK_WEI
  }

  /** The auctions and the demo, once the bid is funded. */
  method SeedFunded(chain: Contracts, adapter: Adapter, target: nat, rescueN: nat, wantDemo: bool, side: seq<Trade>,
                    bidder: nat, net: Network)
    returns (r: SeedResult)
    requires Ready(chain)
    modifies chain, adapter
    ensures Ready(chain) &&
      Between(old(chain.core), chain.core, Need(PopCount(old(chain.core.collected)), target))
    ensures (r.Stopped? && r.stage != AtFunding) || r.TooFewOpened? || r.Seeded?
    ensures r.Seeded? ==> SeededState(old(chain.Abs()), chain.Abs(), target, rescueN, r.collected, r.started)
    ensures r.Seeded? && r.demo.Some? ==> Due(chain.sales, chain.now, r.demo.value) && Unsold(chain.sales, r.demo.value)
    ensures r.TooFewOpened? || (r.Stopped? && r.stage != AtSettling && r.stage != AtDemo) ==>
      chain.core.collected == old(chain.core.collected)
    ensures r.TooFewOpened? ==> |r.started| < Need(PopCount(old(chain.core.collected)), target) + rescueN
    ensures r == Stopped(AtDemo) ==> ReachedTarget(old(chain.core), chain.core, target)
    ensures !wantDemo ==> (r.Seeded? ==> r.demo == None) && r != Stopped(AtDemo)
    ensures Smooth(net) ==> !r.Stopped?
    ensures
      |Strays(net.opens)| + |Strays(net.demoOpens)| <= 20
      && old(chain.wei.liveBid) >= Budget(PopCount(old(chain.core.collected)), target, rescueN, wantDemo) ==>
      && (r.TooFewOpened? ==> NothingLeft(chain.data, chain.Abs(), net.opens))
      && (r.Seeded? && wantDemo && r.demo == None ==> NothingLeft(chain.data, chain.Abs(), net.demoOpens))
  {
    hide Inv, Sealed, NothingLeft, Opening, PopCount, Between;
    ghost var c0, s1 := chain.core, chain.Abs();
    var collected := PopCount(chain.core.collected);
    var need := Need(collected, target);
    var total := need + rescueN;
    NothingCollected(c0, c0, need);
    var started: seq<nat>, demo: Option<nat> := [], None;
    ghost var spent := [];
    if total > 0 {
      var stop;
      stop, started, spent := RunBatch(chain, need, rescueN, bidder, net);
      if stop.Some? { return Stopped(stop.value); }
      if |started| < total {
        OpeningFacts(chain.data, s1, chain.Abs(), spent);
        return TooFewOpened(started);
      }
    }
    ghost var s2 := chain.Abs();
    if wantDemo {
      SideTrades(chain, adapter, side);
      var done;
      done, demo := OpenDemo(chain, net);
      SameCollected(c0, s2.core, chain.core, need);
      if !done { return Stopped(AtDemo); }
      if total > 0 { SharesFrame(s2.sales, chain.sales, started[..rescueN]); }
    }
    var final := PopCount(chain.core.collected);
    if final < target { return BelowTarget; }
    return Seeded(final, started, demo);
  }

  /** There is nothing for a run to do. */
  predicate NoWork(collected: nat, target: nat, rescueN: nat, wantDemo: bool) {
    collected >= target && rescueN == 0 && !wantDemo
  }

  /** `main`: from any reachable state and whatever the network does, the
      protocol is consistent wherever the run ends and at most the missing traits
      were collected. A run that comes to its end has exactly the target collected
      (or more, if there were more), rescued Punks adding none, the pool holding
      the rescued shares, and the demo auction ended and unsold; the final count
      check never fires. A funded run opens too few only when no Punk is left. */
  method Seed(chain: Contracts, adapter: Adapter, target: nat, rescueN: nat, wantDemo: bool, fast: bool,
              batches: nat -> Batch, mint: Mint, side: seq<Trade>, bidder: nat, net: Network)
    returns (r: SeedResult)
    requires Ready(chain)
    modifies chain, adapter
    ensures Ready(chain) &&
      Between(old(chain.core), chain.core, Need(PopCount(old(chain.core.collected)), target))
    ensures r == BadCount <==> target < 1 || target > TRAIT_COUNT
    ensures r == NothingToDo <==>
      (1 <= target <= TRAIT_COUNT && NoWork(PopCount(old(chain.core.collected)), target, rescueN, wantDemo))
    ensures r == BadCount || r == NothingToDo ==> chain.Abs() == old(chain.Abs()) && adapter.Abs() == old(adapter.Abs())
    ensures r == Stopped(AtFunding) ==> chain.Abs() == old(chain.Abs()).(wei := chain.wei)
    ensures !r.BelowTarget?
    ensures r.Seeded? ==> SeededState(old(chain.Abs()), chain.Abs(), target, rescueN, r.collected, r.started)
    ensures r.Seeded? && r.demo.Some? ==> Due(chain.sales, chain.now, r.demo.value) && Unsold(chain.sales, r.demo.value)
    ensures r.TooFewOpened? || (r.Stopped? && r.stage != AtSettling && r.stage != AtDemo) ==>
      chain.core.collected == old(chain.core.collected)
    ensures r.TooFewOpened? ==> |r.started| < Need(PopCount(old(chain.core.collected)), target) + rescueN
    ensures r == Stopped(AtDemo) ==> ReachedTarget(old(chain.core), chain.core, target)
    ensures !wantDemo ==> (r.Seeded? ==> r.demo == None) && r != Stopped(AtDemo)
    ensures
      var budget := Budget(PopCount(old(chain.core.collected)), target, rescueN, wantDemo);
      var g := Gauge(old(adapter.Abs()), old(chain.wei));
      |Strays(net.opens)| + |Strays(net.demoOpens)| <= 20
      && Reaches(g, old(chain.core.log), budget, fast, batches, mint) ==>
      && (Smooth(net) ==> !r.Stopped?)
      && (r.TooFewOpened? ==> NothingLeft(chain.data, chain.Abs(), net.opens))
      && (r.Seeded? && wantDemo && r.demo == None ==> NothingLeft(chain.data, chain.Abs(), net.demoOpens))
  {
    hide Inv, Sealed, NothingLeft, PopCount, Funded, Between, Budget, Smooth;
    ghost var c0 := chain.core;
    var collected := PopCount(chain.core.collected);
    NothingCollected(c0, c0, Need(collected, target));
    if target < 1 || target > TRAIT_COUNT { return BadCount; }
    if Need(collected, target) + rescueN == 0 && !wantDemo { return NothingToDo; }
    var funded := FundBid(chain, adapter, Budget(collected, target, rescueN, wantDemo), fast, batches, mint);
    if !funded { return Stopped(AtFunding); }
    r := SeedFunded(chain, adapter, target, rescueN, wantDemo, side, bidder, net);
  }

  lemma SameCollected(c0: Core, c1: Core, c2: Core, need: nat)
    requires Between(c0, c1, need) && c2.collected == c1.collected
    ensures Between(c0, c2, need)
  {
  }
}
