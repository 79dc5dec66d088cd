/** Return-auction arithmetic: contracts/src/ReturnAuctionModule.sol, and the
    figures app/components/AuctionDetailView.tsx shows for it. */
module ReturnAuctions {
  import opened Wrappers

  const BPS_DENOM: nat := 10_000
  const CLEARED_BID_BPS: nat := 6500
  const CLEARED_VAULT_BURN_BPS: nat := 1000
  const REFERRER_PREMIUM_BPS: nat := 500
  const MIN_BID_INCREMENT_BPS: nat := 100

  // ---------- The contract ----------

  /** `startSale`: cost * (101 + previous attempts) / 100, rounded up. */
  function Reserve(cost: nat, previousAttempts: nat): nat {
    var product := cost * (101 + previousAttempts);
    if product == 0 then 0 else (product + 99) / 100
  }

  /** `_placeBid`: the least bid that beats a standing `high`. */
  function MinNext(high: nat): nat {
    var minNext := high + high * MIN_BID_INCREMENT_BPS / BPS_DENOM;
    if minNext <= high then high + 1 else minNext
  }

  /** `_placeBid`: may `value` be bid over `high` (0 = no bid yet)? */
  predicate BidAccepted(reserve: nat, high: nat, value: nat) {
    value >= reserve && (if high == 0 then value > 0 else value >= MinNext(high))
  }

  /** Where a winning bid goes on a cleared settlement. */
  datatype Split = Split(liveBid: nat, burn: nat, referrer: nat, vaultBurn: nat)

  /** `settle`, cleared path. `referred`: the winning bid carries a referrer;
      `refOk`: the send to that referrer succeeds. */
  function ClearedSplit(cost: nat, highBid: nat, referred: bool, refOk: bool): Split
    requires cost <= highBid
  {
    var liveBid := cost * CLEARED_BID_BPS / BPS_DENOM;
    var vaultBurnFromCost := cost * CLEARED_VAULT_BURN_BPS / BPS_DENOM;
    var premium := highBid - cost;
    var referrer := if referred && refOk then premium * REFERRER_PREMIUM_BPS / BPS_DENOM else 0;
    Split(liveBid, cost - liveBid - vaultBurnFromCost, referrer, premium - referrer + vaultBurnFromCost)
  }

  /** The premium: the reserve always exceeds the cost, by at least one wei and
      at least a hundredth of the cost, more for every earlier attempt. */
  lemma ReserveAboveCost(cost: nat, previousAttempts: nat)
    ensures cost > 0 ==> Reserve(cost, previousAttempts) > cost
    ensures 100 * Reserve(cost, previousAttempts) >= cost * (101 + previousAttempts)
    ensures 100 * Reserve(cost, previousAttempts) < cost * (101 + previousAttempts) + 100
  {
    assert cost * (101 + previousAttempts) == 101 * cost + cost * previousAttempts;
  }

  /** Every wei of the winning bid is paid out, whoever referred it, and the
      live-bid and burn shares do not depend on the referrer. */
  lemma SplitConserves(cost: nat, highBid: nat, referred: bool, refOk: bool)
    requires cost <= highBid
    ensures var s := ClearedSplit(cost, highBid, referred, refOk);
      && s.liveBid + s.burn + s.referrer + s.vaultBurn == highBid
      && s.liveBid == ClearedSplit(cost, highBid, false, false).liveBid
      && s.burn == ClearedSplit(cost, highBid, false, false).burn
      && 20 * s.referrer <= highBid - cost
      && 10 * s.vaultBurn + 9 >= cost
  {
  }

  // ---------- The page ----------

  datatype BidEntry = BidEntry(bidder: nat, amount: nat)

  /** `minNextBid`: the floor the bid composer is given. */
  function ShownMinNext(reserve: nat, high: nat): nat {
    if high > 0 then high + high * 100 / 10_000 else reserve
  }

  /** The shown floor is the reserve, or a hundredth, rounded down, above a standing
      bid. */
  lemma ShownFloorIs(reserve: nat, high: nat)
    ensures var shown := ShownMinNext(reserve, high);
      if high == 0 then shown == reserve
      else shown >= high && 100 * (shown - high) <= high < 100 * (shown - high + 1)
  {
    assert high * 100 / 10_000 == high / 100;
  }

  /** The shown floor is the contract's floor exactly when no bid stands and
      the reserve is positive, or the standing bid is at least 100 wei. */
  lemma ShownFloorIsExact(reserve: nat, high: nat)
    requires high == 0 || high >= reserve
    ensures (forall value: nat :: BidAccepted(reserve, high, value) <==> value >= ShownMinNext(reserve, high))
      <==> (if high == 0 then reserve > 0 else high >= 100)
  {
    var shown := ShownMinNext(reserve, high);
    if (if high == 0 then reserve > 0 else high >= 100) {
      assert forall value: nat :: BidAccepted(reserve, high, value) <==> value >= shown;
    } else {
      assert !BidAccepted(reserve, high, shown) && shown >= shown;
    }
  }

  /** `top` is the first entry of the largest amount. */
  ghost predicate IsFirstMax(bids: seq<BidEntry>, top: BidEntry) {
    exists k :: 0 <= k < |bids| && bids[k] == top
      && (forall j :: 0 <= j < |bids| ==> bids[j].amount <= top.amount)
      && (forall j :: 0 <= j < k ==> bids[j].amount < top.amount)
  }

  /** The max-by-amount reduction over the live bid list. */
  method TopBid(bids: seq<BidEntry>) returns (top: Option<BidEntry>)
    ensures top == None <==> bids == []
    ensures top.Some? ==> IsFirstMax(bids, top.value)
  {
    top := None;
    ghost var at := 0;
    for i := 0 to |bids|
      invariant top == None <==> i == 0
      invariant top.Some? ==> 0 <= at < i && bids[at] == top.value
      invariant top.Some? ==> forall j :: 0 <= j < i ==> bids[j].amount <= top.value.amount
      invariant top.Some? ==> forall j :: 0 <= j < at ==> bids[j].amount < top.value.amount
    {
      if top == None || bids[i].amount > top.value.amount {
        top := Some(bids[i]);
        at := i;
      }
    }
  }

  /** Bid `i` of the run was accepted over the one before it. */
  predicate AcceptedAt(reserve: nat, bids: seq<BidEntry>, i: nat)
    requires i < |bids|
  {
    BidAccepted(reserve, if i == 0 then 0 else bids[i - 1].amount, bids[i].amount)
  }

  /** A run of accepted bids: the first meets the reserve, each other one beats
      the one before. */
  ghost predicate AcceptedRun(reserve: nat, bids: seq<BidEntry>) {
    forall i :: 0 <= i < |bids| ==> AcceptedAt(reserve, bids, i)
  }

  lemma {:induction false} RunRises(reserve: nat, bids: seq<BidEntry>, i: nat, j: nat)
    requires AcceptedRun(reserve, bids) && i < j < |bids|
    ensures bids[i].amount < bids[j].amount
    decreases j
  {
    assert AcceptedAt(reserve, bids, j) && AcceptedAt(reserve, bids, j - 1);
    if i + 1 < j { RunRises(reserve, bids, i, j - 1); }
  }

  /** After k further bids the price is at least the reserve plus k hundredths
      of it: keeping an auction open costs at least linearly. */
  lemma {:induction false} RunGrows(reserve: nat, bids: seq<BidEntry>, k: nat)
    requires AcceptedRun(reserve, bids) && k < |bids|
    ensures bids[k].amount >= reserve + k * (reserve / 100)
    decreases k
  {
    assert AcceptedAt(reserve, bids, k);
    if k > 0 {
      RunGrows(reserve, bids, k - 1);
      var high := bids[k - 1].amount;
      assert MinNext(high) >= high + high / 100;
      assert high / 100 >= reserve / 100 by { DivMonotone(reserve, high); }
      assert k * (reserve / 100) == (k - 1) * (reserve / 100) + reserve / 100;
    }
  }

  lemma DivMonotone(a: nat, b: nat)
    requires a <= b
    ensures a / 100 <= b / 100
  {
  }

  /** The list may arrive in any order: a bid of the largest amount is the last
      bid of the run, with its bidder. */
  lemma TopIsLatest(reserve: nat, run: seq<BidEntry>, listed: seq<BidEntry>, top: BidEntry)
    requires AcceptedRun(reserve, run) && run != []
    requires multiset(listed) == multiset(run)
    requires IsFirstMax(listed, top)
    ensures top == run[|run| - 1]
  {
    assert top in multiset(listed) && top in run;
    var k :| 0 <= k < |run| && run[k] == top;
    assert run[|run| - 1] in multiset(run);
    assert run[|run| - 1] in listed;
    if k < |run| - 1 { RunRises(reserve, run, k, |run| - 1); }
  }

  /** `highBidWei` / `highBidder`: the newest of the server snapshot and the list. */
  function ShownHigh(ssr: BidEntry, top: Option<BidEntry>): BidEntry {
    if top.Some? && top.value.amount > ssr.amount then top.value else ssr
  }

  /** When the snapshot is some bid of the run (or nothing yet) and the list is
      the run so far, the page shows the standing bid and its bidder. */
  lemma ShownHighIsLatest(reserve: nat, run: seq<BidEntry>, listed: seq<BidEntry>, top: BidEntry, ssr: BidEntry)
    requires AcceptedRun(reserve, run) && run != []
    requires multiset(listed) == multiset(run)
    requires IsFirstMax(listed, top)
    requires ssr in run || ssr.amount == 0
    ensures ShownHigh(ssr, Some(top)) == run[|run| - 1]
  {
    TopIsLatest(reserve, run, listed, top);
    assert AcceptedAt(reserve, run, |run| - 1);
    if ssr in run {
      var k :| 0 <= k < |run| && run[k] == ssr;
      if k < |run| - 1 { RunRises(reserve, run, k, |run| - 1); }
    }
  }

  /** `SettledAuctionView` without event data: 65% and 25% of cost, rounded
      down, and the rest of the winning bid when there is any. */
  datatype ShownSplit = ShownSplit(liveBid: nat, burn: nat, vaultBurn: Option<nat>)

  function FallbackSplit(cost: nat, finalBid: nat): ShownSplit {
    var liveBid := cost * 6500 / 10000;
    var burn := cost * 2500 / 10000;
    ShownSplit(liveBid, burn, if finalBid > liveBid + burn then Some(finalBid - liveBid - burn) else None)
  }

  /** On any bid the contract could have accepted the rows sum to the winning
      bid: 65% and a quarter of cost, rounded down, and the vault-burn row, which is
      at least a tenth of the cost plus the premium above cost. */
  lemma FallbackConserves(cost: nat, previousAttempts: nat, finalBid: nat)
    requires cost > 0 && finalBid >= Reserve(cost, previousAttempts)
    ensures FallbackSplit(cost, finalBid).vaultBurn.Some?
    ensures var s := FallbackSplit(cost, finalBid);
      && s.liveBid + s.burn + s.vaultBurn.value == finalBid
      && 20 * s.liveBid <= 13 * cost < 20 * (s.liveBid + 1) && 4 * s.burn <= cost < 4 * (s.burn + 1)
      && 10 * s.vaultBurn.value >= cost + 10 * (finalBid - cost)
  {
    ReserveAboveCost(cost, previousAttempts);
  }

  lemma CostShares(q: nat, r: nat)
    requires r < 20
    ensures (20 * q + r) * 6500 / 10000 == 13 * q + 13 * r / 20
    ensures (20 * q + r) * 1000 / 10000 == 2 * q + r / 10
    ensures (20 * q + r) * 2500 / 10000 == 5 * q + r / 4
  {
  }

  /** The fallback rows are the contract's shares exactly when the cost is a
      multiple of 20 wei: the contract gives the rounding dust of all three cost
      slices to the burn share, the page gives it to the vault-burn row. */
  lemma FallbackMatchesContract(cost: nat, finalBid: nat)
    requires cost < finalBid
    ensures var shown := FallbackSplit(cost, finalBid);
      var paid := ClearedSplit(cost, finalBid, false, false);
      (shown == ShownSplit(paid.liveBid, paid.burn, Some(paid.vaultBurn))) <==> cost % 20 == 0
  {
    var q, r := cost / 20, cost % 20;
    CostShares(q, r);
  }
}
