/** Every transaction keeps the protocol's invariant, so every run does; and
    what holds over whole runs. */
module ProtocolRuns {
  import opened Wrappers
  import opened TraitMasks
  import opened Collection
  import opened ReturnAuctions
  import opened Protocol
  import opened ProtocolSafety

  // ---------- Acquisition ----------

  lemma AcquireShape(d: Dataset, s: State, p: nat, t: nat, cost: nat, acquirer: Addr, seller: Addr)
    requires |d.masks| == PUNK_COUNT && |d.carriers| == TRAIT_COUNT && p < PUNK_COUNT && cost <= s.wei.liveBid
    requires Acquire(d, s, p, t, cost, acquirer, seller).Ok?
    ensures RecordAcquisition(d, s.core, p, t, d.masks[p], acquirer, seller, cost).Ok?
    ensures !LiveSale(s.sales, p)
    ensures Acquire(d, s, p, t, cost, acquirer, seller).value == s.(
        core := Recorded(s.core, p, Acquisition(p, t, d.masks[p], acquirer, seller, cost, InReturnAuction)),
        sales := s.sales[p := NewSale(cost, Reserve(cost, AttemptsOf(s.core, t)), t, s.now)],
        owner := s.owner[p := Module],
        offers := s.offers - {p},
        wei := s.wei.(liveBid := s.wei.liveBid - cost, credits := s.wei.credits + cost))
  {
    var r := RecordAcquisition(d, s.core, p, t, d.masks[p], acquirer, seller, cost);
    if r.Ok? { RecordNeeds(d, s.core, p, t, d.masks[p], acquirer, seller, cost); }
  }

  lemma AcquireKeeps(d: Dataset, s: State, p: nat, t: nat, cost: nat, acquirer: Addr, seller: Addr)
    requires Sealed(d) && Inv(d, s) && p < PUNK_COUNT && 0 < cost <= s.wei.liveBid
    requires |d.masks| == PUNK_COUNT && |d.carriers| == TRAIT_COUNT
    requires Acquire(d, s, p, t, cost, acquirer, seller).Ok?
    ensures Inv(d, Acquire(d, s, p, t, cost, acquirer, seller).value)
  {
    hide CoreInv, SalesMatch, Held, OffersReal, ProofsExact, ProofsPaid, Solvent, Sealed, Acquire, RecordAcquisition;
    var row := Acquisition(p, t, d.masks[p], acquirer, seller, cost, InReturnAuction);
    var sale := NewSale(cost, Reserve(cost, AttemptsOf(s.core, t)), t, s.now);
    AcquireShape(d, s, p, t, cost, acquirer, seller);
    RecordNeeds(d, s.core, p, t, d.masks[p], acquirer, seller, cost);
    RecordKeeps(d, s.core, p, t, d.masks[p], acquirer, seller, cost);
    ReserveAboveCost(cost, AttemptsOf(s.core, t));
    NotLocked(s.owner, s.locked, s.core, p);
    SalesOpen(s.sales, s.core.log, s.core.indexOf, s.core.custody, p, sale, row);
    HeldOpen(s.owner, s.locked, s.core.custody, p);
    OffersSold(s.offers, s.owner, p, Module);
    ProofsKept(s.proofs, s.core.log, s.core.indexOf, s.locked, s.core.custody, p, row);
    SolventAfter(s.wei.auctions, s.sales, s.wei.refunds, p, sale, s.wei.auctions);
  }

  lemma AcceptBidKeeps(d: Dataset, s: State, p: nat, t: nat, expected: nat)
    requires Sealed(d) && Inv(d, s) && |d.masks| == PUNK_COUNT && |d.carriers| == TRAIT_COUNT
    requires AcceptBid(d, s, p, t, expected).Ok?
    ensures Inv(d, AcceptBid(d, s, p, t, expected).value)
  {
    hide Inv, Sealed, Acquire, CanonicalTarget;
    AcquireKeeps(d, s, p, t, s.offers[p].price, s.offers[p].seller, s.offers[p].seller);
  }

  lemma AcceptListingKeeps(d: Dataset, s: State, p: nat, t: nat, finder: Addr, active: bool, finderOk: bool)
    requires Sealed(d) && Inv(d, s) && |d.masks| == PUNK_COUNT && |d.carriers| == TRAIT_COUNT
    requires AcceptListing(d, s, p, t, finder, active, finderOk).Ok?
    ensures Inv(d, AcceptListing(d, s, p, t, finder, active, finderOk).value)
  {
    hide Sealed, Acquire, CanonicalTarget, CoreInv, SalesMatch, Held, OffersReal, ProofsExact, ProofsPaid, Solvent;
    var fee := FinderFee(s.wei.liveBid);
    var s1 := s.(wei := s.wei.(liveBid := s.wei.liveBid - fee, paidOut := s.wei.paidOut + fee));
    assert Inv(d, s1);
    AcquireKeeps(d, s1, p, t, s.offers[p].price, finder, s.offers[p].seller);
  }

  // ---------- Bidding ----------

  lemma PlaceBidKeeps(d: Dataset, s: State, p: nat, id: nat, value: nat, referrer: Addr, refundOk: bool)
    requires Inv(d, s) && PlaceBid(s, p, User(id), value, referrer, refundOk).Ok?
    ensures Inv(d, PlaceBid(s, p, User(id), value, referrer, refundOk).value)
  {
    hide CoreInv, Held, OffersReal, ProofsExact, ProofsPaid, Solvent, SalesMatch;
    var s' := PlaceBid(s, p, User(id), value, referrer, refundOk).value;
    var sale := s.sales[p];
    SaleKnown(s.sales, s.core.log, s.core.indexOf, s.core.custody, p);
    SalesBid(s.sales, s.core.log, s.core.indexOf, s.core.custody, p, s'.sales[p]);
    BidSolvent(s.wei, s.sales, p, s'.sales[p], value, refundOk);
  }

  lemma SaleKnown(sales: map<nat, Sale>, log: seq<Acquisition>, indexOf: map<nat, nat>, custody: map<nat, Custody>,
                  p: nat)
    requires SalesMatch(sales, log, indexOf, custody) && LiveSale(sales, p)
    ensures p < PUNK_COUNT && SaleOk(sales[p])
    ensures p in custody && custody[p] == InReturnAuction && p in indexOf && 1 <= indexOf[p] <= |log|
    ensures log[indexOf[p] - 1].target == sales[p].target
  {
  }

  /** The new bid comes in; the outbid one goes out or is queued. */
  lemma BidSolvent(w: Ledger, sales: map<nat, Sale>, p: nat, sale': Sale, value: nat, refundOk: bool)
    requires Solvent(w.auctions, sales, w.refunds) && LiveSale(sales, p) && p < PUNK_COUNT
    requires sale'.highBid == value && !sale'.settled
    requires sales[p].highBidder == Zero <==> sales[p].highBid == 0
    ensures var w' := Refunded(w, sales[p], value, refundOk);
      Solvent(w'.auctions, sales[p := sale'], w'.refunds)
  {
    var outbid := sales[p];
    HeldBidCovered(w.auctions, sales, w.refunds, p);
    StandingUpdate(sales, p, sale', PUNK_COUNT);
    OwedUpdate(w.refunds, outbid.highBidder, RefundOf(w.refunds, outbid.highBidder) + outbid.highBid);
  }

  lemma WithdrawKeeps(d: Dataset, s: State, bidder: Addr)
    requires Inv(d, s) && Withdraw(s, bidder).Ok?
    ensures Inv(d, Withdraw(s, bidder).value)
  {
    hide CoreInv, Held, OffersReal, ProofsExact, ProofsPaid, SalesMatch;
    OwedUpdate(s.wei.refunds, bidder, 0);
  }

  // ---------- Settlement ----------

  lemma ClearedKeeps(d: Dataset, s: State, p: nat, referrerOk: bool)
    requires Inv(d, s) && LiveSale(s.sales, p) && s.sales[p].highBidder != Zero
    requires p in s.core.indexOf ==> 1 <= s.core.indexOf[p] <= |s.core.log|
    ensures SettleCleared(s, p, referrerOk).Ok? && Inv(d, SettleCleared(s, p, referrerOk).value)
  {
    hide CoreInv, Held, OffersReal, ProofsExact, ProofsPaid, Solvent, SalesMatch, MarkCustody, Marked;
    var c, sale := s.core, s.sales[p];
    SaleKnown(s.sales, c.log, c.indexOf, c.custody, p);
    var i := c.indexOf[p] - 1;
    HeldBidCovered(s.wei.auctions, s.sales, s.wei.refunds, p);
    MarkKeeps(d, c, p, ReturnedToMarket);
    MarkedShape(c, p, i, ReturnedToMarket);
    NotLocked(s.owner, s.locked, c, p);
    SalesClose(s.sales, c.log, c.indexOf, c.custody, p, ReturnedToMarket);
    HeldReturned(s.owner, s.locked, c.custody, p, sale.highBidder);
    OffersSold(s.offers, s.owner, p, sale.highBidder);
    ProofsSettled(s.proofs, c.log, c.indexOf, s.locked, i, ReturnedToMarket);
    SolventAfter(s.wei.auctions, s.sales, s.wei.refunds, p, sale.(settled := true), s.wei.auctions - sale.highBid);
  }

  lemma MarkedShape(c: Core, p: nat, i: nat, outcome: Custody)
    requires i < |c.log|
    ensures Marked(c, p, i, outcome).log == c.log[i := c.log[i].(custody := outcome)]
    ensures Marked(c, p, i, outcome).indexOf == c.indexOf
    ensures Marked(c, p, i, outcome).custody == c.custody[p := outcome]
    ensures outcome == ReturnedToMarket ==> Marked(c, p, i, outcome).firstVaulted == c.firstVaulted
    ensures outcome == Vaulted && !Bit(c.collected, c.log[i].target) ==>
      Marked(c, p, i, outcome).firstVaulted == c.firstVaulted[c.log[i].target := p]
  {
  }

  lemma VaultedComputes(s: State, p: nat, i: nat, forwardOk: bool)
    requires LiveSale(s.sales, p) && p in s.core.indexOf && s.core.indexOf[p] == i + 1 && i < |s.core.log|
    requires p !in s.locked && MarkCustody(s.core, p, Vaulted) == Ok(Marked(s.core, p, i, Vaulted))
    requires s.sales[p].target < TRAIT_COUNT && s.sales[p].target !in s.proofs
    requires s.core.log[i].originalSeller != Zero
    ensures SettleVaulted(s, p, forwardOk) == Ok(VaultedState(s, p, Marked(s.core, p, i, Vaulted),
        Proof(p, s.core.log[i].originalSeller, PopCount(Marked(s.core, p, i, Vaulted).collected)), forwardOk))
  {
    hide MarkCustody, Marked, Bit, PopCount, VaultedState;
  }

  /** The vault outcome never reverts: it collects an open trait and mints its
      Proof to the seller of record with the next number. */
  lemma VaultedSettles(d: Dataset, s: State, p: nat, i: nat, forwardOk: bool)
    requires Inv(d, s) && LiveSale(s.sales, p)
    requires p in s.core.indexOf && s.core.indexOf[p] == i + 1 && i < |s.core.log|
    ensures !Bit(s.core.collected, s.sales[p].target)
    ensures SettleVaulted(s, p, forwardOk) == Ok(VaultedState(s, p, Marked(s.core, p, i, Vaulted),
        Proof(p, s.core.log[i].originalSeller, |s.proofs| + 1), forwardOk))
  {
    hide CoreInv, Held, OffersReal, ProofsExact, ProofsPaid, Solvent, SalesMatch, MarkCustody, Marked, Bit, PopCount,
      SettleVaulted, VaultedState;
    var c := s.core;
    SaleKnown(s.sales, c.log, c.indexOf, c.custody, p);
    MarkKeeps(d, c, p, Vaulted);
    NotLocked(s.owner, s.locked, c, p);
    FreshProof(d, c, p, s.proofs);
    VaultedComputes(s, p, i, forwardOk);
  }

  lemma VaultedKeeps(d: Dataset, s: State, p: nat, i: nat, forwardOk: bool)
    requires Inv(d, s) && LiveSale(s.sales, p) && s.sales[p].highBidder == Zero
    requires p in s.core.indexOf && s.core.indexOf[p] == i + 1 && i < |s.core.log|
    ensures Inv(d, VaultedState(s, p, Marked(s.core, p, i, Vaulted),
        Proof(p, s.core.log[i].originalSeller, |s.proofs| + 1), forwardOk))
  {
    hide CoreInv, Held, OffersReal, ProofsExact, ProofsPaid, Solvent, SalesMatch, MarkCustody, Marked, Bit, PopCount;
    var c, t := s.core, s.sales[p].target;
    var proof := Proof(p, c.log[i].originalSeller, |s.proofs| + 1);
    SaleKnown(s.sales, c.log, c.indexOf, c.custody, p);
    MarkKeeps(d, c, p, Vaulted);
    MarkedShape(c, p, i, Vaulted);
    FreshProof(d, c, p, s.proofs);
    SalesClose(s.sales, c.log, c.indexOf, c.custody, p, Vaulted);
    HeldVaulted(s.owner, s.locked, c.custody, p);
    OffersSold(s.offers, s.owner, p, Vault);
    ProofsSettled(s.proofs, c.log, c.indexOf, s.locked, i, Vaulted);
    ProofPaid(s.proofs, c.log[i := c.log[i].(custody := Vaulted)], c.indexOf, s.locked, t, proof);
    ProofMinted(s.proofs, c.firstVaulted, t, proof);
    SolventAfter(s.wei.auctions, s.sales, s.wei.refunds, p, s.sales[p].(settled := true), s.wei.auctions);
  }

  /** The vaulted target has no Proof yet, a real trait and a real seller, and
      the population count after it is the number of Proofs plus one. */
  lemma FreshProof(d: Dataset, c: Core, p: nat, proofs: map<nat, Proof>)
    requires CoreInv(d, c) && InAuction(c, p) && p in c.indexOf && 1 <= c.indexOf[p] <= |c.log|
    requires ProofsExact(proofs, c.firstVaulted)
    ensures var row := c.log[c.indexOf[p] - 1];
      && row.target !in proofs && row.target < TRAIT_COUNT && row.originalSeller != Zero
      && PopCount(Marked(c, p, c.indexOf[p] - 1, Vaulted).collected) == |proofs| + 1
  {
    hide IndexOk, RowsMatch, HistoryFrozen, PendingExact, AttemptsExact;
    var rows: Rows, claims: map<nat, nat> :| CoreInvAt(d, c, rows, claims);
    FlyingIff(d, c, rows, claims, p);
    FlyingFacts(d, c, rows, claims, p);
    SetBitIsOr(c.collected, rows[p].target);
    assert |proofs| == |proofs.Keys| == |c.firstVaulted.Keys| == |c.firstVaulted|;
  }

  /** A return auction can always be settled once its time is up, by anyone, and
      settling keeps the invariant: no reachable state wedges a pending trait. */
  lemma SettleLands(d: Dataset, s: State, p: nat, referrerOk: bool, forwardOk: bool)
    requires Inv(d, s) && p in s.core.indexOf && 1 <= s.core.indexOf[p] <= |s.core.log|
    requires LiveSale(s.sales, p) && s.now >= s.sales[p].endsAt
    ensures Settle(s, p, referrerOk, forwardOk).Ok?
    ensures Inv(d, Settle(s, p, referrerOk, forwardOk).value)
  {
    hide Inv, SettleVaulted, SettleCleared, VaultedState;
    if s.sales[p].highBidder == Zero {
      VaultedSettles(d, s, p, s.core.indexOf[p] - 1, forwardOk);
      VaultedKeeps(d, s, p, s.core.indexOf[p] - 1, forwardOk);
    } else {
      ClearedKeeps(d, s, p, referrerOk);
    }
  }

  lemma SettleNeeds(s: State, p: nat, referrerOk: bool, forwardOk: bool)
    requires p in s.core.indexOf ==> 1 <= s.core.indexOf[p] <= |s.core.log|
    requires Settle(s, p, referrerOk, forwardOk).Ok?
    ensures LiveSale(s.sales, p) && s.now >= s.sales[p].endsAt
  {
    hide SettleVaulted, SettleCleared;
  }

  // ---------- Steps and runs ----------

  lemma InvIndex(d: Dataset, s: State)
    requires Inv(d, s)
    ensures forall p :: p in s.core.indexOf ==> 1 <= s.core.indexOf[p] <= |s.core.log|
    ensures forall p :: LiveSale(s.sales, p) ==> p in s.core.indexOf
  {
    hide CoreInv, Held, OffersReal, ProofsExact, ProofsPaid, Solvent;
    IndexBounds(d, s.core);
  }

  lemma ListKeeps(d: Dataset, s: State, p: nat, caller: Addr, price: nat, to: Addr)
    requires Inv(d, s) && List(s, p, caller, price, to).Ok?
    ensures Inv(d, List(s, p, caller, price, to).value)
  {
    hide CoreInv, Held, ProofsExact, ProofsPaid, Solvent, SalesMatch;
  }

  lemma TransferKeeps(d: Dataset, s: State, p: nat, caller: Addr, to: Addr)
    requires Inv(d, s) && Transfer(s, p, caller, to).Ok?
    ensures Inv(d, Transfer(s, p, caller, to).value)
  {
    hide CoreInv, ProofsExact, ProofsPaid, Solvent, SalesMatch;
  }

  lemma WeiKeeps(d: Dataset, s: State, w: Ledger, now: nat)
    requires Inv(d, s) && w.auctions == s.wei.auctions && w.refunds == s.wei.refunds
    ensures Inv(d, s.(wei := w)) && Inv(d, s.(now := now))
  {
    hide CoreInv, Held, OffersReal, ProofsExact, ProofsPaid, Solvent, SalesMatch;
  }

  /** Every transaction keeps the invariant. */
  lemma StepKeeps(d: Dataset, s: State, op: Op)
    requires Sealed(d) && Inv(d, s) && |d.masks| == PUNK_COUNT && |d.carriers| == TRAIT_COUNT
    requires forall p :: p in s.core.indexOf ==> 1 <= s.core.indexOf[p] <= |s.core.log|
    requires Step(d, s, op).Ok?
    ensures Inv(d, Step(d, s, op).value)
  {
    hide Inv, Sealed, AcceptBid, AcceptListing, PlaceBid, Withdraw, Settle, List, Transfer;
    var s' := Step(d, s, op).value;
    match op
    case OpFund(_) => WeiKeeps(d, s, s'.wei, s.now);
    case OpMeter(_) => WeiKeeps(d, s, s'.wei, s.now);
    case OpDonate(_) => WeiKeeps(d, s, s'.wei, s.now);
    case OpWarp(_) => WeiKeeps(d, s, s.wei, s'.now);
    case OpList(p, caller, price, to) => ListKeeps(d, s, p, caller, price, to);
    case OpTransfer(p, caller, to) => TransferKeeps(d, s, p, caller, to);
    case OpAcceptBid(p, t, expected) => AcceptBidKeeps(d, s, p, t, expected);
    case OpAcceptListing(p, t, finder, active, finderOk) =>
      AcceptListingKeeps(d, s, p, t, finder, active, finderOk);
    case OpPlaceBid(p, id, value, referrer, refundOk) => PlaceBidKeeps(d, s, p, id, value, referrer, refundOk);
    case OpWithdraw(bidder) => WithdrawKeeps(d, s, bidder);
    case OpSettle(p, referrerOk, forwardOk) =>
      SettleNeeds(s, p, referrerOk, forwardOk);
      InvIndex(d, s);
      SettleLands(d, s, p, referrerOk, forwardOk);
  }

  /** A run of transactions; a reverted one changes nothing. */
  ghost function Run(d: Dataset, s: State, ops: seq<Op>): (s': State)
    requires Sealed(d) && Inv(d, s)
    ensures Inv(d, s')
    decreases |ops|
  {
    if ops == [] then s
    else
      InvIndex(d, s);
      match Step(d, s, ops[0])
      case Err(_) => Run(d, s, ops[1..])
      case Ok(s1) => StepKeeps(d, s, ops[0]); Run(d, s1, ops[1..])
  }

  lemma InitialInv(d: Dataset, s: State)
    requires Initial(s)
    ensures Inv(d, s)
  {
    hide CoreInv;
    EmptyCore(d);
    StandingEmpty(PUNK_COUNT);
  }
}
