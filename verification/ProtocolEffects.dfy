/** What each transaction records and moves, and why one is refused: each stated
    in full, apart from how the transaction computes it. */
module ProtocolEffects {
  import opened Wrappers
  import opened TraitMasks
  import opened Collection
  import opened ReturnAuctions
  import opened Protocol
  import opened ProtocolSafety
  import opened ProtocolRuns
  import opened LiveBid

  // ---------- Acquisitions ----------

  /** A Punk bought at `price` and put up for 72 hours: the log grows by its row, the
      module holds it, its auction opens without a bid, and only its own trait,
      owner, listing and auction change. */
  ghost predicate AcquiredFor(d: Dataset, s: State, s': State, p: nat, t: nat, acquirer: Addr, seller: Addr, price: nat)
    requires p < |d.masks|
  {
    && s'.core.log == s.core.log + [Acquisition(p, t, d.masks[p], acquirer, seller, price, InReturnAuction)]
    && s'.core.collected == s.core.collected
    && s'.sales == s.sales[p := Sale(price, 0, Zero, s.now + 259_200, Reserve(price, AttemptsOf(s.core, t)), t, false,
                                     Zero)]
    && s'.owner == s.owner[p := Module] && s'.offers == s.offers - {p}
    && s'.proofs == s.proofs && s'.locked == s.locked && s'.now == s.now
  }

  lemma AcquireIs(d: Dataset, s: State, p: nat, t: nat, cost: nat, acquirer: Addr, seller: Addr)
    requires |d.masks| == PUNK_COUNT && |d.carriers| == TRAIT_COUNT && p < PUNK_COUNT && cost <= s.wei.liveBid
    requires Acquire(d, s, p, t, cost, acquirer, seller).Ok?
    ensures var s' := Acquire(d, s, p, t, cost, acquirer, seller).value;
      && AcquiredFor(d, s, s', p, t, acquirer, seller, cost)
      && s'.wei == s.wei.(liveBid := s.wei.liveBid - cost, credits := s.wei.credits + cost)
  {
    hide RecordAcquisition, Acquire, Reserve;
    AcquireShape(d, s, p, t, cost, acquirer, seller);
  }

  /** `acceptBid` records the lister as acquirer and as original seller. The bid
      falls by the price, which the market owes the lister. */
  lemma BidRecords(d: Dataset, s: State, p: nat, t: nat, expected: nat)
    requires |d.masks| == PUNK_COUNT && |d.carriers| == TRAIT_COUNT && AcceptBid(d, s, p, t, expected).Ok?
    ensures p < PUNK_COUNT && p in s.offers
    ensures var s', offer := AcceptBid(d, s, p, t, expected).value, s.offers[p];
      && AcquiredFor(d, s, s', p, t, offer.seller, offer.seller, offer.price)
      && offer.price <= s.wei.liveBid
      && s'.wei == s.wei.(liveBid := s.wei.liveBid - offer.price, credits := s.wei.credits + offer.price)
  {
    hide Acquire, TargetProblem, AcquiredFor;
    AcquireIs(d, s, p, t, s.offers[p].price, s.offers[p].seller, s.offers[p].seller);
  }

  /** Half a percent of the bid, rounded down, but at most a hundredth of an ether. */
  ghost predicate FeeOf(fee: nat, liveBid: nat) {
    && 200 * fee <= liveBid && fee <= 10_000_000_000_000_000
    && (fee < 10_000_000_000_000_000 ==> liveBid < 200 * (fee + 1))
  }

  /** `acceptListing` records the finder as acquirer and the lister as original
      seller. The bid falls by the price, which the market owes the lister, and by
      the fee, which is paid to the finder. */
  lemma ListingRecords(d: Dataset, s: State, p: nat, t: nat, finder: Addr, active: bool, finderOk: bool)
    requires |d.masks| == PUNK_COUNT && |d.carriers| == TRAIT_COUNT
    requires AcceptListing(d, s, p, t, finder, active, finderOk).Ok?
    ensures p < PUNK_COUNT && p in s.offers
    ensures var s', offer := AcceptListing(d, s, p, t, finder, active, finderOk).value, s.offers[p];
      var fee := s'.wei.paidOut - s.wei.paidOut;
      && AcquiredFor(d, s, s', p, t, finder, offer.seller, offer.price)
      && fee >= 0 && FeeOf(fee, s.wei.liveBid) && offer.price + fee <= s.wei.liveBid
      && s'.wei == s.wei.(liveBid := s.wei.liveBid - offer.price - fee, credits := s.wei.credits + offer.price,
                          paidOut := s.wei.paidOut + fee)
  {
    hide Acquire, TargetProblem, AcquiredFor;
    var fee := FinderFee(s.wei.liveBid);
    var s1 := s.(wei := s.wei.(liveBid := s.wei.liveBid - fee, paidOut := s.wei.paidOut + fee));
    AcquireIs(d, s1, p, t, s.offers[p].price, finder, s.offers[p].seller);
    SameAcquired(d, s, s1, AcceptListing(d, s, p, t, finder, active, finderOk).value, p, t, finder, s.offers[p].seller,
                 s.offers[p].price);
  }

  lemma SameAcquired(d: Dataset, s: State, s1: State, s': State, p: nat, t: nat, acquirer: Addr, seller: Addr,
                     price: nat)
    requires p < |d.masks| && AcquiredFor(d, s1, s', p, t, acquirer, seller, price) && s1 == s.(wei := s1.wei)
    ensures AcquiredFor(d, s, s', p, t, acquirer, seller, price)
  {
  }

  // ---------- What an acquisition does to the adapter's threshold ----------

  /** After an accepted bid the next sweep acts on three quarters of its price. */
  lemma BidSetsThreshold(d: Dataset, s: State, p: nat, t: nat, expected: nat, m: Meter)
    requires Sealed(d) && Inv(d, s) && |d.masks| == PUNK_COUNT && |d.carriers| == TRAIT_COUNT
    requires AcceptBid(d, s, p, t, expected).Ok? && m.synced <= |s.core.log|
    ensures p in s.offers
    ensures var log := AcceptBid(d, s, p, t, expected).value.core.log;
      && ThresholdOf(Synced(m, log).threshold, s.offers[p].price)
      && Synced(m, log) == m.(threshold := Synced(m, log).threshold, synced := |s.core.log| + 1)
  {
    hide AcceptBid, Sealed, CoreInv, SalesMatch, Held, ProofsExact, ProofsPaid, Solvent, Synced;
    BidRecords(d, s, p, t, expected);
    OffersByUsers(d, s, p);
    SyncIs(m, AcceptBid(d, s, p, t, expected).value.core.log);
  }

  lemma OffersByUsers(d: Dataset, s: State, p: nat)
    requires Inv(d, s) && p in s.offers
    ensures s.offers[p].seller.User?
  {
    hide CoreInv, SalesMatch, Held, ProofsExact, ProofsPaid, Solvent;
  }

  /** After an accepted listing of someone else's it acts on what it was. */
  lemma ListingKeepsThreshold(d: Dataset, s: State, p: nat, t: nat, finder: Addr, active: bool, finderOk: bool,
                              m: Meter)
    requires |d.masks| == PUNK_COUNT && |d.carriers| == TRAIT_COUNT
    requires AcceptListing(d, s, p, t, finder, active, finderOk).Ok?
    requires p in s.offers && finder != s.offers[p].seller && m.synced <= |s.core.log|
    ensures var log := AcceptListing(d, s, p, t, finder, active, finderOk).value.core.log;
      Synced(m, log) == m.(synced := |s.core.log| + 1)
  {
    hide AcceptListing, Synced;
    ListingRecords(d, s, p, t, finder, active, finderOk);
    SyncIs(m, AcceptListing(d, s, p, t, finder, active, finderOk).value.core.log);
  }

  // ---------- Market and ledger transactions ----------

  /** A listing lands exactly for the owner, an ordinary account, and sets the offer. */
  lemma ListOffers(s: State, p: nat, caller: Addr, price: nat, to: Addr)
    ensures List(s, p, caller, price, to).Ok? <==> caller.User? && p in s.owner && s.owner[p] == caller
    ensures List(s, p, caller, price, to).Ok? ==>
      var s' := List(s, p, caller, price, to).value;
      && s' == s.(offers := s'.offers) && s'.offers.Keys == s.offers.Keys + {p}
      && s'.offers[p].seller == caller && s'.offers[p].price == price && s'.offers[p].to == to
      && forall q :: q in s.offers && q != p ==> s'.offers[q] == s.offers[q]
  {
  }

  /** A transfer lands exactly for the owner, and takes the listing with it. */
  lemma TransferMoves(s: State, p: nat, caller: Addr, to: Addr)
    ensures Transfer(s, p, caller, to).Ok? <==> caller.User? && p in s.owner && s.owner[p] == caller
    ensures Transfer(s, p, caller, to).Ok? ==>
      var s' := Transfer(s, p, caller, to).value;
      && s' == s.(owner := s'.owner, offers := s'.offers)
      && OwnerOf(s', p) == to && p !in s'.offers && s'.offers.Keys == s.offers.Keys - {p}
      && (forall q :: q != p ==> OwnerOf(s', q) == OwnerOf(s, q))
      && (forall q :: q in s'.offers ==> s'.offers[q] == s.offers[q])
  {
  }

  /** Fuel reaches the bid from outside or from the adapter's buffer, which it can
      not overdraw; a donation reaches the pool; waiting moves only the clock. */
  lemma PlainMoves(d: Dataset, s: State, wei: nat)
    requires |d.masks| == PUNK_COUNT && |d.carriers| == TRAIT_COUNT
    requires forall p :: p in s.core.indexOf ==> 1 <= s.core.indexOf[p] <= |s.core.log|
    ensures Step(d, s, OpFund(wei)).Ok? && Step(d, s, OpDonate(wei)).Ok? && Step(d, s, OpWarp(wei)).Ok?
    ensures Step(d, s, OpMeter(wei)).Ok? <==> wei <= s.wei.adapter
    ensures var w := Step(d, s, OpFund(wei)).value.wei;
      Step(d, s, OpFund(wei)).value == s.(wei := w)
      && w.liveBid - wei == s.wei.liveBid && w == s.wei.(liveBid := w.liveBid)
    ensures wei <= s.wei.adapter ==> var w := Step(d, s, OpMeter(wei)).value.wei;
      Step(d, s, OpMeter(wei)).value == s.(wei := w)
      && w.liveBid - wei == s.wei.liveBid && w.adapter + wei == s.wei.adapter
      && w == s.wei.(liveBid := w.liveBid, adapter := w.adapter)
    ensures var w := Step(d, s, OpDonate(wei)).value.wei;
      Step(d, s, OpDonate(wei)).value == s.(wei := w) && w.pool - wei == s.wei.pool && w == s.wei.(pool := w.pool)
    ensures var s' := Step(d, s, OpWarp(wei)).value;
      s' == s.(now := s'.now) && s'.now - wei == s.now
  {
  }

  // ---------- Settlements ----------

  /** An unsold Punk goes to the vault for good: its trait is collected, its Proof
      minted to the seller of record with the next number, its auction closed; no
      other Punk, trait or auction changes, and the ledger as `UnsoldPays` says. */
  lemma UnsoldSettles(d: Dataset, s: State, p: nat, forwardOk: bool)
    requires Inv(d, s) && LiveSale(s.sales, p) && s.now >= s.sales[p].endsAt && s.sales[p].highBidder == Zero
    requires p in s.core.indexOf && 1 <= s.core.indexOf[p] <= |s.core.log|
    ensures Settle(s, p, true, forwardOk) == Settle(s, p, false, forwardOk) && Settle(s, p, true, forwardOk).Ok?
    ensures var s', t := Settle(s, p, true, forwardOk).value, s.sales[p].target;
      && (forall u: nat :: Bit(s'.core.collected, u) <==> u == t || Bit(s.core.collected, u))
      && s'.proofs == s.proofs[t := Proof(p, s.core.log[s.core.indexOf[p] - 1].originalSeller, |s.proofs| + 1)]
      && s'.locked == s.locked + {p} && s'.owner == s.owner[p := Vault] && s'.offers == s.offers - {p}
      && s'.sales == s.sales[p := s.sales[p].(settled := true)] && s'.now == s.now
      && IsVaulted(s'.core, p) && (forall q :: q != p ==> CustodyOf(s'.core, q) == CustodyOf(s.core, q))
  {
    hide CoreInv, SalesMatch, Held, OffersReal, ProofsExact, ProofsPaid, Solvent, Bit, PopCount, SettleVaulted, Swept,
      Marked;
    VaultedSettles(d, s, p, s.core.indexOf[p] - 1, forwardOk);
    SaleKnown(s.sales, s.core.log, s.core.indexOf, s.core.custody, p);
    MarkedShape(s.core, p, s.core.indexOf[p] - 1, Vaulted);
    MarkedCollects(s.core, p, s.core.indexOf[p] - 1);
    SetBitIsOr(s.core.collected, s.sales[p].target);
  }

  lemma MarkedCollects(c: Core, p: nat, i: nat)
    requires i < |c.log| && !Bit(c.collected, c.log[i].target)
    ensures Marked(c, p, i, Vaulted).collected == SetBit(c.collected, c.log[i].target)
  {
    hide Bit;
  }

  /** A sold Punk goes to the high bidder; no trait is collected and no Proof minted. */
  lemma SoldSettles(d: Dataset, s: State, p: nat, referrerOk: bool)
    requires Inv(d, s) && LiveSale(s.sales, p) && s.now >= s.sales[p].endsAt && s.sales[p].highBidder != Zero
    requires p in s.core.indexOf && 1 <= s.core.indexOf[p] <= |s.core.log|
    ensures Settle(s, p, referrerOk, true) == Settle(s, p, referrerOk, false) && Settle(s, p, referrerOk, true).Ok?
    ensures var s' := Settle(s, p, referrerOk, true).value;
      && s'.core.collected == s.core.collected && s'.proofs == s.proofs && s'.locked == s.locked && s'.now == s.now
      && s'.owner == s.owner[p := s.sales[p].highBidder] && s'.offers == s.offers - {p}
      && s'.sales == s.sales[p := s.sales[p].(settled := true)]
      && CustodyOf(s'.core, p) == ReturnedToMarket
      && (forall q :: q != p ==> CustodyOf(s'.core, q) == CustodyOf(s.core, q))
  {
    hide CoreInv, SalesMatch, Held, OffersReal, ProofsExact, ProofsPaid, Solvent, Bit, Distributed;
    ClearedKeeps(d, s, p, referrerOk);
    SaleKnown(s.sales, s.core.log, s.core.indexOf, s.core.custody, p);
    MarkKeeps(d, s.core, p, ReturnedToMarket);
  }
}
