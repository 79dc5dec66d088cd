/** The protocol as one state machine: the records core together with the live
    bid (contracts/src/Patron.sol), the return auctions
    (contracts/src/ReturnAuctionModule.sol), the vault and its Proofs
    (contracts/src/PunkVault.sol), the burn pool
    (contracts/src/VaultBurnPool.sol) and the CryptoPunks market they trade on.

    Each operation is a function from state to state, or to the error the
    transaction reverts with. `Chain` (Chain.dfy) performs the same operations
    in place. */
module Protocol {
  import opened Wrappers
  import opened TraitMasks
  import opened Collection
  import opened ReturnAuctions

  const AUCTION_DURATION: nat := 259_200
  const SNIPE_EXTENSION: nat := 3600
  const SNIPE_TRIGGER_WINDOW: nat := 900
  const FINDER_FEE_CAP_BPS: nat := 50
  const FINDER_FEE_FIXED_CAP: nat := 10_000_000_000_000_000
  const MIN_BID_FOR_LISTING: nat := 500_000_000_000_000_000
  const UINT128_MAX: nat := 0xffff_ffff_ffff_ffff_ffff_ffff_ffff_ffff

  /** A market listing; `to == Zero` is a public one. */
  datatype Offer = Offer(seller: Addr, price: nat, to: Addr)

  datatype Sale = Sale(
    cost: nat, highBid: nat, highBidder: Addr, endsAt: nat, reserve: nat, target: nat, settled: bool, referrer: Addr)

  datatype Proof = Proof(punk: nat, recipient: Addr, sequence: nat)

  /** Where the wei is. `credits` is what the market owes its sellers, `paidOut`
      what has left for bidders, referrers and finders. */
  datatype Ledger = Ledger(
    liveBid: nat, adapter: nat, burner: nat, pool: nat, auctions: nat, refunds: map<Addr, nat>,
    credits: nat, paidOut: nat)

  datatype State = State(
    core: Core, sales: map<nat, Sale>, proofs: map<nat, Proof>, locked: set<nat>,
    owner: map<nat, Addr>, offers: map<nat, Offer>, wei: Ledger, now: nat)

  datatype Revert =
    | InvalidPunkId | PunkNotListedToHub | PunkNotPubliclyListed | SellerNotAllowed | ZeroListingPrice
    | ListingExceedsBid | ListingAboveExpected | BidBelowMinimum
    | InvalidTargetTrait | TargetCollected | SoleCarrier | TargetTraitPending | NoTarget | NotCanonicalTarget
    | PunkAlreadyAcquired | SaleExists | ReserveOverflow | FinderPaymentFailed | Records(e: CoreError)
    | SaleMissing | SaleLive | SaleEnded | AlreadySettled
    | BidBelowReserve | BidNotHigherThanCurrent | BidBelowMinIncrement
    | AlreadyLocked | InvalidTraitId | InvalidRecipient | ProofAlreadyMinted | PremiumUnderflow
    | NothingToWithdraw | NotOwner

  function OwnerOf(s: State, p: nat): Addr {
    if p in s.owner then s.owner[p] else Zero
  }

  predicate LiveSale(sales: map<nat, Sale>, p: nat) {
    p in sales && !sales[p].settled
  }

  // ---------- Market ----------

  /** `offerPunkForSaleToAddress` by an ordinary account. */
  function List(s: State, p: nat, caller: Addr, price: nat, to: Addr): Result<State, Revert> {
    if !caller.User? || OwnerOf(s, p) != caller then Err(NotOwner)
    else Ok(s.(offers := s.offers[p := Offer(caller, price, to)]))
  }

  /** `transferPunk` by an ordinary account; the market drops the listing. */
  function Transfer(s: State, p: nat, caller: Addr, to: Addr): Result<State, Revert> {
    if !caller.User? || OwnerOf(s, p) != caller then Err(NotOwner)
    else Ok(s.(owner := s.owner[p := to], offers := s.offers - {p}))
  }

  // ---------- Patron ----------

  /** `_validateTarget`; `None` means the target passes. */
  function TargetProblem(d: Dataset, c: Core, p: nat, t: nat): Option<Revert>
    requires |d.masks| == PUNK_COUNT && |d.carriers| == TRAIT_COUNT && p < PUNK_COUNT
  {
    if t >= TRAIT_COUNT || !Bit(d.masks[p], t) then Some(InvalidTargetTrait)
    else if Bit(c.collected, t) then Some(TargetCollected)
    else if SoleCarrierBlocks(c, p, t) then Some(SoleCarrier)
    else if PendingOf(c, t) > 0 then Some(TargetTraitPending)
    else if CanonicalTarget(d, c, p) == None then Some(NoTarget)
    else if CanonicalTarget(d, c, p) != Some(t) then Some(NotCanonicalTarget)
    else None
  }

  function NewSale(cost: nat, reserve: nat, t: nat, now: nat): Sale {
    Sale(cost, 0, Zero, now + AUCTION_DURATION, reserve, t, false, Zero)
  }

  /** `_acquire`: debit the bid, buy on the market, start the sale, record. */
  function Acquire(d: Dataset, s: State, p: nat, t: nat, cost: nat, acquirer: Addr, seller: Addr): Result<State, Revert>
    requires |d.masks| == PUNK_COUNT && |d.carriers| == TRAIT_COUNT && p < PUNK_COUNT
    requires cost <= s.wei.liveBid
  {
    var reserve := Reserve(cost, AttemptsOf(s.core, t));
    if LiveSale(s.sales, p) then Err(SaleExists)
    else if reserve > UINT128_MAX then Err(ReserveOverflow)
    else match RecordAcquisition(d, s.core, p, t, d.masks[p], acquirer, seller, cost)
      case Err(e) => Err(Records(e))
      case Ok(core) => Ok(s.(
        core := core,
        sales := s.sales[p := NewSale(cost, reserve, t, s.now)],
        owner := s.owner[p := Module],
        offers := s.offers - {p},
        wei := s.wei.(liveBid := s.wei.liveBid - cost, credits := s.wei.credits + cost)))
  }

  function AcceptBid(d: Dataset, s: State, p: nat, t: nat, expected: nat): Result<State, Revert>
    requires |d.masks| == PUNK_COUNT && |d.carriers| == TRAIT_COUNT
  {
    if p >= PUNK_COUNT then Err(InvalidPunkId)
    else if p !in s.offers || s.offers[p].to != Patron then Err(PunkNotListedToHub)
    else
      var price := s.offers[p].price;
      if price == 0 then Err(ZeroListingPrice)
      else if price > s.wei.liveBid then Err(ListingExceedsBid)
      else if price > expected then Err(ListingAboveExpected)
      else if TargetProblem(d, s.core, p, t).Some? then Err(TargetProblem(d, s.core, p, t).value)
      else if !Acquirable(s.core, p) then Err(PunkAlreadyAcquired)
      else Acquire(d, s, p, t, price, s.offers[p].seller, s.offers[p].seller)
  }

  function FinderFee(liveBid: nat): nat {
    var fee := liveBid * FINDER_FEE_CAP_BPS / BPS_DENOM;
    if fee > FINDER_FEE_FIXED_CAP then FINDER_FEE_FIXED_CAP else fee
  }

  /** `sellerActive`: the seller is allowlisted and past the activation delay;
      `finderOk`: the send of the fee to the finder succeeds. */
  function AcceptListing(d: Dataset, s: State, p: nat, t: nat, finder: Addr, sellerActive: bool, finderOk: bool)
    : Result<State, Revert>
    requires |d.masks| == PUNK_COUNT && |d.carriers| == TRAIT_COUNT
  {
    if p >= PUNK_COUNT then Err(InvalidPunkId)
    else if s.wei.liveBid < MIN_BID_FOR_LISTING then Err(BidBelowMinimum)
    else if p !in s.offers || s.offers[p].to != Zero then Err(PunkNotPubliclyListed)
    else if !sellerActive then Err(SellerNotAllowed)
    else
      var price, fee := s.offers[p].price, FinderFee(s.wei.liveBid);
      if price == 0 then Err(ZeroListingPrice)
      else if price + fee > s.wei.liveBid then Err(ListingExceedsBid)
      else if TargetProblem(d, s.core, p, t).Some? then Err(TargetProblem(d, s.core, p, t).value)
      else if !Acquirable(s.core, p) then Err(PunkAlreadyAcquired)
      else
        var s1 := s.(wei := s.wei.(liveBid := s.wei.liveBid - fee, paidOut := s.wei.paidOut + fee));
        var acquired := Acquire(d, s1, p, t, price, finder, s.offers[p].seller);
        if acquired.Ok? && fee > 0 && !finderOk then Err(FinderPaymentFailed) else acquired
  }

  // ---------- Return auctions ----------

  function RefundOf(refunds: map<Addr, nat>, a: Addr): nat {
    if a in refunds then refunds[a] else 0
  }

  /** `_placeBid`. `refundOk`: pushing the refund to the outbid bidder succeeds. */
  function PlaceBid(s: State, p: nat, bidder: Addr, value: nat, referrer: Addr, refundOk: bool): Result<State, Revert> {
    if p !in s.sales then Err(SaleMissing)
    else if s.sales[p].settled then Err(AlreadySettled)
    else if s.now >= s.sales[p].endsAt then Err(SaleEnded)
    else if value < s.sales[p].reserve then Err(BidBelowReserve)
    else if s.sales[p].highBid == 0 && value == 0 then Err(BidNotHigherThanCurrent)
    else if s.sales[p].highBid > 0 && value < MinNext(s.sales[p].highBid) then Err(BidBelowMinIncrement)
    else
      var sale := s.sales[p];
      var endsAt := if sale.endsAt - s.now < SNIPE_TRIGGER_WINDOW then s.now + SNIPE_EXTENSION else sale.endsAt;
      var sale' := sale.(highBid := value, highBidder := bidder, referrer := referrer, endsAt := endsAt);
      Ok(s.(sales := s.sales[p := sale'], wei := Refunded(s.wei, sale, value, refundOk)))
  }

  function Refunded(w: Ledger, outbid: Sale, value: nat, refundOk: bool): Ledger {
    var w1 := w.(auctions := w.auctions + value);
    if outbid.highBidder == Zero then w1
    else if refundOk && outbid.highBid <= w1.auctions then
      w1.(auctions := w1.auctions - outbid.highBid, paidOut := w1.paidOut + outbid.highBid)
    else
      w1.(refunds := w1.refunds[outbid.highBidder := RefundOf(w1.refunds, outbid.highBidder) + outbid.highBid])
  }

  /** `withdrawRefund`. */
  function Withdraw(s: State, bidder: Addr): Result<State, Revert> {
    var amt := RefundOf(s.wei.refunds, bidder);
    if amt == 0 || amt > s.wei.auctions then Err(NothingToWithdraw)
    else Ok(s.(wei := s.wei.(
      auctions := s.wei.auctions - amt, refunds := s.wei.refunds[bidder := 0], paidOut := s.wei.paidOut + amt)))
  }

  /** `settle`. `referrerOk`: the send to the referrer succeeds; `forwardOk`:
      the pool's forward to the burner succeeds. */
  function Settle(s: State, p: nat, referrerOk: bool, forwardOk: bool): Result<State, Revert>
    requires p in s.core.indexOf ==> 1 <= s.core.indexOf[p] <= |s.core.log|
  {
    if p !in s.sales then Err(SaleMissing)
    else if s.sales[p].settled then Err(AlreadySettled)
    else if s.now < s.sales[p].endsAt then Err(SaleLive)
    else if s.sales[p].highBidder == Zero then SettleVaulted(s, p, forwardOk)
    else SettleCleared(s, p, referrerOk)
  }

  function Closed(sales: map<nat, Sale>, p: nat): map<nat, Sale>
    requires p in sales
  {
    sales[p := sales[p].(settled := true)]
  }

  /** Nobody bid: the Punk enters the vault, its target is collected, the seller
      of record gets the Proof of a first vaulting, and the pool is swept. */
  function SettleVaulted(s: State, p: nat, forwardOk: bool): Result<State, Revert>
    requires p in s.sales
    requires p in s.core.indexOf ==> 1 <= s.core.indexOf[p] <= |s.core.log|
  {
    var t := s.sales[p].target;
    var first := !Bit(s.core.collected, t);
    if p in s.locked then Err(AlreadyLocked)
    else match MarkCustody(s.core, p, Vaulted)
      case Err(e) => Err(Records(e))
      case Ok(core) =>
        var seller := s.core.log[s.core.indexOf[p] - 1].originalSeller;
        if first && t >= TRAIT_COUNT then Err(InvalidTraitId)
        else if first && seller == Zero then Err(InvalidRecipient)
        else if first && t in s.proofs then Err(ProofAlreadyMinted)
        else Ok(VaultedState(s, p, core, Proof(p, seller, PopCount(core.collected)), forwardOk))
  }

  /** The state after the vault outcome of the auction of `p`. */
  function VaultedState(s: State, p: nat, core: Core, proof: Proof, forwardOk: bool): State
    requires p in s.sales
  {
    s.(core := core,
       sales := Closed(s.sales, p),
       proofs := if Bit(s.core.collected, s.sales[p].target) then s.proofs else s.proofs[s.sales[p].target := proof],
       locked := s.locked + {p},
       owner := s.owner[p := Vault],
       offers := s.offers - {p},
       wei := Swept(s.wei, forwardOk))
  }

  function Swept(w: Ledger, forwardOk: bool): Ledger {
    if forwardOk then w.(burner := w.burner + w.pool, pool := 0) else w
  }

  /** A bid cleared the reserve: the Punk goes to the bidder and the winning bid
      is split. */
  function SettleCleared(s: State, p: nat, referrerOk: bool): Result<State, Revert>
    requires p in s.sales
    requires p in s.core.indexOf ==> 1 <= s.core.indexOf[p] <= |s.core.log|
  {
    var sale := s.sales[p];
    if sale.highBid < sale.cost || sale.highBid > s.wei.auctions then Err(PremiumUnderflow)
    else match MarkCustody(s.core, p, ReturnedToMarket)
      case Err(e) => Err(Records(e))
      case Ok(core) => Ok(s.(
        core := core,
        sales := Closed(s.sales, p),
        owner := s.owner[p := sale.highBidder],
        offers := s.offers - {p},
        wei := Distributed(s.wei, sale, referrerOk)))
  }

  function Distributed(w: Ledger, sale: Sale, referrerOk: bool): Ledger
    requires sale.cost <= sale.highBid <= w.auctions
  {
    var split := ClearedSplit(sale.cost, sale.highBid, sale.referrer != Zero, referrerOk);
    w.(auctions := w.auctions - sale.highBid,
       adapter := w.adapter + split.liveBid,
       burner := w.burner + split.burn,
       paidOut := w.paidOut + split.referrer,
       pool := w.pool + split.vaultBurn)
  }

  // ---------- Steps and runs ----------

  datatype Op =
    | OpFund(wei: nat)   // new ETH swept from the adapter into the bid
    | OpMeter(wei: nat)  // the adapter sweeps buffered ETH into the bid
    | OpDonate(wei: nat) // anyone tops up the burn pool
    | OpWarp(seconds: nat)
    | OpList(punk: nat, caller: Addr, price: nat, to: Addr)
    | OpTransfer(punk: nat, caller: Addr, to: Addr)
    | OpAcceptBid(punk: nat, target: nat, expected: nat)
    | OpAcceptListing(punk: nat, target: nat, finder: Addr, sellerActive: bool, finderOk: bool)
    | OpPlaceBid(punk: nat, bidderId: nat, value: nat, referrer: Addr, refundOk: bool)
    | OpWithdraw(bidder: Addr)
    | OpSettle(punk: nat, referrerOk: bool, forwardOk: bool)

  /** One transaction. A reverted one changes nothing. */
  function Step(d: Dataset, s: State, op: Op): Result<State, Revert>
    requires |d.masks| == PUNK_COUNT && |d.carriers| == TRAIT_COUNT
    requires forall p :: p in s.core.indexOf ==> 1 <= s.core.indexOf[p] <= |s.core.log|
  {
    match op
    case OpFund(wei) => Ok(s.(wei := s.wei.(liveBid := s.wei.liveBid + wei)))
    case OpMeter(wei) =>
      if wei > s.wei.adapter then Err(NothingToWithdraw)
      else Ok(s.(wei := s.wei.(adapter := s.wei.adapter - wei, liveBid := s.wei.liveBid + wei)))
    case OpDonate(wei) => Ok(s.(wei := s.wei.(pool := s.wei.pool + wei)))
    case OpWarp(seconds) => Ok(s.(now := s.now + seconds))
    case OpList(p, caller, price, to) => List(s, p, caller, price, to)
    case OpTransfer(p, caller, to) => Transfer(s, p, caller, to)
    case OpAcceptBid(p, t, expected) => AcceptBid(d, s, p, t, expected)
    case OpAcceptListing(p, t, finder, active, finderOk) => AcceptListing(d, s, p, t, finder, active, finderOk)
    case OpPlaceBid(p, id, value, referrer, refundOk) => PlaceBid(s, p, User(id), value, referrer, refundOk)
    case OpWithdraw(bidder) => Withdraw(s, bidder)
    case OpSettle(p, referrerOk, forwardOk) => Settle(s, p, referrerOk, forwardOk)
  }
}
