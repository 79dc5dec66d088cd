/** The contracts as they run: storage that the transactions overwrite in place.
    Every method is proved against the function of Protocol.dfy that specifies
    it, so what is proved of those functions holds of this storage. */
module Chain {
  import opened Wrappers
  import opened TraitMasks
  import opened Collection
  import opened ReturnAuctions
  import opened Protocol

  /** A transaction either lands, and the storage is what the specification
      says, or reverts with the specified error and changes nothing. */
  predicate Landed(specified: Result<State, Revert>, before: State, after: State, revert: Option<Revert>) {
    match specified
    case Ok(s) => revert == None && after == s
    case Err(e) => revert == Some(e) && after == before
  }

  lemma VaultedLands(s: State, p: nat, forwardOk: bool)
    requires p in s.sales && (p in s.core.indexOf ==> 1 <= s.core.indexOf[p] <= |s.core.log|)
    requires SettleVaulted(s, p, forwardOk).Ok?
    ensures MarkCustody(s.core, p, Vaulted).Ok? && p in s.core.indexOf
    ensures var c := MarkCustody(s.core, p, Vaulted).value;
      SettleVaulted(s, p, forwardOk) == Ok(VaultedState(s, p, c,
        Proof(p, s.core.log[s.core.indexOf[p] - 1].originalSeller, PopCount(c.collected)), forwardOk))
  {
    hide Marked, PopCount, Bit, VaultedState;
  }

  lemma ClearedLands(s: State, p: nat, referrerOk: bool)
    requires p in s.sales && (p in s.core.indexOf ==> 1 <= s.core.indexOf[p] <= |s.core.log|)
    requires SettleCleared(s, p, referrerOk).Ok?
    ensures MarkCustody(s.core, p, ReturnedToMarket).Ok?
    ensures s.sales[p].cost <= s.sales[p].highBid <= s.wei.auctions
    ensures SettleCleared(s, p, referrerOk) == Ok(s.(
        core := MarkCustody(s.core, p, ReturnedToMarket).value,
        sales := Closed(s.sales, p),
        owner := s.owner[p := s.sales[p].highBidder],
        offers := s.offers - {p},
        wei := Distributed(s.wei, s.sales[p], referrerOk)))
  {
    hide MarkCustody, Distributed;
  }

  class Contracts {
    const data: Dataset
    var core: Core // the storage of PermanentCollection
    var sales: map<nat, Sale>
    var proofs: map<nat, Proof>
    var locked: set<nat>
    var owner: map<nat, Addr>
    var offers: map<nat, Offer>
    var wei: Ledger
    var now: nat

    function Abs(): State
      reads this
    {
      State(core, sales, proofs, locked, owner, offers, wei, now)
    }

    ghost predicate Valid()
      reads this
    {
      && |data.masks| == PUNK_COUNT && |data.carriers| == TRAIT_COUNT
      && forall p :: p in core.indexOf ==> 1 <= core.indexOf[p] <= |core.log|
    }

    constructor (data: Dataset, owner: map<nat, Addr>, liveBid: nat)
      requires |data.masks| == PUNK_COUNT && |data.carriers| == TRAIT_COUNT
      ensures this.data == data && Valid()
      ensures Abs() == State(EMPTY, map[], map[], {}, owner, map[], Ledger(liveBid, 0, 0, 0, 0, map[], 0, 0), 0)
    {
      this.data, this.owner := data, owner;
      core, sales, proofs, locked, offers := EMPTY, map[], map[], {}, map[];
      wei, now := Ledger(liveBid, 0, 0, 0, 0, map[], 0, 0), 0;
    }

    method Warp(seconds: nat)
      requires Valid()
      modifies this
      ensures Valid() && Abs() == old(Abs()).(now := old(now) + seconds)
    {
      now := now + seconds;
    }

    /** `offerPunkForSaleToAddress`. */
    method List(p: nat, caller: Addr, price: nat, to: Addr) returns (revert: Option<Revert>)
      requires Valid()
      modifies this
      ensures Valid() && Landed(Protocol.List(old(Abs()), p, caller, price, to), old(Abs()), Abs(), revert)
    {
      if !caller.User? || p !in owner || owner[p] != caller {
        return Some(NotOwner);
      }
      offers := offers[p := Offer(caller, price, to)];
      revert := None;
    }

    /** `canonicalTargetOf`: one pass with the 65535 sentinel count. */
    method CanonicalTargetOf(p: nat) returns (best: Option<nat>)
      requires Valid() && p < PUNK_COUNT
      ensures best == CanonicalTarget(data, core, p)
    {
      var bestCount := UINT16_MAX;
      best := None;
      for i := 0 to TRAIT_COUNT
        invariant best == Scan(data, core, p, i)
        invariant bestCount == if best.Some? then data.carriers[best.value] else UINT16_MAX
      {
        var carried := Bit(data.masks[p], i);
        var open := !Bit(core.collected, i) && PendingOf(core, i) == 0;
        if carried && open && data.carriers[i] < bestCount {
          bestCount := data.carriers[i];
          best := Some(i);
        }
      }
    }

    /** `_validateTarget`. */
    method ValidateTarget(p: nat, t: nat) returns (problem: Option<Revert>)
      requires Valid() && p < PUNK_COUNT
      ensures problem == TargetProblem(data, core, p, t)
    {
      if t >= TRAIT_COUNT || !Bit(data.masks[p], t) { return Some(InvalidTargetTrait); }
      if Bit(core.collected, t) { return Some(TargetCollected); }
      if p == SOLE_CARRIER_PUNK_ID && !Bit(core.collected, SOLE_CARRIER_TRAIT_BIT) && t != SOLE_CARRIER_TRAIT_BIT {
        return Some(SoleCarrier);
      }
      if PendingOf(core, t) > 0 { return Some(TargetTraitPending); }
      var canonical := CanonicalTargetOf(p);
      if canonical == None { return Some(NoTarget); }
      if canonical != Some(t) { return Some(NotCanonicalTarget); }
      return None;
    }

    /** The checks of `recordAcquisition`, in its order. */
    method RecordProblem(p: nat, t: nat, mask: nat, acquirer: Addr, seller: Addr, price: nat)
      returns (problem: Option<CoreError>)
      requires Valid()
      ensures problem == Failure(RecordAcquisition(data, core, p, t, mask, acquirer, seller, price))
    {
      hide TargetFault;
      if seller == Zero { return Some(ZeroAddress); }
      if p >= PUNK_COUNT { return Some(PunkOutOfRange); }
      var held := CustodyOf(core, p);
      if held != NotAcquired && held != ReturnedToMarket { return Some(AlreadyRecorded); }
      if mask != data.masks[p] { return Some(MaskMismatch); }
      problem := RecordTargetProblem(p, t);
    }

    method RecordTargetProblem(p: nat, t: nat) returns (problem: Option<CoreError>)
      requires Valid() && p < PUNK_COUNT
      ensures problem == TargetFault(data, core, p, t)
    {
      if t >= TRAIT_COUNT { return Some(BadCategoryId); }
      if !Bit(data.masks[p], t) { return Some(TargetTraitNotInMask); }
      if Bit(core.collected, t) { return Some(TargetTraitAlreadyCollected); }
      if p == SOLE_CARRIER_PUNK_ID && !Bit(core.collected, SOLE_CARRIER_TRAIT_BIT) && t != SOLE_CARRIER_TRAIT_BIT {
        return Some(SoleCarrierMustTargetTrait);
      }
      if PendingOf(core, t) > 0 { return Some(TargetTraitAlreadyPending); }
      var canonical := CanonicalTargetOf(p);
      if canonical == None { return Some(NoEligibleTarget); }
      if canonical != Some(t) { return Some(TargetNotCanonical); }
      return None;
    }

    /** `recordAcquisition`. */
    method Record(p: nat, t: nat, mask: nat, acquirer: Addr, seller: Addr, price: nat)
      returns (error: Option<CoreError>)
      requires Valid()
      modifies this`core
      ensures Valid()
      ensures match RecordAcquisition(data, old(core), p, t, mask, acquirer, seller, price)
        case Ok(c) => error == None && core == c
        case Err(e) => error == Some(e) && core == old(core)
    {
      hide RecordAcquisition;
      error := RecordProblem(p, t, mask, acquirer, seller, price);
      if error.Some? { return; }
      RecordNeeds(data, core, p, t, mask, acquirer, seller, price);
      core := core.(pending := core.pending[t := PendingOf(core, t) + 1]);
      core := core.(attempts := core.attempts[t := AttemptsOf(core, t) + 1]);
      core := core.(log := core.log + [Acquisition(p, t, mask, acquirer, seller, price, InReturnAuction)]);
      core := core.(indexOf := core.indexOf[p := |core.log|]);
      core := core.(custody := core.custody[p := InReturnAuction]);
    }

    /** The checks of `acceptBid` and `_acquire`, in their order. */
    method AcceptProblem(p: nat, t: nat, expected: nat) returns (problem: Option<Revert>)
      requires Valid()
      ensures problem == Failure(Protocol.AcceptBid(data, Abs(), p, t, expected))
    {
      hide RecordAcquisition, TargetProblem, Reserve;
      if p >= PUNK_COUNT { return Some(InvalidPunkId); }
      if p !in offers || offers[p].to != Patron { return Some(PunkNotListedToHub); }
      var price, seller := offers[p].price, offers[p].seller;
      if price == 0 { return Some(ZeroListingPrice); }
      if price > wei.liveBid { return Some(ListingExceedsBid); }
      if price > expected { return Some(ListingAboveExpected); }
      problem := ValidateTarget(p, t);
      if problem.Some? { return; }
      var held := CustodyOf(core, p);
      if held != NotAcquired && held != ReturnedToMarket { return Some(PunkAlreadyAcquired); }
      if p in sales && !sales[p].settled { return Some(SaleExists); }
      if Reserve(price, AttemptsOf(core, t)) > UINT128_MAX { return Some(ReserveOverflow); }
      var error := RecordProblem(p, t, data.masks[p], seller, seller, price);
      if error.Some? { return Some(Revert.Records(error.value)); }
      return None;
    }

    /** `acceptBid`, with `_acquire`. */
    method AcceptBid(p: nat, t: nat, expected: nat) returns (revert: Option<Revert>)
      requires Valid()
      modifies this
      ensures Valid() && Landed(Protocol.AcceptBid(data, old(Abs()), p, t, expected), old(Abs()), Abs(), revert)
    {
      hide RecordAcquisition, TargetProblem, Reserve;
      revert := AcceptProblem(p, t, expected);
      if revert.Some? { return; }
      var price, seller := offers[p].price, offers[p].seller;
      var reserve := Reserve(price, AttemptsOf(core, t));
      var error := Record(p, t, data.masks[p], seller, seller, price);
      sales := sales[p := Sale(price, 0, Zero, now + AUCTION_DURATION, reserve, t, false, Zero)];
      owner := owner[p := Module];
      offers := offers - {p};
      wei := wei.(liveBid := wei.liveBid - price, credits := wei.credits + price);
    }

    /** The checks of `placeBid`, in their order. */
    method BidProblem(p: nat, bidder: Addr, value: nat, referrer: Addr, refundOk: bool)
      returns (problem: Option<Revert>)
      requires Valid()
      ensures problem == Failure(Protocol.PlaceBid(Abs(), p, bidder, value, referrer, refundOk))
    {
      hide MinNext, Refunded;
      if p !in sales { return Some(SaleMissing); }
      var sale := sales[p];
      if sale.settled { return Some(AlreadySettled); }
      if now >= sale.endsAt { return Some(SaleEnded); }
      if value < sale.reserve { return Some(BidBelowReserve); }
      if sale.highBid == 0 {
        if value == 0 { return Some(BidNotHigherThanCurrent); }
      } else if value < MinNext(sale.highBid) {
        return Some(BidBelowMinIncrement);
      }
      return None;
    }

    /** `placeBid` by an ordinary account. */
    method PlaceBid(p: nat, bidder: Addr, value: nat, referrer: Addr, refundOk: bool) returns (revert: Option<Revert>)
      requires Valid()
      modifies this`sales, this`wei
      ensures Valid()
      ensures Landed(Protocol.PlaceBid(old(Abs()), p, bidder, value, referrer, refundOk), old(Abs()), Abs(), revert)
    {
      hide MinNext, Refunded;
      revert := BidProblem(p, bidder, value, referrer, refundOk);
      if revert.Some? { return; }
      var sale := sales[p];
      var endsAt := sale.endsAt;
      if endsAt - now < SNIPE_TRIGGER_WINDOW { endsAt := now + SNIPE_EXTENSION; }
      sales := sales[p := sale.(highBid := value, highBidder := bidder, referrer := referrer, endsAt := endsAt)];
      Refund(sale, value, refundOk);
    }

    /** Take the new bid in and pay the outbid one back, or queue it. */
    method Refund(outbid: Sale, value: nat, refundOk: bool)
      modifies this`wei
      ensures wei == Refunded(old(wei), outbid, value, refundOk)
    {
      wei := wei.(auctions := wei.auctions + value);
      if outbid.highBidder != Zero {
        if refundOk && outbid.highBid <= wei.auctions {
          wei := wei.(auctions := wei.auctions - outbid.highBid, paidOut := wei.paidOut + outbid.highBid);
        } else {
          wei := wei.(refunds :=
            wei.refunds[outbid.highBidder := RefundOf(wei.refunds, outbid.highBidder) + outbid.highBid]);
        }
      }
    }

    /** `markCustody`. */
    method Mark(p: nat, outcome: Custody) returns (error: Option<CoreError>)
      requires Valid()
      modifies this`core
      ensures Valid()
      ensures match MarkCustody(old(core), p, outcome)
        case Ok(c) => error == None && core == c
        case Err(e) => error == Some(e) && core == old(core)
    {
      hide SetBit;
      if p !in core.indexOf { return Some(NotRecorded); }
      if CustodyOf(core, p) != InReturnAuction { return Some(CustodyAlreadySet); }
      if outcome != ReturnedToMarket && outcome != Vaulted { return Some(InvalidCustodyTransition); }
      var i := core.indexOf[p] - 1;
      var t := core.log[i].target;
      if PendingOf(core, t) > 0 { core := core.(pending := core.pending[t := PendingOf(core, t) - 1]); }
      core := core.(custody := core.custody[p := outcome]);
      core := core.(log := core.log[i := core.log[i].(custody := outcome)]);
      if outcome == Vaulted && !Bit(core.collected, t) {
        core := core.(firstVaulted := core.firstVaulted[t := p]);
        core := core.(collected := SetBit(core.collected, t));
      }
      return None;
    }

    /** The failures of the vault outcome. */
    method VaultProblem(p: nat, forwardOk: bool) returns (problem: Option<Revert>)
      requires Valid() && p in sales
      ensures problem == Failure(SettleVaulted(Abs(), p, forwardOk))
    {
      hide VaultedState, Marked, PopCount, Bit;
      var t := sales[p].target;
      if p in locked { return Some(AlreadyLocked); }
      if p !in core.indexOf { return Some(Revert.Records(NotRecorded)); }
      if CustodyOf(core, p) != InReturnAuction { return Some(Revert.Records(CustodyAlreadySet)); }
      if !Bit(core.collected, t) {
        if t >= TRAIT_COUNT { return Some(InvalidTraitId); }
        if core.log[core.indexOf[p] - 1].originalSeller == Zero { return Some(InvalidRecipient); }
        if t in proofs { return Some(ProofAlreadyMinted); }
      }
      return None;
    }

    /** The failures of the cleared outcome. */
    method ClearedProblem(p: nat, referrerOk: bool) returns (problem: Option<Revert>)
      requires Valid() && p in sales
      ensures problem == Failure(SettleCleared(Abs(), p, referrerOk))
    {
      hide Distributed, Marked;
      var sale := sales[p];
      if sale.highBid < sale.cost || sale.highBid > wei.auctions { return Some(PremiumUnderflow); }
      if p !in core.indexOf { return Some(Revert.Records(NotRecorded)); }
      if CustodyOf(core, p) != InReturnAuction { return Some(Revert.Records(CustodyAlreadySet)); }
      return None;
    }

    /** `settle`. */
    method Settle(p: nat, referrerOk: bool, forwardOk: bool) returns (revert: Option<Revert>)
      requires Valid()
      modifies this
      ensures Valid()
      ensures Landed(Protocol.Settle(old(Abs()), p, referrerOk, forwardOk), old(Abs()), Abs(), revert)
    {
      if p !in sales { return Some(SaleMissing); }
      if sales[p].settled { return Some(AlreadySettled); }
      if now < sales[p].endsAt { return Some(SaleLive); }
      if sales[p].highBidder == Zero {
        revert := SettleUnsold(p, forwardOk);
      } else {
        revert := SettleSold(p, referrerOk);
      }
    }

    method SettleUnsold(p: nat, forwardOk: bool) returns (revert: Option<Revert>)
      requires Valid() && p in sales
      modifies this
      ensures Valid() && Landed(SettleVaulted(old(Abs()), p, forwardOk), old(Abs()), Abs(), revert)
    {
      hide SettleVaulted, MarkCustody, PopCount, Bit, Swept;
      ghost var s := Abs();
      revert := VaultProblem(p, forwardOk);
      if revert.Some? { return; }
      VaultedLands(s, p, forwardOk);
      var t := sales[p].target;
      var first := !Bit(core.collected, t);
      var seller := core.log[core.indexOf[p] - 1].originalSeller;
      var error := Mark(p, Vaulted);
      if first { proofs := proofs[t := Proof(p, seller, PopCount(core.collected))]; }
      locked := locked + {p};
      HandOver(p, Vault);
      Sweep(forwardOk);
    }

    method SettleSold(p: nat, referrerOk: bool) returns (revert: Option<Revert>)
      requires Valid() && p in sales
      modifies this
      ensures Valid() && Landed(SettleCleared(old(Abs()), p, referrerOk), old(Abs()), Abs(), revert)
    {
      hide SettleCleared, MarkCustody, Distributed;
      ghost var s := Abs();
      revert := ClearedProblem(p, referrerOk);
      if revert.Some? { return; }
      ClearedLands(s, p, referrerOk);
      var sale := sales[p];
      var error := Mark(p, ReturnedToMarket);
      HandOver(p, sale.highBidder);
      Distribute(sale, referrerOk);
    }

    /** The sale is settled and the market moves the Punk. */
    method HandOver(p: nat, to: Addr)
      requires p in sales
      modifies this`sales, this`owner, this`offers
      ensures sales == Closed(old(sales), p)
      ensures owner == old(owner)[p := to] && offers == old(offers) - {p}
    {
      sales := sales[p := sales[p].(settled := true)];
      owner := owner[p := to];
      offers := offers - {p};
    }

    /** The split of a winning bid, one transfer after the other. */
    method Distribute(sale: Sale, referrerOk: bool)
      requires sale.cost <= sale.highBid <= wei.auctions
      modifies this`wei
      ensures wei == Distributed(old(wei), sale, referrerOk)
    {
      hide ClearedSplit;
      var split := ClearedSplit(sale.cost, sale.highBid, sale.referrer != Zero, referrerOk);
      wei := wei.(auctions := wei.auctions - sale.highBid);
      wei := wei.(adapter := wei.adapter + split.liveBid);
      wei := wei.(burner := wei.burner + split.burn);
      wei := wei.(paidOut := wei.paidOut + split.referrer);
      wei := wei.(pool := wei.pool + split.vaultBurn);
    }

    /** The pool's best-effort forward to the burner. */
    method Sweep(forwardOk: bool)
      modifies this`wei
      ensures wei == Swept(old(wei), forwardOk)
    {
      if forwardOk { wei := wei.(burner := wei.burner + wei.pool, pool := 0); }
    }
  }
}
