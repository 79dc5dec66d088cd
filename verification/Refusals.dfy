/** Why a transaction is refused, from any reachable state: the checks of each
    operation in the order the contract makes them, each check in its own terms.
    A transaction goes through exactly when none fails, and otherwise reverts with
    the first that does. */
module Refusals {
  import opened Wrappers
  import opened TraitMasks
  import opened Collection
  import opened ReturnAuctions
  import opened Protocol
  import opened ProtocolSafety
  import opened ProtocolRuns
  import opened ProtocolTheorems

  // ---------- Targets ----------

  const TARGET_CHECKS: seq<Revert> :=
    [InvalidTargetTrait, TargetCollected, SoleCarrier, TargetTraitPending, NoTarget, NotCanonicalTarget]

  /** What is wrong with taking `p` for `t`. */
  ghost predicate TargetFails(d: Dataset, c: Core, p: nat, t: nat, e: Revert) {
    match e
    case InvalidTargetTrait => t >= 111 || p >= |d.masks| || !Bit(d.masks[p], t)
    case TargetCollected => Bit(c.collected, t)
    case SoleCarrier => p == 8348 && t != 23 && !Bit(c.collected, 23)
    case TargetTraitPending => PendingOf(c, t) > 0
    case NoTarget => p < |d.masks| && forall u: nat :: !Eligible(d, c, p, u)
    case NotCanonicalTarget => Outranked(d, c, p, t)
    case _ => false
  }

  /** Another open trait of `p` comes before `t`. */
  ghost predicate Outranked(d: Dataset, c: Core, p: nat, t: nat) {
    p < |d.masks| && t < |d.carriers| &&
    exists u: nat :: u < |d.carriers| && Eligible(d, c, p, u) && !RarerOrTied(d, t, u)
  }

  lemma NoCanonical(d: Dataset, c: Core, p: nat)
    requires Sealed(d) && p < PUNK_COUNT && |d.masks| == PUNK_COUNT && |d.carriers| == TRAIT_COUNT
    ensures CanonicalTarget(d, c, p) == None <==> forall u: nat :: !Eligible(d, c, p, u)
  {
    hide Sealed, Scan;
    ScanIsRarest(d, c, p, TRAIT_COUNT);
  }

  lemma NotCanonical(d: Dataset, c: Core, p: nat, t: nat)
    requires Sealed(d) && p < PUNK_COUNT && |d.masks| == PUNK_COUNT && |d.carriers| == TRAIT_COUNT
    requires Eligible(d, c, p, t)
    ensures CanonicalTarget(d, c, p) != Some(t) <==> Outranked(d, c, p, t)
  {
    hide Sealed, CanonicalTarget;
    CanonicalIff(d, c, p, t);
  }

  lemma TargetRefused(d: Dataset, c: Core, p: nat, t: nat)
    requires Sealed(d) && p < PUNK_COUNT && |d.masks| == PUNK_COUNT && |d.carriers| == TRAIT_COUNT
    ensures var fails := (e: Revert) => TargetFails(d, c, p, t, e);
      match TargetProblem(d, c, p, t)
      case None => NoneFails(TARGET_CHECKS, fails)
      case Some(e) => FirstFailing(TARGET_CHECKS, fails, e)
  {
    hide Sealed, CanonicalTarget, Outranked;
    var fails := (e: Revert) => TargetFails(d, c, p, t, e);
    NoCanonical(d, c, p);
    if Eligible(d, c, p, t) { NotCanonical(d, c, p, t); }
    var e := TargetProblem(d, c, p, t);
    if e.Some? {
      var i := if e.value == InvalidTargetTrait then 0 else if e.value == TargetCollected then 1
        else if e.value == SoleCarrier then 2 else if e.value == TargetTraitPending then 3
        else if e.value == NoTarget then 4 else 5;
      assert TARGET_CHECKS[i] == e.value && fails(e.value);
      assert forall j :: 0 <= j < i ==> !fails(TARGET_CHECKS[j]);
    }
  }

  // ---------- Checks in parts ----------

  lemma FirstPart(a: seq<Revert>, b: seq<Revert>, fails: Revert -> bool, e: Revert)
    requires FirstFailing(a, fails, e)
    ensures FirstFailing(a + b, fails, e)
  {
    var i :| 0 <= i < |a| && a[i] == e && fails(e) && forall j :: 0 <= j < i ==> !fails(a[j]);
    assert (a + b)[i] == e && forall j :: 0 <= j < i ==> (a + b)[j] == a[j];
  }

  lemma LaterPart(a: seq<Revert>, b: seq<Revert>, fails: Revert -> bool, e: Revert)
    requires NoneFails(a, fails) && FirstFailing(b, fails, e)
    ensures FirstFailing(a + b, fails, e)
  {
    var i :| 0 <= i < |b| && b[i] == e && fails(e) && forall j :: 0 <= j < i ==> !fails(b[j]);
    assert (a + b)[|a| + i] == e;
    assert forall j :: 0 <= j < |a| + i ==> (a + b)[j] == if j < |a| then a[j] else b[j - |a|];
  }

  lemma NoPart(a: seq<Revert>, b: seq<Revert>, fails: Revert -> bool)
    requires NoneFails(a, fails) && NoneFails(b, fails)
    ensures NoneFails(a + b, fails)
  {
  }

  lemma Retold(checks: seq<Revert>, f: Revert -> bool, g: Revert -> bool, e: Revert)
    requires forall i :: 0 <= i < |checks| ==> f(checks[i]) == g(checks[i])
    ensures FirstFailing(checks, f, e) ==> FirstFailing(checks, g, e)
    ensures NoneFails(checks, f) ==> NoneFails(checks, g)
  {
  }

  /** The result of an operation with these checks. */
  ghost predicate Decided(result: Result<State, Revert>, checks: seq<Revert>, fails: Revert -> bool) {
    match result
    case Ok(_) => NoneFails(checks, fails)
    case Err(e) => FirstFailing(checks, fails, e)
  }

  // ---------- Acceptance ----------

  const ENDING_CHECKS: seq<Revert> := [PunkAlreadyAcquired, ReserveOverflow]

  /** What both ways of acceptance check last, at `price`. */
  ghost predicate EndingFails(c: Core, p: nat, t: nat, price: nat, e: Revert) {
    match e
    case PunkAlreadyAcquired => InAuction(c, p) || IsVaulted(c, p)
    case ReserveOverflow => Reserve(price, AttemptsOf(c, t)) >= 0x1_0000_0000_0000_0000_0000_0000_0000_0000
    case _ => false
  }

  const BID_CHECKS: seq<Revert> :=
    [InvalidPunkId, PunkNotListedToHub, ZeroListingPrice, ListingExceedsBid, ListingAboveExpected]

  ghost predicate BidFails(d: Dataset, s: State, p: nat, t: nat, expected: nat, e: Revert) {
    var listed := p in s.offers && s.offers[p].to == Patron;
    var price := if p in s.offers then s.offers[p].price else 0;
    match e
    case InvalidPunkId => p >= 10_000
    case PunkNotListedToHub => !listed
    case ZeroListingPrice => price == 0
    case ListingExceedsBid => s.wei.liveBid < price
    case ListingAboveExpected => expected < price
    case _ => TargetFails(d, s.core, p, t, e) || EndingFails(s.core, p, t, price, e)
  }

  /** The part after the listing's own checks. */
  lemma RestRefused(d: Dataset, s: State, p: nat, t: nat, price: nat, fails: Revert -> bool)
    requires Sealed(d) && p < PUNK_COUNT && |d.masks| == PUNK_COUNT && |d.carriers| == TRAIT_COUNT
    requires forall e :: e in TARGET_CHECKS ==> fails(e) == TargetFails(d, s.core, p, t, e)
    requires forall e :: e in ENDING_CHECKS ==> fails(e) == EndingFails(s.core, p, t, price, e)
    ensures match TargetProblem(d, s.core, p, t)
      case Some(e) => FirstFailing(TARGET_CHECKS + ENDING_CHECKS, fails, e)
      case None =>
        && (!Acquirable(s.core, p) ==> FirstFailing(TARGET_CHECKS + ENDING_CHECKS, fails, PunkAlreadyAcquired))
        && (Acquirable(s.core, p) && Reserve(price, AttemptsOf(s.core, t)) > UINT128_MAX ==>
              FirstFailing(TARGET_CHECKS + ENDING_CHECKS, fails, ReserveOverflow))
        && (Acquirable(s.core, p) && Reserve(price, AttemptsOf(s.core, t)) <= UINT128_MAX ==>
              NoneFails(TARGET_CHECKS + ENDING_CHECKS, fails))
  {
    hide Sealed, TargetProblem, TargetFails, Reserve, FirstFailing, NoneFails;
    TargetRefused(d, s.core, p, t);
    var target := (e: Revert) => TargetFails(d, s.core, p, t, e);
    match TargetProblem(d, s.core, p, t)
    case Some(e) =>
      Retold(TARGET_CHECKS, target, fails, e);
      FirstPart(TARGET_CHECKS, ENDING_CHECKS, fails, e);
    case None =>
      Retold(TARGET_CHECKS, target, fails, NoTarget);
      EndingRefused(s.core, p, t, price, fails);
      if !Acquirable(s.core, p) {
        LaterPart(TARGET_CHECKS, ENDING_CHECKS, fails, PunkAlreadyAcquired);
      } else if Reserve(price, AttemptsOf(s.core, t)) > UINT128_MAX {
        LaterPart(TARGET_CHECKS, ENDING_CHECKS, fails, ReserveOverflow);
      } else {
        NoPart(TARGET_CHECKS, ENDING_CHECKS, fails);
      }
  }

  lemma EndingRefused(c: Core, p: nat, t: nat, price: nat, fails: Revert -> bool)
    requires forall e :: e in ENDING_CHECKS ==> fails(e) == EndingFails(c, p, t, price, e)
    ensures !Acquirable(c, p) ==> FirstFailing(ENDING_CHECKS, fails, PunkAlreadyAcquired)
    ensures Acquirable(c, p) && Reserve(price, AttemptsOf(c, t)) > UINT128_MAX ==>
      FirstFailing(ENDING_CHECKS, fails, ReserveOverflow)
    ensures Acquirable(c, p) && Reserve(price, AttemptsOf(c, t)) <= UINT128_MAX ==> NoneFails(ENDING_CHECKS, fails)
  {
    hide Reserve;
    assert ENDING_CHECKS[0] == PunkAlreadyAcquired && ENDING_CHECKS[1] == ReserveOverflow;
  }

  /** From a reachable state the shared ending fails only for its reserve. */
  lemma AcquireRefused(d: Dataset, s: State, p: nat, t: nat, cost: nat, acquirer: Addr, seller: Addr)
    requires Sealed(d) && Inv(d, s) && |d.masks| == PUNK_COUNT && |d.carriers| == TRAIT_COUNT && p < PUNK_COUNT
    requires cost <= s.wei.liveBid && seller != Zero && Acquirable(s.core, p)
    requires TargetProblem(d, s.core, p, t) == None
    ensures var r := Acquire(d, s, p, t, cost, acquirer, seller);
      if Reserve(cost, AttemptsOf(s.core, t)) > UINT128_MAX then r == Err(ReserveOverflow) else r.Ok?
  {
    hide Sealed, Inv, RecordAcquisition, Reserve, TargetProblem;
    InvHasCore(d, s);
    NoLiveSale(d, s, p);
    TargetProblemNone(d, s.core, p, t);
    RecordSucceedsIff(d, s.core, p, t, d.masks[p], acquirer, seller, cost);
  }

  lemma SellerReal(d: Dataset, s: State, p: nat)
    requires Inv(d, s) && p in s.offers
    ensures s.offers[p].seller != Zero
  {
    hide CoreInv, SalesMatch, Held, ProofsExact, ProofsPaid, Solvent;
  }

  /** After the listing's own checks. */
  function Remaining(d: Dataset, s: State, p: nat, t: nat, acquired: Result<State, Revert>): Result<State, Revert>
    requires |d.masks| == PUNK_COUNT && |d.carriers| == TRAIT_COUNT && p < PUNK_COUNT
  {
    if TargetProblem(d, s.core, p, t).Some? then Err(TargetProblem(d, s.core, p, t).value)
    else if !Acquirable(s.core, p) then Err(PunkAlreadyAcquired)
    else acquired
  }

  lemma RemainingDecided(d: Dataset, s: State, p: nat, t: nat, price: nat, acquired: Result<State, Revert>,
                         fails: Revert -> bool)
    requires Sealed(d) && p < PUNK_COUNT && |d.masks| == PUNK_COUNT && |d.carriers| == TRAIT_COUNT
    requires forall e :: e in TARGET_CHECKS ==> fails(e) == TargetFails(d, s.core, p, t, e)
    requires forall e :: e in ENDING_CHECKS ==> fails(e) == EndingFails(s.core, p, t, price, e)
    requires TargetProblem(d, s.core, p, t) == None && Acquirable(s.core, p) ==>
      if Reserve(price, AttemptsOf(s.core, t)) > UINT128_MAX then acquired == Err(ReserveOverflow) else acquired.Ok?
    ensures Decided(Remaining(d, s, p, t, acquired), TARGET_CHECKS + ENDING_CHECKS, fails)
  {
    hide Sealed, TargetProblem, TargetFails, Reserve, FirstFailing, NoneFails;
    RestRefused(d, s, p, t, price, fails);
  }

  lemma ListedRefused(d: Dataset, s: State, p: nat, t: nat, expected: nat, fails: Revert -> bool)
    requires |d.masks| == PUNK_COUNT && |d.carriers| == TRAIT_COUNT
    requires forall e :: e in BID_CHECKS ==> fails(e) == BidFails(d, s, p, t, expected, e)
    ensures var r := AcceptBid(d, s, p, t, expected);
      || (r.Err? && FirstFailing(BID_CHECKS, fails, r.error))
      || (NoneFails(BID_CHECKS, fails) && p < PUNK_COUNT && p in s.offers && s.offers[p].price <= s.wei.liveBid
          && r == Remaining(d, s, p, t, Acquire(d, s, p, t, s.offers[p].price, s.offers[p].seller, s.offers[p].seller)))
  {
    hide Acquire, TargetProblem, TargetFails, EndingFails;
    assert BID_CHECKS[0] == InvalidPunkId && BID_CHECKS[1] == PunkNotListedToHub && BID_CHECKS[2] == ZeroListingPrice;
    assert BID_CHECKS[3] == ListingExceedsBid && BID_CHECKS[4] == ListingAboveExpected;
    assert forall e :: e in BID_CHECKS <==>
      e == InvalidPunkId || e == PunkNotListedToHub || e == ZeroListingPrice || e == ListingExceedsBid
      || e == ListingAboveExpected;
  }

  lemma ChecksKnown()
    ensures forall e :: e in TARGET_CHECKS <==>
      e == InvalidTargetTrait || e == TargetCollected || e == SoleCarrier || e == TargetTraitPending || e == NoTarget
      || e == NotCanonicalTarget
    ensures forall e :: e in ENDING_CHECKS <==> e == PunkAlreadyAcquired || e == ReserveOverflow
  {
    var checks := TARGET_CHECKS;
    assert checks[0] == InvalidTargetTrait && checks[1] == TargetCollected && checks[2] == SoleCarrier;
    assert checks[3] == TargetTraitPending && checks[4] == NoTarget && checks[5] == NotCanonicalTarget;
    assert ENDING_CHECKS[0] == PunkAlreadyAcquired && ENDING_CHECKS[1] == ReserveOverflow;
  }

  lemma ChecksApart(d: Dataset, c: Core, p: nat, t: nat, price: nat, e: Revert)
    ensures e in TARGET_CHECKS ==> !EndingFails(c, p, t, price, e)
    ensures e in ENDING_CHECKS ==> !TargetFails(d, c, p, t, e)
  {
    ChecksKnown();
  }

  lemma BidParts(d: Dataset, s: State, p: nat, t: nat, expected: nat, e: Revert)
    requires p in s.offers
    ensures e in TARGET_CHECKS ==> BidFails(d, s, p, t, expected, e) == TargetFails(d, s.core, p, t, e)
    ensures e in ENDING_CHECKS ==>
      BidFails(d, s, p, t, expected, e) == EndingFails(s.core, p, t, s.offers[p].price, e)
  {
    hide TargetFails, EndingFails;
    ChecksKnown();
    ChecksApart(d, s.core, p, t, s.offers[p].price, e);
  }

  /** `acceptBid` goes through exactly when none of its checks fails, and otherwise
      reverts with the first that does. */
  lemma BidDecided(d: Dataset, s: State, p: nat, t: nat, expected: nat)
    requires Sealed(d) && Inv(d, s) && |d.masks| == PUNK_COUNT && |d.carriers| == TRAIT_COUNT
    ensures Decided(AcceptBid(d, s, p, t, expected), BID_CHECKS + (TARGET_CHECKS + ENDING_CHECKS),
              (e: Revert) => BidFails(d, s, p, t, expected, e))
  {
    hide Sealed, Inv, AcceptBid, Acquire, TargetProblem, TargetFails, Reserve, FirstFailing, NoneFails, Remaining;
    var fails := (e: Revert) => BidFails(d, s, p, t, expected, e);
    var r, rest := AcceptBid(d, s, p, t, expected), TARGET_CHECKS + ENDING_CHECKS;
    ListedRefused(d, s, p, t, expected, fails);
    if r.Err? && FirstFailing(BID_CHECKS, fails, r.error) {
      FirstPart(BID_CHECKS, rest, fails, r.error);
    } else {
      var offer := s.offers[p];
      SellerReal(d, s, p);
      forall e
        ensures e in TARGET_CHECKS ==> fails(e) == TargetFails(d, s.core, p, t, e)
        ensures e in ENDING_CHECKS ==> fails(e) == EndingFails(s.core, p, t, offer.price, e)
      {
        BidParts(d, s, p, t, expected, e);
      }
      if TargetProblem(d, s.core, p, t) == None && Acquirable(s.core, p) {
        AcquireRefused(d, s, p, t, offer.price, offer.seller, offer.seller);
      }
      RemainingDecided(d, s, p, t, offer.price, Acquire(d, s, p, t, offer.price, offer.seller, offer.seller), fails);
      if r.Err? { LaterPart(BID_CHECKS, rest, fails, r.error); } else { NoPart(BID_CHECKS, rest, fails); }
    }
  }

  const LISTING_CHECKS: seq<Revert> :=
    [InvalidPunkId, BidBelowMinimum, PunkNotPubliclyListed, SellerNotAllowed, ZeroListingPrice, ListingExceedsBid]

  ghost predicate ListingFails(d: Dataset, s: State, p: nat, t: nat, active: bool, finderOk: bool, e: Revert) {
    var listed := p in s.offers && s.offers[p].to == Zero;
    var price := if p in s.offers then s.offers[p].price else 0;
    match e
    case InvalidPunkId => p >= 10_000
    case BidBelowMinimum => s.wei.liveBid < 500_000_000_000_000_000
    case PunkNotPubliclyListed => !listed
    case SellerNotAllowed => !active
    case ZeroListingPrice => price == 0
    case ListingExceedsBid => s.wei.liveBid < price + FinderFee(s.wei.liveBid)
    case FinderPaymentFailed => !finderOk
    case _ => TargetFails(d, s.core, p, t, e) || EndingFails(s.core, p, t, price, e)
  }

  /** Acquiring and then paying the finder, out of a bid the fee has left. */
  function FinderPaid(d: Dataset, s: State, p: nat, t: nat, finder: Addr, finderOk: bool): Result<State, Revert>
    requires |d.masks| == PUNK_COUNT && |d.carriers| == TRAIT_COUNT && p < PUNK_COUNT && p in s.offers
    requires s.offers[p].price + FinderFee(s.wei.liveBid) <= s.wei.liveBid
  {
    var fee := FinderFee(s.wei.liveBid);
    var s1 := s.(wei := s.wei.(liveBid := s.wei.liveBid - fee, paidOut := s.wei.paidOut + fee));
    var acquired := Acquire(d, s1, p, t, s.offers[p].price, finder, s.offers[p].seller);
    if acquired.Ok? && fee > 0 && !finderOk then Err(FinderPaymentFailed) else acquired
  }

  lemma PublicRefused(d: Dataset, s: State, p: nat, t: nat, finder: Addr, active: bool, finderOk: bool,
                      fails: Revert -> bool)
    requires |d.masks| == PUNK_COUNT && |d.carriers| == TRAIT_COUNT
    requires forall e :: e in LISTING_CHECKS ==> fails(e) == ListingFails(d, s, p, t, active, finderOk, e)
    ensures var r := AcceptListing(d, s, p, t, finder, active, finderOk);
      || (r.Err? && FirstFailing(LISTING_CHECKS, fails, r.error))
      || (NoneFails(LISTING_CHECKS, fails) && p < PUNK_COUNT && p in s.offers && FinderFee(s.wei.liveBid) > 0
          && s.offers[p].price + FinderFee(s.wei.liveBid) <= s.wei.liveBid
          && r == Remaining(d, s, p, t, FinderPaid(d, s, p, t, finder, finderOk)))
  {
    hide Acquire, TargetProblem, TargetFails, EndingFails, FinderFee, FirstFailing;
    var checks := LISTING_CHECKS;
    assert checks[0] == InvalidPunkId && checks[1] == BidBelowMinimum && checks[2] == PunkNotPubliclyListed;
    assert checks[3] == SellerNotAllowed && checks[4] == ZeroListingPrice && checks[5] == ListingExceedsBid;
    var i := if p >= PUNK_COUNT then 0 else if s.wei.liveBid < MIN_BID_FOR_LISTING then 1
      else if p !in s.offers || s.offers[p].to != Zero then 2 else if !active then 3
      else if s.offers[p].price == 0 then 4
      else if s.offers[p].price + FinderFee(s.wei.liveBid) > s.wei.liveBid then 5 else 6;
    FeePositive(s.wei.liveBid);
    if i < 6 { FirstAt(checks, fails, i); }
  }

  lemma FeePositive(liveBid: nat)
    ensures liveBid >= MIN_BID_FOR_LISTING ==> FinderFee(liveBid) > 0
  {
  }

  lemma ListingParts(d: Dataset, s: State, p: nat, t: nat, active: bool, finderOk: bool, e: Revert)
    requires p in s.offers
    ensures e in TARGET_CHECKS ==> ListingFails(d, s, p, t, active, finderOk, e) == TargetFails(d, s.core, p, t, e)
    ensures e in ENDING_CHECKS ==>
      ListingFails(d, s, p, t, active, finderOk, e) == EndingFails(s.core, p, t, s.offers[p].price, e)
  {
    hide TargetFails, EndingFails, FinderFee;
    ChecksKnown();
    ChecksApart(d, s.core, p, t, s.offers[p].price, e);
  }

  /** `acceptListing` likewise; the payment to the finder comes last. */
  lemma ListingDecided(d: Dataset, s: State, p: nat, t: nat, finder: Addr, active: bool, finderOk: bool)
    requires Sealed(d) && Inv(d, s) && |d.masks| == PUNK_COUNT && |d.carriers| == TRAIT_COUNT
    ensures Decided(AcceptListing(d, s, p, t, finder, active, finderOk),
              LISTING_CHECKS + (TARGET_CHECKS + ENDING_CHECKS + [FinderPaymentFailed]),
              (e: Revert) => ListingFails(d, s, p, t, active, finderOk, e))
  {
    hide Sealed, Inv, AcceptListing, Acquire, TargetProblem, TargetFails, Reserve, FirstFailing, NoneFails, Remaining,
      FinderFee;
    var fails := (e: Revert) => ListingFails(d, s, p, t, active, finderOk, e);
    var r, rest := AcceptListing(d, s, p, t, finder, active, finderOk), TARGET_CHECKS + ENDING_CHECKS;
    PublicRefused(d, s, p, t, finder, active, finderOk, fails);
    if r.Err? && FirstFailing(LISTING_CHECKS, fails, r.error) {
      FirstPart(LISTING_CHECKS, rest + [FinderPaymentFailed], fails, r.error);
    } else {
      forall e
        ensures e in TARGET_CHECKS ==> fails(e) == TargetFails(d, s.core, p, t, e)
        ensures e in ENDING_CHECKS ==> fails(e) == EndingFails(s.core, p, t, s.offers[p].price, e)
      {
        ListingParts(d, s, p, t, active, finderOk, e);
      }
      FinderDecided(d, s, p, t, finder, finderOk, fails);
      if r.Err? {
        LaterPart(LISTING_CHECKS, rest + [FinderPaymentFailed], fails, r.error);
      } else {
        NoPart(LISTING_CHECKS, rest + [FinderPaymentFailed], fails);
      }
    }
  }

  lemma FinderDecided(d: Dataset, s: State, p: nat, t: nat, finder: Addr, finderOk: bool, fails: Revert -> bool)
    requires Sealed(d) && Inv(d, s) && |d.masks| == PUNK_COUNT && |d.carriers| == TRAIT_COUNT
    requires p < PUNK_COUNT && p in s.offers && FinderFee(s.wei.liveBid) > 0
    requires s.offers[p].price + FinderFee(s.wei.liveBid) <= s.wei.liveBid
    requires forall e :: e in TARGET_CHECKS ==> fails(e) == TargetFails(d, s.core, p, t, e)
    requires forall e :: e in ENDING_CHECKS ==> fails(e) == EndingFails(s.core, p, t, s.offers[p].price, e)
    requires fails(FinderPaymentFailed) == !finderOk
    ensures Decided(Remaining(d, s, p, t, FinderPaid(d, s, p, t, finder, finderOk)),
              TARGET_CHECKS + ENDING_CHECKS + [FinderPaymentFailed], fails)
  {
    hide Sealed, Inv, Acquire, TargetProblem, TargetFails, Reserve, FirstFailing, NoneFails, FinderFee;
    var price, fee := s.offers[p].price, FinderFee(s.wei.liveBid);
    var checks := TARGET_CHECKS + ENDING_CHECKS;
    var s1 := s.(wei := s.wei.(liveBid := s.wei.liveBid - fee, paidOut := s.wei.paidOut + fee));
    var acquired := Acquire(d, s1, p, t, price, finder, s.offers[p].seller);
    SellerReal(d, s, p);
    WeiKeeps(d, s, s1.wei, s.now);
    if TargetProblem(d, s.core, p, t) == None && Acquirable(s.core, p) {
      AcquireRefused(d, s1, p, t, price, finder, s.offers[p].seller);
    }
    RemainingDecided(d, s, p, t, price, acquired, fails);
    LastCheck(FinderPaymentFailed, fails);
    match Remaining(d, s, p, t, acquired)
    case Err(e) => FirstPart(checks, [FinderPaymentFailed], fails, e);
    case Ok(_) =>
      if finderOk {
        NoPart(checks, [FinderPaymentFailed], fails);
      } else {
        LaterPart(checks, [FinderPaymentFailed], fails, FinderPaymentFailed);
      }
  }

  lemma LastCheck(e: Revert, fails: Revert -> bool)
    ensures if fails(e) then FirstFailing([e], fails, e) else NoneFails([e], fails)
  {
    assert [e][0] == e;
  }

  // ---------- Bids and settlements ----------

  const PLACE_CHECKS: seq<Revert> := [SaleMissing, AlreadySettled, SaleEnded, BidBelowReserve, BidBelowMinIncrement]

  /** The increment is at least one wei and at least a hundredth, rounded down, of
      the standing bid. */
  ghost predicate PlaceFails(s: State, p: nat, value: nat, e: Revert) {
    match e
    case SaleMissing => p !in s.sales
    case AlreadySettled => p in s.sales && s.sales[p].settled
    case SaleEnded => p in s.sales && s.sales[p].endsAt <= s.now
    case BidBelowReserve => p in s.sales && value < s.sales[p].reserve
    case BidBelowMinIncrement =>
      p in s.sales && s.sales[p].highBid > 0
      && (value <= s.sales[p].highBid || 100 * (value - s.sales[p].highBid + 1) <= s.sales[p].highBid)
    case _ => false
  }

  lemma IncrementIs(high: nat, value: nat)
    ensures value < MinNext(high) <==> value <= high || 100 * (value - high + 1) <= high
  {
    assert high * 100 / 10_000 == high / 100;
  }

  /** A bid goes through exactly when none of its checks fails, and otherwise
      reverts with the first that does. */
  lemma PlaceDecided(d: Dataset, s: State, p: nat, bidder: Addr, value: nat, referrer: Addr, refundOk: bool)
    requires Inv(d, s)
    ensures Decided(PlaceBid(s, p, bidder, value, referrer, refundOk), PLACE_CHECKS,
              (e: Revert) => PlaceFails(s, p, value, e))
  {
    hide Inv, MinNext, Refunded, FirstFailing;
    var fails := (e: Revert) => PlaceFails(s, p, value, e);
    var r := PlaceBid(s, p, bidder, value, referrer, refundOk);
    if p in s.sales {
      IncrementIs(s.sales[p].highBid, value);
      ReservePositive(d, s, p);
    }
    if r.Err? {
      var i := if r.error == SaleMissing then 0 else if r.error == AlreadySettled then 1
        else if r.error == SaleEnded then 2 else if r.error == BidBelowReserve then 3 else 4;
      assert PLACE_CHECKS[i] == r.error && fails(r.error);
      assert forall j :: 0 <= j < i ==> !fails(PLACE_CHECKS[j]);
      FirstAt(PLACE_CHECKS, fails, i);
    }
  }

  lemma ReservePositive(d: Dataset, s: State, p: nat)
    requires Inv(d, s) && p in s.sales
    ensures s.sales[p].reserve > 0
  {
    hide CoreInv, Held, OffersReal, ProofsExact, ProofsPaid, Solvent;
  }

  const SETTLE_CHECKS: seq<Revert> := [SaleMissing, AlreadySettled, SaleLive]

  ghost predicate SettleFails(s: State, p: nat, e: Revert) {
    match e
    case SaleMissing => p !in s.sales
    case AlreadySettled => p in s.sales && s.sales[p].settled
    case SaleLive => p in s.sales && s.now < s.sales[p].endsAt
    case _ => false
  }

  /** Only an auction that is missing, settled or still open refuses settlement. */
  lemma SettleDecided(d: Dataset, s: State, p: nat, referrerOk: bool, forwardOk: bool)
    requires Inv(d, s) && forall q :: q in s.core.indexOf ==> 1 <= s.core.indexOf[q] <= |s.core.log|
    ensures Decided(Settle(s, p, referrerOk, forwardOk), SETTLE_CHECKS, (e: Revert) => SettleFails(s, p, e))
  {
    hide Inv, SettleVaulted, SettleCleared;
    var checks := SETTLE_CHECKS;
    assert checks[0] == SaleMissing && checks[1] == AlreadySettled && checks[2] == SaleLive;
    if LiveSale(s.sales, p) && s.now >= s.sales[p].endsAt {
      InvIndex(d, s);
      SettleLands(d, s, p, referrerOk, forwardOk);
    }
  }

  // ---------- The records core ----------

  const RECORD_CHECKS: seq<CoreError> :=
    [ZeroAddress, PunkOutOfRange, AlreadyRecorded, MaskMismatch, BadCategoryId, TargetTraitNotInMask,
     TargetTraitAlreadyCollected, SoleCarrierMustTargetTrait, TargetTraitAlreadyPending, NoEligibleTarget,
     TargetNotCanonical]

  ghost predicate RecordFails(d: Dataset, c: Core, p: nat, t: nat, mask: nat, seller: Addr, e: CoreError) {
    match e
    case ZeroAddress => seller == Zero
    case PunkOutOfRange => p >= 10_000
    case AlreadyRecorded => InAuction(c, p) || IsVaulted(c, p)
    case MaskMismatch => p >= |d.masks| || mask != d.masks[p]
    case BadCategoryId => t >= 111
    case TargetTraitNotInMask => p >= |d.masks| || !Bit(d.masks[p], t)
    case TargetTraitAlreadyCollected => Bit(c.collected, t)
    case SoleCarrierMustTargetTrait => p == 8348 && t != 23 && !Bit(c.collected, 23)
    case TargetTraitAlreadyPending => PendingOf(c, t) > 0
    case NoEligibleTarget => p < |d.masks| && forall u: nat :: !Eligible(d, c, p, u)
    case TargetNotCanonical => Outranked(d, c, p, t)
    case _ => false
  }

  /** `recordAcquisition` succeeds exactly when none of its checks fails, and
      otherwise reverts with the first that does. */
  lemma RecordDecided(d: Dataset, c: Core, p: nat, t: nat, mask: nat, acquirer: Addr, seller: Addr, price: nat)
    requires Sealed(d) && |d.masks| == PUNK_COUNT && |d.carriers| == TRAIT_COUNT
    ensures var fails := (e: CoreError) => RecordFails(d, c, p, t, mask, seller, e);
      match RecordAcquisition(d, c, p, t, mask, acquirer, seller, price)
      case Ok(_) => NoneFails(RECORD_CHECKS, fails)
      case Err(e) => FirstFailing(RECORD_CHECKS, fails, e)
  {
    hide Sealed, Recorded, FirstFailing, TargetFault, RecordFails;
    var fails := (e: CoreError) => RecordFails(d, c, p, t, mask, seller, e);
    var first := if seller == Zero then 0 else if p >= PUNK_COUNT then 1 else if !Acquirable(c, p) then 2
      else if mask != d.masks[p] then 3 else 4;
    EarlyChecks(d, c, p, t, mask, seller);
    if first < 4 {
      FirstAt(RECORD_CHECKS, fails, first);
    } else {
      var i := FaultAt(d, c, p, t, mask, seller);
      if i < |RECORD_CHECKS| { FirstAt(RECORD_CHECKS, fails, i); }
    }
  }

  lemma EarlyChecks(d: Dataset, c: Core, p: nat, t: nat, mask: nat, seller: Addr)
    requires |d.masks| == PUNK_COUNT
    ensures RECORD_CHECKS[..4] == [ZeroAddress, PunkOutOfRange, AlreadyRecorded, MaskMismatch]
    ensures RecordFails(d, c, p, t, mask, seller, RECORD_CHECKS[0]) <==> seller == Zero
    ensures RecordFails(d, c, p, t, mask, seller, RECORD_CHECKS[1]) <==> p >= PUNK_COUNT
    ensures RecordFails(d, c, p, t, mask, seller, RECORD_CHECKS[2]) <==> !Acquirable(c, p)
    ensures p < PUNK_COUNT ==>
      (RecordFails(d, c, p, t, mask, seller, RECORD_CHECKS[3]) <==> mask != d.masks[p])
  {
  }

  /** Which of the checks on the target fails first. */
  lemma FaultAt(d: Dataset, c: Core, p: nat, t: nat, mask: nat, seller: Addr) returns (i: nat)
    requires Sealed(d) && |d.masks| == PUNK_COUNT && |d.carriers| == TRAIT_COUNT && p < PUNK_COUNT
    ensures 4 <= i <= |RECORD_CHECKS|
    ensures forall j :: 4 <= j < i ==> !RecordFails(d, c, p, t, mask, seller, RECORD_CHECKS[j])
    ensures TargetFault(d, c, p, t) == None <==> i == |RECORD_CHECKS|
    ensures i < |RECORD_CHECKS| ==>
      TargetFault(d, c, p, t) == Some(RECORD_CHECKS[i]) && RecordFails(d, c, p, t, mask, seller, RECORD_CHECKS[i])
  {
    hide Sealed, CanonicalTarget, Outranked;
    NoCanonical(d, c, p);
    if Eligible(d, c, p, t) { NotCanonical(d, c, p, t); }
    match TargetFault(d, c, p, t)
    case None => i := 11;
    case Some(BadCategoryId) => i := 4;
    case Some(TargetTraitNotInMask) => i := 5;
    case Some(TargetTraitAlreadyCollected) => i := 6;
    case Some(SoleCarrierMustTargetTrait) => i := 7;
    case Some(TargetTraitAlreadyPending) => i := 8;
    case Some(NoEligibleTarget) => i := 9;
    case Some(_) => i := 10;
  }

  const MARK_CHECKS: seq<CoreError> := [NotRecorded, CustodyAlreadySet, InvalidCustodyTransition]

  ghost predicate MarkFails(c: Core, p: nat, outcome: Custody, e: CoreError) {
    match e
    case NotRecorded => p !in c.indexOf
    case CustodyAlreadySet => !InAuction(c, p)
    case InvalidCustodyTransition => outcome == NotAcquired || outcome == InReturnAuction
    case _ => false
  }

  /** `markCustody` likewise. */
  lemma MarkDecided(c: Core, p: nat, outcome: Custody)
    requires p in c.indexOf ==> 1 <= c.indexOf[p] <= |c.log|
    ensures var fails := (e: CoreError) => MarkFails(c, p, outcome, e);
      match MarkCustody(c, p, outcome)
      case Ok(_) => NoneFails(MARK_CHECKS, fails)
      case Err(e) => FirstFailing(MARK_CHECKS, fails, e)
  {
    hide Marked;
    var checks := MARK_CHECKS;
    assert checks[0] == NotRecorded && checks[1] == CustodyAlreadySet && checks[2] == InvalidCustodyTransition;
  }
}
