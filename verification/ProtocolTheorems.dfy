/** What the protocol promises, over every reachable state and every run. */
module ProtocolTheorems {
  import opened Wrappers
  import opened TraitMasks
  import opened Collection
  import opened ReturnAuctions
  import opened Protocol
  import opened ProtocolSafety
  import opened ProtocolRuns

  // ---------- One claim per trait ----------

  /** Punks in flight have pairwise distinct targets, none of them collected,
      and each is the one pending claim on its trait. */
  lemma TargetsDistinct(d: Dataset, s: State, p: nat, q: nat)
    requires Inv(d, s) && LiveSale(s.sales, p) && LiveSale(s.sales, q)
    ensures p != q ==> s.sales[p].target != s.sales[q].target
    ensures !Bit(s.core.collected, s.sales[p].target) && PendingOf(s.core, s.sales[p].target) == 1
  {
    hide Held, OffersReal, ProofsExact, ProofsPaid, Solvent, SalesMatch, IndexOk, HistoryFrozen, AttemptsExact,
      CollectedExact, TargetsReal;
    var c := s.core;
    SaleKnown(s.sales, c.log, c.indexOf, c.custody, p);
    SaleKnown(s.sales, c.log, c.indexOf, c.custody, q);
    var rows: Rows, claims: map<nat, nat> :| CoreInvAt(d, c, rows, claims);
    FlyingIff(d, c, rows, claims, p);
    FlyingIff(d, c, rows, claims, q);
  }

  /** A pending trait is the target of a sale that has not been settled. */
  lemma PendingHasSale(d: Dataset, s: State, t: nat) returns (p: nat)
    requires Inv(d, s) && PendingOf(s.core, t) > 0
    ensures LiveSale(s.sales, p) && s.sales[p].target == t
  {
    hide Held, OffersReal, ProofsExact, ProofsPaid, Solvent, SalesMatch, IndexOk, RowsMatch, HistoryFrozen,
      AttemptsExact, CollectedExact, TargetsReal;
    var c := s.core;
    var rows: Rows, claims: map<nat, nat> :| CoreInvAt(d, c, rows, claims);
    p := claims[t];
    FlyingFacts(d, c, rows, claims, p);
    FlyingInAuction(d, c, rows, claims, p);
    FlightHasSale(s.sales, c.log, c.indexOf, c.custody, p);
  }

  lemma FlightHasSale(sales: map<nat, Sale>, log: seq<Acquisition>, indexOf: map<nat, nat>,
                      custody: map<nat, Custody>, p: nat)
    requires SalesMatch(sales, log, indexOf, custody) && p in custody && custody[p] == InReturnAuction
    ensures LiveSale(sales, p) && p in indexOf && 1 <= indexOf[p] <= |log|
    ensures sales[p].target == log[indexOf[p] - 1].target
  {
  }

  // ---------- Collected traits, vaulted Punks and Proofs ----------

  lemma {:induction false} InjectiveSize(m: map<nat, nat>)
    requires forall a, b :: a in m && b in m && a != b ==> m[a] != m[b]
    ensures |m.Values| == |m|
    decreases |m|
  {
    if m != map[] {
      var a :| a in m.Keys;
      var rest := m - {a};
      InjectiveSize(rest);
      assert forall b :: b in rest ==> rest[b] == m[b] != m[a];
      forall v | v in m.Values
        ensures v in rest.Values + {m[a]}
      {
        var b :| b in m && m[b] == v;
        assert b == a || (b in rest && rest[b] == v);
      }
      assert m.Values == rest.Values + {m[a]};
    }
  }

  /** Every collected trait has exactly one vaulted Punk and exactly one Proof,
      so the three counts agree. */
  lemma CountsAgree(d: Dataset, s: State)
    requires Inv(d, s)
    ensures |s.locked| == |s.proofs| == PopCount(s.core.collected)
    ensures forall t: nat :: t in s.proofs <==> Bit(s.core.collected, t)
  {
    hide OffersReal, ProofsPaid, Solvent, SalesMatch, HistoryFrozen, AttemptsExact, PendingExact, TargetsReal,
      ProofsNumbered;
    var fv := s.core.firstVaulted;
    var rows: Rows, claims: map<nat, nat> :| CoreInvAt(d, s.core, rows, claims);
    InjectiveSize(fv);
    LockedAreValues(fv, rows, s.locked, s.core);
    assert |s.proofs| == |s.proofs.Keys| == |fv.Keys| == |fv|;
  }

  lemma LockedAreValues(fv: map<nat, nat>, rows: Rows, locked: set<nat>, c: Core)
    requires IndexOk(c.log, c.indexOf, c.custody) && RowsMatch(c.log, c.indexOf, rows)
    requires CollectedExact(c.collected, fv, rows)
    requires forall p: nat :: p in locked <==> p in c.custody && c.custody[p] == Vaulted
    ensures locked == fv.Values
  {
    forall p: nat
      ensures p in locked <==> Locked(rows, p)
    {
    }
    forall p | p in locked
      ensures p in fv.Values
    {
      assert fv[rows[p].target] == p;
    }
  }

  // ---------- Acceptance ----------

  lemma TargetProblemNone(d: Dataset, c: Core, p: nat, t: nat)
    requires Sealed(d) && CoreInv(d, c) && p < PUNK_COUNT && Acquirable(c, p)
    requires |d.masks| == PUNK_COUNT && |d.carriers| == TRAIT_COUNT
    ensures TargetProblem(d, c, p, t) == None <==> CanonicalTarget(d, c, p) == Some(t)
  {
    hide CoreInv, Sealed, Scan;
    if CanonicalTarget(d, c, p) == Some(t) {
      CanonicalIff(d, c, p, t);
      CanonicalSubsumesGuard(d, c, p, t);
    }
  }

  lemma NoLiveSale(d: Dataset, s: State, p: nat)
    requires Inv(d, s) && Acquirable(s.core, p)
    ensures !LiveSale(s.sales, p)
  {
    hide CoreInv, Held, OffersReal, ProofsExact, ProofsPaid, Solvent;
  }

  lemma AcquireSucceeds(d: Dataset, s: State, p: nat, t: nat, cost: nat, acquirer: Addr, seller: Addr)
    requires |d.masks| == PUNK_COUNT && |d.carriers| == TRAIT_COUNT && p < PUNK_COUNT && cost <= s.wei.liveBid
    ensures Acquire(d, s, p, t, cost, acquirer, seller).Ok? <==>
      && !LiveSale(s.sales, p) && Reserve(cost, AttemptsOf(s.core, t)) <= UINT128_MAX
      && RecordAcquisition(d, s.core, p, t, d.masks[p], acquirer, seller, cost).Ok?
  {
    hide RecordAcquisition, Reserve;
  }

  /** When `acceptBid` goes through, from any reachable state: the Punk is listed
      exclusively to Patron at a positive price within the live bid and the
      caller's cap, it is not in flight or vaulted, and the target is its
      canonical one. Of the remaining checks only the 128-bit bound on the
      reserve can still fail. */
  lemma AcceptBidIff(d: Dataset, s: State, p: nat, t: nat, expected: nat)
    requires Sealed(d) && Inv(d, s) && |d.masks| == PUNK_COUNT && |d.carriers| == TRAIT_COUNT
    ensures AcceptBid(d, s, p, t, expected).Ok? <==>
      && p < PUNK_COUNT && p in s.offers && s.offers[p].to == Patron
      && 0 < s.offers[p].price <= s.wei.liveBid && s.offers[p].price <= expected
      && Acquirable(s.core, p) && CanonicalTarget(d, s.core, p) == Some(t)
      && Reserve(s.offers[p].price, AttemptsOf(s.core, t)) <= UINT128_MAX
  {
    hide CoreInv, Held, ProofsExact, ProofsPaid, Solvent, SalesMatch, Sealed, Scan, RecordAcquisition, Reserve, Acquire,
      TargetProblem;
    if p < PUNK_COUNT && Acquirable(s.core, p) && p in s.offers && s.offers[p].price <= s.wei.liveBid {
      var offer := s.offers[p];
      TargetProblemNone(d, s.core, p, t);
      AcquireSucceeds(d, s, p, t, offer.price, offer.seller, offer.seller);
      RecordSucceedsIff(d, s.core, p, t, d.masks[p], offer.seller, offer.seller, offer.price);
      NoLiveSale(d, s, p);
    }
  }

  /** When `acceptListing` goes through: a public listing of an allowlisted seller
      at a positive price that leaves room for the fee of a finder who can take it
      in a bid of at least half an ether; the rest as for `acceptBid`. */
  lemma AcceptListingIff(d: Dataset, s: State, p: nat, t: nat, finder: Addr, active: bool, finderOk: bool)
    requires Sealed(d) && Inv(d, s) && |d.masks| == PUNK_COUNT && |d.carriers| == TRAIT_COUNT
    ensures AcceptListing(d, s, p, t, finder, active, finderOk).Ok? <==>
      && p < PUNK_COUNT && p in s.offers && s.offers[p].to == Zero && active && finderOk
      && s.wei.liveBid >= MIN_BID_FOR_LISTING
      && 0 < s.offers[p].price && s.offers[p].price + FinderFee(s.wei.liveBid) <= s.wei.liveBid
      && Acquirable(s.core, p) && CanonicalTarget(d, s.core, p) == Some(t)
      && Reserve(s.offers[p].price, AttemptsOf(s.core, t)) <= UINT128_MAX
    ensures 200 * FinderFee(s.wei.liveBid) <= s.wei.liveBid && FinderFee(s.wei.liveBid) <= FINDER_FEE_FIXED_CAP
  {
    hide CoreInv, Held, ProofsExact, ProofsPaid, Solvent, SalesMatch, Sealed, Scan, RecordAcquisition, Reserve, Acquire,
      TargetProblem;
    var fee := FinderFee(s.wei.liveBid);
    if p < PUNK_COUNT && Acquirable(s.core, p) && p in s.offers && s.offers[p].price + fee <= s.wei.liveBid {
      var offer := s.offers[p];
      var s1 := s.(wei := s.wei.(liveBid := s.wei.liveBid - fee, paidOut := s.wei.paidOut + fee));
      TargetProblemNone(d, s.core, p, t);
      AcquireSucceeds(d, s1, p, t, offer.price, finder, offer.seller);
      RecordSucceedsIff(d, s.core, p, t, d.masks[p], finder, offer.seller, offer.price);
      NoLiveSale(d, s, p);
    }
  }

  /** The reserve of an acquisition counts every earlier acquisition in the log
      that aimed at the same trait. */
  lemma ReserveCountsAttempts(d: Dataset, s: State, p: nat, t: nat, cost: nat, acquirer: Addr, seller: Addr)
    requires Inv(d, s) && |d.masks| == PUNK_COUNT && |d.carriers| == TRAIT_COUNT && p < PUNK_COUNT
    requires cost <= s.wei.liveBid && Acquire(d, s, p, t, cost, acquirer, seller).Ok?
    ensures var s' := Acquire(d, s, p, t, cost, acquirer, seller).value;
      p in s'.sales && s'.sales[p].reserve == Reserve(cost, CountTargets(s.core.log, t))
      && s'.sales[p].target == t && s'.sales[p].highBid == 0
  {
    hide Reserve, RecordAcquisition, Acquire, SalesMatch, Held, OffersReal, ProofsExact, ProofsPaid, Solvent;
    AcquireShape(d, s, p, t, cost, acquirer, seller);
    AttemptsCounted(d, s.core, t);
  }

  lemma AttemptsCounted(d: Dataset, c: Core, t: nat)
    requires CoreInv(d, c)
    ensures AttemptsOf(c, t) == CountTargets(c.log, t)
  {
    var rows: Rows, claims: map<nat, nat> :| CoreInvAt(d, c, rows, claims);
    hide IndexOk, RowsMatch, HistoryFrozen, PendingExact, CollectedExact, TargetsReal;
  }

  // ---------- Bids ----------

  /** A bid lands exactly when the auction is open and the amount is one the
      auction accepts over the standing bid. */
  lemma PlaceBidIff(s: State, p: nat, bidder: Addr, value: nat, referrer: Addr, refundOk: bool)
    ensures PlaceBid(s, p, bidder, value, referrer, refundOk).Ok? <==>
      LiveSale(s.sales, p) && s.now < s.sales[p].endsAt
      && BidAccepted(s.sales[p].reserve, s.sales[p].highBid, value)
  {
    hide MinNext, Refunded;
  }

  /** A landed bid leads, and only its auction changes. With 15 minutes or more to
      go the end stays where it was; any later bid leaves exactly one hour. The
      outbid bidder has the whole of the old bid back, in hand if the
      send succeeds and else in the refund queue, and nobody else's refund moves. */
  lemma BidLeads(d: Dataset, s: State, p: nat, bidder: Addr, value: nat, referrer: Addr, refundOk: bool)
    requires Inv(d, s) && PlaceBid(s, p, bidder, value, referrer, refundOk).Ok?
    ensures var s' := PlaceBid(s, p, bidder, value, referrer, refundOk).value;
      && s'.core == s.core && s'.owner == s.owner && s'.sales.Keys == s.sales.Keys
      && (forall q :: q in s.sales && q != p ==> s'.sales[q] == s.sales[q])
      && s'.sales[p] == s.sales[p].(highBid := value, highBidder := bidder, referrer := referrer,
                                    endsAt := s'.sales[p].endsAt)
      && s.now < s.sales[p].endsAt
      && (s.sales[p].endsAt >= s.now + 900 ==> s'.sales[p].endsAt == s.sales[p].endsAt)
      && (s.sales[p].endsAt < s.now + 900 ==> s'.sales[p].endsAt == s.now + 3600)
      && s'.wei == s.wei.(auctions := s'.wei.auctions, refunds := s'.wei.refunds, paidOut := s'.wei.paidOut)
      && (forall a :: a != s.sales[p].highBidder ==> RefundOf(s'.wei.refunds, a) == RefundOf(s.wei.refunds, a))
      && s'.wei.paidOut + RefundOf(s'.wei.refunds, s.sales[p].highBidder)
         == s.wei.paidOut + RefundOf(s.wei.refunds, s.sales[p].highBidder) + s.sales[p].highBid
      && s'.wei.paidOut == s.wei.paidOut + if refundOk then s.sales[p].highBid else 0
  {
    hide MinNext, CoreInv, Held, OffersReal, ProofsExact, ProofsPaid, Solvent;
    HeldBidCovered(s.wei.auctions, s.sales, s.wei.refunds, p);
    SaleKnown(s.sales, s.core.log, s.core.indexOf, s.core.custody, p);
  }

  /** A queued refund can always be withdrawn, in full, from any reachable state:
      the module's balance covers it, so only an empty queue refuses. */
  lemma WithdrawIff(d: Dataset, s: State, bidder: Addr)
    requires Inv(d, s)
    ensures Withdraw(s, bidder).Ok? <==> RefundOf(s.wei.refunds, bidder) > 0
    ensures Withdraw(s, bidder).Ok? ==>
      var s', owed := Withdraw(s, bidder).value, RefundOf(s.wei.refunds, bidder);
      s' == s.(wei := s.wei.(auctions := s.wei.auctions - owed, refunds := s'.wei.refunds,
                             paidOut := s.wei.paidOut + owed))
      && RefundOf(s'.wei.refunds, bidder) == 0 && owed <= s.wei.auctions
      && forall a :: a != bidder ==> RefundOf(s'.wei.refunds, a) == RefundOf(s.wei.refunds, a)
  {
    hide CoreInv, SalesMatch, Held, OffersReal, ProofsExact, ProofsPaid;
    OwedAtMost(s.wei.refunds, bidder);
  }

  // ---------- Sold auctions ----------

  /** Settling a sold auction hands the Punk to the high bidder and frees its
      trait: open again, no longer pending, and dearer the next time, since the
      attempt stays counted. */
  lemma SoldFreesTrait(d: Dataset, s: State, p: nat, referrerOk: bool, cost: nat)
    requires Inv(d, s) && LiveSale(s.sales, p) && s.sales[p].highBidder != Zero
    requires p in s.core.indexOf && 1 <= s.core.indexOf[p] <= |s.core.log|
    ensures SettleCleared(s, p, referrerOk).Ok?
    ensures var s', t := SettleCleared(s, p, referrerOk).value, s.sales[p].target;
      && OwnerOf(s', p) == s.sales[p].highBidder && Acquirable(s'.core, p)
      && s'.core.collected == s.core.collected && !Bit(s'.core.collected, t) && PendingOf(s'.core, t) == 0
      && AttemptsOf(s'.core, t) == AttemptsOf(s.core, t) == CountTargets(s.core.log, t) >= 1
      && 100 * Reserve(cost, AttemptsOf(s'.core, t)) >= 102 * cost
  {
    hide CoreInv, SalesMatch, Held, OffersReal, ProofsExact, ProofsPaid, Solvent, Bit, Reserve, Distributed;
    var c, i := s.core, s.core.indexOf[p] - 1;
    ClearedKeeps(d, s, p, referrerOk);
    SaleKnown(s.sales, c.log, c.indexOf, c.custody, p);
    MarkKeeps(d, c, p, ReturnedToMarket);
    TargetsDistinct(d, s, p, p);
    AttemptsCounted(d, c, s.sales[p].target);
    CountsItself(c.log, i);
    ReserveAboveCost(cost, AttemptsOf(c, s.sales[p].target));
    assert cost * (101 + AttemptsOf(c, s.sales[p].target)) >= 102 * cost;
  }

  /** Where a winning bid goes: 65% of cost, rounded down, to the live bid's
      adapter; a tenth of cost, rounded down, to the burn pool; the rest of cost to
      the burner; of the premium a twentieth, rounded down, to a referrer who can
      take it, and the rest to the pool. Nothing else of the ledger moves. */
  lemma SoldPays(s: State, p: nat, referrerOk: bool)
    requires p in s.sales && (p in s.core.indexOf ==> 1 <= s.core.indexOf[p] <= |s.core.log|)
    requires SettleCleared(s, p, referrerOk).Ok?
    ensures var sale, w, w' := s.sales[p], s.wei, SettleCleared(s, p, referrerOk).value.wei;
      var toBid, toBurner, toReferrer := w'.adapter - w.adapter, w'.burner - w.burner, w'.paidOut - w.paidOut;
      var premium := sale.highBid - sale.cost;
      var ofCost := w'.pool - w.pool - (premium - toReferrer);
      && w'.auctions == w.auctions - sale.highBid && toBid + toBurner + ofCost == sale.cost
      && 20 * toBid <= 13 * sale.cost < 20 * (toBid + 1)
      && 10 * ofCost <= sale.cost < 10 * (ofCost + 1)
      && sale.cost <= 4 * toBurner < sale.cost + 8
      && (if sale.referrer != Zero && referrerOk then 20 * toReferrer <= premium < 20 * (toReferrer + 1)
          else toReferrer == 0)
      && w' == w.(auctions := w'.auctions, adapter := w'.adapter, burner := w'.burner, pool := w'.pool,
                  paidOut := w'.paidOut)
  {
    hide MarkCustody;
  }

  /** Where the pool goes when nobody bids: to the burner, if the forward works;
      otherwise nothing moves at all. */
  lemma UnsoldPays(s: State, p: nat, forwardOk: bool)
    requires p in s.sales && (p in s.core.indexOf ==> 1 <= s.core.indexOf[p] <= |s.core.log|)
    requires SettleVaulted(s, p, forwardOk).Ok?
    ensures var w, w' := s.wei, SettleVaulted(s, p, forwardOk).value.wei;
      w' == if forwardOk then w.(burner := w.burner + w.pool, pool := 0) else w
  {
    hide MarkCustody, PopCount, Bit;
  }

  lemma {:induction false} CountsItself(log: seq<Acquisition>, i: nat)
    requires i < |log|
    ensures CountTargets(log, log[i].target) >= 1
    decreases |log|
  {
    if i < |log| - 1 { CountsItself(log[..|log| - 1], i); }
  }

  // ---------- Conservation ----------

  /** Every wei inside the protocol, owed by the market, or already paid out. */
  function Total(w: Ledger): nat {
    w.liveBid + w.adapter + w.burner + w.pool + w.auctions + w.credits + w.paidOut
  }

  /** The wei a successful transaction brings in from outside. */
  function Inflow(op: Op): nat {
    match op
    case OpFund(wei) => wei
    case OpDonate(wei) => wei
    case OpPlaceBid(_, _, value, _, _) => value
    case _ => 0
  }

  lemma AcquireConserves(d: Dataset, s: State, p: nat, t: nat, cost: nat, acquirer: Addr, seller: Addr)
    requires |d.masks| == PUNK_COUNT && |d.carriers| == TRAIT_COUNT && p < PUNK_COUNT && cost <= s.wei.liveBid
    requires Acquire(d, s, p, t, cost, acquirer, seller).Ok?
    ensures Total(Acquire(d, s, p, t, cost, acquirer, seller).value.wei) == Total(s.wei)
  {
    hide RecordAcquisition, Reserve;
  }

  lemma SettleConserves(s: State, p: nat, referrerOk: bool, forwardOk: bool)
    requires p in s.core.indexOf ==> 1 <= s.core.indexOf[p] <= |s.core.log|
    requires Settle(s, p, referrerOk, forwardOk).Ok?
    ensures Total(Settle(s, p, referrerOk, forwardOk).value.wei) == Total(s.wei)
  {
    hide MarkCustody, Bit, PopCount, ClearedSplit;
    var sale := s.sales[p];
    if sale.highBidder != Zero {
      SplitConserves(sale.cost, sale.highBid, sale.referrer != Zero, referrerOk);
    }
  }

  lemma StepConserves(d: Dataset, s: State, op: Op)
    requires |d.masks| == PUNK_COUNT && |d.carriers| == TRAIT_COUNT
    requires forall p :: p in s.core.indexOf ==> 1 <= s.core.indexOf[p] <= |s.core.log|
    requires Step(d, s, op).Ok?
    ensures Total(Step(d, s, op).value.wei) == Total(s.wei) + Inflow(op)
  {
    hide Acquire, TargetProblem, Settle, MinNext;
    match op
    case OpAcceptBid(p, t, expected) =>
      AcquireConserves(d, s, p, t, s.offers[p].price, s.offers[p].seller, s.offers[p].seller);
    case OpAcceptListing(p, t, finder, active, finderOk) =>
      var fee := FinderFee(s.wei.liveBid);
      var s1 := s.(wei := s.wei.(liveBid := s.wei.liveBid - fee, paidOut := s.wei.paidOut + fee));
      AcquireConserves(d, s1, p, t, s.offers[p].price, finder, s.offers[p].seller);
    case OpSettle(p, referrerOk, forwardOk) => SettleConserves(s, p, referrerOk, forwardOk);
    case _ =>
  }

  /** The wei brought in by the transactions of a run that went through. */
  ghost function RunInflow(d: Dataset, s: State, ops: seq<Op>): nat
    requires Sealed(d) && Inv(d, s)
    decreases |ops|
  {
    if ops == [] then 0
    else
      InvIndex(d, s);
      match Step(d, s, ops[0])
      case Err(_) => RunInflow(d, s, ops[1..])
      case Ok(s1) => StepKeeps(d, s, ops[0]); Inflow(ops[0]) + RunInflow(d, s1, ops[1..])
  }

  /** No run creates or destroys wei: what came in is still held, owed, or was
      paid out. */
  lemma {:induction false} RunConserves(d: Dataset, s: State, ops: seq<Op>)
    requires Sealed(d) && Inv(d, s)
    ensures Total(Run(d, s, ops).wei) == Total(s.wei) + RunInflow(d, s, ops)
    decreases |ops|
  {
    hide Sealed, Inv, Step, Total, Inflow;
    if ops != [] {
      SealedSizes(d);
      InvIndex(d, s);
      match Step(d, s, ops[0])
      case Err(_) => RunConserves(d, s, ops[1..]);
      case Ok(s1) =>
        StepKeeps(d, s, ops[0]);
        StepConserves(d, s, ops[0]);
        RunConserves(d, s1, ops[1..]);
    }
  }

  // ---------- Nothing permanent is undone ----------

  predicate RowLater(x: Acquisition, y: Acquisition) {
    y == x.(custody := y.custody) && (x.custody != InReturnAuction ==> y.custody == x.custody)
  }

  ghost predicate LogExtends(a: seq<Acquisition>, b: seq<Acquisition>) {
    |a| <= |b| && forall i :: 0 <= i < |a| ==> RowLater(a[i], b[i])
  }

  ghost predicate MaskGrows(m: nat, n: nat) {
    forall t: nat :: Bit(m, t) ==> Bit(n, t)
  }

  ghost predicate VaultGrows(a: map<nat, Custody>, b: map<nat, Custody>) {
    forall p :: p in a && a[p] == Vaulted ==> p in b && b[p] == Vaulted
  }

  ghost predicate ProofsGrow(a: map<nat, Proof>, b: map<nat, Proof>) {
    forall t :: t in a ==> t in b && b[t] == a[t]
  }

  /** Collected traits, vaulted Punks, Proofs and settled history stay. */
  ghost predicate Later(s: State, s': State) {
    && MaskGrows(s.core.collected, s'.core.collected)
    && VaultGrows(s.core.custody, s'.core.custody)
    && ProofsGrow(s.proofs, s'.proofs)
    && LogExtends(s.core.log, s'.core.log)
  }

  lemma LaterTransitive(s: State, s1: State, s2: State)
    requires Later(s, s1) && Later(s1, s2)
    ensures Later(s, s2)
  {
    var a, b, c := s.core.log, s1.core.log, s2.core.log;
    forall i | 0 <= i < |a|
      ensures RowLater(a[i], c[i])
    {
      assert RowLater(a[i], b[i]) && RowLater(b[i], c[i]);
    }
  }

  lemma AcquireLater(d: Dataset, s: State, p: nat, t: nat, cost: nat, acquirer: Addr, seller: Addr)
    requires |d.masks| == PUNK_COUNT && |d.carriers| == TRAIT_COUNT && p < PUNK_COUNT && cost <= s.wei.liveBid
    requires Acquire(d, s, p, t, cost, acquirer, seller).Ok?
    ensures Later(s, Acquire(d, s, p, t, cost, acquirer, seller).value)
  {
    hide Acquire, RecordAcquisition, CanonicalTarget, Reserve;
    AcquireShape(d, s, p, t, cost, acquirer, seller);
    RecordNeeds(d, s.core, p, t, d.masks[p], acquirer, seller, cost);
  }

  lemma MarkLater(c: Core, p: nat, i: nat, outcome: Custody)
    requires i < |c.log| && c.log[i].custody == InReturnAuction && InAuction(c, p)
    requires outcome == Vaulted || outcome == ReturnedToMarket
    ensures MaskGrows(c.collected, Marked(c, p, i, outcome).collected)
    ensures VaultGrows(c.custody, Marked(c, p, i, outcome).custody)
    ensures LogExtends(c.log, Marked(c, p, i, outcome).log)
  {
    SetBitIsOr(c.collected, c.log[i].target);
  }

  lemma FlightRow(d: Dataset, c: Core, p: nat)
    requires CoreInv(d, c) && InAuction(c, p)
    ensures p in c.indexOf && 1 <= c.indexOf[p] <= |c.log|
    ensures c.log[c.indexOf[p] - 1].custody == InReturnAuction
  {
    hide HistoryFrozen, PendingExact, CollectedExact, AttemptsExact, RowsMatch;
    var rows: Rows, claims: map<nat, nat> :| CoreInvAt(d, c, rows, claims);
  }

  lemma SettleLater(d: Dataset, s: State, p: nat, referrerOk: bool, forwardOk: bool)
    requires Inv(d, s) && LiveSale(s.sales, p) && s.now >= s.sales[p].endsAt
    requires p in s.core.indexOf && 1 <= s.core.indexOf[p] <= |s.core.log|
    requires Settle(s, p, referrerOk, forwardOk).Ok?
    ensures Later(s, Settle(s, p, referrerOk, forwardOk).value)
  {
    hide CoreInv, SalesMatch, Held, OffersReal, ProofsExact, ProofsPaid, Solvent, Marked, SettleVaulted, MarkCustody,
      MaskGrows, VaultGrows, LogExtends, Distributed, Swept;
    var c, i := s.core, s.core.indexOf[p] - 1;
    SaleKnown(s.sales, c.log, c.indexOf, c.custody, p);
    FlightRow(d, c, p);
    if s.sales[p].highBidder == Zero {
      VaultedSettles(d, s, p, i, forwardOk);
      FreshProof(d, c, p, s.proofs);
      MarkLater(c, p, i, Vaulted);
    } else {
      MarkKeeps(d, c, p, ReturnedToMarket);
      MarkLater(c, p, i, ReturnedToMarket);
    }
  }

  lemma StepLater(d: Dataset, s: State, op: Op)
    requires Sealed(d) && Inv(d, s) && |d.masks| == PUNK_COUNT && |d.carriers| == TRAIT_COUNT
    requires forall p :: p in s.core.indexOf ==> 1 <= s.core.indexOf[p] <= |s.core.log|
    requires Step(d, s, op).Ok?
    ensures Later(s, Step(d, s, op).value)
  {
    hide Sealed, Inv, Acquire, Settle, TargetProblem, MinNext;
    match op
    case OpAcceptBid(p, t, expected) =>
      AcquireLater(d, s, p, t, s.offers[p].price, s.offers[p].seller, s.offers[p].seller);
    case OpAcceptListing(p, t, finder, active, finderOk) =>
      var fee := FinderFee(s.wei.liveBid);
      var s1 := s.(wei := s.wei.(liveBid := s.wei.liveBid - fee, paidOut := s.wei.paidOut + fee));
      AcquireLater(d, s1, p, t, s.offers[p].price, finder, s.offers[p].seller);
    case OpSettle(p, referrerOk, forwardOk) =>
      SettleNeeds(s, p, referrerOk, forwardOk);
      InvIndex(d, s);
      SettleLater(d, s, p, referrerOk, forwardOk);
    case _ =>
  }

  /** Over any run: a collected trait stays collected, a vaulted Punk stays
      vaulted, a Proof never changes, and the acquisition log only grows. */
  lemma {:induction false} RunLater(d: Dataset, s: State, ops: seq<Op>)
    requires Sealed(d) && Inv(d, s)
    ensures Later(s, Run(d, s, ops))
    decreases |ops|
  {
    hide Sealed, Inv, Step;
    if ops != [] {
      SealedSizes(d);
      InvIndex(d, s);
      match Step(d, s, ops[0])
      case Err(_) => RunLater(d, s, ops[1..]);
      case Ok(s1) =>
        StepKeeps(d, s, ops[0]);
        StepLater(d, s, ops[0]);
        RunLater(d, s1, ops[1..]);
        LaterTransitive(s, s1, Run(d, s1, ops[1..]));
    }
  }

  // ---------- The mission: a willing owner is never blocked ----------

  lemma InvHasCore(d: Dataset, s: State)
    requires Inv(d, s)
    ensures CoreInv(d, s.core)
  {
  }

  lemma PendingAtMostOne(d: Dataset, c: Core, t: nat)
    requires CoreInv(d, c)
    ensures PendingOf(c, t) <= 1
  {
    var rows: Rows, claims: map<nat, nat> :| CoreInvAt(d, c, rows, claims);
    hide IndexOk, RowsMatch, HistoryFrozen, CollectedExact, AttemptsExact;
  }

  lemma RunStep(d: Dataset, s: State, op: Op, rest: seq<Op>, s1: State)
    requires Sealed(d) && Inv(d, s) && |d.masks| == PUNK_COUNT && |d.carriers| == TRAIT_COUNT
    requires forall p :: p in s.core.indexOf ==> 1 <= s.core.indexOf[p] <= |s.core.log|
    requires Step(d, s, op) == Ok(s1)
    ensures Inv(d, s1) && Run(d, s, [op] + rest) == Run(d, s1, rest)
  {
    hide Sealed, Inv, Step;
    StepKeeps(d, s, op);
    assert ([op] + rest)[0] == op && ([op] + rest)[1..] == rest;
  }

  /** The four transactions that collect a trait when nobody bids. */
  function CollectScript(p: nat, t: nat, owner: Addr, price: nat): seq<Op> {
    [OpList(p, owner, price, Patron), OpAcceptBid(p, t, price), OpWarp(AUCTION_DURATION), OpSettle(p, true, true)]
  }

  /** The state after a successful `acceptBid` of a Punk with no live sale. */
  function Accepted(d: Dataset, s: State, p: nat, t: nat, price: nat, seller: Addr): State
    requires p < |d.masks| && price <= s.wei.liveBid
  {
    s.(core := Recorded(s.core, p, Acquisition(p, t, d.masks[p], seller, seller, price, InReturnAuction)),
       sales := s.sales[p := NewSale(price, Reserve(price, AttemptsOf(s.core, t)), t, s.now)],
       owner := s.owner[p := Module],
       offers := s.offers - {p},
       wei := s.wei.(liveBid := s.wei.liveBid - price, credits := s.wei.credits + price))
  }

  /** The state when the script's auction of `p` may be settled. */
  function AuctionOver(d: Dataset, s: State, p: nat, t: nat, price: nat, owner: Addr): State
    requires p < |d.masks| && price <= s.wei.liveBid
  {
    var s2 := Accepted(d, s.(offers := s.offers[p := Offer(owner, price, Patron)]), p, t, price, owner);
    s2.(now := s2.now + AUCTION_DURATION)
  }

  /** The first three transactions of the script go through. */
  lemma ScriptReachesSettle(d: Dataset, s: State, p: nat, t: nat, owner: Addr, price: nat)
    requires Sealed(d) && Inv(d, s) && |d.masks| == PUNK_COUNT && |d.carriers| == TRAIT_COUNT
    requires p < PUNK_COUNT && owner.User? && OwnerOf(s, p) == owner && Acquirable(s.core, p)
    requires CanonicalTarget(d, s.core, p) == Some(t)
    requires 0 < price <= s.wei.liveBid && Reserve(price, AttemptsOf(s.core, t)) <= UINT128_MAX
    ensures Inv(d, AuctionOver(d, s, p, t, price, owner))
    ensures Run(d, s, CollectScript(p, t, owner, price))
      == Run(d, AuctionOver(d, s, p, t, price, owner), [OpSettle(p, true, true)])
  {
    hide Sealed, Inv, Step, CanonicalTarget, Reserve, Accepted, Run, OwnerOf;
    var ops := CollectScript(p, t, owner, price);
    var s1 := s.(offers := s.offers[p := Offer(owner, price, Patron)]);
    InvIndex(d, s);
    StepList(d, s, p, owner, price);
    RunStep(d, s, ops[0], ops[1..], s1);
    var s2 := Accepted(d, s1, p, t, price, owner);
    StepAccept(d, s1, p, t, price, owner);
    RunStep(d, s1, ops[1], ops[2..], s2);
    InvIndex(d, s2);
    StepWarp(d, s2, AUCTION_DURATION);
    RunStep(d, s2, ops[2], ops[3..], s2.(now := s2.now + AUCTION_DURATION));
    assert ops == [ops[0]] + ops[1..] && ops[1..] == [ops[1]] + ops[2..];
    assert ops[2..] == [ops[2]] + ops[3..] && ops[3..] == [OpSettle(p, true, true)];
  }

  /** The protocol never blocks a willing owner: in any reachable state, an
      acquirable Punk with an eligible trait, listed by its owner within the live
      bid, is accepted, and with no bids its canonical trait becomes permanent
      and the owner receives the Proof. */
  lemma WillingOwnerCollects(d: Dataset, s: State, p: nat, t: nat, owner: Addr, price: nat)
    requires Sealed(d) && Inv(d, s) && |d.masks| == PUNK_COUNT && |d.carriers| == TRAIT_COUNT
    requires p < PUNK_COUNT && owner.User? && OwnerOf(s, p) == owner && Acquirable(s.core, p)
    requires CanonicalTarget(d, s.core, p) == Some(t)
    requires 0 < price <= s.wei.liveBid && Reserve(price, AttemptsOf(s.core, t)) <= UINT128_MAX
    ensures var s' := Run(d, s, CollectScript(p, t, owner, price));
      && Bit(s'.core.collected, t) && !Bit(s.core.collected, t)
      && t in s'.proofs && s'.proofs[t].punk == p && s'.proofs[t].recipient == owner
      && OwnerOf(s', p) == Vault
  {
    hide Sealed, Inv, Step, CanonicalTarget, Reserve, SettleVaulted, Bit, PopCount;
    ScriptReachesSettle(d, s, p, t, owner, price);
    var s3 := AuctionOver(d, s, p, t, price, owner);
    InvIndex(d, s3);
    VaultedSettles(d, s3, p, |s.core.log|, true);
    StepSettle(d, s3, p);
    SetBitIsOr(s3.core.collected, t);
  }

  lemma StepList(d: Dataset, s: State, p: nat, owner: Addr, price: nat)
    requires |d.masks| == PUNK_COUNT && |d.carriers| == TRAIT_COUNT && owner.User? && OwnerOf(s, p) == owner
    requires forall p :: p in s.core.indexOf ==> 1 <= s.core.indexOf[p] <= |s.core.log|
    ensures Step(d, s, OpList(p, owner, price, Patron))
      == Ok(s.(offers := s.offers[p := Offer(owner, price, Patron)]))
  {
  }

  lemma StepWarp(d: Dataset, s: State, seconds: nat)
    requires |d.masks| == PUNK_COUNT && |d.carriers| == TRAIT_COUNT
    requires forall p :: p in s.core.indexOf ==> 1 <= s.core.indexOf[p] <= |s.core.log|
    ensures Step(d, s, OpWarp(seconds)) == Ok(s.(now := s.now + seconds))
  {
  }

  lemma StepSettle(d: Dataset, s: State, p: nat)
    requires |d.masks| == PUNK_COUNT && |d.carriers| == TRAIT_COUNT
    requires forall p :: p in s.core.indexOf ==> 1 <= s.core.indexOf[p] <= |s.core.log|
    requires LiveSale(s.sales, p) && s.now >= s.sales[p].endsAt && s.sales[p].highBidder == Zero
    ensures Step(d, s, OpSettle(p, true, true)) == SettleVaulted(s, p, true)
  {
    hide SettleVaulted, SettleCleared;
  }

  /** An `acceptBid` that meets its conditions does what `Accepted` says. */
  lemma StepAccept(d: Dataset, s: State, p: nat, t: nat, price: nat, seller: Addr)
    requires Sealed(d) && Inv(d, s) && |d.masks| == PUNK_COUNT && |d.carriers| == TRAIT_COUNT
    requires forall p :: p in s.core.indexOf ==> 1 <= s.core.indexOf[p] <= |s.core.log|
    requires p < PUNK_COUNT && p in s.offers && s.offers[p] == Offer(seller, price, Patron)
    requires 0 < price <= s.wei.liveBid && Acquirable(s.core, p) && CanonicalTarget(d, s.core, p) == Some(t)
    requires Reserve(price, AttemptsOf(s.core, t)) <= UINT128_MAX
    ensures Step(d, s, OpAcceptBid(p, t, price)) == Ok(Accepted(d, s, p, t, price, seller))
  {
    hide Sealed, Inv, Acquire, Reserve, CanonicalTarget, TargetProblem;
    AcceptBidIff(d, s, p, t, price);
    AcquireShape(d, s, p, t, price, seller, seller);
  }
}
