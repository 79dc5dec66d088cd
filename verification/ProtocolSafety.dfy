/** What every reachable state of the protocol satisfies, and what every run
    keeps: custody, Proofs, solvency, conservation and monotonicity. */
module ProtocolSafety {
  import opened Collection
  import opened Protocol

  // ---------- The invariant ----------

  predicate SaleOk(sale: Sale) {
    && 0 < sale.cost < sale.reserve
    && (sale.highBidder == Zero <==> sale.highBid == 0)
    && (sale.highBid > 0 ==> sale.highBid >= sale.reserve)
    && (sale.highBidder == Zero || sale.highBidder.User?)
  }

  /** An unsettled sale is the auction of a Punk in flight, for the target and
      the price its acquisition row records. */
  ghost predicate SalesMatch(
    sales: map<nat, Sale>, log: seq<Acquisition>, indexOf: map<nat, nat>, custody: map<nat, Custody>)
  {
    && (forall p :: p in sales ==> p < PUNK_COUNT && SaleOk(sales[p]))
    && (forall p :: p in custody && custody[p] == InReturnAuction ==> LiveSale(sales, p))
    && (forall p :: p in sales && !sales[p].settled ==>
          && p in custody && custody[p] == InReturnAuction
          && p in indexOf && 1 <= indexOf[p] <= |log|
          && log[indexOf[p] - 1].target == sales[p].target
          && log[indexOf[p] - 1].price == sales[p].cost)
  }

  /** The module holds every Punk in flight and the vault every vaulted one. */
  ghost predicate Held(owner: map<nat, Addr>, locked: set<nat>, custody: map<nat, Custody>) {
    && (forall p :: p in custody && custody[p] == InReturnAuction ==> p in owner && owner[p] == Module)
    && (forall p :: p in custody && custody[p] == Vaulted ==> p in owner && owner[p] == Vault)
    && (forall p: nat :: p in locked <==> p in custody && custody[p] == Vaulted)
  }

  /** A listing is its current owner's, an ordinary account. */
  ghost predicate OffersReal(offers: map<nat, Offer>, owner: map<nat, Addr>) {
    forall p :: p in offers ==> p in owner && owner[p] == offers[p].seller && offers[p].seller.User?
  }

  /** A trait is collected exactly when its one Proof exists, and the Proof
      names the Punk that brought the trait in. */
  ghost predicate ProofsNamed(proofs: map<nat, Proof>, firstVaulted: map<nat, nat>) {
    && proofs.Keys == firstVaulted.Keys
    && (forall t :: t in proofs ==> proofs[t].punk == firstVaulted[t])
  }

  /** The Proofs carry the numbers 1, 2, ... without repetition. */
  ghost predicate ProofsNumbered(proofs: map<nat, Proof>) {
    && (forall t :: t in proofs ==> 1 <= proofs[t].sequence <= |proofs|)
    && (forall t, u :: t in proofs && u in proofs && t != u ==> proofs[t].sequence != proofs[u].sequence)
  }

  ghost predicate ProofsExact(proofs: map<nat, Proof>, firstVaulted: map<nat, nat>) {
    ProofsNamed(proofs, firstVaulted) && ProofsNumbered(proofs)
  }

  /** A Proof belongs to the account that gave up the Punk. */
  ghost predicate ProofsPaid(proofs: map<nat, Proof>, log: seq<Acquisition>, indexOf: map<nat, nat>, locked: set<nat>) {
    forall t :: t in proofs ==>
      && proofs[t].punk in locked && proofs[t].punk in indexOf && 1 <= indexOf[proofs[t].punk] <= |log|
      && proofs[t].recipient == log[indexOf[proofs[t].punk] - 1].originalSeller
      && proofs[t].recipient != Zero
  }

  function HeldBid(sales: map<nat, Sale>, p: nat): nat {
    if LiveSale(sales, p) then sales[p].highBid else 0
  }

  /** The standing bids of the unsettled sales of Punks below `n`. */
  function StandingBids(sales: map<nat, Sale>, n: nat): nat {
    if n == 0 then 0 else StandingBids(sales, n - 1) + HeldBid(sales, n - 1)
  }

  /** The queued refunds. */
  ghost function Owed(refunds: map<Addr, nat>): nat
    decreases |refunds|
  {
    if refunds == map[] then 0 else refunds[Pick(refunds)] + Owed(refunds - {Pick(refunds)})
  }

  ghost function Pick(refunds: map<Addr, nat>): (a: Addr)
    requires refunds != map[]
    ensures a in refunds
  {
    var k :| k in refunds.Keys;
    k
  }

  /** The module's balance is exactly what it owes: standing bids and queued refunds. */
  ghost predicate Solvent(auctions: nat, sales: map<nat, Sale>, refunds: map<Addr, nat>) {
    auctions == StandingBids(sales, PUNK_COUNT) + Owed(refunds)
  }

  ghost predicate Inv(d: Dataset, s: State) {
    && CoreInv(d, s.core)
    && SalesMatch(s.sales, s.core.log, s.core.indexOf, s.core.custody)
    && Held(s.owner, s.locked, s.core.custody)
    && OffersReal(s.offers, s.owner)
    && ProofsExact(s.proofs, s.core.firstVaulted)
    && ProofsPaid(s.proofs, s.core.log, s.core.indexOf, s.locked)
    && Solvent(s.wei.auctions, s.sales, s.wei.refunds)
  }

  /** The deployed protocol before its first acquisition. */
  ghost predicate Initial(s: State) {
    && s.core == EMPTY && s.sales == map[] && s.proofs == map[] && s.locked == {} && s.offers == map[]
    && s.wei.auctions == 0 && s.wei.refunds == map[]
  }

  lemma IndexBounds(d: Dataset, c: Core)
    requires CoreInv(d, c)
    ensures forall p :: p in c.indexOf ==> 1 <= c.indexOf[p] <= |c.log|
  {
    forall p | p in c.indexOf
      ensures 1 <= c.indexOf[p] <= |c.log|
    {
      IndexFacts(d, c, p);
    }
  }

  // ---------- Sums ----------

  lemma {:induction false} StandingUpdate(sales: map<nat, Sale>, p: nat, sale: Sale, n: nat)
    ensures StandingBids(sales[p := sale], n) + (if p < n then HeldBid(sales, p) else 0)
      == StandingBids(sales, n) + (if p < n && !sale.settled then sale.highBid else 0)
    decreases n
  {
    if n > 0 { StandingUpdate(sales, p, sale, n - 1); }
  }

  lemma {:induction false} StandingAtLeast(sales: map<nat, Sale>, p: nat, n: nat)
    requires p < n
    ensures HeldBid(sales, p) <= StandingBids(sales, n)
    decreases n
  {
    if p < n - 1 { StandingAtLeast(sales, p, n - 1); }
  }

  lemma {:induction false} StandingEmpty(n: nat)
    ensures StandingBids(map[], n) == 0
    decreases n
  {
    if n > 0 { StandingEmpty(n - 1); }
  }

  lemma {:induction false} OwedSplit(refunds: map<Addr, nat>, a: Addr)
    requires a in refunds
    ensures Owed(refunds) == refunds[a] + Owed(refunds - {a})
    decreases |refunds|
  {
    var b := Pick(refunds);
    if a != b {
      assert (refunds - {a}) - {b} == (refunds - {b}) - {a};
      OwedSplit(refunds - {b}, a);
      OwedSplit(refunds - {a}, b);
    }
  }

  lemma OwedUpdate(refunds: map<Addr, nat>, a: Addr, amount: nat)
    ensures Owed(refunds[a := amount]) + RefundOf(refunds, a) == Owed(refunds) + amount
  {
    OwedSplit(refunds[a := amount], a);
    if a in refunds {
      OwedSplit(refunds, a);
      assert refunds[a := amount] - {a} == refunds - {a};
    } else {
      assert refunds[a := amount] - {a} == refunds;
    }
  }

  // ---------- The parts of the invariant under each change ----------

  lemma SalesOpen(sales: map<nat, Sale>, log: seq<Acquisition>, indexOf: map<nat, nat>, custody: map<nat, Custody>,
                  p: nat, sale: Sale, row: Acquisition)
    requires SalesMatch(sales, log, indexOf, custody) && p < PUNK_COUNT
    requires SaleOk(sale) && !sale.settled && sale.target == row.target && sale.cost == row.price
    ensures SalesMatch(sales[p := sale], log + [row], indexOf[p := |log| + 1], custody[p := InReturnAuction])
  {
  }

  lemma SalesBid(sales: map<nat, Sale>, log: seq<Acquisition>, indexOf: map<nat, nat>, custody: map<nat, Custody>,
                 p: nat, sale: Sale)
    requires SalesMatch(sales, log, indexOf, custody) && LiveSale(sales, p)
    requires SaleOk(sale) && !sale.settled && sale.target == sales[p].target && sale.cost == sales[p].cost
    ensures SalesMatch(sales[p := sale], log, indexOf, custody)
  {
  }

  lemma SalesClose(sales: map<nat, Sale>, log: seq<Acquisition>, indexOf: map<nat, nat>, custody: map<nat, Custody>,
                   p: nat, outcome: Custody)
    requires SalesMatch(sales, log, indexOf, custody) && LiveSale(sales, p) && outcome != InReturnAuction
    ensures SalesMatch(Closed(sales, p), log[indexOf[p] - 1 := log[indexOf[p] - 1].(custody := outcome)], indexOf,
              custody[p := outcome])
  {
  }

  lemma ProofsKept(proofs: map<nat, Proof>, log: seq<Acquisition>, indexOf: map<nat, nat>, locked: set<nat>,
                   custody: map<nat, Custody>, p: nat, row: Acquisition)
    requires ProofsPaid(proofs, log, indexOf, locked) && p !in locked
    ensures ProofsPaid(proofs, log + [row], indexOf[p := |log| + 1], locked)
  {
  }

  lemma ProofsSettled(proofs: map<nat, Proof>, log: seq<Acquisition>, indexOf: map<nat, nat>, locked: set<nat>,
                      i: nat, outcome: Custody)
    requires ProofsPaid(proofs, log, indexOf, locked) && i < |log|
    ensures ProofsPaid(proofs, log[i := log[i].(custody := outcome)], indexOf, locked)
  {
  }

  lemma ProofPaid(proofs: map<nat, Proof>, log: seq<Acquisition>, indexOf: map<nat, nat>, locked: set<nat>,
                  t: nat, proof: Proof)
    requires ProofsPaid(proofs, log, indexOf, locked)
    requires proof.punk in indexOf && 1 <= indexOf[proof.punk] <= |log|
    requires proof.recipient == log[indexOf[proof.punk] - 1].originalSeller != Zero
    ensures ProofsPaid(proofs[t := proof], log, indexOf, locked + {proof.punk})
  {
  }

  lemma ProofMinted(proofs: map<nat, Proof>, firstVaulted: map<nat, nat>, t: nat, proof: Proof)
    requires ProofsExact(proofs, firstVaulted) && t !in proofs && proof.sequence == |proofs| + 1
    ensures ProofsExact(proofs[t := proof], firstVaulted[t := proof.punk])
  {
    hide ProofsNumbered;
    ProofNumbered(proofs, t, proof);
  }

  lemma ProofNumbered(proofs: map<nat, Proof>, t: nat, proof: Proof)
    requires ProofsNumbered(proofs) && t !in proofs && proof.sequence == |proofs| + 1
    ensures ProofsNumbered(proofs[t := proof])
  {
    assert proofs[t := proof].Keys == proofs.Keys + {t};
  }

  lemma HeldOpen(owner: map<nat, Addr>, locked: set<nat>, custody: map<nat, Custody>, p: nat)
    requires Held(owner, locked, custody) && p !in locked
    ensures Held(owner[p := Module], locked, custody[p := InReturnAuction])
  {
  }

  lemma HeldReturned(owner: map<nat, Addr>, locked: set<nat>, custody: map<nat, Custody>, p: nat, to: Addr)
    requires Held(owner, locked, custody) && p !in locked
    ensures Held(owner[p := to], locked, custody[p := ReturnedToMarket])
  {
  }

  lemma HeldVaulted(owner: map<nat, Addr>, locked: set<nat>, custody: map<nat, Custody>, p: nat)
    requires Held(owner, locked, custody)
    ensures Held(owner[p := Vault], locked + {p}, custody[p := Vaulted])
  {
  }

  lemma OffersSold(offers: map<nat, Offer>, owner: map<nat, Addr>, p: nat, to: Addr)
    requires OffersReal(offers, owner)
    ensures OffersReal(offers - {p}, owner[p := to])
  {
  }

  /** A Punk that may be acquired is not in the vault's locked set. */
  lemma NotLocked(owner: map<nat, Addr>, locked: set<nat>, c: Core, p: nat)
    requires Held(owner, locked, c.custody) && !IsVaulted(c, p)
    ensures p !in locked
  {
  }

  lemma SolventAfter(auctions: nat, sales: map<nat, Sale>, refunds: map<Addr, nat>, p: nat, sale: Sale, auctions': nat)
    requires Solvent(auctions, sales, refunds) && p < PUNK_COUNT
    requires auctions' + HeldBid(sales, p) == auctions + (if sale.settled then 0 else sale.highBid)
    ensures Solvent(auctions', sales[p := sale], refunds)
  {
    StandingUpdate(sales, p, sale, PUNK_COUNT);
  }

  lemma HeldBidCovered(auctions: nat, sales: map<nat, Sale>, refunds: map<Addr, nat>, p: nat)
    requires Solvent(auctions, sales, refunds) && p < PUNK_COUNT
    ensures HeldBid(sales, p) <= auctions
  {
    StandingAtLeast(sales, p, PUNK_COUNT);
  }

  lemma OwedAtMost(refunds: map<Addr, nat>, a: Addr)
    ensures RefundOf(refunds, a) <= Owed(refunds)
  {
    if a in refunds { OwedSplit(refunds, a); }
  }
}
