/** The steps of scripts/seed-acquisitions.ts, as functions from state to state,
    and what each keeps: one attempt of the open loop, the rescue bids, and the
    settle loop in any order. */
module SeedSteps {
  import opened Wrappers
  import opened TraitMasks
  import opened Collection
  import opened ReturnAuctions
  import opened Protocol
  import opened ProtocolSafety
  import opened ProtocolRuns
  import opened ProtocolTheorems

  const LIST_WEI: nat := 10_000_000_000_000_000

  // ---------- One attempt of the open loop ----------

  /** What can go wrong between the script and the chain on one Punk: one of the
      three reads fails, the listing or the acceptance never lands, or it lands
      and waiting for it throws. */
  datatype Fault = Clean | RecordedLost | TargetLost | OwnerLost | ListLost | AcceptLost | ReceiptLost

  /** `Skipped`: not a candidate, or taken for none. `Thrown`: the script stops.
      `Failed`: caught, nothing opened. `Stray`: an auction opened but the script
      does not know. `Opened`: counted. */
  datatype Outcome = Skipped | Thrown | Failed | Stray | Opened

  function Listed(s: State, p: nat): State {
    s.(offers := s.offers[p := Offer(OwnerOf(s, p), LIST_WEI, Patron)])
  }

  /** One iteration of the open loop on Punk `p`. */
  function Attempt(d: Dataset, s: State, p: nat, fault: Fault): (State, Outcome)
    requires |d.masks| == PUNK_COUNT && |d.carriers| == TRAIT_COUNT && p < PUNK_COUNT
  {
    var target := CanonicalTarget(d, s.core, p);
    if fault == RecordedLost then (s, Thrown)
    else if p in s.core.indexOf || fault == TargetLost || target == None then (s, Skipped)
    else if fault == OwnerLost then (s, Thrown)
    else if OwnerOf(s, p) == Zero then (s, Skipped)
    else if fault == ListLost then (s, Failed)
    else match List(s, p, OwnerOf(s, p), LIST_WEI, Patron)
      case Err(_) => (s, Failed)
      case Ok(s1) =>
        if fault == AcceptLost then (s1, Failed)
        else match AcceptBid(d, s1, p, target.value, LIST_WEI)
          case Err(_) => (s1, Failed)
          case Ok(s2) => (s2, if fault == ReceiptLost then Stray else Opened)
  }

  /** Some trait has been attempted so often that its reserve leaves 128 bits. */
  ghost predicate ReservesOverflow(attempts: map<nat, nat>) {
    exists t: nat :: Reserve(LIST_WEI, CounterOf(attempts, t)) > UINT128_MAX
  }

  /** An attempt on a candidate opens an auction exactly when the network is
      clean enough, an ordinary account owns the Punk, the live bid covers the
      listing and the reserve fits; then it does what `Accepted` says. */
  lemma AttemptIff(d: Dataset, s: State, p: nat, fault: Fault)
    requires Sealed(d) && Inv(d, s) && |d.masks| == PUNK_COUNT && |d.carriers| == TRAIT_COUNT && p < PUNK_COUNT
    requires p !in s.core.indexOf && CanonicalTarget(d, s.core, p).Some? && OwnerOf(s, p) != Zero
    ensures var t, r := CanonicalTarget(d, s.core, p).value, Attempt(d, s, p, fault);
      && (r.1 == Stray || r.1 == Opened <==>
            && (fault == Clean || fault == ReceiptLost) && OwnerOf(s, p).User?
            && LIST_WEI <= s.wei.liveBid && Reserve(LIST_WEI, AttemptsOf(s.core, t)) <= UINT128_MAX)
      && (r.1 == Stray || r.1 == Opened ==>
            && s.wei.liveBid >= LIST_WEI && Inv(d, r.0)
            && r.0 == Accepted(d, Listed(s, p), p, t, LIST_WEI, OwnerOf(s, p)))
      && (r.1 == Stray ==> fault == ReceiptLost) && (r.1 == Opened ==> fault == Clean)
  {
    hide Sealed, Inv, CanonicalTarget, AcceptBid, Reserve, Accepted;
    var t := CanonicalTarget(d, s.core, p).value;
    UnrecordedIsAcquirable(d, s, p);
    InvIndex(d, s);
    if (fault == Clean || fault == ReceiptLost) && OwnerOf(s, p).User? {
      ListKeeps(d, s, p, OwnerOf(s, p), LIST_WEI, Patron);
      AcceptBidIff(d, Listed(s, p), p, t, LIST_WEI);
      if AcceptBid(d, Listed(s, p), p, t, LIST_WEI).Ok? {
        InvIndex(d, Listed(s, p));
        AcceptBidKeeps(d, Listed(s, p), p, t, LIST_WEI);
        StepAccept(d, Listed(s, p), p, t, LIST_WEI, OwnerOf(s, p));
      }
    }
  }

  /** The other outcomes: a failed read of the record, or of a candidate's owner, stops
      the script; a Punk is passed over when it is recorded, has no target or no owner,
      or its target can not be read; an attempt that fails has at most listed the Punk. */
  lemma AttemptOutcomes(d: Dataset, s: State, p: nat, fault: Fault)
    requires |d.masks| == PUNK_COUNT && |d.carriers| == TRAIT_COUNT && p < PUNK_COUNT
    ensures var r := Attempt(d, s, p, fault);
      var candidate := p !in s.core.indexOf && CanonicalTarget(d, s.core, p).Some?;
      && (r.1 == Thrown <==> fault == RecordedLost || (fault == OwnerLost && candidate))
      && (r.1 == Skipped <==>
            && fault != RecordedLost
            && (!candidate || fault == TargetLost || (fault != OwnerLost && OwnerOf(s, p) == Zero)))
      && (r.1 == Thrown || r.1 == Skipped ==> r.0 == s)
      && (r.1 == Failed ==> r.0 == if fault != ListLost && OwnerOf(s, p).User? then Listed(s, p) else s)
  {
    hide AcceptBid, CanonicalTarget;
  }

  lemma UnrecordedIsAcquirable(d: Dataset, s: State, p: nat)
    requires Inv(d, s) && p !in s.core.indexOf
    ensures Acquirable(s.core, p)
  {
    hide CoreInv, SalesMatch, Held, OffersReal, ProofsExact, ProofsPaid, Solvent;
    IndexFacts(d, s.core, p);
  }

  // ---------- What the open loop keeps ----------

  /** An auction the script opened: live, without a bid, at the listing price. */
  predicate OpenAt(sales: map<nat, Sale>, p: nat, now: nat) {
    && LiveSale(sales, p) && sales[p].highBidder == Zero
    && sales[p].cost == LIST_WEI && sales[p].endsAt == now + AUCTION_DURATION
  }

  /** Since `s0`, exactly the auctions of `spent` were opened, each paid for from
      the live bid, and nothing was collected. */
  ghost predicate Opening(d: Dataset, s0: State, s: State, spent: seq<nat>) {
    && Inv(d, s)
    && s.core.collected == s0.core.collected && s.now == s0.now && s.wei.pool == s0.wei.pool
    && s.wei.liveBid + LIST_WEI * |spent| == s0.wei.liveBid
    && Ascending(spent)
    && (forall p :: p in spent ==> p < PUNK_COUNT && p !in s0.core.indexOf && OpenAt(s.sales, p, s0.now))
    && (forall p: nat :: p in s.core.indexOf <==> p in s0.core.indexOf || p in spent)
    && (forall p: nat :: p !in spent ==> OwnerOf(s, p) == OwnerOf(s0, p))
    && SalesKept(s0.sales, s.sales, spent)
  }

  /** Sales of Punks outside `spent` are as they were. */
  ghost predicate SalesKept(before: map<nat, Sale>, after: map<nat, Sale>, spent: seq<nat>) {
    forall p: nat :: p !in spent ==>
      (p in after <==> p in before) && (p in after ==> after[p] == before[p])
  }

  lemma OpeningListed(d: Dataset, s0: State, s: State, spent: seq<nat>, p: nat)
    requires Opening(d, s0, s, spent) && OwnerOf(s, p).User?
    ensures Opening(d, s0, Listed(s, p), spent)
  {
    hide Inv, Ascending;
    ListKeeps(d, s, p, OwnerOf(s, p), LIST_WEI, Patron);
  }

  lemma OpeningAccepted(d: Dataset, s0: State, s: State, spent: seq<nat>, p: nat, t: nat, owner: Addr)
    requires Opening(d, s0, s, spent) && p < |d.masks| && p < PUNK_COUNT && LIST_WEI <= s.wei.liveBid
    requires p !in s.core.indexOf && forall q :: q in spent ==> q < p
    requires Inv(d, Accepted(d, s, p, t, LIST_WEI, owner))
    ensures Opening(d, s0, Accepted(d, s, p, t, LIST_WEI, owner), spent + [p])
  {
    hide Inv, Reserve, SalesKept, Ascending;
    AscendingGrows(spent, p);
    SalesKeptGrows(s0.sales, s.sales, spent, p, Accepted(d, s, p, t, LIST_WEI, owner).sales[p]);
    assert LIST_WEI * |spent + [p]| == LIST_WEI * |spent| + LIST_WEI;
    forall q | q in spent + [p]
      ensures q in spent || q == p
    {
    }
  }

  lemma AscendingGrows(spent: seq<nat>, p: nat)
    requires Ascending(spent) && forall q :: q in spent ==> q < p
    ensures Ascending(spent + [p])
  {
    assert forall i :: 0 <= i < |spent| ==> spent[i] in spent;
  }

  lemma SalesKeptGrows(before: map<nat, Sale>, after: map<nat, Sale>, spent: seq<nat>, p: nat, sale: Sale)
    requires SalesKept(before, after, spent)
    ensures SalesKept(before, after[p := sale], spent + [p])
  {
    forall q: nat | q !in spent + [p]
      ensures q !in spent && q != p
    {
      assert q in spent ==> q in spent + [p];
    }
  }

  /** One iteration keeps the phase; it spends exactly on a stray or counted one. */
  lemma AttemptKeeps(d: Dataset, s0: State, s: State, spent: seq<nat>, p: nat, fault: Fault)
    requires Sealed(d) && Opening(d, s0, s, spent) && |d.masks| == PUNK_COUNT && |d.carriers| == TRAIT_COUNT
    requires p < PUNK_COUNT && forall q :: q in spent ==> q < p
    ensures var r := Attempt(d, s, p, fault);
      Opening(d, s0, r.0, if r.1 == Stray || r.1 == Opened then spent + [p] else spent)
  {
    hide Sealed, Inv, CanonicalTarget, AcceptBid, Ascending, OpenAt, Accepted, SalesKept;
    var r := Attempt(d, s, p, fault);
    if r.1 == Stray || r.1 == Opened {
      AttemptIff(d, s, p, fault);
      OpeningListed(d, s0, s, spent, p);
      OpeningAccepted(d, s0, Listed(s, p), spent, p, CanonicalTarget(d, s.core, p).value, OwnerOf(s, p));
    } else if OwnerOf(s, p).User? {
      OpeningListed(d, s0, s, spent, p);
    }
  }

  // ---------- Running out of Punks ----------

  /** Nothing more can come of Punk `q`: it is recorded, it has no eligible
      trait, nobody (or no ordinary account) owns it, or the network failed it. */
  ghost predicate Exhausted(d: Dataset, s0: State, c: Core, net: nat -> Fault, q: nat)
    requires |d.masks| == PUNK_COUNT && |d.carriers| == TRAIT_COUNT && q < PUNK_COUNT
  {
    q in c.indexOf || CanonicalTarget(d, c, q) == None || !OwnerOf(s0, q).User? || net(q) != Clean
  }

  ghost predicate AllExhausted(d: Dataset, s0: State, c: Core, net: nat -> Fault, n: nat)
    requires |d.masks| == PUNK_COUNT && |d.carriers| == TRAIT_COUNT && n <= PUNK_COUNT
  {
    forall q: nat :: q < n ==> Exhausted(d, s0, c, net, q)
  }

  /** Nothing more can be opened: every Punk is exhausted, or the reserves have
      left 128 bits. */
  ghost predicate NothingLeft(d: Dataset, s: State, net: nat -> Fault)
    requires |d.masks| == PUNK_COUNT && |d.carriers| == TRAIT_COUNT
  {
    ReservesOverflow(s.core.attempts) || AllExhausted(d, s, s.core, net, PUNK_COUNT)
  }

  lemma ExhaustedNow(d: Dataset, s0: State, s: State, spent: seq<nat>, net: nat -> Fault)
    requires |d.masks| == PUNK_COUNT && |d.carriers| == TRAIT_COUNT && Opening(d, s0, s, spent)
    requires ReservesOverflow(s.core.attempts) || AllExhausted(d, s0, s.core, net, PUNK_COUNT)
    ensures NothingLeft(d, s, net)
  {
    hide Inv, CanonicalTarget, ReservesOverflow, SalesKept, Ascending, OpenAt, OwnerOf;
    if AllExhausted(d, s0, s.core, net, PUNK_COUNT) {
      forall q: nat | q < PUNK_COUNT
        ensures Exhausted(d, s, s.core, net, q)
      {
        assert Exhausted(d, s0, s.core, net, q);
        assert q !in s.core.indexOf ==> OwnerOf(s, q) == OwnerOf(s0, q);
      }
    }
  }

  /** Recording an acquisition never makes a target appear. */
  lemma NoTargetStays(d: Dataset, c: Core, p: nat, row: Acquisition, q: nat)
    requires Sealed(d) && |d.masks| == PUNK_COUNT && |d.carriers| == TRAIT_COUNT && q < PUNK_COUNT
    requires CanonicalTarget(d, c, q) == None
    ensures CanonicalTarget(d, Recorded(c, p, row), q) == None
  {
    var c' := Recorded(c, p, row);
    ScanIsRarest(d, c, q, TRAIT_COUNT);
    ScanIsRarest(d, c', q, TRAIT_COUNT);
    var t := CanonicalTarget(d, c', q);
    assert t.Some? ==> Eligible(d, c, q, t.value);
  }

  lemma ExhaustedStays(d: Dataset, s0: State, c: Core, net: nat -> Fault, n: nat, p: nat, row: Acquisition)
    requires Sealed(d) && |d.masks| == PUNK_COUNT && |d.carriers| == TRAIT_COUNT && n <= PUNK_COUNT
    requires AllExhausted(d, s0, c, net, n)
    ensures AllExhausted(d, s0, Recorded(c, p, row), net, n)
  {
    hide Sealed, CanonicalTarget, OwnerOf;
    forall q: nat | q < n
      ensures Exhausted(d, s0, Recorded(c, p, row), net, q)
    {
      assert Exhausted(d, s0, c, net, q);
      if CanonicalTarget(d, c, q) == None { NoTargetStays(d, c, p, row, q); }
    }
  }

  lemma OverflowStays(c: Core, p: nat, row: Acquisition)
    requires ReservesOverflow(c.attempts)
    ensures ReservesOverflow(Recorded(c, p, row).attempts)
  {
    hide Reserve;
    var t: nat :| Reserve(LIST_WEI, CounterOf(c.attempts, t)) > UINT128_MAX;
    var c' := Recorded(c, p, row);
    ReserveGrows(LIST_WEI, CounterOf(c.attempts, t), CounterOf(c'.attempts, t));
    assert Reserve(LIST_WEI, CounterOf(c'.attempts, t)) > UINT128_MAX;
  }

  lemma ReserveGrows(cost: nat, a: nat, b: nat)
    requires a <= b
    ensures Reserve(cost, a) <= Reserve(cost, b)
  {
    assert cost * (101 + b) == cost * (101 + a) + cost * (b - a);
  }

  /** With the bid covering the listing, an attempt on the next Punk leaves
      nothing more to gain up to and including it. */
  lemma AttemptExhausts(d: Dataset, s0: State, s: State, spent: seq<nat>, net: nat -> Fault, p: nat)
    requires Sealed(d) && Opening(d, s0, s, spent) && |d.masks| == PUNK_COUNT && |d.carriers| == TRAIT_COUNT
    requires p < PUNK_COUNT && p !in spent && LIST_WEI <= s.wei.liveBid
    requires ReservesOverflow(s.core.attempts) || AllExhausted(d, s0, s.core, net, p)
    ensures var c := Attempt(d, s, p, net(p)).0.core;
      ReservesOverflow(c.attempts) || AllExhausted(d, s0, c, net, p + 1)
  {
    hide Sealed, Inv, CanonicalTarget, AcceptBid, Ascending, OpenAt, Reserve, ReservesOverflow, Recorded, SalesKept;
    var r := Attempt(d, s, p, net(p));
    assert OwnerOf(s, p) == OwnerOf(s0, p);
    if p !in s.core.indexOf && CanonicalTarget(d, s.core, p).Some? && OwnerOf(s, p) != Zero {
      AttemptIff(d, s, p, net(p));
      var t := CanonicalTarget(d, s.core, p).value;
      if r.1 == Stray || r.1 == Opened {
        var row := Acquisition(p, t, d.masks[p], OwnerOf(s, p), OwnerOf(s, p), LIST_WEI, InReturnAuction);
        assert r.0.core == Recorded(s.core, p, row);
        if ReservesOverflow(s.core.attempts) {
          OverflowStays(s.core, p, row);
        } else {
          ExhaustedStays(d, s0, s.core, net, p, p, row);
          RecordedIndex(s.core, p, row);
        }
      } else if Reserve(LIST_WEI, AttemptsOf(s.core, t)) > UINT128_MAX {
        OverflowNow(s.core, t);
      }
    }
  }

  lemma RecordedIndex(c: Core, p: nat, row: Acquisition)
    ensures p in Recorded(c, p, row).indexOf
  {
  }

  lemma OverflowNow(c: Core, t: nat)
    requires Reserve(LIST_WEI, AttemptsOf(c, t)) > UINT128_MAX
    ensures ReservesOverflow(c.attempts)
  {
    hide Reserve;
  }

  // ---------- Rescue bids ----------

  /** An auction the script bid on: live, at the reserve, ending as before. */
  predicate BidAt(sales: map<nat, Sale>, p: nat, now: nat, bidder: nat) {
    && LiveSale(sales, p) && sales[p].highBidder == User(bidder) && sales[p].highBid == sales[p].reserve
    && sales[p].cost == LIST_WEI && sales[p].endsAt == now + AUCTION_DURATION
  }

  /** A first bid at the reserve always lands, and only it changes. */
  lemma RescueLands(d: Dataset, s: State, p: nat, id: nat)
    requires Inv(d, s) && OpenAt(s.sales, p, s.now)
    ensures PlaceBid(s, p, User(id), s.sales[p].reserve, Zero, true).Ok?
    ensures var s' := PlaceBid(s, p, User(id), s.sales[p].reserve, Zero, true).value;
      && Inv(d, s') && BidAt(s'.sales, p, s'.now, id) && SalesKept(s.sales, s'.sales, [p])
      && s'.core == s.core && s'.now == s.now && s'.owner == s.owner
      && s'.wei.liveBid == s.wei.liveBid && s'.wei.pool == s.wei.pool
  {
    hide Inv, MinNext;
    SaleIsOk(d, s, p);
    PlaceBidKeeps(d, s, p, id, s.sales[p].reserve, Zero, true);
  }

  lemma SaleIsOk(d: Dataset, s: State, p: nat)
    requires Inv(d, s) && p in s.sales
    ensures SaleOk(s.sales[p])
  {
    hide CoreInv, Held, OffersReal, ProofsExact, ProofsPaid, Solvent;
  }
}
