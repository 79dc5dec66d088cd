/** The collection rules are all that decides what can be collected: every run of
    the protocol is a play of the game, and every play is a run. */
module GameRuns {
  import opened Wrappers
  import opened TraitMasks
  import opened Collection
  import opened ReturnAuctions
  import opened Protocol
  import opened ProtocolSafety
  import opened ProtocolRuns
  import opened ProtocolTheorems
  import opened CollectionGame

  /** The storage of the records core shows position `b`. */
  ghost predicate Shows(c: Core, b: Board) {
    && (forall t: nat :: Bit(c.collected, t) <==> t in b.collected)
    && PlacesShown(c.custody, b.flying, b.vaulted)
    && TargetsKnown(c.log, c.indexOf, b.flying)
    && AttemptsShown(c.attempts, b.attempts)
  }

  ghost predicate PlacesShown(custody: map<nat, Custody>, flying: map<nat, nat>, vaulted: set<nat>) {
    && (forall p: nat :: p in flying <==> p in custody && custody[p] == InReturnAuction)
    && (forall p: nat :: p in vaulted <==> p in custody && custody[p] == Vaulted)
  }

  ghost predicate TargetsKnown(log: seq<Acquisition>, indexOf: map<nat, nat>, flying: map<nat, nat>) {
    forall p :: p in flying ==>
      p in indexOf && 1 <= indexOf[p] <= |log| && log[indexOf[p] - 1].target == flying[p]
  }

  ghost predicate AttemptsShown(counted: map<nat, nat>, attempts: map<nat, nat>) {
    forall t: nat :: CounterOf(counted, t) == CounterOf(attempts, t)
  }

  lemma EmptyShows()
    ensures Shows(EMPTY, START)
  {
    forall t: nat
      ensures !Bit(0, t)
    {
      ZeroHasNoBits(t);
    }
  }

  // ---------- The rules agree ----------

  /** The latest rows hold exactly the Punks in flight, with their targets. */
  ghost predicate FlightsMatch(flying: map<nat, nat>, rows: Rows) {
    && (forall p: nat :: p in flying <==> Flying(rows, p))
    && (forall p: nat :: p in flying ==> rows[p].target == flying[p])
  }

  lemma RowsShown(c: Core, b: Board, rows: Rows)
    requires IndexOk(c.log, c.indexOf, c.custody) && RowsMatch(c.log, c.indexOf, rows) && Shows(c, b)
    ensures FlightsMatch(b.flying, rows)
  {
    forall p: nat
      ensures p in b.flying <==> Flying(rows, p)
      ensures p in b.flying ==> rows[p].target == b.flying[p]
    {
      assert InAuction(c, p) <==> p in b.flying;
    }
  }

  lemma ClaimsShown(pending: map<nat, nat>, rows: Rows, claims: map<nat, nat>, flying: map<nat, nat>, t: nat)
    requires PendingExact(pending, rows, claims) && FlightsMatch(flying, rows)
    ensures CounterOf(pending, t) > 0 <==> Flown(flying, t)
  {
    if t in claims {
      assert claims[t] in flying && flying[claims[t]] == t;
    }
    if Flown(flying, t) {
      var p :| p in flying && flying[p] == t;
      assert Flying(rows, p);
    }
  }

  lemma PendingShown(d: Dataset, c: Core, b: Board, t: nat)
    requires CoreInv(d, c) && Shows(c, b)
    ensures PendingOf(c, t) > 0 <==> Flown(b.flying, t)
  {
    hide IndexOk, RowsMatch, HistoryFrozen, PendingExact, CollectedExact, AttemptsExact, TargetsReal, ClaimsOpen,
      Shows, FlightsMatch;
    var rows: Rows, claims: map<nat, nat> :| CoreInvAt(d, c, rows, claims);
    RowsShown(c, b, rows);
    ClaimsShown(c.pending, rows, claims, b.flying, t);
  }

  lemma FlightsDistinct(d: Dataset, c: Core, rows: Rows, claims: map<nat, nat>, flying: map<nat, nat>)
    requires PendingExact(c.pending, rows, claims) && TargetsReal(d, rows) && ClaimsOpen(c.collected, claims)
    requires FlightsMatch(flying, rows)
    ensures forall p :: p in flying ==> Carries(d, p, flying[p]) && !Bit(c.collected, flying[p])
    ensures forall p, q :: p in flying && q in flying && p != q ==> flying[p] != flying[q]
  {
    forall p | p in flying
      ensures Carries(d, p, flying[p]) && !Bit(c.collected, flying[p])
      ensures flying[p] in claims && claims[flying[p]] == p
    {
      assert Flying(rows, p);
    }
  }

  lemma InvShown(d: Dataset, c: Core, b: Board)
    requires CoreInv(d, c) && Shows(c, b)
    ensures BoardInv(d, b)
  {
    hide IndexOk, RowsMatch, HistoryFrozen, PendingExact, CollectedExact, AttemptsExact, TargetsReal, ClaimsOpen,
      FlightsMatch;
    var rows: Rows, claims: map<nat, nat> :| CoreInvAt(d, c, rows, claims);
    RowsShown(c, b, rows);
    FlightsDistinct(d, c, rows, claims, b.flying);
    assert forall p :: p in b.flying ==> InAuction(c, p) && (p in b.vaulted ==> IsVaulted(c, p));
  }

  lemma TargetsShown(d: Dataset, c: Core, b: Board, p: nat, t: nat)
    requires Sealed(d) && CoreInv(d, c) && Shows(c, b) && p < PUNK_COUNT
    requires |d.masks| == PUNK_COUNT && |d.carriers| == TRAIT_COUNT
    ensures CanonicalTarget(d, c, p) == Some(t) <==> Targets(d, b, p, t)
  {
    hide Sealed, CoreInv, CanonicalTarget;
    forall u: nat
      ensures Eligible(d, c, p, u) <==> Open(d, b, p, u)
    {
      PendingShown(d, c, b, u);
    }
    CanonicalIff(d, c, p, t);
  }

  // ---------- The writers are moves ----------

  lemma TakeShown(c: Core, b: Board, p: nat, row: Acquisition)
    requires Shows(c, b) && Acquirable(c, p)
    ensures Shows(Recorded(c, p, row), After(b, Take(p, row.target)))
  {
    hide TargetsKnown, PlacesShown;
    TargetTaken(c.log, c.indexOf, b.flying, p, row);
    PlaceTaken(c.custody, b.flying, b.vaulted, p, row.target);
    AttemptTaken(c.attempts, b.attempts, row.target);
  }

  lemma AttemptTaken(counted: map<nat, nat>, attempts: map<nat, nat>, t: nat)
    requires AttemptsShown(counted, attempts)
    ensures AttemptsShown(counted[t := CounterOf(counted, t) + 1], attempts[t := CounterOf(attempts, t) + 1])
  {
    var counted', attempts' := counted[t := CounterOf(counted, t) + 1], attempts[t := CounterOf(attempts, t) + 1];
    forall u: nat
      ensures CounterOf(counted', u) == CounterOf(attempts', u)
    {
      assert CounterOf(counted, u) == CounterOf(attempts, u);
    }
  }

  lemma PlaceTaken(custody: map<nat, Custody>, flying: map<nat, nat>, vaulted: set<nat>, p: nat, t: nat)
    requires PlacesShown(custody, flying, vaulted) && (p in custody ==> custody[p] != Vaulted)
    ensures PlacesShown(custody[p := InReturnAuction], flying[p := t], vaulted)
  {
  }

  lemma TargetTaken(log: seq<Acquisition>, indexOf: map<nat, nat>, flying: map<nat, nat>, p: nat, row: Acquisition)
    requires TargetsKnown(log, indexOf, flying)
    ensures TargetsKnown(log + [row], indexOf[p := |log| + 1], flying[p := row.target])
  {
  }

  lemma LandShown(d: Dataset, c: Core, b: Board, p: nat, outcome: Custody)
    requires CoreInv(d, c) && Shows(c, b) && InAuction(c, p) && p in c.indexOf && 1 <= c.indexOf[p] <= |c.log|
    requires outcome == Vaulted || outcome == ReturnedToMarket
    ensures Shows(Marked(c, p, c.indexOf[p] - 1, outcome),
              After(b, if outcome == Vaulted then Vaulting(p) else Return(p)))
  {
    hide CoreInv, TargetsKnown;
    MarkKeeps(d, c, p, outcome);
    TargetKnown(c, b, p);
    SetBitIsOr(c.collected, b.flying[p]);
    LatestRows(d, c);
    TargetLanded(c.log, c.indexOf, b.flying, p, c.log[c.indexOf[p] - 1].(custody := outcome));
  }

  lemma TargetKnown(c: Core, b: Board, p: nat)
    requires Shows(c, b) && InAuction(c, p) && p in c.indexOf && 1 <= c.indexOf[p] <= |c.log|
    ensures p in b.flying && b.flying[p] == c.log[c.indexOf[p] - 1].target
  {
  }

  lemma TargetLanded(log: seq<Acquisition>, indexOf: map<nat, nat>, flying: map<nat, nat>, p: nat, row: Acquisition)
    requires TargetsKnown(log, indexOf, flying) && p in indexOf && 1 <= indexOf[p] <= |log|
    requires forall p, q :: p in indexOf && q in indexOf && p != q ==> indexOf[p] != indexOf[q]
    ensures TargetsKnown(log[indexOf[p] - 1 := row], indexOf, flying - {p})
  {
  }

  lemma LatestRows(d: Dataset, c: Core)
    requires CoreInv(d, c)
    ensures forall p, q :: p in c.indexOf && q in c.indexOf && p != q ==> c.indexOf[p] != c.indexOf[q]
  {
    hide RowsMatch, HistoryFrozen, PendingExact, CollectedExact, AttemptsExact, TargetsReal, ClaimsOpen;
    var rows: Rows, claims: map<nat, nat> :| CoreInvAt(d, c, rows, claims);
    LatestDistinct(c.log, c.indexOf, c.custody);
  }

  lemma LatestDistinct(log: seq<Acquisition>, indexOf: map<nat, nat>, custody: map<nat, Custody>)
    requires IndexOk(log, indexOf, custody)
    ensures forall p, q :: p in indexOf && q in indexOf && p != q ==> indexOf[p] != indexOf[q]
  {
  }

  // ---------- Plays in parts ----------

  lemma {:induction false} PlayParts(d: Dataset, b: Board, first: seq<Move>, rest: seq<Move>)
    ensures Play(b, first + rest) == Play(Play(b, first), rest)
    ensures LegalAll(d, b, first + rest) <==> LegalAll(d, b, first) && LegalAll(d, Play(b, first), rest)
    decreases |first|
  {
    hide Legal, After;
    if first == [] {
      assert [] + rest == rest;
    } else {
      assert (first + rest)[0] == first[0] && (first + rest)[1..] == first[1..] + rest;
      PlayParts(d, After(b, first[0]), first[1..], rest);
    }
  }

  lemma PlayOne(d: Dataset, b: Board, m: Move)
    ensures Play(b, [m]) == After(b, m) && (LegalAll(d, b, [m]) <==> Legal(d, b, m))
  {
    hide Legal, After;
    assert [m][1..] == [];
  }

  // ---------- Every run is a play ----------

  /** The move a transaction that went through makes. */
  function MovesOf(s: State, op: Op): seq<Move> {
    match op
    case OpAcceptBid(p, t, _) => [Take(p, t)]
    case OpAcceptListing(p, t, _, _, _) => [Take(p, t)]
    case OpSettle(p, _, _) => [if p in s.sales && s.sales[p].highBidder == Zero then Vaulting(p) else Return(p)]
    case _ => []
  }

  lemma CheapestReserve(price: nat, attempts: nat)
    requires price > 0
    ensures Reserve(1, attempts) <= Reserve(price, attempts)
  {
    hide Reserve;
    var cheapest := 101 + attempts;
    AtLeastOnce(price, cheapest);
    ReserveRounds(price, attempts);
    ReserveRounds(1, attempts);
    RoundsUp(cheapest, price * cheapest);
  }

  lemma AtLeastOnce(price: nat, n: nat)
    requires price > 0
    ensures n <= price * n
  {
  }

  lemma ReserveRounds(price: nat, attempts: nat)
    requires price > 0
    ensures Reserve(price, attempts) == (price * (101 + attempts) + 99) / 100
  {
    AtLeastOnce(price, 101 + attempts);
  }

  lemma RoundsUp(a: nat, b: nat)
    requires a <= b
    ensures (a + 99) / 100 <= (b + 99) / 100
  {
  }

  lemma AcquiredIsMove(d: Dataset, s: State, b: Board, p: nat, t: nat, cost: nat, acquirer: Addr, seller: Addr)
    requires Sealed(d) && Inv(d, s) && |d.masks| == PUNK_COUNT && |d.carriers| == TRAIT_COUNT
    requires Shows(s.core, b) && p < PUNK_COUNT && 0 < cost <= s.wei.liveBid
    requires Acquire(d, s, p, t, cost, acquirer, seller).Ok?
    ensures Legal(d, b, Take(p, t))
    ensures Shows(Acquire(d, s, p, t, cost, acquirer, seller).value.core, After(b, Take(p, t)))
  {
    hide Sealed, Inv, Acquire, RecordAcquisition, Reserve, CanonicalTarget, Targets;
    AcquireShape(d, s, p, t, cost, acquirer, seller);
    AcquireSucceeds(d, s, p, t, cost, acquirer, seller);
    RecordNeeds(d, s.core, p, t, d.masks[p], acquirer, seller, cost);
    InvHasCore(d, s);
    TargetsShown(d, s.core, b, p, t);
    CheapestReserve(cost, AttemptsOf(s.core, t));
    TakeShown(s.core, b, p, Acquisition(p, t, d.masks[p], acquirer, seller, cost, InReturnAuction));
  }

  lemma SettledIsMove(d: Dataset, s: State, b: Board, p: nat, referrerOk: bool, forwardOk: bool)
    requires Inv(d, s) && Shows(s.core, b)
    requires p in s.core.indexOf ==> 1 <= s.core.indexOf[p] <= |s.core.log|
    requires Settle(s, p, referrerOk, forwardOk).Ok?
    ensures p in s.sales
    ensures var m := if s.sales[p].highBidder == Zero then Vaulting(p) else Return(p);
      Legal(d, b, m) && Shows(Settle(s, p, referrerOk, forwardOk).value.core, After(b, m))
  {
    hide CoreInv, SalesMatch, Held, OffersReal, ProofsExact, ProofsPaid, Solvent, Marked, After, VaultedState,
      TargetsKnown, AttemptsShown, Distributed;
    SettleNeeds(s, p, referrerOk, forwardOk);
    SaleKnown(s.sales, s.core.log, s.core.indexOf, s.core.custody, p);
    LandedCore(d, s, p, referrerOk, forwardOk);
    LandShown(d, s.core, b, p, if s.sales[p].highBidder == Zero then Vaulted else ReturnedToMarket);
  }

  /** Settling changes the records core by one mark. */
  lemma LandedCore(d: Dataset, s: State, p: nat, referrerOk: bool, forwardOk: bool)
    requires Inv(d, s) && LiveSale(s.sales, p) && p in s.core.indexOf && 1 <= s.core.indexOf[p] <= |s.core.log|
    requires Settle(s, p, referrerOk, forwardOk).Ok? && InAuction(s.core, p)
    ensures Settle(s, p, referrerOk, forwardOk).value.core == Marked(s.core, p, s.core.indexOf[p] - 1,
              if s.sales[p].highBidder == Zero then Vaulted else ReturnedToMarket)
  {
    hide CoreInv, SalesMatch, Held, OffersReal, ProofsExact, ProofsPaid, Solvent, Marked, SettleVaulted, Distributed;
    if s.sales[p].highBidder == Zero {
      VaultedSettles(d, s, p, s.core.indexOf[p] - 1, forwardOk);
    } else {
      MarkKeeps(d, s.core, p, ReturnedToMarket);
    }
  }

  lemma StepIsMove(d: Dataset, s: State, b: Board, op: Op)
    requires Sealed(d) && Inv(d, s) && Shows(s.core, b) && |d.masks| == PUNK_COUNT && |d.carriers| == TRAIT_COUNT
    requires forall p :: p in s.core.indexOf ==> 1 <= s.core.indexOf[p] <= |s.core.log|
    requires Step(d, s, op).Ok?
    ensures LegalAll(d, b, MovesOf(s, op)) && Shows(Step(d, s, op).value.core, Play(b, MovesOf(s, op)))
  {
    hide Sealed, Inv, Shows, Acquire, Settle, TargetProblem, MinNext, Legal, After;
    match op
    case OpAcceptBid(p, t, expected) =>
      AcquiredIsMove(d, s, b, p, t, s.offers[p].price, s.offers[p].seller, s.offers[p].seller);
      PlayOne(d, b, Take(p, t));
    case OpAcceptListing(p, t, finder, active, finderOk) =>
      var fee := FinderFee(s.wei.liveBid);
      var s1 := s.(wei := s.wei.(liveBid := s.wei.liveBid - fee, paidOut := s.wei.paidOut + fee));
      WeiKeeps(d, s, s1.wei, s.now);
      AcquiredIsMove(d, s1, b, p, t, s.offers[p].price, finder, s.offers[p].seller);
      PlayOne(d, b, Take(p, t));
    case OpSettle(p, referrerOk, forwardOk) =>
      SettledIsMove(d, s, b, p, referrerOk, forwardOk);
      PlayOne(d, b, MovesOf(s, op)[0]);
    case _ =>
  }

  /** The moves of a run. */
  ghost function PlayOf(d: Dataset, s: State, ops: seq<Op>): seq<Move>
    requires Sealed(d) && Inv(d, s)
    decreases |ops|
  {
    if ops == [] then []
    else
      InvIndex(d, s);
      match Step(d, s, ops[0])
      case Err(_) => PlayOf(d, s, ops[1..])
      case Ok(s1) => StepKeeps(d, s, ops[0]); MovesOf(s, ops[0]) + PlayOf(d, s1, ops[1..])
  }

  /** Whatever is paid, bid, listed or waited for: a run's acquisitions and
      settlements are legal moves, and the records show the position they lead to. */
  lemma {:induction false} RunIsPlay(d: Dataset, s: State, b: Board, ops: seq<Op>)
    requires Sealed(d) && Inv(d, s) && Shows(s.core, b)
    ensures LegalAll(d, b, PlayOf(d, s, ops))
    ensures Shows(Run(d, s, ops).core, Play(b, PlayOf(d, s, ops)))
    decreases |ops|
  {
    hide Sealed, Inv, Step, Shows, Legal, After, MovesOf;
    if ops != [] {
      SealedSizes(d);
      InvIndex(d, s);
      match Step(d, s, ops[0])
      case Err(_) => RunIsPlay(d, s, b, ops[1..]);
      case Ok(s1) =>
        StepKeeps(d, s, ops[0]);
        StepIsMove(d, s, b, ops[0]);
        var b1 := Play(b, MovesOf(s, ops[0]));
        RunIsPlay(d, s1, b1, ops[1..]);
        PlayParts(d, b, MovesOf(s, ops[0]), PlayOf(d, s1, ops[1..]));
    }
  }

  // ---------- Every play is a run ----------

  lemma {:induction false} RunParts(d: Dataset, s: State, first: seq<Op>, rest: seq<Op>)
    requires Sealed(d) && Inv(d, s)
    ensures Run(d, s, first + rest) == Run(d, Run(d, s, first), rest)
    decreases |first|
  {
    hide Sealed, Inv, Step;
    if first == [] {
      assert [] + rest == rest;
    } else {
      SealedSizes(d);
      InvIndex(d, s);
      assert (first + rest)[0] == first[0] && (first + rest)[1..] == first[1..] + rest;
      match Step(d, s, first[0])
      case Err(_) => RunParts(d, s, first[1..], rest);
      case Ok(s1) =>
        StepKeeps(d, s, first[0]);
        RunParts(d, s1, first[1..], rest);
    }
  }

  lemma RunOne(d: Dataset, s: State, op: Op, s1: State)
    requires Sealed(d) && Inv(d, s) && |d.masks| == PUNK_COUNT && |d.carriers| == TRAIT_COUNT
    requires forall p :: p in s.core.indexOf ==> 1 <= s.core.indexOf[p] <= |s.core.log|
    requires Step(d, s, op) == Ok(s1)
    ensures Inv(d, s1) && Run(d, s, [op]) == s1
  {
    hide Sealed, Inv, Step;
    StepKeeps(d, s, op);
    assert [op][1..] == [];
  }

  /** Every Punk that can be acquired belongs to an ordinary account. */
  ghost predicate Sellable(s: State) {
    forall p: nat :: p < PUNK_COUNT && Acquirable(s.core, p) ==> OwnerOf(s, p).User?
  }

  /** No auction but that of `p` changes. */
  ghost predicate OthersKept(before: map<nat, Sale>, after: map<nat, Sale>, p: nat) {
    forall q: nat :: q != p ==>
      (LiveSale(after, q) <==> LiveSale(before, q)) && (LiveSale(after, q) ==> after[q] == before[q])
  }

  /** Taking a Punk: fund one wei, list for it, accept. */
  lemma TakeRuns(d: Dataset, s: State, b: Board, p: nat, t: nat) returns (ops: seq<Op>)
    requires Sealed(d) && Inv(d, s) && Shows(s.core, b) && Sellable(s) && Legal(d, b, Take(p, t))
    ensures var s' := Run(d, s, ops);
      && Shows(s'.core, After(b, Take(p, t))) && Sellable(s') && OthersKept(s.sales, s'.sales, p)
      && LiveSale(s'.sales, p) && s'.sales[p].highBidder == Zero && s'.now < s'.sales[p].endsAt
  {
    hide Sealed, Inv, Step, CanonicalTarget, Reserve, Run, Shows, After, Accepted, OthersKept, Sellable, Targets;
    SealedSizes(d);
    TakeFacts(d, s, b, p, t);
    var owner := OwnerOf(s, p);
    var s1 := s.(wei := s.wei.(liveBid := s.wei.liveBid + 1));
    var s2 := s1.(offers := s1.offers[p := Offer(owner, 1, Patron)]);
    var s3 := Accepted(d, s2, p, t, 1, owner);
    ops := [OpFund(1)] + ([OpList(p, owner, 1, Patron)] + [OpAcceptBid(p, t, 1)]);
    InvIndex(d, s);
    StepFund(d, s, 1);
    RunOne(d, s, OpFund(1), s1);
    InvIndex(d, s1);
    StepList(d, s1, p, owner, 1);
    RunOne(d, s1, OpList(p, owner, 1, Patron), s2);
    InvIndex(d, s2);
    StepAccept(d, s2, p, t, 1, owner);
    RunOne(d, s2, OpAcceptBid(p, t, 1), s3);
    RunParts(d, s1, [OpList(p, owner, 1, Patron)], [OpAcceptBid(p, t, 1)]);
    RunParts(d, s, [OpFund(1)], [OpList(p, owner, 1, Patron)] + [OpAcceptBid(p, t, 1)]);
    TakenState(d, s, s2, b, p, t, owner);
  }

  lemma TakeFacts(d: Dataset, s: State, b: Board, p: nat, t: nat)
    requires Sealed(d) && Inv(d, s) && Shows(s.core, b) && Sellable(s) && Legal(d, b, Take(p, t))
    requires |d.masks| == PUNK_COUNT && |d.carriers| == TRAIT_COUNT
    ensures p < PUNK_COUNT && Acquirable(s.core, p) && OwnerOf(s, p).User?
    ensures CanonicalTarget(d, s.core, p) == Some(t) && Reserve(1, AttemptsOf(s.core, t)) <= UINT128_MAX
  {
    hide Sealed, Inv, CanonicalTarget, Reserve, Targets;
    InvHasCore(d, s);
    TargetsShown(d, s.core, b, p, t);
  }

  lemma StepFund(d: Dataset, s: State, wei: nat)
    requires |d.masks| == PUNK_COUNT && |d.carriers| == TRAIT_COUNT
    requires forall p :: p in s.core.indexOf ==> 1 <= s.core.indexOf[p] <= |s.core.log|
    ensures Step(d, s, OpFund(wei)) == Ok(s.(wei := s.wei.(liveBid := s.wei.liveBid + wei)))
  {
  }

  lemma TakenState(d: Dataset, s: State, s2: State, b: Board, p: nat, t: nat, owner: Addr)
    requires p < |d.masks| && p < PUNK_COUNT && 1 <= s2.wei.liveBid && Shows(s.core, b) && Acquirable(s.core, p)
    requires Sellable(s) && s2.core == s.core && s2.owner == s.owner && s2.sales == s.sales
    ensures var s' := Accepted(d, s2, p, t, 1, owner);
      && Shows(s'.core, After(b, Take(p, t))) && Sellable(s') && OthersKept(s.sales, s'.sales, p)
      && LiveSale(s'.sales, p) && s'.sales[p].highBidder == Zero && s'.now < s'.sales[p].endsAt
  {
    hide Shows, After, Reserve;
    TakeShown(s.core, b, p, Acquisition(p, t, d.masks[p], owner, owner, 1, InReturnAuction));
    var s' := Accepted(d, s2, p, t, 1, owner);
    forall q: nat | q < PUNK_COUNT && Acquirable(s'.core, q)
      ensures OwnerOf(s', q).User?
    {
      assert q != p && Acquirable(s.core, q);
    }
  }

  /** A bid of the reserve on a fresh auction; nothing else changes. */
  lemma BidRuns(d: Dataset, s: State, p: nat) returns (ops: seq<Op>)
    requires Sealed(d) && Inv(d, s) && Sellable(s)
    requires LiveSale(s.sales, p) && s.sales[p].highBidder == Zero && s.now < s.sales[p].endsAt
    ensures var s' := Run(d, s, ops);
      && s'.core == s.core && Sellable(s') && OthersKept(s.sales, s'.sales, p)
      && LiveSale(s'.sales, p) && s'.sales[p].highBidder != Zero
  {
    hide Sealed, Inv, Step, Run, MinNext;
    SealedSizes(d);
    InvIndex(d, s);
    SaleSound(d, s, p);
    ops := [OpPlaceBid(p, 0, s.sales[p].reserve, Zero, true)];
    StepBid(d, s, p);
    RunOne(d, s, ops[0], PlaceBid(s, p, User(0), s.sales[p].reserve, Zero, true).value);
  }

  lemma StepBid(d: Dataset, s: State, p: nat)
    requires |d.masks| == PUNK_COUNT && |d.carriers| == TRAIT_COUNT
    requires forall p :: p in s.core.indexOf ==> 1 <= s.core.indexOf[p] <= |s.core.log|
    requires LiveSale(s.sales, p) && SaleOk(s.sales[p]) && s.sales[p].highBidder == Zero && s.now < s.sales[p].endsAt
    ensures PlaceBid(s, p, User(0), s.sales[p].reserve, Zero, true).Ok?
    ensures Step(d, s, OpPlaceBid(p, 0, s.sales[p].reserve, Zero, true))
      == PlaceBid(s, p, User(0), s.sales[p].reserve, Zero, true)
  {
    hide MinNext;
  }

  lemma SaleSound(d: Dataset, s: State, p: nat)
    requires Inv(d, s) && LiveSale(s.sales, p)
    ensures p < PUNK_COUNT && SaleOk(s.sales[p]) && InAuction(s.core, p)
    ensures p in s.core.indexOf && 1 <= s.core.indexOf[p] <= |s.core.log|
  {
    hide CoreInv, Held, OffersReal, ProofsExact, ProofsPaid, Solvent;
    SaleKnown(s.sales, s.core.log, s.core.indexOf, s.core.custody, p);
  }

  /** Landing a Punk: wait for the end of its auction and settle. */
  lemma LandRuns(d: Dataset, s: State, b: Board, p: nat) returns (ops: seq<Op>)
    requires Sealed(d) && Inv(d, s) && Shows(s.core, b) && Sellable(s) && LiveSale(s.sales, p)
    ensures var s' := Run(d, s, ops);
      && Shows(s'.core, After(b, if s.sales[p].highBidder == Zero then Vaulting(p) else Return(p)))
      && Sellable(s') && OthersKept(s.sales, s'.sales, p) && !LiveSale(s'.sales, p)
  {
    hide Sealed, Inv, Step, Run, Shows, After, Settle, OthersKept, Sellable;
    SealedSizes(d);
    InvIndex(d, s);
    var wait := s.sales[p].endsAt;
    var s1 := s.(now := s.now + wait);
    StepWarp(d, s, wait);
    RunOne(d, s, OpWarp(wait), s1);
    SaleSound(d, s, p);
    SettleLands(d, s1, p, true, true);
    StepSettled(d, s1, p);
    ops := [OpWarp(wait)] + [OpSettle(p, true, true)];
    RunOne(d, s1, OpSettle(p, true, true), Settle(s1, p, true, true).value);
    RunParts(d, s, [OpWarp(wait)], [OpSettle(p, true, true)]);
    SettledIsMove(d, s1, b, p, true, true);
    SellableLater(s, s1);
    LandedState(d, s1, p);
    KeptLater(s, s1, Run(d, s, ops), p);
  }

  lemma SellableLater(s: State, s1: State)
    requires Sellable(s) && s1.core == s.core && s1.owner == s.owner
    ensures Sellable(s1)
  {
  }

  lemma KeptLater(s: State, s1: State, s': State, p: nat)
    requires s1.sales == s.sales && OthersKept(s1.sales, s'.sales, p)
    ensures OthersKept(s.sales, s'.sales, p)
  {
  }

  lemma StepSettled(d: Dataset, s: State, p: nat)
    requires |d.masks| == PUNK_COUNT && |d.carriers| == TRAIT_COUNT
    requires forall p :: p in s.core.indexOf ==> 1 <= s.core.indexOf[p] <= |s.core.log|
    ensures Step(d, s, OpSettle(p, true, true)) == Settle(s, p, true, true)
  {
    hide Settle;
  }

  lemma LandedState(d: Dataset, s: State, p: nat)
    requires Inv(d, s) && LiveSale(s.sales, p) && p in s.core.indexOf && 1 <= s.core.indexOf[p] <= |s.core.log|
    requires InAuction(s.core, p) && SaleOk(s.sales[p])
    requires (s.now >= s.sales[p].endsAt) && Settle(s, p, true, true).Ok? && Sellable(s)
    ensures var s' := Settle(s, p, true, true).value;
      Sellable(s') && OthersKept(s.sales, s'.sales, p) && !LiveSale(s'.sales, p)
  {
    hide CoreInv, SalesMatch, Held, OffersReal, ProofsExact, ProofsPaid, Solvent, Marked, Distributed, Swept;
    LandedCore(d, s, p, true, true);
    var outcome := if s.sales[p].highBidder == Zero then Vaulted else ReturnedToMarket;
    MarkedShape(s.core, p, s.core.indexOf[p] - 1, outcome);
    LandedOwner(s, p);
    var s' := Settle(s, p, true, true).value;
    forall q: nat | q < PUNK_COUNT && Acquirable(s'.core, q)
      ensures OwnerOf(s', q).User?
    {
      if q != p { assert Acquirable(s.core, q); }
    }
  }

  lemma LandedOwner(s: State, p: nat)
    requires LiveSale(s.sales, p) && (p in s.core.indexOf ==> 1 <= s.core.indexOf[p] <= |s.core.log|)
    requires s.now >= s.sales[p].endsAt && Settle(s, p, true, true).Ok?
    ensures var s' := Settle(s, p, true, true).value;
      && s'.owner == s.owner[p := if s.sales[p].highBidder == Zero then Vault else s.sales[p].highBidder]
      && s'.sales == Closed(s.sales, p)
  {
    hide Marked, Distributed, Swept, PopCount, Bit;
  }

  /** How the next landing of `p` in a play ends. */
  function WillReturn(moves: seq<Move>, p: nat): Option<bool>
    decreases |moves|
  {
    if moves == [] then None
    else if moves[0] == Return(p) then Some(true)
    else if moves[0] == Vaulting(p) then Some(false)
    else WillReturn(moves[1..], p)
  }

  /** The auctions that the play returns have a bid, and those it vaults none. */
  ghost predicate Fated(sales: map<nat, Sale>, moves: seq<Move>) {
    forall p: nat :: LiveSale(sales, p) && WillReturn(moves, p).Some? ==>
      (sales[p].highBidder != Zero <==> WillReturn(moves, p).value)
  }

  lemma FatedLater(before: map<nat, Sale>, after: map<nat, Sale>, moves: seq<Move>, p: nat)
    requires moves != [] && moves[0].punk == p && Fated(before, moves) && OthersKept(before, after, p)
    requires LiveSale(after, p) && WillReturn(moves[1..], p).Some? ==>
      (after[p].highBidder != Zero <==> WillReturn(moves[1..], p).value)
    ensures Fated(after, moves[1..])
  {
    forall q: nat | LiveSale(after, q) && q != p && WillReturn(moves[1..], q).Some?
      ensures after[q].highBidder != Zero <==> WillReturn(moves[1..], q).value
    {
      assert WillReturn(moves, q) == WillReturn(moves[1..], q);
      assert LiveSale(before, q);
    }
  }

  lemma FlightIsLive(d: Dataset, s: State, b: Board, p: nat)
    requires Inv(d, s) && Shows(s.core, b) && p in b.flying
    ensures LiveSale(s.sales, p)
  {
    hide CoreInv, Held, OffersReal, ProofsExact, ProofsPaid, Solvent;
  }

  lemma KeptTwice(a: map<nat, Sale>, b: map<nat, Sale>, c: map<nat, Sale>, p: nat)
    requires OthersKept(a, b, p) && OthersKept(b, c, p)
    ensures OthersKept(a, c, p)
  {
    forall q: nat | q != p
      ensures LiveSale(c, q) <==> LiveSale(a, q)
      ensures LiveSale(c, q) ==> c[q] == a[q]
    {
      assert (LiveSale(b, q) <==> LiveSale(a, q)) && (LiveSale(c, q) <==> LiveSale(b, q));
    }
  }

  /** One move, made by transactions, with the bid its Punk's fate asks for. */
  lemma MoveRuns(d: Dataset, s: State, b: Board, moves: seq<Move>) returns (ops: seq<Op>)
    requires Sealed(d) && Inv(d, s) && Shows(s.core, b) && Sellable(s)
    requires moves != [] && Legal(d, b, moves[0]) && Fated(s.sales, moves)
    ensures var s' := Run(d, s, ops);
      Shows(s'.core, After(b, moves[0])) && Sellable(s') && Fated(s'.sales, moves[1..])
  {
    hide Sealed, Inv, Step, Run, Shows, After, Sellable, OthersKept, Fated;
    var p := moves[0].punk;
    if moves[0].Take? {
      ops := TakeRuns(d, s, b, p, moves[0].target);
      var s1 := Run(d, s, ops);
      if WillReturn(moves[1..], p) == Some(true) {
        var more := BidRuns(d, s1, p);
        RunParts(d, s, ops, more);
        KeptTwice(s.sales, s1.sales, Run(d, s1, more).sales, p);
        ops := ops + more;
      }
      FatedLater(s.sales, Run(d, s, ops).sales, moves, p);
    } else {
      FlightIsLive(d, s, b, p);
      FateNow(s.sales, moves);
      ops := LandRuns(d, s, b, p);
      FatedLater(s.sales, Run(d, s, ops).sales, moves, p);
    }
  }

  lemma FateNow(sales: map<nat, Sale>, moves: seq<Move>)
    requires Fated(sales, moves) && moves != [] && !moves[0].Take? && LiveSale(sales, moves[0].punk)
    ensures sales[moves[0].punk].highBidder != Zero <==> moves[0].Return?
  {
    assert WillReturn(moves, moves[0].punk) == Some(moves[0].Return?);
  }

  lemma {:induction false} FatedPlayIsRun(d: Dataset, s: State, b: Board, moves: seq<Move>) returns (ops: seq<Op>)
    requires Sealed(d) && Inv(d, s) && Shows(s.core, b) && Sellable(s)
    requires LegalAll(d, b, moves) && Fated(s.sales, moves)
    ensures Shows(Run(d, s, ops).core, Play(b, moves))
    decreases |moves|
  {
    hide Sealed, Inv, Step, Run, Shows, After, Sellable, Fated, Legal;
    if moves == [] {
      ops := [];
      RunNothing(d, s);
    } else {
      ops := MoveRuns(d, s, b, moves);
      var more := FatedPlayIsRun(d, Run(d, s, ops), After(b, moves[0]), moves[1..]);
      RunParts(d, s, ops, more);
      ops := ops + more;
    }
  }

  lemma RunNothing(d: Dataset, s: State)
    requires Sealed(d) && Inv(d, s)
    ensures Run(d, s, []) == s
  {
    hide Sealed, Inv;
  }

  /** From any reachable state without live auctions in which ordinary accounts own
      the acquirable Punks: every legal play is the play of some run. */
  lemma PlayIsRun(d: Dataset, s: State, b: Board, moves: seq<Move>) returns (ops: seq<Op>)
    requires Sealed(d) && Inv(d, s) && Shows(s.core, b) && Sellable(s)
    requires (forall p: nat :: !LiveSale(s.sales, p)) && LegalAll(d, b, moves)
    ensures Shows(Run(d, s, ops).core, Play(b, moves))
  {
    hide Sealed, Inv, Step, Run, Shows, Sellable, LegalAll;
    ops := FatedPlayIsRun(d, s, b, moves);
  }
}
