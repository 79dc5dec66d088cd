/** The collection rules with the money, the market and the clock left out: which
    Punk can be taken for which trait, and what a vaulting or a return does. A
    finite game on the sealed dataset. */
module CollectionGame {
  import opened TraitMasks
  import opened Collection
  import opened ReturnAuctions
  import opened Protocol

  /** The position: collected traits, the Punks in flight with their targets, the
      vaulted Punks, and how often each trait was a target. */
  datatype Board = Board(collected: set<nat>, flying: map<nat, nat>, vaulted: set<nat>, attempts: map<nat, nat>)

  datatype Move = Take(punk: nat, target: nat) | Vaulting(punk: nat) | Return(punk: nat)

  const START: Board := Board({}, map[], {}, map[])

  predicate Carries(d: Dataset, p: nat, t: nat) {
    p < |d.masks| && Bit(d.masks[p], t)
  }

  predicate Flown(flying: map<nat, nat>, t: nat) {
    t in flying.Values
  }

  predicate Open(d: Dataset, b: Board, p: nat, t: nat) {
    t < TRAIT_COUNT && Carries(d, p, t) && t !in b.collected && !Flown(b.flying, t)
  }

  /** `t` comes before `u` when a Punk carrying both is taken. */
  predicate Before(d: Dataset, t: nat, u: nat) {
    t < |d.carriers| && u < |d.carriers| && RarerOrTied(d, t, u)
  }

  /** The one trait `p` can be taken for. */
  ghost predicate Targets(d: Dataset, b: Board, p: nat, t: nat) {
    Open(d, b, p, t) && forall u: nat :: Open(d, b, p, u) ==> Before(d, t, u)
  }

  /** The reserve of the cheapest listing still fits 128 bits. */
  predicate Affordable(b: Board, t: nat) {
    Reserve(1, CounterOf(b.attempts, t)) <= UINT128_MAX
  }

  ghost predicate Legal(d: Dataset, b: Board, m: Move) {
    match m
    case Take(p, t) =>
      p < PUNK_COUNT && p !in b.flying && p !in b.vaulted && Targets(d, b, p, t) && Affordable(b, t)
    case Vaulting(p) => p in b.flying
    case Return(p) => p in b.flying
  }

  function After(b: Board, m: Move): Board {
    match m
    case Take(p, t) =>
      b.(flying := b.flying[p := t], attempts := b.attempts[t := CounterOf(b.attempts, t) + 1])
    case Vaulting(p) =>
      if p !in b.flying then b
      else b.(collected := b.collected + {b.flying[p]}, flying := b.flying - {p}, vaulted := b.vaulted + {p})
    case Return(p) => b.(flying := b.flying - {p})
  }

  ghost predicate LegalAll(d: Dataset, b: Board, moves: seq<Move>)
    decreases |moves|
  {
    moves != [] ==> Legal(d, b, moves[0]) && LegalAll(d, After(b, moves[0]), moves[1..])
  }

  function Play(b: Board, moves: seq<Move>): Board
    decreases |moves|
  {
    if moves == [] then b else Play(After(b, moves[0]), moves[1..])
  }

  // ---------- What every play keeps ----------

  /** Punks in flight have distinct, uncollected targets that they carry. */
  ghost predicate BoardInv(d: Dataset, b: Board) {
    && (forall p :: p in b.flying ==>
          Carries(d, p, b.flying[p]) && b.flying[p] !in b.collected && p !in b.vaulted)
    && (forall p, q :: p in b.flying && q in b.flying && p != q ==> b.flying[p] != b.flying[q])
  }

  lemma MoveKeeps(d: Dataset, b: Board, m: Move)
    requires BoardInv(d, b) && Legal(d, b, m)
    ensures BoardInv(d, After(b, m))
  {
    hide Affordable, Before;
    if m.Take? {
      assert forall q :: q in b.flying ==> Flown(b.flying, b.flying[q]);
    }
  }

  // ---------- Stranded traits ----------

  /** Not collected, and every Punk that carries it is in the vault. */
  ghost predicate Stranded(d: Dataset, b: Board, t: nat) {
    t !in b.collected && forall p: nat :: Carries(d, p, t) ==> p in b.vaulted
  }

  /** `p` carries `t` and every other carrier is vaulted. */
  ghost predicate LastCarrier(d: Dataset, b: Board, p: nat, t: nat) {
    Carries(d, p, t) && p !in b.vaulted && forall q: nat :: Carries(d, q, t) && q != p ==> q in b.vaulted
  }

  lemma StaysStranded(d: Dataset, b: Board, m: Move, t: nat)
    requires BoardInv(d, b) && Legal(d, b, m) && Stranded(d, b, t)
    ensures Stranded(d, After(b, m), t)
  {
  }

  /** A move strands an open trait exactly when it vaults the last carrier for
      another trait. */
  lemma StrandsIff(d: Dataset, b: Board, m: Move, t: nat)
    requires BoardInv(d, b) && Legal(d, b, m) && !Stranded(d, b, t) && t !in b.collected
    ensures Stranded(d, After(b, m), t) <==>
      m.Vaulting? && LastCarrier(d, b, m.punk, t) && b.flying[m.punk] != t
  {
    var b' := After(b, m);
    if Stranded(d, b', t) {
      var p: nat :| Carries(d, p, t) && p !in b.vaulted;
      assert p in b'.vaulted;
    }
  }

  // ---------- Leading traits ----------

  /** Every Punk that carries `t` has it as its first trait, and there is one. */
  ghost predicate Leading(d: Dataset, t: nat) {
    && t < TRAIT_COUNT
    && (exists p: nat :: p < PUNK_COUNT && Carries(d, p, t))
    && (forall p: nat, u: nat :: Carries(d, p, t) && Carries(d, p, u) && u < TRAIT_COUNT ==> Before(d, t, u))
  }

  /** Collected, in flight, or carried by a Punk that can be taken. */
  ghost predicate Reachable(d: Dataset, b: Board, t: nat) {
    || t in b.collected
    || Flown(b.flying, t)
    || exists p: nat :: p < PUNK_COUNT && Carries(d, p, t) && p !in b.flying && p !in b.vaulted
  }

  lemma BeforeBoth(d: Dataset, t: nat, u: nat)
    requires Before(d, t, u) && Before(d, u, t)
    ensures t == u
  {
  }

  lemma LeadingKept(d: Dataset, b: Board, m: Move, t: nat)
    requires BoardInv(d, b) && Legal(d, b, m) && Leading(d, t) && Reachable(d, b, t)
    requires |d.masks| == PUNK_COUNT
    ensures Reachable(d, After(b, m), t)
  {
    hide Affordable, Before;
    var b' := After(b, m);
    if t in b.collected {
    } else if Flown(b.flying, t) {
      var q :| q in b.flying && b.flying[q] == t;
      match m
      case Take(p, u) => assert q in b'.flying && b'.flying[q] == t;
      case Vaulting(p) => if p != q { assert q in b'.flying && b'.flying[q] == t; }
      case Return(p) => if p != q { assert q in b'.flying && b'.flying[q] == t; }
    } else {
      var q: nat :| q < PUNK_COUNT && Carries(d, q, t) && q !in b.flying && q !in b.vaulted;
      if m.Take? && m.punk == q {
        assert Open(d, b, q, t) && Open(d, b, q, m.target);
        BeforeBoth(d, t, m.target);
        assert b'.flying[q] == t;
      } else {
        assert q !in b'.flying && q !in b'.vaulted;
      }
    }
  }
}
