/** The settle loop of scripts/seed-acquisitions.ts: settling the ended auctions
    of a run in any order, and why the script settles the unsold ones first. */
module SettleOrder {
  import opened Wrappers
  import opened TraitMasks
  import opened Collection
  import opened ReturnAuctions
  import opened Protocol
  import opened ProtocolSafety
  import opened ProtocolRuns
  import opened ProtocolTheorems

  predicate Due(sales: map<nat, Sale>, now: nat, p: nat) {
    LiveSale(sales, p) && now >= sales[p].endsAt
  }

  predicate Unsold(sales: map<nat, Sale>, p: nat)
    requires p in sales
  {
    sales[p].highBidder == Zero
  }

  ghost predicate AllDue(sales: map<nat, Sale>, now: nat, ids: seq<nat>) {
    NoRepeats(ids) && forall p :: p in ids ==> Due(sales, now, p)
  }

  // ---------- The pool along an order ----------

  /** The vault-burn share of a winning bid. */
  function Share(sale: Sale): nat {
    if sale.highBidder == Zero || sale.highBid < sale.cost then 0
    else ClearedSplit(sale.cost, sale.highBid, sale.referrer != Zero, true).vaultBurn
  }

  function Shares(sales: map<nat, Sale>, ids: seq<nat>): nat
    requires forall p :: p in ids ==> p in sales
  {
    if ids == [] then 0 else Share(sales[ids[0]]) + Shares(sales, ids[1..])
  }

  /** The pool after settling `ids` in order: unsold settles sweep it empty,
      sold ones add their share. */
  function PoolAfter(sales: map<nat, Sale>, pool: nat, ids: seq<nat>): nat
    requires forall p :: p in ids ==> p in sales
    decreases |ids|
  {
    if ids == [] then pool
    else PoolAfter(sales, if Unsold(sales, ids[0]) then 0 else pool + Share(sales[ids[0]]), ids[1..])
  }

  ghost predicate SomeUnsold(sales: map<nat, Sale>, ids: seq<nat>)
    requires forall p :: p in ids ==> p in sales
  {
    exists p :: p in ids && Unsold(sales, p)
  }

  /** No sold auction comes before an unsold one. */
  ghost predicate UnsoldFirst(sales: map<nat, Sale>, ids: seq<nat>)
    requires forall p :: p in ids ==> p in sales
  {
    forall i, j :: 0 <= i < j < |ids| && Unsold(sales, ids[j]) ==> Unsold(sales, ids[i])
  }

  /** The most any order of `ids` can leave in the pool. */
  ghost function Best(sales: map<nat, Sale>, pool: nat, ids: seq<nat>): nat
    requires forall p :: p in ids ==> p in sales
  {
    (if SomeUnsold(sales, ids) then 0 else pool) + Shares(sales, ids)
  }

  lemma ShareIsPositive(sale: Sale)
    requires SaleOk(sale) && sale.highBidder != Zero
    ensures Share(sale) > 0
  {
    SplitConserves(sale.cost, sale.highBid, sale.referrer != Zero, true);
  }

  /** No order leaves more than `Best`, and the orders that leave exactly that
      are the ones settling every unsold auction before every sold one. */
  lemma {:induction false} UnsoldFirstIsBest(sales: map<nat, Sale>, pool: nat, ids: seq<nat>)
    requires forall p :: p in ids ==> p in sales && SaleOk(sales[p])
    ensures PoolAfter(sales, pool, ids) <= Best(sales, pool, ids)
    ensures PoolAfter(sales, pool, ids) == Best(sales, pool, ids) <==> UnsoldFirst(sales, ids)
    decreases |ids|
  {
    if ids != [] {
      var p, rest := ids[0], ids[1..];
      assert forall q :: q in rest ==> q in ids;
      assert forall q :: q in ids ==> q == p || q in rest;
      assert SomeUnsold(sales, ids) <==> Unsold(sales, p) || SomeUnsold(sales, rest);
      if Unsold(sales, p) {
        UnsoldFirstIsBest(sales, 0, rest);
        UnsoldFirstTail(sales, ids);
      } else {
        ShareIsPositive(sales[p]);
        UnsoldFirstIsBest(sales, pool + Share(sales[p]), rest);
        UnsoldFirstTail(sales, ids);
      }
    }
  }

  lemma UnsoldFirstTail(sales: map<nat, Sale>, ids: seq<nat>)
    requires ids != [] && forall p :: p in ids ==> p in sales
    ensures UnsoldFirst(sales, ids) <==>
      UnsoldFirst(sales, ids[1..]) && (SomeUnsold(sales, ids[1..]) ==> Unsold(sales, ids[0]))
  {
    var rest := ids[1..];
    if UnsoldFirst(sales, ids) {
      assert forall i :: 0 <= i < |rest| ==> rest[i] == ids[i + 1];
    } else {
      var i, j :| 0 <= i < j < |ids| && Unsold(sales, ids[j]) && !Unsold(sales, ids[i]);
      assert rest[j - 1] == ids[j] && rest[j - 1] in rest;
      if i > 0 { assert rest[i - 1] == ids[i]; }
    }
  }

  lemma {:induction false} SharesPermute(sales: map<nat, Sale>, ids: seq<nat>, perm: seq<nat>)
    requires forall p :: p in ids ==> p in sales
    requires multiset(ids) == multiset(perm)
    ensures forall p :: p in perm <==> p in ids
    ensures Shares(sales, perm) == Shares(sales, ids)
    decreases |ids|
  {
    SameMembers(ids, perm);
    if ids == [] {
      assert |perm| == |multiset(perm)| == 0;
    } else {
      var k := MatchFirst(ids, perm);
      SharesPermute(sales, ids[1..], perm[..k] + perm[k + 1..]);
      SharesRemove(sales, perm, k);
    }
  }

  lemma SameMembers(ids: seq<nat>, perm: seq<nat>)
    requires multiset(ids) == multiset(perm)
    ensures forall p :: p in perm <==> p in ids
  {
    assert forall p :: p in perm <==> p in multiset(perm);
    assert forall p :: p in ids <==> p in multiset(ids);
  }

  lemma MatchFirst(ids: seq<nat>, perm: seq<nat>) returns (k: nat)
    requires ids != [] && multiset(ids) == multiset(perm)
    ensures k < |perm| && perm[k] == ids[0]
    ensures multiset(ids[1..]) == multiset(perm[..k] + perm[k + 1..])
  {
    SameMembers(ids, perm);
    assert ids[0] in perm;
    k :| 0 <= k < |perm| && perm[k] == ids[0];
    Taken(perm, k);
    Taken(ids, 0);
    assert ids[..0] + ids[1..] == ids[1..];
  }

  lemma Taken(ids: seq<nat>, k: nat)
    requires k < |ids|
    ensures multiset(ids[..k] + ids[k + 1..]) == multiset(ids) - multiset{ids[k]}
  {
    assert ids == ids[..k] + ([ids[k]] + ids[k + 1..]);
  }

  lemma {:induction false} SharesRemove(sales: map<nat, Sale>, ids: seq<nat>, k: nat)
    requires k < |ids| && forall p :: p in ids ==> p in sales
    ensures Shares(sales, ids) == Share(sales[ids[k]]) + Shares(sales, ids[..k] + ids[k + 1..])
    decreases k
  {
    if k == 0 {
      assert ids[..0] + ids[1..] == ids[1..];
    } else {
      SharesRemove(sales, ids[1..], k - 1);
      assert (ids[..k] + ids[k + 1..])[1..] == ids[1..][..k - 1] + ids[1..][k..];
    }
  }

  // ---------- Settling on the protocol ----------

  /** What one settlement does to the rest of the state. */
  ghost predicate SettledTo(s: State, s': State, p: nat)
    requires p in s.sales
  {
    && s'.sales == Closed(s.sales, p) && s'.now == s.now && s'.wei.liveBid == s.wei.liveBid
    && s'.core.indexOf == s.core.indexOf
    && s'.wei.pool == (if Unsold(s.sales, p) then 0 else s.wei.pool + Share(s.sales[p]))
    && PopCount(s'.core.collected) == PopCount(s.core.collected) + (if Unsold(s.sales, p) then 1 else 0)
    && MaskGrows(s.core.collected, s'.core.collected)
  }

  lemma SettleEffect(d: Dataset, s: State, p: nat)
    requires Inv(d, s) && Due(s.sales, s.now, p)
    requires p in s.core.indexOf && 1 <= s.core.indexOf[p] <= |s.core.log|
    ensures Settle(s, p, true, true).Ok? && Inv(d, Settle(s, p, true, true).value)
    ensures SettledTo(s, Settle(s, p, true, true).value, p)
  {
    hide CoreInv, SalesMatch, Held, OffersReal, ProofsExact, ProofsPaid, Solvent, SettleVaulted, MarkCustody, PopCount,
      ClearedSplit, MaskGrows, VaultGrows, ProofsGrow, LogExtends;
    var i := s.core.indexOf[p] - 1;
    SettleLands(d, s, p, true, true);
    SettleLater(d, s, p, true, true);
    SaleKnown(s.sales, s.core.log, s.core.indexOf, s.core.custody, p);
    if s.sales[p].highBidder == Zero {
      VaultedSettles(d, s, p, i, true);
      SetBitIsOr(s.core.collected, s.sales[p].target);
    } else {
      MarkKeeps(d, s.core, p, ReturnedToMarket);
    }
  }

  /** Settling ended auctions one after the other. */
  ghost function SettleAll(d: Dataset, s: State, ids: seq<nat>): (s': State)
    requires Inv(d, s) && AllDue(s.sales, s.now, ids)
    ensures Inv(d, s')
    decreases |ids|
  {
    if ids == [] then s
    else
      InvIndex(d, s);
      SettleEffect(d, s, ids[0]);
      DueLater(s, Settle(s, ids[0], true, true).value, ids);
      SettleAll(d, Settle(s, ids[0], true, true).value, ids[1..])
  }

  lemma DueLater(s: State, s': State, ids: seq<nat>)
    requires ids != [] && AllDue(s.sales, s.now, ids) && ids[0] in s.sales && SettledTo(s, s', ids[0])
    ensures AllDue(s'.sales, s'.now, ids[1..])
    ensures forall p :: p in ids[1..] ==> p in s.sales && p in s'.sales && s'.sales[p] == s.sales[p]
  {
    hide PopCount, Share;
    forall p | p in ids[1..]
      ensures p in ids && p != ids[0]
    {
      var i :| 0 <= i < |ids| - 1 && ids[1..][i] == p;
      assert ids[i + 1] == p;
    }
  }

  function UnsoldCount(sales: map<nat, Sale>, ids: seq<nat>): nat
    requires forall p :: p in ids ==> p in sales
  {
    if ids == [] then 0 else (if Unsold(sales, ids[0]) then 1 else 0) + UnsoldCount(sales, ids[1..])
  }

  lemma {:induction false} PoolFrame(sales: map<nat, Sale>, sales': map<nat, Sale>, pool: nat, ids: seq<nat>)
    requires forall p :: p in ids ==> p in sales && p in sales' && sales'[p] == sales[p]
    ensures PoolAfter(sales', pool, ids) == PoolAfter(sales, pool, ids)
    ensures UnsoldCount(sales', ids) == UnsoldCount(sales, ids)
    decreases |ids|
  {
    if ids != [] {
      PoolFrame(sales, sales', if Unsold(sales, ids[0]) then 0 else pool + Share(sales[ids[0]]), ids[1..]);
    }
  }

  /** What settling `ids` in order does to the rest of the state. */
  ghost predicate SettledAll(s: State, s': State, ids: seq<nat>)
    requires forall p :: p in ids ==> p in s.sales
  {
    && s'.wei.pool == PoolAfter(s.sales, s.wei.pool, ids)
    && PopCount(s'.core.collected) == PopCount(s.core.collected) + UnsoldCount(s.sales, ids)
    && s'.wei.liveBid == s.wei.liveBid && s'.core.indexOf == s.core.indexOf && s'.now == s.now
    && MaskGrows(s.core.collected, s'.core.collected)
    && SalesClosed(s.sales, s'.sales, ids)
  }

  /** The sales of `ids` are closed and otherwise as they were. */
  ghost predicate SalesClosed(before: map<nat, Sale>, after: map<nat, Sale>, ids: seq<nat>) {
    && after.Keys == before.Keys
    && forall p :: p in before ==>
      after[p] == if p in ids then before[p].(settled := true) else before[p]
  }

  lemma ClosedStep(before: map<nat, Sale>, after: map<nat, Sale>, ids: seq<nat>)
    requires ids != [] && ids[0] in before && SalesClosed(Closed(before, ids[0]), after, ids[1..])
    ensures SalesClosed(before, after, ids)
  {
    assert forall p :: p in ids <==> p == ids[0] || p in ids[1..];
  }

  lemma SettledAllStep(s: State, s1: State, s': State, ids: seq<nat>)
    requires ids != [] && forall p :: p in ids ==> p in s.sales
    requires SettledTo(s, s1, ids[0])
    requires forall p :: p in ids[1..] ==> p in s1.sales && s1.sales[p] == s.sales[p]
    requires SettledAll(s1, s', ids[1..])
    ensures SettledAll(s, s', ids)
  {
    hide PopCount, Share, SalesClosed;
    PoolFrame(s.sales, s1.sales, s1.wei.pool, ids[1..]);
    ClosedStep(s.sales, s'.sales, ids);
  }

  /** Whatever the order: each unsold auction collects one trait, sold ones none,
      and the pool is what the order makes of it. */
  lemma {:induction false} SettleAllEffect(d: Dataset, s: State, ids: seq<nat>)
    requires Inv(d, s) && AllDue(s.sales, s.now, ids)
    ensures SettledAll(s, SettleAll(d, s, ids), ids)
    decreases |ids|
  {
    hide Inv, Settle, PopCount, Share, AllDue, SettledTo;
    DueFirst(s, ids);
    if ids != [] {
      hide SettledAll;
      InvIndex(d, s);
      SettleEffect(d, s, ids[0]);
      var s1 := Settle(s, ids[0], true, true).value;
      DueLater(s, s1, ids);
      SettleAllEffect(d, s1, ids[1..]);
      SettledAllStep(s, s1, SettleAll(d, s1, ids[1..]), ids);
    }
  }

  /** Settling one more after the first `n`. */
  lemma {:induction false} SettleAllNext(d: Dataset, s: State, ids: seq<nat>, n: nat)
    requires Inv(d, s) && AllDue(s.sales, s.now, ids) && n < |ids|
    ensures AllDue(s.sales, s.now, ids[..n]) && AllDue(s.sales, s.now, ids[..n + 1])
    ensures var s1 := SettleAll(d, s, ids[..n]);
      && Due(s1.sales, s1.now, ids[n])
      && ids[n] in s1.core.indexOf && 1 <= s1.core.indexOf[ids[n]] <= |s1.core.log|
      && Settle(s1, ids[n], true, true) == Ok(SettleAll(d, s, ids[..n + 1]))
    decreases n
  {
    hide Inv, Settle, PopCount, Share, AllDue, SettledTo;
    DuePrefix(s, ids, n);
    DuePrefix(s, ids, n + 1);
    DueFirst(s, ids);
    InvIndex(d, s);
    SettleEffect(d, s, ids[0]);
    var s1 := Settle(s, ids[0], true, true).value;
    assert ids[..n + 1][0] == ids[0];
    if n == 0 {
      DueIndexed(d, s, ids[0]);
      assert ids[..1][1..] == [];
    } else {
      DueLater(s, s1, ids);
      SettleAllNext(d, s1, ids[1..], n - 1);
      assert ids[..n][0] == ids[0] && ids[..n][1..] == ids[1..][..n - 1];
      assert ids[..n + 1][1..] == ids[1..][..n];
    }
  }

  lemma DuePrefix(s: State, ids: seq<nat>, n: nat)
    requires AllDue(s.sales, s.now, ids) && n <= |ids|
    ensures AllDue(s.sales, s.now, ids[..n])
  {
  }

  lemma DueIndexed(d: Dataset, s: State, p: nat)
    requires Inv(d, s) && Due(s.sales, s.now, p)
    ensures p in s.core.indexOf && 1 <= s.core.indexOf[p] <= |s.core.log|
  {
    hide CoreInv, Held, OffersReal, ProofsExact, ProofsPaid, Solvent;
    InvIndex(d, s);
    SaleKnown(s.sales, s.core.log, s.core.indexOf, s.core.custody, p);
  }

  lemma {:induction false} UnsoldPrefix(sales: map<nat, Sale>, ids: seq<nat>, n: nat)
    requires n <= |ids| && forall p :: p in ids ==> p in sales
    ensures forall p :: p in ids[..n] ==> p in sales
    ensures UnsoldCount(sales, ids[..n]) <= UnsoldCount(sales, ids)
    decreases n
  {
    if n > 0 {
      UnsoldPrefix(sales, ids[1..], n - 1);
      assert ids[..n][0] == ids[0] && ids[..n][1..] == ids[1..][..n - 1];
    }
  }

  lemma DueFirst(s: State, ids: seq<nat>)
    requires AllDue(s.sales, s.now, ids)
    ensures forall p :: p in ids ==> Due(s.sales, s.now, p)
  {
  }

  /** No order of the same settlements leaves the pool higher than settling the
      unsold auctions first; the trait count does not depend on the order. */
  lemma SettleOrderIsBest(d: Dataset, s: State, ids: seq<nat>, perm: seq<nat>)
    requires Inv(d, s) && AllDue(s.sales, s.now, ids) && AllDue(s.sales, s.now, perm)
    requires multiset(perm) == multiset(ids) && UnsoldFirst(s.sales, ids)
    ensures SettleAll(d, s, perm).wei.pool <= SettleAll(d, s, ids).wei.pool
    ensures SettleAll(d, s, perm).wei.pool == SettleAll(d, s, ids).wei.pool <==> UnsoldFirst(s.sales, perm)
  {
    hide PopCount, Share, Settle, UnsoldFirst, Inv, SettleAll, AllDue, SaleOk, PoolAfter, Shares;
    SettleAllEffect(d, s, ids);
    SettleAllEffect(d, s, perm);
    DueOk(d, s, ids);
    DueOk(d, s, perm);
    UnsoldFirstIsBest(s.sales, s.wei.pool, ids);
    UnsoldFirstIsBest(s.sales, s.wei.pool, perm);
    SharesPermute(s.sales, ids, perm);
  }

  lemma DueOk(d: Dataset, s: State, ids: seq<nat>)
    requires Inv(d, s) && AllDue(s.sales, s.now, ids)
    ensures forall p :: p in ids ==> p in s.sales && SaleOk(s.sales[p])
  {
    hide CoreInv, Held, OffersReal, ProofsExact, ProofsPaid, Solvent;
  }
}
