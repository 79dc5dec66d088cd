/** The receipt watchers of app/components/AcceptBidFlow.tsx's accept and batch
    transactions: over every run, none is lost and none is doubled. */
module AcceptWatchers {
  import opened Wrappers
  import opened AcceptRace

  function WatchedOf(s: Flow, k: Kind): Option<nat> {
    Watched(if k == Accept then s.acceptDeps else s.batchDeps)
  }

  /** An uncancelled watcher of one kind. */
  predicate Standing(w: Watcher, k: Kind) {
    w.kind == k && !w.cancelled
  }

  /** The standing watchers of a kind are at most one, on the transaction its
      effect last ran for. */
  ghost predicate WatchExact(ws: seq<Watcher>, k: Kind, watched: Option<nat>) {
    && (forall i :: 0 <= i < |ws| && Standing(ws[i], k) ==> watched == Some(ws[i].tx))
    && (forall i, j :: 0 <= i < j < |ws| && Standing(ws[i], k) ==> !Standing(ws[j], k))
    && (watched.Some? ==> exists i :: 0 <= i < |ws| && Standing(ws[i], k))
  }

  /** Watched and awaited transactions exist. */
  ghost predicate TxsKnown(s: Flow) {
    && (forall i :: 0 <= i < |s.watchers| ==> s.watchers[i].tx < |s.txs|)
    && (s.accept.Confirming? ==> s.accept.tx < |s.txs|) && (s.batch.Confirming? ==> s.batch.tx < |s.txs|)
  }

  /** The follow-up read of watcher `i` is still to be answered. */
  ghost predicate Pending(queries: seq<Read>, i: nat) {
    exists r :: 0 <= r < |queries| && queries[r].why == AfterReceipt(i) && !queries[r].answered
  }

  /** A standing watcher that has its receipt, while its transaction still shows as
      confirming, has a follow-up read open, or the flow is done. */
  ghost predicate FollowedUp(s: Flow, i: nat)
    requires i < |s.watchers|
  {
    var w := s.watchers[i];
    !w.cancelled && w.resolved && StatusOf(s, w.kind) == Confirming(w.tx) ==> s.done || Pending(s.queries, i)
  }

  ghost predicate AllFollowedUp(s: Flow) {
    forall i: nat :: i < |s.watchers| ==> FollowedUp(s, i)
  }

  ghost predicate WatchInv(s: Flow) {
    && WatchExact(s.watchers, Accept, WatchedOf(s, Accept)) && WatchExact(s.watchers, Batch, WatchedOf(s, Batch))
    && TxsKnown(s) && AllFollowedUp(s)
  }

  // ---------- Every event keeps it ----------

  lemma RewatchExact(ws: seq<Watcher>, k: Kind, was: Deps, now: Deps)
    requires WatchExact(ws, k, Watched(was))
    ensures WatchExact(Rewatch(ws, k, was, now), k, Watched(now))
  {
    if was != now && Watched(now).Some? {
      assert Standing(Rewatch(ws, k, was, now)[|ws|], k);
    }
  }

  lemma RewatchOther(ws: seq<Watcher>, k: Kind, was: Deps, now: Deps, l: Kind, watched: Option<nat>)
    requires WatchExact(ws, l, watched) && k != l
    ensures WatchExact(Rewatch(ws, k, was, now), l, watched)
  {
    var after := Rewatch(ws, k, was, now);
    assert forall i :: 0 <= i < |ws| ==> Standing(after[i], l) == Standing(ws[i], l) && after[i].tx == ws[i].tx;
    if watched.Some? {
      var i :| 0 <= i < |ws| && Standing(ws[i], l);
      assert Standing(after[i], l);
    }
  }

  /** What a commit does to one watcher: cancelled, kept as it is, or new. */
  lemma CommitWatchers(s: Flow, i: nat)
    requires i < |Committed(s).watchers|
    ensures var w := Committed(s).watchers[i];
      (i < |s.watchers| && (w == s.watchers[i] || w == s.watchers[i].(cancelled := true)))
      || (!w.resolved && StatusOf(s, w.kind) == Confirming(w.tx))
  {
  }

  lemma CommitKeeps(s: Flow)
    requires WatchInv(s)
    ensures WatchInv(Committed(s))
  {
    hide WatchExact, Rewatch;
    var a, b, ws := DepsOf(s, Accept), DepsOf(s, Batch), s.watchers;
    var ws1 := Rewatch(ws, Accept, s.acceptDeps, a);
    RewatchExact(ws, Accept, s.acceptDeps, a);
    RewatchOther(ws, Accept, s.acceptDeps, a, Batch, Watched(s.batchDeps));
    RewatchExact(ws1, Batch, s.batchDeps, b);
    RewatchOther(ws1, Batch, s.batchDeps, b, Accept, Watched(a));
    var s' := Committed(s);
    forall i: nat | i < |s'.watchers|
      ensures FollowedUp(s', i) && s'.watchers[i].tx < |s'.txs|
    {
      CommitWatchers(s, i);
      assert i < |s.watchers| ==> FollowedUp(s, i);
    }
  }

  lemma ResolvedExact(ws: seq<Watcher>, k: Kind, watched: Option<nat>, i: nat)
    requires WatchExact(ws, k, watched) && i < |ws|
    ensures WatchExact(ws[i := ws[i].(resolved := true)], k, watched)
  {
    var after := ws[i := ws[i].(resolved := true)];
    assert forall j :: 0 <= j < |ws| ==> Standing(after[j], k) == Standing(ws[j], k) && after[j].tx == ws[j].tx;
    if watched.Some? {
      var j :| 0 <= j < |ws| && Standing(ws[j], k);
      assert Standing(after[j], k);
    }
  }

  lemma PendingStays(queries: seq<Read>, more: seq<Read>, i: nat)
    requires Pending(queries, i)
    ensures Pending(queries + more, i)
  {
    var r :| 0 <= r < |queries| && queries[r].why == AfterReceipt(i) && !queries[r].answered;
    assert (queries + more)[r] == queries[r];
  }

  /** A receipt ends its wait, or opens the follow-up read. */
  lemma ReceiptKeeps(s: Flow, i: nat, lost: bool)
    requires WatchInv(s) && Enabled(s, Receipt(i, lost))
    ensures WatchInv(Apply(s, Receipt(i, lost)))
  {
    hide WatchExact, Pending, FollowedUp, Apply;
    ResolvedExact(s.watchers, Accept, WatchedOf(s, Accept), i);
    ResolvedExact(s.watchers, Batch, WatchedOf(s, Batch), i);
    var s' := Apply(s, Receipt(i, lost));
    ReceiptFrame(s, i, lost);
    forall j: nat | j < |s'.watchers|
      ensures FollowedUp(s', j)
    {
      assert FollowedUp(s, j);
      ReceiptFollowed(s, i, lost, j);
    }
  }

  /** What a receipt leaves as it is. */
  lemma ReceiptFrame(s: Flow, i: nat, lost: bool)
    requires Enabled(s, Receipt(i, lost)) && TxsKnown(s)
    ensures var s' := Apply(s, Receipt(i, lost));
      && s'.watchers == s.watchers[i := s.watchers[i].(resolved := true)] && TxsKnown(s')
      && s'.acceptDeps == s.acceptDeps && s'.batchDeps == s.batchDeps
  {
    hide Send;
    SendFrame(s.(watchers := s.watchers[i := s.watchers[i].(resolved := true)]), s.shown, AfterReceipt(i));
  }

  lemma SendFrame(s: Flow, asks: Option<nat>, why: Why)
    ensures var s' := Send(s, asks, why);
      && s'.watchers == s.watchers && s'.txs == s.txs && s'.acceptDeps == s.acceptDeps && s'.batchDeps == s.batchDeps
      && (s'.accept.Confirming? ==> s'.accept == s.accept) && (s'.batch.Confirming? ==> s'.batch == s.batch)
  {
  }

  lemma ReceiptFollowed(s: Flow, i: nat, lost: bool, j: nat)
    requires Enabled(s, Receipt(i, lost)) && j < |s.watchers| && FollowedUp(s, j)
    ensures j < |Apply(s, Receipt(i, lost)).watchers| && FollowedUp(Apply(s, Receipt(i, lost)), j)
  {
    hide Pending;
    var s' := Apply(s, Receipt(i, lost));
    if s'.queries != s.queries {
      var r := s'.queries[|s.queries|];
      assert s'.queries == s.queries + [r];
      PendingAdded(s.queries, r, i);
      if Pending(s.queries, j) { PendingStays(s.queries, [r], j); }
    }
  }

  lemma PendingAdded(queries: seq<Read>, r: Read, i: nat)
    requires r.why == AfterReceipt(i) && !r.answered
    ensures Pending(queries + [r], i)
  {
    assert (queries + [r])[|queries|] == r;
  }

  /** An answer makes the flow done or the transaction failed. */
  lemma AnswerKeeps(s: Flow, r: nat, failed: bool)
    requires WatchInv(s) && Enabled(s, Answer(r, failed))
    ensures WatchInv(Apply(s, Answer(r, failed)))
  {
    hide WatchExact, Pending, FollowedUp, Apply;
    var s' := Apply(s, Answer(r, failed));
    AnswerFrame(s, r, failed);
    forall j: nat | j < |s'.watchers|
      ensures FollowedUp(s', j)
    {
      assert FollowedUp(s, j);
      AnswerFollowed(s, r, failed, j);
    }
  }

  lemma AnswerFrame(s: Flow, r: nat, failed: bool)
    requires Enabled(s, Answer(r, failed)) && TxsKnown(s)
    ensures var s' := Apply(s, Answer(r, failed));
      && s'.watchers == s.watchers && TxsKnown(s')
      && s'.acceptDeps == s.acceptDeps && s'.batchDeps == s.batchDeps
  {
  }

  lemma AnswerFollowed(s: Flow, r: nat, failed: bool, j: nat)
    requires Enabled(s, Answer(r, failed)) && j < |s.watchers| && FollowedUp(s, j)
    ensures j < |Apply(s, Answer(r, failed)).watchers| && FollowedUp(Apply(s, Answer(r, failed)), j)
  {
    var s' := Apply(s, Answer(r, failed));
    if Pending(s.queries, j) && s.queries[r].why != AfterReceipt(j) {
      var q :| 0 <= q < |s.queries| && s.queries[q].why == AfterReceipt(j) && !s.queries[q].answered;
      assert s'.queries[q] == s.queries[q];
    }
  }

  lemma LookKeeps(s: Flow, r: nat)
    requires WatchInv(s) && Enabled(s, Look(r))
    ensures WatchInv(Apply(s, Look(r)))
  {
    hide WatchExact, Pending;
    var s' := Apply(s, Look(r));
    forall j: nat | j < |s'.watchers|
      ensures FollowedUp(s', j)
    {
      assert FollowedUp(s, j);
      if Pending(s.queries, j) { LookPending(s, r, j); }
    }
  }

  lemma LookPending(s: Flow, r: nat, j: nat)
    requires Enabled(s, Look(r)) && Pending(s.queries, j)
    ensures Pending(Apply(s, Look(r)).queries, j)
  {
    var q :| 0 <= q < |s.queries| && s.queries[q].why == AfterReceipt(j) && !s.queries[q].answered;
    assert Apply(s, Look(r)).queries[q].why == AfterReceipt(j);
  }

  /** The other events leave watchers alone; what they set is not a confirming
      status, or one of a transaction nobody watches yet. */
  lemma OthersKeep(s: Flow, e: Event)
    requires WatchInv(s) && Enabled(s, e) && !e.Commit? && !e.Receipt? && !e.Answer? && !e.Look?
    ensures WatchInv(Apply(s, e))
  {
    hide WatchExact, FollowedUp, Apply;
    var s' := Apply(s, e);
    OtherFrame(s, e);
    forall j: nat | j < |s'.watchers|
      ensures FollowedUp(s', j)
    {
      assert FollowedUp(s, j);
      OtherFollowed(s, e, j);
    }
  }

  lemma OtherFrame(s: Flow, e: Event)
    requires Enabled(s, e) && !e.Commit? && !e.Receipt? && !e.Answer? && !e.Look? && TxsKnown(s)
    ensures var s' := Apply(s, e);
      && s'.watchers == s.watchers && |s.txs| <= |s'.txs| && TxsKnown(s')
      && s'.acceptDeps == s.acceptDeps && s'.batchDeps == s.batchDeps
  {
    hide Send;
    match e
    case Unsigned(i, _) =>
      var p := s.prompts[i].value;
      SendFrame(s.(prompts := s.prompts[i := None]), p.asks, AfterWallet(p.kind));
    case SendPoll => SendFrame(s, s.shown, Poll);
    case _ =>
  }

  lemma OtherFollowed(s: Flow, e: Event, j: nat)
    requires Enabled(s, e) && !e.Commit? && !e.Receipt? && !e.Answer? && !e.Look?
    requires j < |s.watchers| && s.watchers[j].tx < |s.txs| && FollowedUp(s, j)
    ensures j < |Apply(s, e).watchers| && FollowedUp(Apply(s, e), j)
  {
    hide Pending, Send;
    match e
    case Unsigned(i, _) =>
      var p := s.prompts[i].value;
      SendFollowed(s.(prompts := s.prompts[i := None]), p.asks, AfterWallet(p.kind), j);
    case SendPoll => SendFollowed(s, s.shown, Poll, j);
    case _ =>
  }

  lemma SendFollowed(s: Flow, asks: Option<nat>, why: Why, j: nat)
    requires j < |s.watchers| && FollowedUp(s, j)
    ensures j < |Send(s, asks, why).watchers| && FollowedUp(Send(s, asks, why), j)
  {
    hide Pending;
    var s' := Send(s, asks, why);
    var more := s'.queries[|s.queries|..];
    assert s'.queries == s.queries + more;
    if Pending(s.queries, j) { PendingStays(s.queries, more, j); }
  }

  lemma ApplyKeepsWatch(s: Flow, e: Event)
    requires WatchInv(s)
    ensures WatchInv(Apply(s, e))
  {
    hide WatchInv;
    if Enabled(s, e) {
      match e
      case Commit => CommitKeeps(s);
      case Receipt(i, lost) => ReceiptKeeps(s, i, lost);
      case Answer(r, failed) => AnswerKeeps(s, r, failed);
      case Look(r) => LookKeeps(s, r);
      case _ => OthersKeep(s, e);
    }
  }

  lemma {:induction false} RunKeepsWatch(s: Flow, events: seq<Event>)
    requires WatchInv(s)
    ensures WatchInv(Run(s, events))
    decreases |events|
  {
    hide WatchInv, Apply;
    if events != [] {
      ApplyKeepsWatch(s, events[0]);
      RunKeepsWatch(Apply(s, events[0]), events[1..]);
    }
  }

  predicate LiveFor(w: Watcher, k: Kind) {
    Standing(w, k) && !w.resolved
  }

  /** After any run and a commit, for accept and batch alike, whatever became of
      the clients: at most one live watcher exists, and it watches the confirming
      transaction; a confirming status with a client has its one watcher, live or
      with its follow-up read open or the flow done; without a client, or with any
      other status, there is none. */
  lemma OneWatcherPerKind(recordedBy: map<nat, Who>, events: seq<Event>, k: Kind)
    ensures var s := Apply(Run(Start(recordedBy), events), Commit);
      && (forall i, j :: 0 <= i < j < |s.watchers| && LiveFor(s.watchers[i], k) ==> !LiveFor(s.watchers[j], k))
      && (forall i :: 0 <= i < |s.watchers| && Standing(s.watchers[i], k) ==>
            StatusOf(s, k) == Confirming(s.watchers[i].tx) && DepsOf(s, k).client.Some?)
      && (StatusOf(s, k).Confirming? && DepsOf(s, k).client.Some? ==>
            exists i: nat :: i < |s.watchers| && Standing(s.watchers[i], k)
              && s.watchers[i].tx == StatusOf(s, k).tx
              && (LiveFor(s.watchers[i], k) || s.done || Pending(s.queries, i)))
  {
    hide Run, Pending;
    var s0 := Run(Start(recordedBy), events);
    RunKeepsWatch(Start(recordedBy), events);
    ApplyKeepsWatch(s0, Commit);
    var s := Apply(s0, Commit);
    assert WatchedOf(s, k) == Watched(DepsOf(s, k)) && WatchExact(s.watchers, k, WatchedOf(s, k));
    if StatusOf(s, k).Confirming? && DepsOf(s, k).client.Some? {
      var i: nat :| i < |s.watchers| && Standing(s.watchers[i], k);
      assert FollowedUp(s, i);
    }
  }
}
