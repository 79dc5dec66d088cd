/** What the acceptance machine guarantees over every run: what its flags mean,
    when a lost race is still shown as a failure, when the external flag names
    the wrong party, and that no receipt goes unwatched. */
module AcceptOutcomes {
  import opened Wrappers
  import opened AcceptRace

  // ---------- What the flags mean, over every run ----------

  /** Whatever happens in whatever order: `done` means a Punk chosen in this
      session is recorded, `finalizedExternally` means done, and further events
      never unset `done`. */
  lemma DoneIsTrue(recordedBy: map<nat, Who>, events: seq<Event>, more: seq<Event>)
    ensures var s := Run(Start(recordedBy), events);
      && (s.external ==> s.done)
      && (s.done ==> exists p :: p in s.chosen && p in s.recordedBy)
      && (s.done ==> Run(s, more).done)
  {
    RunKeeps(Start(recordedBy), events);
    RunKeeps(Run(Start(recordedBy), events), more);
  }

  /** A live watcher whose transaction has just been mined and reverted. */
  predicate Reverts(s: Flow, i: nat) {
    && Enabled(s, Receipt(i, false)) && !s.watchers[i].cancelled
    && s.txs[s.watchers[i].tx].fate == Some(false)
  }

  /** A revert seen while the shown Punk is already recorded never becomes a
      failure once the follow-up read answers, whatever happens in between: it
      becomes the external success. */
  lemma RaceIsNotFailure(s: Flow, i: nat, between: seq<Event>)
    requires Inv(s) && Reverts(s, i) && s.shown.Some? && s.shown.value in s.recordedBy
    ensures var n, s1 := |s.queries|, Run(Apply(s, Receipt(i, false)), between);
      Enabled(s1, Answer(n, false)) ==>
        var s2 := Apply(s1, Answer(n, false));
        s2.done && s2.external && s2.accept == s1.accept && s2.batch == s1.batch
  {
    hide Run, TxsTrue, PromptsKnown, ChosenRecorded;
    var n, s0 := |s.queries|, Apply(s, Receipt(i, false));
    ApplyKeeps(s, Receipt(i, false));
    assert s0.queries[n].known;
    RunKeeps(s0, between);
    var s1 := Run(s0, between);
    assert s1.queries[n].known && s1.queries[n].seen != Some(false);
    if s1.queries[n].seen.Some? { assert s1.queries[n].seen.value; }
  }

  // ---------- What each event means ----------

  /** A new selection, or none, clears both transactions and the external flag, and
      leaves what is done. */
  lemma SelectionClears(s: Flow, p: nat)
    ensures var s' := Apply(s, Select(p));
      s' == s.(selected := Some(p), chosen := s.chosen + {p}, external := false, accept := Idle, batch := Idle)
    ensures Apply(s, Reset) == s.(selected := None, external := false, accept := Idle, batch := Idle)
  {
  }

  /** Opening the wallet captures the Punk and the selection shown; a signature starts
      the wait for its transaction; a refusal rejects it. Any other error of an accept
      asks about the selection captured, and without one rejects it. */
  lemma WalletIs(s: Flow, e: Event)
    requires Enabled(s, e)
    ensures e.Sign? ==>
      var s' := Apply(s, e);
      StatusOf(s', e.kind) == InWallet && s'.prompts == s.prompts + [Some(Prompt(e.kind, e.punk, s.shown))]
    ensures e.Signed? ==>
      var s', p := Apply(s, e), s.prompts[e.prompt].value;
      && StatusOf(s', p.kind) == Confirming(|s.txs|) && s'.txs == s.txs + [Tx(p.kind, p.punk, None)]
      && s'.prompts == s.prompts[e.prompt := None]
    ensures e.Unsigned? ==>
      var s', p := Apply(s, e), s.prompts[e.prompt].value;
      && s'.prompts == s.prompts[e.prompt := None] && s'.done == s.done && s'.external == s.external
      && (if e.declined || p.kind == Batch || p.asks == None then
            StatusOf(s', p.kind) == Rejected && s'.queries == s.queries
          else
            && s'.accept == s.accept && s'.batch == s.batch
            && s'.queries == s.queries
               + [Read(p.asks.value, AfterWallet(p.kind), p.asks.value in s.recordedBy, None, false)])
  {
  }

  /** A live watcher's receipt of a transaction that went through succeeds and is
      done, and is no external success. */
  lemma OwnSuccess(s: Flow, i: nat)
    requires Enabled(s, Receipt(i, false)) && !s.watchers[i].cancelled && s.txs[s.watchers[i].tx].fate == Some(true)
    ensures var s' := Apply(s, Receipt(i, false));
      StatusOf(s', s.watchers[i].kind) == Succeeded && s'.done && s'.external == s.external && s'.queries == s.queries
  {
  }

  /** A positive answer finishes the flow as an external success, whatever was asked
      for; a negative or failed one after a wallet error rejects the transaction. */
  lemma AnswerIs(s: Flow, i: nat, failed: bool)
    requires Enabled(s, Answer(i, failed))
    ensures var s', r := Apply(s, Answer(i, failed)), s.queries[i];
      var raced := !failed && r.seen == Some(true);
      && (raced ==> s'.external && s'.done && s'.accept == s.accept && s'.batch == s.batch)
      && (!raced ==> s'.external == s.external && s'.done == s.done)
      && (!raced && r.why == Poll ==> s'.accept == s.accept && s'.batch == s.batch)
      && (!raced && r.why.AfterWallet? ==> StatusOf(s', r.why.kind) == Rejected)
  {
  }

  // ---------- Reads are served once ----------

  predicate Asks(e: Event) {
    e.Unsigned? || e.Receipt? || e.SendPoll?
  }

  ghost predicate SeenSame(before: seq<Read>, after: seq<Read>) {
    |before| <= |after| && forall i :: 0 <= i < |after| ==>
      after[i].seen == if i < |before| then before[i].seen else None
  }

  lemma SendSeen(s: Flow, asks: Option<nat>, why: Why)
    ensures SeenSame(s.queries, Send(s, asks, why).queries)
  {
  }

  lemma AskSeen(s: Flow, e: Event)
    requires Asks(e) && Enabled(s, e)
    ensures SeenSame(s.queries, Apply(s, e).queries)
  {
    hide Send, SeenSame;
    SeenItself(s.queries);
    match e
    case SendPoll => SendSeen(s, s.shown, Poll);
    case Unsigned(i, _) =>
      var p := s.prompts[i].value;
      SendSeen(s.(prompts := s.prompts[i := None]), p.asks, AfterWallet(p.kind));
    case Receipt(i, _) =>
      var s1 := s.(watchers := s.watchers[i := s.watchers[i].(resolved := true)]);
      SendSeen(s1, s1.shown, AfterReceipt(i));
  }

  lemma SeenItself(queries: seq<Read>)
    ensures SeenSame(queries, queries)
  {
  }

  /** Only the server's look at a read fills it in. */
  lemma SeenByLook(s: Flow, e: Event)
    requires !e.Look? || !Enabled(s, e)
    ensures SeenSame(s.queries, Apply(s, e).queries)
  {
    if Enabled(s, e) && Asks(e) {
      AskSeen(s, e);
    } else if Enabled(s, e) && e.Answer? {
      hide Rewatch;
    } else {
      hide SeenSame, Committed;
      SeenItself(s.queries);
      QueriesSame(s, e);
    }
  }

  lemma QueriesSame(s: Flow, e: Event)
    requires Enabled(s, e) ==> !Asks(e) && !e.Answer? && !e.Look?
    ensures Apply(s, e).queries == s.queries
  {
  }

  /** What the server finds for read `n` when, in the course of the run, it looks. */
  function SeenAt(s: Flow, events: seq<Event>, n: nat): Option<bool>
    decreases |events|
  {
    if events == [] then None
    else if events[0] == Look(n) && Enabled(s, Look(n)) then Some(s.queries[n].punk in s.recordedBy)
    else SeenAt(Apply(s, events[0]), events[1..], n)
  }

  lemma {:induction false} SeenIs(s: Flow, events: seq<Event>, n: nat)
    requires Inv(s) && n < |s.queries| && s.queries[n].seen == None
    ensures n < |Run(s, events).queries| && Run(s, events).queries[n].seen == SeenAt(s, events, n)
    decreases |events|
  {
    hide Inv;
    if events != [] {
      var e, s1 := events[0], Apply(s, events[0]);
      ApplyKeeps(s, e);
      if e == Look(n) && Enabled(s, e) {
        RunKeeps(s1, events[1..]);
      } else {
        if !e.Look? || !Enabled(s, e) { SeenByLook(s, e); }
        SeenIs(s1, events[1..], n);
      }
    }
  }

  // ---------- When a lost race is shown as a failure ----------

  ghost predicate WatchesSame(before: seq<Watcher>, after: seq<Watcher>) {
    |before| <= |after| && forall i :: 0 <= i < |before| ==>
      after[i].kind == before[i].kind && after[i].tx == before[i].tx
  }

  lemma WatcherStays(s: Flow, e: Event)
    ensures WatchesSame(s.watchers, Apply(s, e).watchers)
  {
    if Enabled(s, e) && e.Commit? {
      CommitStays(s);
    } else if Enabled(s, e) && e.Receipt? {
      hide WatchesSame;
      ReceiptStays(s, e.watcher);
    } else {
      hide WatchesSame, Committed;
      WatchersItself(s.watchers);
    }
  }

  lemma CommitStays(s: Flow)
    ensures WatchesSame(s.watchers, Committed(s).watchers)
  {
  }

  lemma ReceiptStays(s: Flow, i: nat)
    requires i < |s.watchers|
    ensures WatchesSame(s.watchers, s.watchers[i := s.watchers[i].(resolved := true)])
  {
  }

  lemma WatchersItself(watchers: seq<Watcher>)
    ensures WatchesSame(watchers, watchers)
  {
  }

  lemma {:induction false} WatchersStay(s: Flow, events: seq<Event>, i: nat)
    requires i < |s.watchers|
    ensures i < |Run(s, events).watchers| && Run(s, events).watchers[i].kind == s.watchers[i].kind
    decreases |events|
  {
    hide Apply;
    if events != [] {
      WatcherStays(s, events[0]);
      WatchersStay(Apply(s, events[0]), events[1..], i);
    }
  }

  /** A reverted transaction: with no selection shown it is `failed` at once. Else
      a read of the shown Punk goes out, and whatever happens before its answer, the
      transaction becomes `failed` exactly when the read failed or was served while
      that Punk was not recorded, and its watcher has not been cancelled; otherwise
      no status changes, and a read served later makes it the external success. The
      read asks about the selection, not about the transaction's own Punk. */
  lemma RevertFailsIff(s: Flow, i: nat, between: seq<Event>, failed: bool)
    requires Inv(s) && Reverts(s, i)
    ensures var s0 := Apply(s, Receipt(i, false));
      s.shown == None ==> s0.queries == s.queries && StatusOf(s0, s.watchers[i].kind) == Failed
    ensures s.shown.Some? && Enabled(Run(Apply(s, Receipt(i, false)), between), Answer(|s.queries|, failed)) ==>
      RevertAnswered(s, i, between, failed)
  {
    if s.shown.Some? && Enabled(Run(Apply(s, Receipt(i, false)), between), Answer(|s.queries|, failed)) {
      AnswerDecides(s, i, between, failed);
    }
  }

  ghost predicate RevertAnswered(s: Flow, i: nat, between: seq<Event>, failed: bool)
    requires Reverts(s, i) && s.shown.Some?
  {
    var n, s0 := |s.queries|, Apply(s, Receipt(i, false));
    var s1 := Run(s0, between);
    var s2, seen := Apply(s1, Answer(n, failed)), SeenAt(s0, between, n);
    && n < |s0.queries| && s0.queries[n].punk == s.shown.value && i < |s1.watchers|
    && (failed || seen.Some?)
    && (if (failed || seen == Some(false)) && !s1.watchers[i].cancelled
        then s2 == SetStatus(s1, s.watchers[i].kind, Failed).(queries := s2.queries)
        else s2.accept == s1.accept && s2.batch == s1.batch)
    && s2.external == (s1.external || (!failed && seen == Some(true)))
  }

  lemma AnswerDecides(s: Flow, i: nat, between: seq<Event>, failed: bool)
    requires Inv(s) && Reverts(s, i) && s.shown.Some?
    requires Enabled(Run(Apply(s, Receipt(i, false)), between), Answer(|s.queries|, failed))
    ensures RevertAnswered(s, i, between, failed)
  {
    hide Run, SeenAt, Inv;
    var n, s0 := |s.queries|, Apply(s, Receipt(i, false));
    ApplyKeeps(s, Receipt(i, false));
    assert s0.queries[n] == Read(s.shown.value, AfterReceipt(i), s.shown.value in s.recordedBy, None, false);
    SeenIs(s0, between, n);
    RunKeeps(s0, between);
    WatchersStay(s0, between, i);
    var s1 := Run(s0, between);
    assert s1.queries[n].why == AfterReceipt(i);
    AnswerSets(s1, n, i, failed);
  }

  /** What the answer to a receipt's follow-up read does, by what it says. */
  lemma AnswerSets(s: Flow, n: nat, i: nat, failed: bool)
    requires Enabled(s, Answer(n, failed)) && s.queries[n].why == AfterReceipt(i) && i < |s.watchers|
    ensures var s', seen := Apply(s, Answer(n, failed)), s.queries[n].seen;
      && (failed || seen.Some?)
      && (if (failed || seen == Some(false)) && !s.watchers[i].cancelled
          then s' == SetStatus(s, s.watchers[i].kind, Failed).(queries := s'.queries)
          else s'.accept == s.accept && s'.batch == s.batch)
      && s'.external == (s.external || (!failed && seen == Some(true)))
  {
    if s.queries[n].seen.Some? { assert s.queries[n].seen.value || !s.queries[n].seen.value; }
  }

  lemma Then(events: seq<Event>, e: Event) returns (s: Flow, more: seq<Event>)
    ensures more == events + [e]
    ensures s == Run(Start(map[]), more) == Apply(Run(Start(map[]), events), e)
  {
    more := events + [e];
    s := Run(Start(map[]), more);
    RunThen(Start(map[]), events, e);
  }

  lemma {:induction false} RunThen(s: Flow, events: seq<Event>, e: Event)
    ensures Run(s, events + [e]) == Apply(Run(s, events), e)
    decreases |events|
  {
    hide Apply;
    if events == [] {
      assert [] + [e] == [e] && [e][1..] == [];
    } else {
      assert (events + [e])[1..] == events[1..] + [e];
      RunThen(Apply(s, events[0]), events[1..], e);
    }
  }

  lemma RunNothing(s: Flow)
    ensures Run(s, []) == s
  {
  }

  /** With both clients there, Punk 1 is picked. */
  lemma Picked() returns (s: Flow, events: seq<Event>)
    ensures events == [Connect(Some(0), Some(0)), Select(1), Commit]
    ensures s == Run(Start(map[]), events)
    ensures s == Start(map[]).(pub := Some(0), wallet := Some(0), selected := Some(1), shown := Some(1), chosen := {1},
                               acceptDeps := Deps(None, Some(0)), batchDeps := Deps(None, Some(0)))
  {
    hide Run;
    RunNothing(Start(map[]));
    s, events := Then([], Connect(Some(0), Some(0)));
    s, events := Then(events, Select(1));
    s, events := Then(events, Commit);
  }

  /** Its accept is opened in the wallet, and signed after Punk 2 was picked. */
  lemma SignedElsewhere() returns (s: Flow, events: seq<Event>)
    ensures events == [Connect(Some(0), Some(0)), Select(1), Commit, Sign(Accept, 1), Select(2), Signed(0), Commit]
    ensures s == Run(Start(map[]), events)
    ensures s == Flow(Some(0), Some(0), Some(2), Some(2), {1, 2}, false, false, Confirming(0), Idle,
                      Deps(Some(0), Some(0)), Deps(None, Some(0)),
                      [None], [Tx(Accept, 1, None)], [Watcher(Accept, 0, false, false)], [], map[])
  {
    hide Run;
    s, events := Picked();
    s, events := Then(events, Sign(Accept, 1));
    s, events := Then(events, Select(2));
    s, events := Then(events, Signed(0));
    s, events := Then(events, Commit);
  }

  /** So a race can still be shown as a failure: pick Punk 1, open its accept in
      the wallet, pick Punk 2, then sign; a stranger finalizes Punk 1 first. */
  lemma OtherSelectionFails() returns (events: seq<Event>)
    ensures events == [Connect(Some(0), Some(0)), Select(1), Commit, Sign(Accept, 1), Select(2), Signed(0), Commit,
                       StrangerAccepts(1), Mine(0, false), Receipt(0, false), Look(0), Answer(0, false)]
    ensures var s := Run(Start(map[]), events);
      s.recordedBy == map[1 := Stranger] && s.accept == Failed && !s.done
  {
    hide Run, Committed;
    var s;
    s, events := SignedElsewhere();
    s, events := Then(events, StrangerAccepts(1));
    s, events := Then(events, Mine(0, false));
    s, events := Then(events, Receipt(0, false));
    s, events := Then(events, Look(0));
    s, events := Then(events, Answer(0, false));
  }

  /** Punk 1 is picked and a poll is sent. */
  lemma Polling() returns (s: Flow, events: seq<Event>)
    ensures events == [Connect(Some(0), Some(0)), Select(1), Commit, SendPoll]
    ensures s == Run(Start(map[]), events)
    ensures s == Start(map[]).(pub := Some(0), wallet := Some(0), selected := Some(1), shown := Some(1), chosen := {1},
                               acceptDeps := Deps(None, Some(0)), batchDeps := Deps(None, Some(0)),
                               queries := [Read(1, Poll, false, None, false)])
  {
    hide Run;
    s, events := Picked();
    s, events := Then(events, SendPoll);
  }

  /** And then its accept is signed. */
  lemma SignedWhilePolling() returns (s: Flow, events: seq<Event>)
    ensures events == [Connect(Some(0), Some(0)), Select(1), Commit, SendPoll, Sign(Accept, 1), Signed(0), Commit]
    ensures s == Run(Start(map[]), events)
    ensures s == Flow(Some(0), Some(0), Some(1), Some(1), {1}, false, false, Confirming(0), Idle,
                      Deps(Some(0), Some(0)), Deps(None, Some(0)),
                      [None], [Tx(Accept, 1, None)], [Watcher(Accept, 0, false, false)],
                      [Read(1, Poll, false, None, false)], map[])
  {
    hide Run;
    s, events := Polling();
    s, events := Then(events, Sign(Accept, 1));
    s, events := Then(events, Signed(0));
    s, events := Then(events, Commit);
  }

  /** `finalizedExternally` can also be set for the session's own acceptance: a
      poll sent before signing and answered after the acceptance was mined. */
  lemma OwnAcceptCalledExternal() returns (events: seq<Event>)
    ensures events == [Connect(Some(0), Some(0)), Select(1), Commit, SendPoll, Sign(Accept, 1), Signed(0), Commit,
                       Mine(0, true), Look(0), Answer(0, false)]
    ensures var s := Run(Start(map[]), events);
      s.external && s.recordedBy == map[1 := Session]
  {
    hide Run, Committed;
    var s;
    s, events := SignedWhilePolling();
    s, events := Then(events, Mine(0, true));
    s, events := Then(events, Look(0));
    s, events := Then(events, Answer(0, false));
  }

  // ---------- When the external flag is right ----------

  /** The server serves a read of a Punk the session itself has recorded. */
  predicate ServesOwn(s: Flow, e: Event) {
    e.Look? && Enabled(s, e) && s.queries[e.read].punk in s.recordedBy
    && s.recordedBy[s.queries[e.read].punk] == Session
  }

  /** The reads of a run served after the session's own acceptance was mined. */
  function ServedLate(s: Flow, events: seq<Event>): set<nat>
    decreases |events|
  {
    if events == [] then {}
    else (if ServesOwn(s, events[0]) then {events[0].read} else {}) + ServedLate(Apply(s, events[0]), events[1..])
  }

  /** An answer gets through. */
  predicate Hears(s: Flow, e: Event) {
    e.Answer? && Enabled(s, e) && !e.failed
  }

  /** The reads of a run whose answers get through. */
  function Heard(s: Flow, events: seq<Event>): set<nat>
    decreases |events|
  {
    if events == [] then {}
    else (if Hears(s, events[0]) then {events[0].read} else {}) + Heard(Apply(s, events[0]), events[1..])
  }

  /** The reads of a run whose answers set `finalizedExternally`. */
  function Flagging(s: Flow, events: seq<Event>): set<nat>
    decreases |events|
  {
    if events == [] then {}
    else
      var e := events[0];
      (if Hears(s, e) && s.queries[e.read].seen == Some(true) then {e.read} else {})
      + Flagging(Apply(s, e), events[1..])
  }

  /** A positive read is of a Punk the session recorded exactly if served late. */
  ghost predicate LateExact(s: Flow, late: set<nat>) {
    forall i: nat :: i < |s.queries| && s.queries[i].seen == Some(true) ==>
      && s.queries[i].punk in s.recordedBy
      && (s.recordedBy[s.queries[i].punk] == Session <==> i in late)
  }

  ghost predicate LateSeen(s: Flow, late: set<nat>) {
    forall i :: i in late ==> i < |s.queries| && s.queries[i].seen == Some(true)
  }

  lemma ApplyLate(s: Flow, e: Event, late: set<nat>)
    requires Inv(s) && LateExact(s, late) && LateSeen(s, late)
    ensures var late' := late + if ServesOwn(s, e) then {e.read} else {};
      LateExact(Apply(s, e), late') && LateSeen(Apply(s, e), late')
  {
    ApplyKeeps(s, e);
    if e.Look? && Enabled(s, e) {
      hide Inv;
    } else {
      SeenByLook(s, e);
      hide Inv, Apply;
    }
  }

  lemma {:induction false} RunLate(s: Flow, events: seq<Event>, late: set<nat>)
    requires Inv(s) && LateExact(s, late) && LateSeen(s, late)
    ensures LateExact(Run(s, events), late + ServedLate(s, events))
    ensures LateSeen(Run(s, events), late + ServedLate(s, events))
    decreases |events|
  {
    hide Inv, Apply, LateExact, LateSeen;
    if events == [] {
      assert late + {} == late;
    } else {
      var own := if ServesOwn(s, events[0]) then {events[0].read} else {};
      ApplyLate(s, events[0], late);
      ApplyKeeps(s, events[0]);
      RunLate(Apply(s, events[0]), events[1..], late + own);
      assert late + own + ServedLate(Apply(s, events[0]), events[1..]) == late + ServedLate(s, events);
    }
  }

  /** The answers that set the flag are those that got through from positive reads. */
  lemma {:induction false} FlaggingIs(s: Flow, events: seq<Event>, i: nat)
    requires Inv(s)
    ensures var s' := Run(s, events);
      && (i in Heard(s, events) ==> i < |s'.queries|)
      && (i in Flagging(s, events) <==> i in Heard(s, events) && s'.queries[i].seen == Some(true))
    decreases |events|
  {
    hide Inv, Apply;
    if events != [] {
      ApplyKeeps(s, events[0]);
      RunKeeps(s, events);
      FlaggingIs(Apply(s, events[0]), events[1..], i);
    }
  }

  /** The flag is never set except by such an answer. */
  lemma {:induction false} FlagHasCause(s: Flow, events: seq<Event>)
    requires !s.external && Run(s, events).external
    ensures Flagging(s, events) != {}
    decreases |events|
  {
    hide Rewatch;
    if events != [] && !Apply(s, events[0]).external { FlagHasCause(Apply(s, events[0]), events[1..]); }
  }

  /** Read `i` is of a Punk that someone else recorded. */
  predicate OfStranger(s: Flow, i: nat) {
    i < |s.queries| && s.queries[i].punk in s.recordedBy && s.recordedBy[s.queries[i].punk] == Stranger
  }

  lemma StartInv(recordedBy: map<nat, Who>)
    ensures Inv(Start(recordedBy)) && LateExact(Start(recordedBy), {}) && LateSeen(Start(recordedBy), {})
  {
  }

  /** Over any run: every answer that sets `finalizedExternally` is about a Punk
      someone else recorded, if and only if no answer gets through from a read
      served after the session's own acceptance of its Punk was mined. */
  lemma ExternalRightIff(recordedBy: map<nat, Who>, events: seq<Event>)
    ensures var s0 := Start(recordedBy);
      (forall i :: i in Flagging(s0, events) ==> OfStranger(Run(s0, events), i))
      <==> ServedLate(s0, events) * Heard(s0, events) == {}
  {
    hide Run, Flagging, Heard, ServedLate, Inv;
    var s0 := Start(recordedBy);
    var s, late := Run(s0, events), ServedLate(s0, events);
    StartInv(recordedBy);
    RunLate(s0, events, {});
    assert {} + late == late;
    forall i: nat
      ensures i in Heard(s0, events) ==> i < |s.queries|
      ensures i in Flagging(s0, events) <==> i in Heard(s0, events) && s.queries[i].seen == Some(true)
    {
      FlaggingIs(s0, events, i);
    }
    if late * Heard(s0, events) != {} {
      var i :| i in late * Heard(s0, events);
      assert i in Flagging(s0, events) && !OfStranger(s, i);
    } else {
      forall i | i in Flagging(s0, events)
        ensures OfStranger(s, i)
      {
        assert i !in late;
      }
    }
  }

  /** So the flag is right, whether or not the session's own transactions go
      through, as long as no such answer gets through. */
  lemma ExternalIsStranger(recordedBy: map<nat, Who>, events: seq<Event>)
    requires ServedLate(Start(recordedBy), events) * Heard(Start(recordedBy), events) == {}
    ensures var s := Run(Start(recordedBy), events);
      s.external ==> exists p :: p in s.chosen && p in s.recordedBy && s.recordedBy[p] == Stranger
  {
    hide Run, Flagging, Heard, ServedLate;
    var s0 := Start(recordedBy);
    var s := Run(s0, events);
    ExternalRightIff(recordedBy, events);
    if s.external {
      FlagHasCause(s0, events);
      var i :| i in Flagging(s0, events);
      assert OfStranger(s, i);
      StartInv(recordedBy);
      RunKeeps(s0, events);
      assert s.queries[i].punk in s.chosen;
    }
  }

  /** And each such answer, whatever comes before it, sets the flag for a Punk the
      session recorded itself. */
  lemma LateAnswerMisleads(s: Flow, i: nat, between: seq<Event>)
    requires Inv(s) && ServesOwn(s, Look(i))
    requires Enabled(Run(Apply(s, Look(i)), between), Answer(i, false))
    ensures var s' := Apply(Run(Apply(s, Look(i)), between), Answer(i, false));
      s'.external && i < |s'.queries| && s'.queries[i].punk == s.queries[i].punk
      && s.queries[i].punk in s'.recordedBy && s'.recordedBy[s.queries[i].punk] == Session
  {
    hide Run, Inv;
    var s1 := Apply(s, Look(i));
    ApplyKeeps(s, Look(i));
    RunKeeps(s1, between);
  }
}
