/** The submit / receipt-wait machine of app/components/BidComposer.tsx.

    A React effect is modelled by what React does with it: on every commit the
    dependencies are compared with those of the last run, and only when they
    differ is the old run cleaned up (its watcher cancelled) and the effect run
    again. Events may interleave in any order. */
module ReceiptWatch {
  import opened Wrappers

  datatype Phase =
    | Idle
    | Wallet
    | Awaiting(hash: nat)
    | Success(hash: nat)
    | Rejected
    | Failed(hash: nat)

  /** One call of `waitForTransactionReceipt`, with its closure's flag. */
  datatype Watcher = Watcher(hash: nat, cancelled: bool, resolved: bool)

  datatype Deps = Deps(awaiting: Option<nat>, client: Option<nat>, callback: nat)

  /** `current` is the watcher the last effect run started, `calls` the hashes
      `onSuccess` was called with, `hashes` those the wallet returned so far. */
  datatype Composer = Composer(
    mounted: bool, phase: Phase, client: Option<nat>, callback: nat,
    deps: Option<Deps>, current: Option<nat>, watchers: seq<Watcher>, hashes: set<nat>, calls: seq<nat>)

  datatype Receipt = Mined | Reverted | Threw

  datatype Event =
    | Submit
    | Signed(hash: nat)
    | Declined
    | Rerender(client: Option<nat>, callback: nat) // new props, possibly a fresh `onSuccess`
    | Commit
    | Deliver(watcher: nat, receipt: Receipt)
    | Unmount

  const FRESH: Composer := Composer(true, Idle, None, 0, None, None, [], {}, [])

  function AwaitingHash(p: Phase): Option<nat> {
    if p.Awaiting? then Some(p.hash) else None
  }

  function DepsOf(s: Composer): Deps {
    Deps(AwaitingHash(s.phase), s.client, s.callback)
  }

  predicate Live(w: Watcher) {
    !w.cancelled && !w.resolved
  }

  /** What can happen next. The submit button is disabled while a transaction is
      in the wallet or awaited, and transaction hashes do not repeat. */
  predicate Enabled(s: Composer, e: Event) {
    match e
    case Submit => s.mounted && !s.phase.Wallet? && !s.phase.Awaiting?
    case Signed(h) => s.mounted && s.phase.Wallet? && h !in s.hashes
    case Declined => s.mounted && s.phase.Wallet?
    case Rerender(_, _) => s.mounted
    case Commit => s.mounted
    case Deliver(i, _) => i < |s.watchers| && !s.watchers[i].resolved
    case Unmount => s.mounted
  }

  /** The effect's cleanup: `cancelled = true` in the last run's closure. */
  function CleanUp(s: Composer): Composer {
    if s.current.Some? && s.current.value < |s.watchers| then
      s.(watchers := s.watchers[s.current.value := s.watchers[s.current.value].(cancelled := true)], current := None)
    else s.(current := None)
  }

  /** The effect's body. */
  function RunEffect(s: Composer): Composer {
    if s.phase.Awaiting? && s.client.Some? then
      s.(watchers := s.watchers + [Watcher(s.phase.hash, false, false)], current := Some(|s.watchers|),
         deps := Some(DepsOf(s)))
    else s.(deps := Some(DepsOf(s)))
  }

  function Apply(s: Composer, e: Event): Composer {
    if !Enabled(s, e) then s
    else match e
      case Submit => s.(phase := Wallet)
      case Signed(h) => s.(phase := Awaiting(h), hashes := s.hashes + {h})
      case Declined => s.(phase := Rejected)
      case Rerender(client, callback) => s.(client := client, callback := callback)
      case Commit => if s.deps == Some(DepsOf(s)) then s else RunEffect(CleanUp(s))
      case Unmount => CleanUp(s).(mounted := false)
      case Deliver(i, receipt) =>
        var w := s.watchers[i];
        var s1 := s.(watchers := s.watchers[i := w.(resolved := true)]);
        if w.cancelled then s1
        else if receipt == Mined then s1.(phase := Success(w.hash), calls := s1.calls + [w.hash])
        else s1.(phase := Failed(w.hash))
  }

  function Run(s: Composer, events: seq<Event>): Composer
    decreases |events|
  {
    if events == [] then s else Run(Apply(s, events[0]), events[1..])
  }

  // ---------- What the phases mean ----------

  /** In a mounted composer: submitting opens the wallet, unless a transaction is
      there already or awaited; the wallet's hash is then awaited; a refusal ends the
      wallet phase. Besides these only a delivered receipt changes the phase, and only
      that of a mined transaction calls back. */
  lemma PhasesAre(s: Composer, e: Event)
    ensures var s', busy := Apply(s, e), s.phase.Wallet? || s.phase.Awaiting?;
      match e
      case Submit => s'.phase == if s.mounted && !busy then Wallet else s.phase
      case Signed(h) =>
        s'.phase == if s.mounted && s.phase == Wallet && h !in s.hashes then Awaiting(h) else s.phase
      case Declined => s'.phase == if s.mounted && s.phase == Wallet then Rejected else s.phase
      case Deliver(i, receipt) =>
        if i < |s.watchers| && Live(s.watchers[i]) then
          && s'.phase == (if receipt == Mined then Success(s.watchers[i].hash) else Failed(s.watchers[i].hash))
          && s'.calls == s.calls + if receipt == Mined then [s.watchers[i].hash] else []
        else s'.phase == s.phase && s'.calls == s.calls
      case _ => s'.phase == s.phase
    ensures !e.Deliver? ==> Apply(s, e).calls == s.calls
  {
  }

  // ---------- The invariant ----------

  /** The effect's last run watches a hash exactly when its deps asked for it. */
  ghost predicate EffectExact(s: Composer) {
    match s.current
    case None => !s.mounted || s.deps == None || s.deps.value.awaiting == None || s.deps.value.client == None
    case Some(i) =>
      && s.mounted && i < |s.watchers| && !s.watchers[i].cancelled
      && s.deps.Some? && s.deps.value.client.Some? && s.deps.value.awaiting == Some(s.watchers[i].hash)
      && (s.watchers[i].resolved <==> s.phase != Awaiting(s.watchers[i].hash))
  }

  /** Only the current watcher is live, and what it watches is what is awaited. */
  ghost predicate OneWatcher(s: Composer) {
    forall i :: 0 <= i < |s.watchers| && Live(s.watchers[i]) ==>
      s.current == Some(i) && s.phase == Awaiting(s.watchers[i].hash)
  }

  ghost predicate HashesKnown(s: Composer) {
    && (s.phase.Awaiting? ==> s.phase.hash in s.hashes)
    && (forall i :: 0 <= i < |s.watchers| ==> s.watchers[i].hash in s.hashes)
    && (forall h :: h in s.calls ==> h in s.hashes && s.phase != Awaiting(h))
  }

  ghost predicate Inv(s: Composer) {
    EffectExact(s) && OneWatcher(s) && HashesKnown(s) && NoRepeats(s.calls)
  }

  lemma ApplyKeeps(s: Composer, e: Event)
    requires Inv(s)
    ensures Inv(Apply(s, e))
  {
    if Enabled(s, e) && e.Deliver? {
      DeliverKeeps(s, e.watcher, e.receipt);
    }
  }

  lemma DeliverKeeps(s: Composer, i: nat, receipt: Receipt)
    requires Inv(s) && Enabled(s, Deliver(i, receipt))
    ensures Inv(Apply(s, Deliver(i, receipt)))
  {
    var w := s.watchers[i];
    if !w.cancelled {
      assert Live(w);
      assert w.hash !in s.calls;
    }
  }

  lemma {:induction false} RunKeeps(s: Composer, events: seq<Event>)
    requires Inv(s)
    ensures Inv(Run(s, events))
    decreases |events|
  {
    if events != [] {
      ApplyKeeps(s, events[0]);
      RunKeeps(Apply(s, events[0]), events[1..]);
    }
  }

  // ---------- No lost receipt ----------

  /** After any run and a commit: while a hash is awaited and there is a client,
      exactly one uncancelled, unresolved watcher exists and it watches that
      hash; otherwise none exists. */
  lemma OneWatcherAfterCommit(events: seq<Event>)
    ensures var s := Apply(Run(FRESH, events), Commit);
      (if s.mounted && s.phase.Awaiting? && s.client.Some?
       then s.current.Some? && s.current.value < |s.watchers|
         && s.watchers[s.current.value] == Watcher(s.phase.hash, false, false)
         && forall i :: 0 <= i < |s.watchers| ==> (Live(s.watchers[i]) <==> i == s.current.value)
       else forall i :: 0 <= i < |s.watchers| ==> !Live(s.watchers[i]))
  {
    RunKeeps(FRESH, events);
    ApplyKeeps(Run(FRESH, events), Commit);
  }

  /** So the receipt of an awaited transaction ends the wait, whatever happened
      before: with success and one call of `onSuccess`, or with failure. */
  lemma ReceiptEndsTheWait(events: seq<Event>, receipt: Receipt)
    ensures var s := Apply(Run(FRESH, events), Commit);
      s.mounted && s.phase.Awaiting? && s.client.Some? ==>
        s.current.Some? &&
        var s' := Apply(s, Deliver(s.current.value, receipt));
        && s'.phase == (if receipt == Mined then Success(s.phase.hash) else Failed(s.phase.hash))
        && s'.calls == s.calls + (if receipt == Mined then [s.phase.hash] else [])
  {
    OneWatcherAfterCommit(events);
  }

  /** Over any run `onSuccess` is called at most once per transaction, and only
      for transactions the wallet returned. */
  lemma SuccessAtMostOnce(events: seq<Event>)
    ensures var s := Run(FRESH, events);
      NoRepeats(s.calls) && forall h :: h in s.calls ==> h in s.hashes
  {
    RunKeeps(FRESH, events);
  }

  // ---------- The earlier design ----------

  /** The shape the composer's comments describe as broken: two phases, the
      effect moving from the first to the second, and the whole phase among its
      dependencies. */
  datatype OldPhase = Submitted(hash: nat) | Confirming(hash: nat) | Ended

  datatype Old = Old(phase: OldPhase, deps: Option<OldPhase>, cancelled: bool, watching: bool)

  datatype OldEvent = OldCommit | OldDeliver

  function OldApply(s: Old, e: OldEvent): Old {
    match e
    case OldCommit =>
      if s.deps == Some(s.phase) then s
      else if s.phase.Submitted? then Old(Confirming(s.phase.hash), Some(s.phase), false, true)
      else s.(deps := Some(s.phase), cancelled := true)
    case OldDeliver =>
      if !s.watching || s.cancelled then s.(watching := false) else s.(phase := Ended, watching := false)
  }

  function OldRun(s: Old, events: seq<OldEvent>): Old
    decreases |events|
  {
    if events == [] then s else OldRun(OldApply(s, events[0]), events[1..])
  }

  /** There, once the second commit precedes the receipt, no later event ever
      leaves the confirming phase. */
  lemma OldDesignNeverEnds(h: nat, events: seq<OldEvent>)
    ensures OldRun(Old(Submitted(h), None, false, false), [OldCommit, OldCommit] + events).phase == Confirming(h)
  {
    var s := Old(Submitted(h), None, false, false);
    var twice := [OldCommit, OldCommit] + events;
    assert twice[1..] == [OldCommit] + events && twice[1..][1..] == events;
    OldStuck(OldApply(OldApply(s, OldCommit), OldCommit), h, events);
  }

  lemma {:induction false} OldStuck(s: Old, h: nat, events: seq<OldEvent>)
    requires s.phase == Confirming(h) && s.deps == Some(s.phase) && s.cancelled
    ensures OldRun(s, events).phase == Confirming(h)
    decreases |events|
  {
    if events != [] { OldStuck(OldApply(s, events[0]), h, events[1..]); }
  }
}
