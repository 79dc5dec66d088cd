/** The acceptance machine of app/components/AcceptBidFlow.tsx: the `done` and
    `finalizedExternally` flags, the accept and batch transactions with their
    receipt watchers, and the eligibility reads that race with anyone else
    finalizing the permissionless accept.

    Every asynchronous piece is its own event: the wallet prompt, the chain, a
    receipt, a read being answered by the server, its answer arriving, and the
    React commit that lets effects see new state. */
module AcceptRace {
  import opened Wrappers

  datatype Kind = Accept | Batch

  datatype Status = Idle | InWallet | Confirming(tx: nat) | Succeeded | Rejected | Failed

  datatype Who = Session | Stranger

  /** A transaction of this session; `fate` once mined (true = no revert). */
  datatype Tx = Tx(kind: Kind, punk: nat, fate: Option<bool>)

  datatype Watcher = Watcher(kind: Kind, tx: nat, cancelled: bool, resolved: bool)

  /** Why a read was sent: polling, focus or preflight; a reverted or failed
      receipt; a wallet error. */
  datatype Why = Poll | AfterReceipt(watcher: nat) | AfterWallet(kind: Kind)

  /** `known`: the Punk was already recorded when the read was sent; `seen`: what
      the server found when it looked. */
  datatype Read = Read(punk: nat, why: Why, known: bool, seen: Option<bool>, answered: bool)

  /** A wallet prompt: the Punk it signs for, and the Punk its error handler would
      ask about, which is the selection its submit callback was rendered with. */
  datatype Prompt = Prompt(kind: Kind, punk: nat, asks: Option<nat>)

  /** What a watcher effect depends on: the hash it waits for and its client. */
  datatype Deps = Deps(tx: Option<nat>, client: Option<nat>)

  datatype Flow = Flow(
    pub: Option<nat>, wallet: Option<nat>, // the chain client and the wallet, if there is one
    selected: Option<nat>, // selectedPunkId
    shown: Option<nat>,    // the same, as of the last commit
    chosen: set<nat>,      // every Punk ever selected in this session
    done: bool, external: bool,
    accept: Status, batch: Status,
    acceptDeps: Deps, batchDeps: Deps, // of the last effect runs
    prompts: seq<Option<Prompt>>, txs: seq<Tx>, watchers: seq<Watcher>, queries: seq<Read>,
    recordedBy: map<nat, Who>)

  datatype Event =
    | Connect(pub: Option<nat>, wallet: Option<nat>) // the clients appear, change or go
    | Select(punk: nat)
    | Reset
    | Sign(kind: Kind, punk: nat)
    | Signed(prompt: nat)
    | Unsigned(prompt: nat, declined: bool)
    | Mine(tx: nat, ok: bool)
    | StrangerAccepts(punk: nat)
    | Commit
    | Receipt(watcher: nat, lost: bool)
    | SendPoll
    | Look(read: nat)
    | Answer(read: nat, failed: bool)

  function Start(recordedBy: map<nat, Who>): Flow {
    Flow(None, None, None, None, {}, false, false, Idle, Idle, Deps(None, None), Deps(None, None),
         [], [], [], [], recordedBy)
  }

  function StatusOf(s: Flow, k: Kind): Status {
    if k == Accept then s.accept else s.batch
  }

  function SetStatus(s: Flow, k: Kind, v: Status): Flow {
    if k == Accept then s.(accept := v) else s.(batch := v)
  }

  /** The accept effect waits on the chain client, the batch effect asks the wallet. */
  function DepsOf(s: Flow, k: Kind): Deps {
    if k == Accept then Deps(ConfirmingTx(s.accept), s.pub) else Deps(ConfirmingTx(s.batch), s.wallet)
  }

  function ConfirmingTx(v: Status): Option<nat> {
    if v.Confirming? then Some(v.tx) else None
  }

  /** Mining decides a transaction: it can only go through while its Punk is not
      recorded, and it may revert for other reasons. */
  predicate Enabled(s: Flow, e: Event) {
    match e
    case Connect(_, _) => true
    case Select(_) => true
    case Reset => true
    case Sign(_, p) => s.wallet.Some? && p in s.chosen // eligibility in view, possibly of an earlier choice
    case Signed(i) => i < |s.prompts| && s.prompts[i].Some?
    case Unsigned(i, _) => i < |s.prompts| && s.prompts[i].Some?
    case Mine(i, ok) => i < |s.txs| && s.txs[i].fate == None && (ok ==> s.txs[i].punk !in s.recordedBy)
    case StrangerAccepts(p) => p !in s.recordedBy
    case Commit => true
    case Receipt(i, lost) =>
      i < |s.watchers| && !s.watchers[i].resolved && s.watchers[i].tx < |s.txs|
      && (!lost ==> s.txs[s.watchers[i].tx].fate.Some?)
    case SendPoll => s.shown.Some?
    case Look(i) => i < |s.queries| && s.queries[i].seen == None && !s.queries[i].answered
    case Answer(i, failed) => i < |s.queries| && !s.queries[i].answered && (!failed ==> s.queries[i].seen.Some?)
  }

  /** `detectExternalFinalize` of a selection; with none it answers false at once. */
  function Send(s: Flow, asks: Option<nat>, why: Why): Flow {
    if asks == None then NotRaced(s, why)
    else s.(queries := s.queries + [Read(asks.value, why, asks.value in s.recordedBy, None, false)])
  }

  function Raced(s: Flow): Flow {
    s.(external := true, done := true)
  }

  function NotRaced(s: Flow, why: Why): Flow {
    match why
    case Poll => s
    case AfterReceipt(i) =>
      if i < |s.watchers| && !s.watchers[i].cancelled then SetStatus(s, s.watchers[i].kind, Failed) else s
    case AfterWallet(k) => SetStatus(s, k, Rejected)
  }

  function CancelAll(ws: seq<Watcher>, k: Kind): (r: seq<Watcher>)
    ensures |r| == |ws|
    ensures forall i :: 0 <= i < |ws| ==> r[i] == if ws[i].kind == k then ws[i].(cancelled := true) else ws[i]
  {
    seq(|ws|, i requires 0 <= i < |ws| => if ws[i].kind == k then ws[i].(cancelled := true) else ws[i])
  }

  /** The transaction a run of the effect watches: none without a client. */
  function Watched(deps: Deps): Option<nat> {
    if deps.client.Some? then deps.tx else None
  }

  /** The watcher effect of one kind: it runs again only when a dependency changed. */
  function Rewatch(ws: seq<Watcher>, k: Kind, was: Deps, now: Deps): seq<Watcher> {
    if was == now then ws
    else CancelAll(ws, k) + if Watched(now).Some? then [Watcher(k, Watched(now).value, false, false)] else []
  }

  function Committed(s: Flow): Flow {
    var a, b := DepsOf(s, Accept), DepsOf(s, Batch);
    s.(shown := s.selected, acceptDeps := a, batchDeps := b,
       watchers := Rewatch(Rewatch(s.watchers, Accept, s.acceptDeps, a), Batch, s.batchDeps, b))
  }

  function Apply(s: Flow, e: Event): Flow {
    if !Enabled(s, e) then s
    else match e
      case Connect(pub, wallet) => s.(pub := pub, wallet := wallet)
      case Select(p) =>
        s.(selected := Some(p), chosen := s.chosen + {p}, external := false, accept := Idle, batch := Idle)
      case Reset => s.(selected := None, external := false, accept := Idle, batch := Idle)
      case Sign(k, p) => SetStatus(s.(prompts := s.prompts + [Some(Prompt(k, p, s.shown))]), k, InWallet)
      case Signed(i) =>
        var p := s.prompts[i].value;
        SetStatus(s.(prompts := s.prompts[i := None], txs := s.txs + [Tx(p.kind, p.punk, None)]),
                  p.kind, Confirming(|s.txs|))
      case Unsigned(i, declined) =>
        var p := s.prompts[i].value;
        var s1 := s.(prompts := s.prompts[i := None]);
        if declined || p.kind == Batch then SetStatus(s1, p.kind, Rejected) else Send(s1, p.asks, AfterWallet(p.kind))
      case Mine(i, ok) =>
        var tx := s.txs[i];
        s.(txs := s.txs[i := tx.(fate := Some(ok))],
           recordedBy := if ok then s.recordedBy[tx.punk := Session] else s.recordedBy)
      case StrangerAccepts(p) => s.(recordedBy := s.recordedBy[p := Stranger])
      case Commit => Committed(s)
      case Receipt(i, lost) =>
        var w := s.watchers[i];
        var s1 := s.(watchers := s.watchers[i := w.(resolved := true)]);
        if w.cancelled then s1
        else if !lost && s.txs[w.tx].fate == Some(true) then SetStatus(s1, w.kind, Succeeded).(done := true)
        else Send(s1, s1.shown, AfterReceipt(i))
      case SendPoll => Send(s, s.shown, Poll)
      case Look(i) => s.(queries := s.queries[i := s.queries[i].(seen := Some(s.queries[i].punk in s.recordedBy))])
      case Answer(i, failed) =>
        var r := s.queries[i];
        var s1 := s.(queries := s.queries[i := r.(answered := true)]);
        if !failed && r.seen == Some(true) then Raced(s1) else NotRaced(s1, r.why)
  }

  function Run(s: Flow, events: seq<Event>): Flow
    decreases |events|
  {
    if events == [] then s else Run(Apply(s, events[0]), events[1..])
  }

  // ---------- The invariant ----------

  ghost predicate ChosenRecorded(s: Flow) {
    exists p :: p in s.chosen && p in s.recordedBy
  }

  ghost predicate TxsTrue(txs: seq<Tx>, chosen: set<nat>, recordedBy: map<nat, Who>) {
    forall i :: 0 <= i < |txs| ==>
      txs[i].punk in chosen && (txs[i].fate == Some(true) ==> txs[i].punk in recordedBy)
  }

  ghost predicate PromptsKnown(prompts: seq<Option<Prompt>>, chosen: set<nat>) {
    forall i :: 0 <= i < |prompts| && prompts[i].Some? ==>
      prompts[i].value.punk in chosen && (prompts[i].value.asks.Some? ==> prompts[i].value.asks.value in chosen)
  }

  /** Reads are truthful: a positive one is of a recorded Punk, and a Punk that
      was recorded when the read was sent is never reported as not recorded. */
  ghost predicate ReadsTrue(queries: seq<Read>, chosen: set<nat>, recordedBy: map<nat, Who>) {
    forall i :: 0 <= i < |queries| ==>
      && queries[i].punk in chosen
      && (queries[i].seen == Some(true) || queries[i].known ==> queries[i].punk in recordedBy)
      && (queries[i].known ==> queries[i].seen != Some(false))
  }

  ghost predicate Inv(s: Flow) {
    && (s.external ==> s.done)
    && (s.done ==> ChosenRecorded(s))
    && (s.selected.Some? ==> s.selected.value in s.chosen) && (s.shown.Some? ==> s.shown.value in s.chosen)
    && TxsTrue(s.txs, s.chosen, s.recordedBy)
    && PromptsKnown(s.prompts, s.chosen)
    && ReadsTrue(s.queries, s.chosen, s.recordedBy)
  }

  /** What an event can never take back. */
  ghost predicate Later(s: Flow, s': Flow) {
    && (s.done ==> s'.done) && s.chosen <= s'.chosen
    && (forall p :: p in s.recordedBy ==> p in s'.recordedBy && s'.recordedBy[p] == s.recordedBy[p])
    && ReadsStay(s.queries, s'.queries)
  }

  /** Reads are only added, keep what they ask and why, and are served once. */
  ghost predicate ReadsStay(before: seq<Read>, after: seq<Read>) {
    |before| <= |after| && forall i :: 0 <= i < |before| ==>
      && after[i].punk == before[i].punk && after[i].why == before[i].why && after[i].known == before[i].known
      && (before[i].seen.Some? ==> after[i].seen == before[i].seen)
  }

  lemma ReadAdded(queries: seq<Read>, chosen: set<nat>, recordedBy: map<nat, Who>, p: nat, why: Why)
    requires ReadsTrue(queries, chosen, recordedBy) && p in chosen
    ensures ReadsTrue(queries + [Read(p, why, p in recordedBy, None, false)], chosen, recordedBy)
    ensures ReadsStay(queries, queries + [Read(p, why, p in recordedBy, None, false)]) && ReadsStay(queries, queries)
  {
  }

  lemma SendKeeps(s: Flow, asks: Option<nat>, why: Why)
    requires Inv(s) && (asks.Some? ==> asks.value in s.chosen)
    ensures Inv(Send(s, asks, why)) && Later(s, Send(s, asks, why))
  {
    hide TxsTrue, PromptsKnown, ReadsTrue, ReadsStay;
    ReadsSame(s.queries);
    if asks.Some? { ReadAdded(s.queries, s.chosen, s.recordedBy, asks.value, why); }
  }

  lemma ReadsSame(queries: seq<Read>)
    ensures ReadsStay(queries, queries)
  {
  }

  lemma MineKeeps(s: Flow, i: nat, ok: bool)
    requires Inv(s) && Enabled(s, Mine(i, ok))
    ensures Inv(Apply(s, Mine(i, ok))) && Later(s, Apply(s, Mine(i, ok)))
  {
    hide PromptsKnown, ReadsStay;
    ReadsSame(s.queries);
    if s.done { KeepsChosen(s, Apply(s, Mine(i, ok))); }
  }

  lemma ReceiptKeeps(s: Flow, i: nat, lost: bool)
    requires Inv(s) && Enabled(s, Receipt(i, lost))
    ensures Inv(Apply(s, Receipt(i, lost))) && Later(s, Apply(s, Receipt(i, lost)))
  {
    hide PromptsKnown, ReadsTrue, Send, ReadsStay;
    ReadsSame(s.queries);
    var w := s.watchers[i];
    var s1 := s.(watchers := s.watchers[i := w.(resolved := true)]);
    SendKeeps(s1, s1.shown, AfterReceipt(i));
    var p := s.txs[w.tx].punk;
    if s.txs[w.tx].fate == Some(true) { assert p in s.chosen && p in s.recordedBy; }
  }

  lemma ReadUpdate(queries: seq<Read>, chosen: set<nat>, recordedBy: map<nat, Who>, i: nat, r: Read)
    requires ReadsTrue(queries, chosen, recordedBy) && i < |queries|
    requires r.punk == queries[i].punk && r.known == queries[i].known
    requires r.seen == queries[i].seen || r.seen == Some(r.punk in recordedBy)
    ensures ReadsTrue(queries[i := r], chosen, recordedBy)
    ensures r.why == queries[i].why && (queries[i].seen.Some? ==> r.seen == queries[i].seen) ==>
      ReadsStay(queries, queries[i := r])
    ensures queries[i].seen == Some(true) ==> queries[i].punk in chosen && queries[i].punk in recordedBy
  {
  }

  lemma ReadKeeps(s: Flow, e: Event)
    requires Inv(s) && Enabled(s, e) && (e.Look? || e.Answer?)
    ensures Inv(Apply(s, e)) && Later(s, Apply(s, e))
  {
    hide PromptsKnown, TxsTrue, ReadsTrue, ChosenRecorded, ReadsStay;
    var r := s.queries[e.read];
    var r' := if e.Look? then r.(seen := Some(r.punk in s.recordedBy)) else r.(answered := true);
    ReadUpdate(s.queries, s.chosen, s.recordedBy, e.read, r');
    if s.done {
      KeepsChosen(s, Apply(s, e));
    } else if r.seen == Some(true) {
      SomeChosen(Apply(s, e), r.punk);
    }
  }

  lemma SomeChosen(s: Flow, p: nat)
    requires p in s.chosen && p in s.recordedBy
    ensures ChosenRecorded(s)
  {
  }

  lemma PromptsUpdate(prompts: seq<Option<Prompt>>, chosen: set<nat>, i: nat)
    requires PromptsKnown(prompts, chosen) && i < |prompts| && prompts[i].Some?
    ensures PromptsKnown(prompts[i := None], chosen) && prompts[i].value.punk in chosen
    ensures prompts[i].value.asks.Some? ==> prompts[i].value.asks.value in chosen
  {
  }

  lemma PromptAdded(prompts: seq<Option<Prompt>>, chosen: set<nat>, p: Prompt)
    requires PromptsKnown(prompts, chosen) && p.punk in chosen && (p.asks.Some? ==> p.asks.value in chosen)
    ensures PromptsKnown(prompts + [Some(p)], chosen)
  {
  }

  lemma TxAdded(txs: seq<Tx>, chosen: set<nat>, recordedBy: map<nat, Who>, tx: Tx)
    requires TxsTrue(txs, chosen, recordedBy) && tx.punk in chosen && tx.fate == None
    ensures TxsTrue(txs + [tx], chosen, recordedBy)
  {
  }

  lemma SignKeeps(s: Flow, e: Event)
    requires Inv(s) && Enabled(s, e) && (e.Sign? || e.Signed?)
    ensures Inv(Apply(s, e)) && Later(s, Apply(s, e))
  {
    hide ReadsTrue, Send, ReadsStay, PromptsKnown, TxsTrue;
    ReadsSame(s.queries);
    if e.Sign? {
      PromptAdded(s.prompts, s.chosen, Prompt(e.kind, e.punk, s.shown));
    } else {
      var p := s.prompts[e.prompt].value;
      PromptsUpdate(s.prompts, s.chosen, e.prompt);
      TxAdded(s.txs, s.chosen, s.recordedBy, Tx(p.kind, p.punk, None));
    }
  }

  lemma UnsignedKeeps(s: Flow, i: nat, declined: bool)
    requires Inv(s) && Enabled(s, Unsigned(i, declined))
    ensures Inv(Apply(s, Unsigned(i, declined))) && Later(s, Apply(s, Unsigned(i, declined)))
  {
    hide ReadsTrue, Send, ReadsStay, PromptsKnown, TxsTrue;
    ReadsSame(s.queries);
    PromptsUpdate(s.prompts, s.chosen, i);
    var p := s.prompts[i].value;
    SendKeeps(s.(prompts := s.prompts[i := None]), p.asks, AfterWallet(p.kind));
  }

  lemma KeepsChosen(s: Flow, s': Flow)
    requires ChosenRecorded(s) && s.chosen <= s'.chosen && s.recordedBy.Keys <= s'.recordedBy.Keys
    ensures ChosenRecorded(s')
  {
    var p :| p in s.chosen && p in s.recordedBy;
    assert p in s'.chosen && p in s'.recordedBy;
  }

  /** Every event keeps the invariant; none ever unsets `done`. */
  lemma ApplyKeeps(s: Flow, e: Event)
    requires Inv(s)
    ensures Inv(Apply(s, e)) && Later(s, Apply(s, e))
  {
    hide Send;
    if Enabled(s, e) {
      match e
      case Mine(i, ok) => MineKeeps(s, i, ok);
      case Receipt(i, lost) => ReceiptKeeps(s, i, lost);
      case Look(_) => ReadKeeps(s, e);
      case Answer(_, _) => ReadKeeps(s, e);
      case Sign(_, _) => SignKeeps(s, e);
      case Signed(_) => SignKeeps(s, e);
      case Unsigned(i, declined) => UnsignedKeeps(s, i, declined);
      case SendPoll => SendKeeps(s, s.shown, Poll);
      case _ => PlainKeeps(s, e);
    }
  }

  lemma PlainKeeps(s: Flow, e: Event)
    requires Inv(s) && Enabled(s, e) && (e.Connect? || e.Select? || e.Reset? || e.Commit? || e.StrangerAccepts?)
    ensures Inv(Apply(s, e)) && Later(s, Apply(s, e))
  {
    hide Rewatch, ReadsStay;
    ReadsSame(s.queries);
    if s.done { KeepsChosen(s, Apply(s, e)); }
  }

  lemma {:induction false} RunKeeps(s: Flow, events: seq<Event>)
    requires Inv(s)
    ensures Inv(Run(s, events)) && Later(s, Run(s, events))
    decreases |events|
  {
    hide Inv, Apply;
    if events != [] {
      ApplyKeeps(s, events[0]);
      RunKeeps(Apply(s, events[0]), events[1..]);
    }
  }
}
