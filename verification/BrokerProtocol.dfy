/**
  The production broker as a transition system: any number of concurrent Execute and Cancel
  connections over one replay ledger and one `active` map, with crashes, restarts and offline
  operator decisions.

  A `Step` carries every choice the environment makes (which handler moves, how a durable write
  fares, when the process dies), so a run is a sequence of steps.  A ledger call is one step taken
  while holding the ledger lock; a crash in the middle of a call leaves the same file as a failed
  write followed by a crash.
*/
module BrokerProtocol {
  import opened Basics
  import opened ReplayLedger

  type HandlerId = nat

  /** A nonce together with the expiry it was issued with. */
  type Intent = (Str, i64)

  datatype Execute = Execute(requestId: Str, operationId: Str, nonce: Str, digest: Str, expires: i64, peer: Str)

  datatype Cancel = Cancel(
    nonce: Str, digest: Str, expires: i64,
    targetRequestId: Str, targetOperationId: Str, targetNonce: Str, targetDigest: Str, peer: Str)

  datatype ExecutePc =
    | Verified                 // frame authenticated, peer refreshed, executable staged
    | Timed(now: i64)          // clock read, capability minted and verified at `now`
    | Reserved                 // nonce reserved
    | Registered               // present in `active`
    | Running                  // spawn boundary durable; run and disconnect are raced
    | Disconnected             // peer gone; wants `active` to signal itself
    | Draining                 // signalled itself; awaits the run
    | Exited                   // run returned, its cancel receiver is dropped
    | Deregistered             // removed from `active`
    | Replied(ok: bool)

  datatype CancelPc =
    | CancelVerified
    | CancelReserved
    | Searching                          // holds `active`
    | Matched(target: HandlerId)         // holds `active`; fence and peer compared equal
    | Marked(target: HandlerId)          // holds `active`; spawn boundary durable
    | Sent(target: HandlerId)            // holds `active`; signal delivered
    | CancelReplied(answer: Option<HandlerId>)   // `Some`: ok, with the execution signalled

  datatype Handler =
    | Executing(x: Execute, pc: ExecutePc, started: bool, signalled: bool)
    | Cancelling(c: Cancel, cpc: CancelPc)
  {
    function Intent(): Intent {
      if Executing? then (x.nonce, x.expires) else (c.nonce, c.expires)
    }

    function Digest(): Str {
      if Executing? then x.digest else c.digest
    }

    predicate Finished() {
      if Executing? then pc.Replied? else cpc.CancelReplied?
    }

    /** The next action needs the ledger lock. */
    predicate WantsLedger() {
      if Executing? then pc.Timed? || pc.Registered? || pc.Deregistered?
      else cpc.CancelVerified? || cpc.Matched? || cpc.Sent?
    }

    /** The next action needs the `active` lock, which is not yet held. */
    predicate WantsActive() {
      if Executing? then pc.Reserved? || pc.Disconnected? || pc.Exited?
      else cpc.CancelReserved?
    }

    /** A Cancel keeps the `active` guard from its lookup to its reply. */
    predicate KeepsActive() {
      Cancelling? && (cpc.Searching? || cpc.Matched? || cpc.Marked? || cpc.Sent?)
    }

    /** The receiver of the cancel watch is still alive. */
    predicate Listening() {
      Executing? && (pc.Registered? || pc.Running? || pc.Disconnected? || pc.Draining?)
    }
  }

  datatype ActiveExecution = ActiveExecution(
    owner: HandlerId, requestId: Str, operationId: Str, nonce: Str, digest: Str, peer: Str)

  function AsActive(h: HandlerId, x: Execute): ActiveExecution {
    ActiveExecution(h, x.requestId, x.operationId, x.nonce, x.digest, x.peer)
  }

  predicate Matches(a: ActiveExecution, c: Cancel) {
    && a.requestId == c.targetRequestId
    && a.operationId == c.targetOperationId
    && a.nonce == c.targetNonce
    && a.digest == c.targetDigest
    && a.peer == c.peer
  }

  /** Observations about the run so far; no step reads them. */
  datatype History = History(
    reservations: multiset<Intent>,   // successful reservations
    late: multiset<Intent>,           // those made when the clock had passed the expiry
    effects: multiset<Intent>,        // children started and cancel signals sent
    retired: set<Intent>,             // terminal entries dropped by a prune
    ran: set<Intent>,                 // intents with an effect since their nonce was last inserted
    dropped: set<Str>,                // nonces a prune dropped since they were last inserted
    signals: multiset<(HandlerId, HandlerId)>,
    pruneTime: i64)                   // the greatest time any reservation pruned with

  datatype State = State(
    up: bool,
    clock: i64,
    limit: nat,
    store: Store,
    handlers: map<HandlerId, Handler>,
    nextId: HandlerId,
    active: map<Str, ActiveExecution>,
    ledgerLock: Option<HandlerId>,
    activeLock: Option<HandlerId>,
    history: History)

  datatype Step =
    | Tick(to: i64)
    | AcceptExecute(x: Execute)
    | AcceptCancel(c: Cancel)
    | ReadClock(h: HandlerId)
    | Abandon(h: HandlerId)
    | TakeLedger(h: HandlerId)
    | UseLedger(h: HandlerId, pruneWrite: Write, write: Write)
    | TakeActive(h: HandlerId)
    | UseActive(h: HandlerId)
    | SendSignal(h: HandlerId)
    | StartChild(h: HandlerId)
    | NoticeDisconnect(h: HandlerId)
    | Finish(h: HandlerId)
    | Crash
    | Restart(write: Write)
    | Operator(nonce: Str, decision: Decision, actor: Str, acknowledged: bool, openWrite: Write, write: Write)

  predicate Init(s: State) {
    && !s.up && s.handlers == map[] && s.active == map[]
    && s.ledgerLock == None && s.activeLock == None
    && 0 < s.limit
    && s.history == History(multiset{}, multiset{}, multiset{}, {}, {}, {}, multiset{}, I64_MIN)
  }

  // ---------------------------------------------------------------- guards

  predicate Live(s: State, h: HandlerId) {
    s.up && h in s.handlers
  }

  predicate Guard(s: State, step: Step) {
    match step
    case Tick(to) => s.clock <= to
    case AcceptExecute(_) => s.up
    case AcceptCancel(_) => s.up
    case ReadClock(h) => Live(s, h) && s.handlers[h].Executing? && s.handlers[h].pc.Verified?
    case Abandon(h) =>
      && Live(s, h) && s.ledgerLock != Some(h) && s.activeLock != Some(h)
      && (if s.handlers[h].Executing? then s.handlers[h].pc.Verified? || s.handlers[h].pc.Timed?
          else s.handlers[h].cpc.CancelVerified? || s.handlers[h].cpc.CancelReserved?)
    case TakeLedger(h) => Live(s, h) && s.handlers[h].WantsLedger() && s.ledgerLock == None
    case UseLedger(h, _, _) => Live(s, h) && s.handlers[h].WantsLedger() && s.ledgerLock == Some(h)
    case TakeActive(h) => Live(s, h) && s.handlers[h].WantsActive() && s.activeLock == None
    case UseActive(h) =>
      && Live(s, h) && s.activeLock == Some(h)
      && (s.handlers[h].WantsActive() || (s.handlers[h].Cancelling? && s.handlers[h].cpc.Searching?))
    case SendSignal(h) => Live(s, h) && s.handlers[h].Cancelling? && s.handlers[h].cpc.Marked?
    case StartChild(h) =>
      && Live(s, h) && s.handlers[h].Executing? && !s.handlers[h].started
      && (s.handlers[h].pc.Running? || s.handlers[h].pc.Draining?)
    case NoticeDisconnect(h) => Live(s, h) && s.handlers[h].Executing? && s.handlers[h].pc.Running?
    case Finish(h) =>
      Live(s, h) && s.handlers[h].Executing? && (s.handlers[h].pc.Running? || s.handlers[h].pc.Draining?)
    case Crash => s.up
    case Restart(_) => !s.up
    case Operator(_, _, _, _, _, _) => !s.up
  }

  // ---------------------------------------------------------------- effects of a step

  function SetHandler(s: State, h: HandlerId, handler: Handler): State {
    s.(handlers := s.handlers[h := handler])
  }

  /** The reservation call gets as far as pruning. */
  predicate ReachesPrune(store: Store, nonce: Str, digest: Str, expires: i64, now: i64) {
    !store.failedClosed && ValidReservation(nonce, digest, expires, now)
  }

  /** The reservation call puts an entry for `nonce` into memory, whatever its write then does. */
  predicate Inserts(store: Store, nonce: Str, digest: Str, expires: i64, now: i64, pruneWrite: Write) {
    && ReachesPrune(store, nonce, digest, expires, now)
    && PruneCompleted(store, now, pruneWrite).answer.Ok?
    && nonce !in Pruned(store.entries, now)
    && |Pruned(store.entries, now)| < store.limit
  }

  function RetiredBy(entries: Entries, now: i64): set<Intent> {
    set n | n in entries && Prunable(entries[n], now) :: (n, entries[n].expires)
  }

  function RecordPrune(g: History, store: Store, nonce: Str, digest: Str, expires: i64, now: i64,
      pruneWrite: Write): History {
    if !ReachesPrune(store, nonce, digest, expires, now) then
      g
    else
      var pruned := Pruning(g, store.entries, now);
      if Inserts(store, nonce, digest, expires, now, pruneWrite) then Inserting(pruned, nonce) else pruned
  }

  /** Every prunable entry is dropped. */
  function Pruning(g: History, entries: Entries, now: i64): History {
    g.(pruneTime := if g.pruneTime < now then now else g.pruneTime,
       retired := g.retired + RetiredBy(entries, now),
       dropped := g.dropped + (set n | n in entries && Prunable(entries[n], now)))
  }

  /** A fresh entry for `nonce` takes the place of whatever came before. */
  function Inserting(g: History, nonce: Str): History {
    g.(ran := (set i | i in g.ran && i.0 != nonce), dropped := g.dropped - {nonce})
  }

  function RecordReserved(g: History, intent: Intent, clock: i64): History {
    g.(reservations := g.reservations + multiset{intent},
       late := if clock > intent.1 then g.late + multiset{intent} else g.late)
  }

  function RecordEffect(g: History, intent: Intent): History {
    g.(effects := g.effects + multiset{intent}, ran := g.ran + {intent})
  }

  /** `reserve` by `h` at time `now`, then release the ledger; `next` is the handler if it succeeds. */
  function DoReserve(s: State, h: HandlerId, now: i64, pw: Write, w: Write, next: Handler, refused: Handler): State
    requires h in s.handlers
  {
    var handler := s.handlers[h];
    var (nonce, expires) := handler.Intent();
    var o := Reserve(s.store, nonce, handler.Digest(), expires, now, pw, w);
    var g := RecordPrune(s.history, s.store, nonce, handler.Digest(), expires, now, pw);
    SetHandler(s, h, if o.answer.Ok? then next else refused).(
      store := o.store,
      ledgerLock := None,
      history := if o.answer.Ok? then RecordReserved(g, handler.Intent(), s.clock) else g)
  }

  /** `mark_spawned` by `h`, then release the ledger; a refused Cancel also drops its `active` guard. */
  function DoMarkSpawned(s: State, h: HandlerId, w: Write, next: Handler, refused: Handler): State
    requires h in s.handlers
  {
    var handler := s.handlers[h];
    var o := MarkSpawned(s.store, handler.Intent().0, handler.Digest(), None, w);
    SetHandler(s, h, if o.answer.Ok? then next else refused).(
      store := o.store,
      ledgerLock := None,
      activeLock := if handler.Cancelling? && o.answer.Err? then None else s.activeLock)
  }

  /** `mark_completed` by `h`, then release the ledger; a Cancel ends here and drops its guard. */
  function DoMarkCompleted(s: State, h: HandlerId, w: Write, next: Handler, refused: Handler): State
    requires h in s.handlers
  {
    var handler := s.handlers[h];
    var o := MarkCompleted(s.store, handler.Intent().0, handler.Digest(), w);
    SetHandler(s, h, if o.answer.Ok? then next else refused).(
      store := o.store,
      ledgerLock := None,
      activeLock := if handler.Cancelling? then None else s.activeLock)
  }

  /** The ledger call that handler `h` makes under the ledger lock. */
  function AfterLedger(s: State, h: HandlerId, pw: Write, w: Write): State
    requires Live(s, h) && s.handlers[h].WantsLedger()
  {
    var handler := s.handlers[h];
    if handler.Executing? then
      var refused := handler.(pc := Replied(false));
      if handler.pc.Timed? then
        DoReserve(s, h, handler.pc.now, pw, w, handler.(pc := Reserved), refused)
      else if handler.pc.Registered? then
        DoMarkSpawned(s, h, w, handler.(pc := Running), refused)
      else
        DoMarkCompleted(s, h, w, handler.(pc := Replied(true)), refused)
    else
      var refused := handler.(cpc := CancelReplied(None));
      if handler.cpc.CancelVerified? then
        DoReserve(s, h, s.clock, pw, w, handler.(cpc := CancelReserved), refused)
      else if handler.cpc.Matched? then
        DoMarkSpawned(s, h, w, handler.(cpc := Marked(handler.cpc.target)), refused)
      else
        DoMarkCompleted(s, h, w, handler.(cpc := CancelReplied(Some(handler.cpc.target))), refused)
  }

  /** Deliver `true` on the cancel watch of execution `t`. */
  function Signal(s: State, sender: HandlerId, t: HandlerId): State
    requires t in s.handlers && s.handlers[t].Executing?
  {
    SetHandler(s, t, s.handlers[t].(signalled := true)).(
      history := s.history.(signals := s.history.signals + multiset{(sender, t)}))
  }

  function AfterActive(s: State, h: HandlerId): State
    requires Guard(s, UseActive(h))
  {
    var handler := s.handlers[h];
    if handler.Executing? then
      var x := handler.x;
      if handler.pc.Reserved? then
        SetHandler(s, h, handler.(pc := Registered)).(
          active := s.active[x.nonce := AsActive(h, x)],
          activeLock := None)
      else if handler.pc.Disconnected? then
        var draining := SetHandler(s, h, handler.(pc := Draining)).(activeLock := None);
        if x.nonce in s.active && s.active[x.nonce].owner in s.handlers
           && s.handlers[s.active[x.nonce].owner].Listening() then
          Signal(draining, h, s.active[x.nonce].owner)
        else
          draining
      else
        SetHandler(s, h, handler.(pc := Deregistered)).(active := s.active - {x.nonce}, activeLock := None)
    else if handler.cpc.CancelReserved? then
      SetHandler(s, h, handler.(cpc := Searching))
    else if handler.c.targetNonce in s.active && Matches(s.active[handler.c.targetNonce], handler.c) then
      SetHandler(s, h, handler.(cpc := Matched(s.active[handler.c.targetNonce].owner)))
    else
      SetHandler(s, h, handler.(cpc := CancelReplied(None))).(activeLock := None)
  }

  /** The Cancel's side effect: it fails if the target stopped listening. */
  function AfterSend(s: State, h: HandlerId): State
    requires Guard(s, SendSignal(h))
  {
    var handler := s.handlers[h];
    var t := handler.cpc.target;
    if t in s.handlers && s.handlers[t].Listening() then
      var sent := Signal(s, h, t);
      SetHandler(sent, h, handler.(cpc := Sent(t))).(history := RecordEffect(sent.history, handler.Intent()))
    else
      SetHandler(s, h, handler.(cpc := CancelReplied(None))).(activeLock := None)
  }

  function AfterAccept(s: State, handler: Handler): State {
    s.(handlers := s.handlers[s.nextId := handler], nextId := s.nextId + 1)
  }

  function AfterReadClock(s: State, h: HandlerId): State
    requires Guard(s, ReadClock(h))
  {
    var handler := s.handlers[h];
    SetHandler(s, h, handler.(pc := if s.clock <= handler.x.expires then Timed(s.clock) else Replied(false)))
  }

  function AfterAbandon(s: State, h: HandlerId): State
    requires Guard(s, Abandon(h))
  {
    var handler := s.handlers[h];
    SetHandler(s, h,
      if handler.Executing? then handler.(pc := Replied(false)) else handler.(cpc := CancelReplied(None)))
  }

  function AfterStart(s: State, h: HandlerId): State
    requires Guard(s, StartChild(h))
  {
    SetHandler(s, h, s.handlers[h].(started := true)).(
      history := RecordEffect(s.history, s.handlers[h].Intent()))
  }

  function AfterCrash(s: State): State {
    s.(up := false, handlers := map[], active := map[], ledgerLock := None, activeLock := None)
  }

  function AfterRestart(s: State, w: Write): State {
    var o := Open(s.store.disk, s.limit, w);
    if o.ledger.Ok? then s.(up := true, store := o.ledger.value)
    else s.(store := s.store.(disk := o.disk))
  }

  function AfterOperator(s: State, n: Str, d: Decision, actor: Str, acknowledged: bool, ow: Write, w: Write): State {
    var o := Open(s.store.disk, s.limit, ow);
    if o.ledger.Ok? then s.(store := Reconcile(o.ledger.value, n, d, actor, s.clock, acknowledged, w).store)
    else s.(store := s.store.(disk := o.disk))
  }

  function Apply(s: State, step: Step): State
    requires Guard(s, step)
  {
    match step
    case Tick(to) => s.(clock := to)
    case AcceptExecute(x) => AfterAccept(s, Executing(x, Verified, false, false))
    case AcceptCancel(c) => AfterAccept(s, Cancelling(c, CancelVerified))
    case ReadClock(h) => AfterReadClock(s, h)
    case Abandon(h) => AfterAbandon(s, h)
    case TakeLedger(h) => s.(ledgerLock := Some(h))
    case UseLedger(h, pw, w) => AfterLedger(s, h, pw, w)
    case TakeActive(h) => s.(activeLock := Some(h))
    case UseActive(h) => AfterActive(s, h)
    case SendSignal(h) => AfterSend(s, h)
    case StartChild(h) => AfterStart(s, h)
    case NoticeDisconnect(h) => SetHandler(s, h, s.handlers[h].(pc := Disconnected))
    case Finish(h) => SetHandler(s, h, s.handlers[h].(pc := Exited))
    case Crash => AfterCrash(s)
    case Restart(w) => AfterRestart(s, w)
    case Operator(n, d, actor, acknowledged, ow, w) => AfterOperator(s, n, d, actor, acknowledged, ow, w)
  }

  // ---------------------------------------------------------------- runs

  predicate Legal(s: State, steps: seq<Step>)
    decreases |steps|
  {
    steps == [] || (Guard(s, steps[0]) && Legal(Apply(s, steps[0]), steps[1..]))
  }

  function Run(s: State, steps: seq<Step>): State
    requires Legal(s, steps)
    decreases |steps|
  {
    if steps == [] then s else Run(Apply(s, steps[0]), steps[1..])
  }
}
