/**
  What the broker's handlers, its restart and its operator do, step by step: which calls they make on
  which answers, whom a Cancel finds and signals, and that nothing stands in its way.
*/
module BrokerRuns {
  import opened Basics
  import opened ReplayLedger
  import opened BrokerProtocol
  import opened BrokerInvariant
  import opened BrokerReplay
  import BrokerSteps
  import L = LedgerLaws

  // ---------------------------------------------------------------- ledger calls

  /** The ledger answered, and the call is over. */
  predicate Answered(s: State, t: State, o: Outcome) {
    t.store == o.store && t.ledgerLock == None && t.active == s.active
  }

  /** An Execute reserves, then crosses the boundary, then completes; a refusal ends it as failed. */
  lemma ExecuteCallLaw(s: State, h: HandlerId, pw: Write, w: Write)
    requires Guard(s, UseLedger(h, pw, w)) && s.handlers[h].Executing?
    ensures
      var a := s.handlers[h];
      var t := AfterLedger(s, h, pw, w);
      && (a.pc.Timed? ==>
            var o := Reserve(s.store, a.x.nonce, a.x.digest, a.x.expires, a.pc.now, pw, w);
            Answered(s, t, o) && t.handlers[h] == a.(pc := if o.answer.Ok? then Reserved else Replied(false)))
      && (a.pc.Registered? ==>
            var o := MarkSpawned(s.store, a.x.nonce, a.x.digest, None, w);
            Answered(s, t, o) && t.handlers[h] == a.(pc := if o.answer.Ok? then Running else Replied(false)))
      && (a.pc.Deregistered? ==>
            var o := MarkCompleted(s.store, a.x.nonce, a.x.digest, w);
            Answered(s, t, o) && t.handlers[h] == a.(pc := Replied(o.answer.Ok?)))
      && t.activeLock == s.activeLock
  {
    hide Reserve, MarkSpawned, MarkCompleted, RecordPrune;
  }

  /** A Cancel reserves at the current time, crosses the boundary, and completes; a refusal ends it
      and lets go of `active`. */
  lemma CancelCallLaw(s: State, h: HandlerId, pw: Write, w: Write)
    requires Guard(s, UseLedger(h, pw, w)) && s.handlers[h].Cancelling?
    ensures
      var a := s.handlers[h];
      var t := AfterLedger(s, h, pw, w);
      && (a.cpc.CancelVerified? ==>
            var o := Reserve(s.store, a.c.nonce, a.c.digest, a.c.expires, s.clock, pw, w);
            && Answered(s, t, o) && t.activeLock == s.activeLock
            && t.handlers[h] == a.(cpc := if o.answer.Ok? then CancelReserved else CancelReplied(None)))
      && (a.cpc.Matched? ==>
            var o := MarkSpawned(s.store, a.c.nonce, a.c.digest, None, w);
            && Answered(s, t, o) && t.activeLock == (if o.answer.Ok? then s.activeLock else None)
            && t.handlers[h] == a.(cpc := if o.answer.Ok? then Marked(a.cpc.target) else CancelReplied(None)))
      && (a.cpc.Sent? ==>
            var o := MarkCompleted(s.store, a.c.nonce, a.c.digest, w);
            && Answered(s, t, o) && t.activeLock == None
            && t.handlers[h] == a.(cpc := CancelReplied(if o.answer.Ok? then Some(a.cpc.target) else None)))
  {
    hide Reserve, MarkSpawned, MarkCompleted, RecordPrune;
  }

  // ---------------------------------------------------------------- the locks

  /** The handler whose step it is. */
  function Mover(step: Step): Option<HandlerId> {
    match step
    case ReadClock(h) => Some(h)
    case Abandon(h) => Some(h)
    case TakeLedger(h) => Some(h)
    case UseLedger(h, _, _) => Some(h)
    case TakeActive(h) => Some(h)
    case UseActive(h) => Some(h)
    case SendSignal(h) => Some(h)
    case StartChild(h) => Some(h)
    case NoticeDisconnect(h) => Some(h)
    case Finish(h) => Some(h)
    case _ => None
  }

  /** No step but the holder's own, or a crash, takes a lock away. */
  lemma LocksAreKept(s: State, step: Step, h: HandlerId)
    requires Inv(s) && Guard(s, step) && Mover(step) != Some(h) && !step.Crash?
    ensures s.ledgerLock == Some(h) ==> Apply(s, step).ledgerLock == Some(h)
    ensures s.activeLock == Some(h) ==> Apply(s, step).activeLock == Some(h)
  {
    hide LedgerInv, OwnerInv, EarlyInv, ActiveInv, SignalInv, Matches;
    hide Reserve, MarkSpawned, MarkCompleted, RecordPrune, Open, Reconcile;
  }

  // ---------------------------------------------------------------- restart and operator

  /** A restart comes up exactly on a file the ledger opens, and then with nothing but that file. */
  lemma RestartLaw(s: State, w: Write)
    requires Guard(s, Restart(w))
    ensures
      var t := Apply(s, Restart(w));
      && (t.up <==> L.Openable(s.store.disk, s.limit, L.Works(w)))
      && (t.up ==> L.OpensTo(s.store.disk, s.limit, t.store))
      && (!t.up && L.Works(w) ==> t.store.disk == s.store.disk)
      && t.handlers == s.handlers && t.active == s.active && t.history == s.history
  {
    L.OpenLaw(s.store.disk, s.limit, w);
    hide Open, L.Openable, L.OpensTo;
  }

  /** With the broker down, an operator's decision reaches the file exactly when it fits the entry
      there, and any other leaves the file alone. */
  lemma OperatorLaw(s: State, n: Str, decision: Decision, actor: Str, acknowledged: bool, ow: Write, w: Write)
    requires !s.up && s.store.disk.File? && s.store.disk.doc.Current? && L.Works(ow) && L.Works(w)
    requires L.Openable(s.store.disk, s.limit, true)
    ensures
      var before := s.store.disk.doc.entries;
      var disk := AfterOperator(s, n, decision, actor, acknowledged, ow, w).store.disk;
      var fits := L.Signed(actor) && n in before && L.Admissible(before[n], decision, acknowledged);
      && disk.File? && disk.doc.Current?
      && (fits ==>
            && n in disk.doc.entries && L.OthersSame(before, disk.doc.entries, n)
            && L.Decided(before[n], disk.doc.entries[n], decision, actor, s.clock))
      && (!fits ==> disk == s.store.disk)
  {
    L.OpenLaw(s.store.disk, s.limit, ow);
    var a := Open(s.store.disk, s.limit, ow).ledger.value;
    L.ReconcileLaw(a, n, decision, actor, s.clock, acknowledged, w);
    hide Open, Reconcile, L.Openable, L.Signed, L.Decided, L.Admissible;
  }

  // ---------------------------------------------------------------- the lookup

  /** The registered execution is the one the Cancel names, sent by the peer that started it. */
  predicate Named(a: ActiveExecution, c: Cancel) {
    && a.requestId == c.targetRequestId && a.operationId == c.targetOperationId && a.nonce == c.targetNonce
    && a.digest == c.targetDigest && a.peer == c.peer
  }

  /**
    A lookup pursues the registered execution exactly when all five comparisons hold; otherwise the
    Cancel is refused and lets go of `active`. Nothing else changes.
  */
  lemma LookupLaw(s: State, k: HandlerId)
    requires Guard(s, UseActive(k)) && s.handlers[k].Cancelling? && s.handlers[k].cpc.Searching?
    ensures
      var c := s.handlers[k].c;
      var found := c.targetNonce in s.active && Named(s.active[c.targetNonce], c);
      var t := Apply(s, UseActive(k));
      && t.handlers[k] == Cancelling(c, if found then Matched(s.active[c.targetNonce].owner) else CancelReplied(None))
      && t.activeLock == (if found then Some(k) else None)
      && t.active == s.active && t.store == s.store && t.history == s.history
      && forall h :: h in s.handlers && h != k ==> h in t.handlers && t.handlers[h] == s.handlers[h]
  {
  }

  // ---------------------------------------------------------------- a whole Cancel

  /** Cancel `k` is at `pc`, the ledger is open and nobody holds it. */
  ghost predicate AtCancel(s: State, k: HandlerId, c: Cancel, pc: CancelPc) {
    && s.up && s.ledgerLock == None && !s.store.failedClosed
    && s.activeLock == (if pc.CancelVerified? || pc.CancelReserved? || pc.CancelReplied? then None else Some(k))
    && k in s.handlers && s.handlers[k] == Cancelling(c, pc)
  }

  /** Execution `t` is registered under the nonce the Cancel names, and still listens. */
  ghost predicate Target(s: State, c: Cancel, t: HandlerId) {
    && c.targetNonce in s.active && s.active[c.targetNonce].owner == t && Named(s.active[c.targetNonce], c)
    && t in s.handlers && s.handlers[t].Listening()
  }

  ghost predicate Holds(s: State, c: Cancel, state: ReplayState) {
    c.nonce in s.store.entries && s.store.entries[c.nonce].digest == c.digest && s.store.entries[c.nonce].state == state
  }

  lemma ReserveTurn(s: State, k: HandlerId, c: Cancel, t: HandlerId)
    requires AtCancel(s, k, c, CancelVerified) && Target(s, c, t)
    requires ValidReservation(c.nonce, c.digest, c.expires, s.clock)
    requires c.nonce !in Pruned(s.store.entries, s.clock) && |Pruned(s.store.entries, s.clock)| < s.store.limit
    ensures Legal(s, LedgerTurn(k))
    ensures
      var n := Run(s, LedgerTurn(k));
      && AtCancel(n, k, c, CancelReserved) && Target(n, c, t) && Holds(n, c, ReservedPreSpawn)
      && n.history.signals == s.history.signals && n.history.effects == s.history.effects
  {
    RunTwo(s, TakeLedger(k), UseLedger(k, GOOD, GOOD));
  }

  lemma SearchTurn(s: State, k: HandlerId, c: Cancel, t: HandlerId)
    requires AtCancel(s, k, c, CancelReserved) && Target(s, c, t)
    ensures Legal(s, Locked(k) + [UseActive(k)])
    ensures
      var n := Run(s, Locked(k) + [UseActive(k)]);
      && AtCancel(n, k, c, Matched(t)) && Target(n, c, t) && n.store == s.store && n.history == s.history
  {
    RunTwo(s, TakeActive(k), UseActive(k));
    var m := Run(s, Locked(k));
    assert m == s.(activeLock := Some(k), handlers := s.handlers[k := Cancelling(c, Searching)]);
    LookupLaw(m, k);
    RunOne(m, UseActive(k));
    RunConcat(s, Locked(k), [UseActive(k)]);
    hide Run, Legal, Guard;
  }

  lemma MarkTurn(s: State, k: HandlerId, c: Cancel, t: HandlerId)
    requires AtCancel(s, k, c, Matched(t)) && Target(s, c, t) && Holds(s, c, ReservedPreSpawn)
    ensures Legal(s, LedgerTurn(k))
    ensures
      var n := Run(s, LedgerTurn(k));
      AtCancel(n, k, c, Marked(t)) && Target(n, c, t) && Holds(n, c, SpawnedUncertain) && n.history == s.history
  {
    RunTwo(s, TakeLedger(k), UseLedger(k, GOOD, GOOD));
  }

  lemma SendTurn(s: State, k: HandlerId, c: Cancel, t: HandlerId)
    requires AtCancel(s, k, c, Marked(t)) && Target(s, c, t)
    ensures Legal(s, [SendSignal(k)])
    ensures
      var n := Run(s, [SendSignal(k)]);
      && AtCancel(n, k, c, Sent(t)) && n.store == s.store && t in n.handlers && n.handlers[t].Executing?
      && n.handlers[t].signalled && n.history.signals == s.history.signals + multiset{(k, t)}
      && n.history.effects == s.history.effects + multiset{(c.nonce, c.expires)}
  {
    RunOne(s, SendSignal(k));
  }

  lemma ReplyTurn(s: State, k: HandlerId, c: Cancel, t: HandlerId)
    requires AtCancel(s, k, c, Sent(t)) && Holds(s, c, SpawnedUncertain)
    requires t in s.handlers && s.handlers[t].Executing? && s.handlers[t].signalled
    ensures Legal(s, LedgerTurn(k))
    ensures
      var n := Run(s, LedgerTurn(k));
      && AtCancel(n, k, c, CancelReplied(Some(t))) && Holds(n, c, Completed) && n.history == s.history
      && t in n.handlers && n.handlers[t].Executing? && n.handlers[t].signalled
      && n.store.disk == File(0, Current(n.store.entries))
  {
    RunTwo(s, TakeLedger(k), UseLedger(k, GOOD, GOOD));
  }

  function FirstHalf(k: HandlerId): seq<Step> {
    LedgerTurn(k) + (Locked(k) + [UseActive(k)])
  }

  function SecondHalf(k: HandlerId): seq<Step> {
    LedgerTurn(k) + [SendSignal(k)] + LedgerTurn(k)
  }

  lemma FirstHalfRuns(s: State, k: HandlerId, c: Cancel, t: HandlerId)
    requires AtCancel(s, k, c, CancelVerified) && Target(s, c, t)
    requires ValidReservation(c.nonce, c.digest, c.expires, s.clock)
    requires c.nonce !in Pruned(s.store.entries, s.clock) && |Pruned(s.store.entries, s.clock)| < s.store.limit
    ensures Legal(s, FirstHalf(k))
    ensures
      var n := Run(s, FirstHalf(k));
      && AtCancel(n, k, c, Matched(t)) && Target(n, c, t) && Holds(n, c, ReservedPreSpawn)
      && n.history.signals == s.history.signals && n.history.effects == s.history.effects
  {
    hide Run, Legal, AtCancel, Target, ValidReservation;
    ReserveTurn(s, k, c, t);
    SearchTurn(Run(s, LedgerTurn(k)), k, c, t);
    RunConcat(s, LedgerTurn(k), Locked(k) + [UseActive(k)]);
  }

  lemma SecondHalfRuns(s: State, k: HandlerId, c: Cancel, t: HandlerId)
    requires AtCancel(s, k, c, Matched(t)) && Target(s, c, t) && Holds(s, c, ReservedPreSpawn)
    ensures Legal(s, SecondHalf(k))
    ensures
      var n := Run(s, SecondHalf(k));
      && AtCancel(n, k, c, CancelReplied(Some(t))) && Holds(n, c, Completed)
      && t in n.handlers && n.handlers[t].Executing? && n.handlers[t].signalled
      && n.history.signals == s.history.signals + multiset{(k, t)}
      && n.history.effects == s.history.effects + multiset{(c.nonce, c.expires)}
      && n.store.disk == File(0, Current(n.store.entries))
  {
    hide Run, Legal, AtCancel, Target;
    MarkTurn(s, k, c, t);
    var m := Run(s, LedgerTurn(k));
    SendTurn(m, k, c, t);
    var n := Run(m, [SendSignal(k)]);
    ReplyTurn(n, k, c, t);
    RunConcat(s, LedgerTurn(k), [SendSignal(k)]);
    RunConcat(s, LedgerTurn(k) + [SendSignal(k)], LedgerTurn(k));
  }

  /**
    A Cancel that names a registered, listening execution, left alone with writes that work, signals
    that execution and is answered ok, and its own nonce is durably completed.
  */
  lemma CancelRuns(s: State, k: HandlerId, c: Cancel, t: HandlerId)
    requires AtCancel(s, k, c, CancelVerified) && Target(s, c, t)
    requires ValidReservation(c.nonce, c.digest, c.expires, s.clock)
    requires c.nonce !in Pruned(s.store.entries, s.clock) && |Pruned(s.store.entries, s.clock)| < s.store.limit
    ensures Legal(s, FirstHalf(k) + SecondHalf(k))
    ensures
      var n := Run(s, FirstHalf(k) + SecondHalf(k));
      && AtCancel(n, k, c, CancelReplied(Some(t))) && Holds(n, c, Completed)
      && t in n.handlers && n.handlers[t].Executing? && n.handlers[t].signalled
      && n.history.signals == s.history.signals + multiset{(k, t)}
      && n.history.effects == s.history.effects + multiset{(c.nonce, c.expires)}
      && n.store.disk == File(0, Current(n.store.entries))
  {
    hide Run, Legal, AtCancel, Target, ValidReservation;
    FirstHalfRuns(s, k, c, t);
    SecondHalfRuns(Run(s, FirstHalf(k)), k, c, t);
    RunConcat(s, FirstHalf(k), SecondHalf(k));
  }

  // ---------------------------------------------------------------- a lost connection

  /** The second half of it: the handler wants `active` to signal itself. */
  lemma SelfSignalTurn(s: State, h: HandlerId)
    requires s.up && s.activeLock == None
    requires h in s.handlers && s.handlers[h].Executing? && s.handlers[h].pc.Disconnected?
    requires s.handlers[h].x.nonce in s.active && s.active[s.handlers[h].x.nonce].owner == h
    ensures Legal(s, Locked(h))
    ensures
      var n := Run(s, Locked(h));
      && n.handlers == s.handlers[h := Executing(s.handlers[h].x, Draining, s.handlers[h].started, true)]
      && n.history.signals == s.history.signals + multiset{(h, h)}
      && n.activeLock == None && n.active == s.active && n.store == s.store
  {
    RunTwo(s, TakeActive(h), UseActive(h));
  }

  lemma NoticeTurn(s: State, h: HandlerId)
    requires s.up && h in s.handlers && s.handlers[h].Executing? && s.handlers[h].pc.Running?
    ensures Legal(s, [NoticeDisconnect(h)])
    ensures Run(s, [NoticeDisconnect(h)]) == s.(handlers := s.handlers[h := s.handlers[h].(pc := Disconnected)])
  {
    RunOne(s, NoticeDisconnect(h));
  }

  /** An Execute whose peer is gone signals its own run, and goes on to wait for it. */
  lemma DisconnectSignalsItself(s: State, h: HandlerId)
    requires Inv(s) && s.up && s.activeLock == None
    requires h in s.handlers && s.handlers[h].Executing? && s.handlers[h].pc.Running?
    ensures Legal(s, [NoticeDisconnect(h)] + Locked(h))
    ensures
      var n := Run(s, [NoticeDisconnect(h)] + Locked(h));
      && n.handlers == s.handlers[h := Executing(s.handlers[h].x, Draining, s.handlers[h].started, true)]
      && n.history.signals == s.history.signals + multiset{(h, h)}
      && n.activeLock == None && n.active == s.active && n.store == s.store
  {
    hide LedgerInv, OwnerInv, ActiveInv, SignalInv, LockInv, EarlyInv, Run, Legal;
    BrokerSteps.PresentIsActive(s.active, s.handlers, s.store, h);
    hide Inv;
    NoticeTurn(s, h);
    var m := Run(s, [NoticeDisconnect(h)]);
    SelfSignalTurn(m, h);
    assert m.handlers[h := Executing(s.handlers[h].x, Draining, s.handlers[h].started, true)]
        == s.handlers[h := Executing(s.handlers[h].x, Draining, s.handlers[h].started, true)];
    RunConcat(s, [NoticeDisconnect(h)], Locked(h));
  }
}
