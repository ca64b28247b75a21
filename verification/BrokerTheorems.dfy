/** What holds in every run of the broker. */
module BrokerTheorems {
  import opened Basics
  import opened ReplayLedger
  import opened BrokerProtocol
  import opened BrokerInvariant
  import BrokerSteps
  import LedgerRuns

  lemma Reachable(s0: State, steps: seq<Step>)
    requires Init(s0) && Legal(s0, steps)
    ensures Inv(Run(s0, steps))
  {
    InitInv(s0);
    BrokerSteps.RunInv(s0, steps);
  }

  // ---------------------------------------------------------------- at most once

  /** Each successful reservation permits at most one effect, and an intent is reserved more than
      once only by calls that reach the ledger after its expiry.  So an intent none of whose
      reservations was late starts a child, or sends its signal, at most once, whatever the
      interleaving, the write failures, the crashes and the operator decisions. */
  lemma AtMostOnce(s0: State, steps: seq<Step>, i: Intent)
    requires Init(s0) && Legal(s0, steps)
    ensures
      var g := Run(s0, steps).history;
      && g.effects[i] <= g.reservations[i] <= 1 + g.late[i]
      && (g.late[i] == 0 ==> g.effects[i] <= 1)
  {
    Reachable(s0, steps);
  }

  /** A step that succeeds in reserving nonce `i.0`. */
  ghost predicate Reserves(s: State, step: Step, i: Intent)
    requires Guard(s, step)
  {
    Apply(s, step).history.reservations == s.history.reservations + multiset{i}
  }

  lemma OnlyLedgerCallsReserve(s: State, step: Step, i: Intent)
    requires Guard(s, step) && Reserves(s, step, i)
    ensures step.UseLedger? && !Owns(s.handlers[step.h]) && s.handlers[step.h].Intent() == i
  {
    assert i in s.history.reservations + multiset{i};
    assert (s.history.reservations + multiset{i})[i] == s.history.reservations[i] + 1;
  }

  /** A nonce is reserved again only after every earlier reservation of it has been retired, which
      happens to terminal entries only, and its expiry is strictly past. */
  lemma ReservedAgainOnlyAfterRetirement(s0: State, steps: seq<Step>, step: Step, i: Intent, earlier: Intent)
    requires Init(s0) && Legal(s0, steps) && Guard(Run(s0, steps), step)
    requires Reserves(Run(s0, steps), step, i)
    requires earlier.0 == i.0 && earlier in Run(s0, steps).history.reservations
    ensures earlier in Apply(Run(s0, steps), step).history.retired
    ensures earlier.1 < Run(s0, steps).clock
  {
    hide Inv, Run;
    Reachable(s0, steps);
    var s := Run(s0, steps);
    OnlyLedgerCallsReserve(s, step, i);
    AcceptedAfterRetirement(s, step.h, step.pruneWrite, step.write, earlier);
  }

  lemma AcceptedAfterRetirement(s: State, h: HandlerId, pw: Write, w: Write, earlier: Intent)
    requires Inv(s) && Guard(s, UseLedger(h, pw, w)) && !Owns(s.handlers[h])
    requires AfterLedger(s, h, pw, w).history.reservations != s.history.reservations
    requires earlier.0 == s.handlers[h].Intent().0 && earlier in s.history.reservations
    ensures earlier in AfterLedger(s, h, pw, w).history.retired && earlier.1 < s.clock
  {
    hide LedgerInv, OwnerInv, ActiveInv, SignalInv, LockInv, Reserve, LedgerRuns.Sound;
    var a := s.handlers[h];
    assert EarlyOk(a, s.clock);
    var now := if a.Executing? then a.pc.now else s.clock;
    BrokerSteps.SoundWhenUp(s.clock, s.store, s.history);
    ReserveFacts(s.store, a.Intent().0, a.Digest(), a.Intent().1, now, pw, w);
    AbsentMeansRetired(s.clock, s.store, s.history, now, earlier);
  }

  lemma AbsentMeansRetired(clock: i64, store: Store, g: History, now: i64, i: Intent)
    requires LedgerInv(true, clock, store, g) && now <= clock
    requires i in g.reservations && i.0 !in Pruned(store.entries, now)
    ensures i in g.retired + RetiredBy(store.entries, now) && i.1 < clock
  {
  }

  /** `g` has retired `i` and dropped `n` only as terminal entries that had expired. */
  ghost predicate RetiresTerminal(es: Entries, before: History, g: History, i: Intent, n: Str) {
    && (i in g.retired && i !in before.retired ==> At(es, i) && es[i.0].state.Terminal() && i.1 < g.pruneTime)
    && (n in g.dropped && n !in before.dropped ==> n in es && es[n].state.Terminal() && es[n].expires < g.pruneTime)
  }

  lemma PruneRetiresTerminal(g: History, store: Store, n: Str, d: Str, e: i64, now: i64, pw: Write, i: Intent, m: Str)
    ensures RetiresTerminal(store.entries, g, RecordPrune(g, store, n, d, e, now, pw), i, m)
  {
    hide Inserts, ReachesPrune;
  }

  lemma LedgerCallRetiresTerminal(s: State, h: HandlerId, pw: Write, w: Write, i: Intent, n: Str)
    requires Guard(s, UseLedger(h, pw, w))
    ensures RetiresTerminal(s.store.entries, s.history, AfterLedger(s, h, pw, w).history, i, n)
  {
    hide Reserve, MarkSpawned, MarkCompleted, RecordPrune, At;
    var a := s.handlers[h];
    var now := if a.Executing? && a.pc.Timed? then a.pc.now else s.clock;
    PruneRetiresTerminal(s.history, s.store, a.Intent().0, a.Digest(), a.Intent().1, now, pw, i, n);
  }

  /** Only a terminal, expired entry is ever retired, and only such an entry is ever dropped. */
  lemma RetirementIsTerminal(s: State, step: Step, i: Intent, n: Str)
    requires Guard(s, step)
    ensures RetiresTerminal(s.store.entries, s.history, Apply(s, step).history, i, n)
    ensures !step.UseLedger? ==>
      Apply(s, step).history.retired == s.history.retired && Apply(s, step).history.dropped == s.history.dropped
  {
    if step.UseLedger? {
      hide RetiresTerminal, AfterLedger, Guard;
      LedgerCallRetiresTerminal(s, step.h, step.pruneWrite, step.write, i, n);
    } else {
      hide RetiresTerminal, Apply, Guard;
      OtherStepsRetireNothing(s, step);
      SameRetires(s.store.entries, s.history, Apply(s, step).history, i, n);
    }
  }

  lemma OtherStepsRetireNothing(s: State, step: Step)
    requires Guard(s, step) && !step.UseLedger?
    ensures Apply(s, step).history.retired == s.history.retired && Apply(s, step).history.dropped == s.history.dropped
  {
    hide Open, Reconcile;
  }

  lemma SameRetires(es: Entries, before: History, g: History, i: Intent, n: Str)
    requires g.retired == before.retired && g.dropped == before.dropped
    ensures RetiresTerminal(es, before, g, i, n)
  {
  }

  // ---------------------------------------------------------------- durability

  /** At every point of every run, so at every crash point: each started child and each sent signal
      has a durable entry of that very intent past the spawn boundary, unless that entry was dropped
      by a prune; a handler that still owns its entry has no such excuse; and a durable entry that
      still reads as reserved, or was aborted, has had no effect. */
  lemma EffectsAreDurable(s0: State, steps: seq<Step>, i: Intent, h: HandlerId)
    requires Init(s0) && Legal(s0, steps)
    ensures
      var s := Run(s0, steps);
      var durable := Durable(s.store.disk);
      && (i in s.history.ran ==> i.0 in s.history.dropped || Crossed(durable, i))
      && (i in s.history.effects ==> i in s.history.retired || Crossed(durable, i))
      && (i in s.history.ran && i.0 in durable ==> !Untouched(durable[i.0]))
      && (h in s.handlers && Owns(s.handlers[h]) && Effected(s.handlers[h]) ==>
          Crossed(durable, s.handlers[h].Intent()))
  {
    hide Run;
    Reachable(s0, steps);
    var s := Run(s0, steps);
    if h in s.handlers && Owns(s.handlers[h]) {
      BrokerSteps.OwnerAt(s.handlers, h, s.store, s.history);
    }
  }

  /** The step is a ledger call that puts a fresh entry for `n` into memory. */
  ghost predicate InsertsNonce(s: State, step: Step, n: Str)
    requires Guard(s, step)
  {
    && step.UseLedger? && !Owns(s.handlers[step.h]) && s.handlers[step.h].Intent().0 == n
    && var a := s.handlers[step.h];
       var now := if a.Executing? then a.pc.now else s.clock;
       Inserts(s.store, n, a.Digest(), a.Intent().1, now, step.pruneWrite)
  }

  ghost predicate NeverInserts(s: State, steps: seq<Step>, n: Str)
    requires Legal(s, steps)
    decreases |steps|
  {
    steps == [] || (!InsertsNonce(s, steps[0], n) && NeverInserts(Apply(s, steps[0]), steps[1..], n))
  }

  lemma StepRemembers(s: State, step: Step, i: Intent)
    requires Guard(s, step) && i in s.history.ran && !InsertsNonce(s, step, i.0)
    ensures i in Apply(s, step).history.ran
  {
  }

  /** An effect stays on record until its nonce is inserted afresh: until then every later file, in
      any continuation of the run, holds its entry past the boundary or has had it dropped. */
  lemma {:induction false} EffectIsRemembered(s0: State, before: seq<Step>, steps: seq<Step>, i: Intent)
    requires Init(s0) && Legal(s0, before) && i in Run(s0, before).history.ran
    requires Legal(Run(s0, before), steps) && NeverInserts(Run(s0, before), steps, i.0)
    ensures
      var s := Run(Run(s0, before), steps);
      var durable := Durable(s.store.disk);
      && (i.0 in s.history.dropped || Crossed(durable, i))
      && (i.0 in durable ==> !Untouched(durable[i.0]))
  {
    hide Inv, Run;
    Reachable(s0, before);
    RunRemembers(Run(s0, before), steps, i);
    BrokerSteps.RunInv(Run(s0, before), steps);
    RememberedIsDurable(Run(Run(s0, before), steps), i);
  }

  lemma RememberedIsDurable(s: State, i: Intent)
    requires Inv(s) && i in s.history.ran
    ensures i.0 in s.history.dropped || Crossed(Durable(s.store.disk), i)
    ensures i.0 in Durable(s.store.disk) ==> !Untouched(Durable(s.store.disk)[i.0])
  {
  }

  lemma {:induction false} RunRemembers(s: State, steps: seq<Step>, i: Intent)
    requires Legal(s, steps) && i in s.history.ran && NeverInserts(s, steps, i.0)
    ensures i in Run(s, steps).history.ran
    decreases |steps|
  {
    hide Apply, InsertsNonce;
    if steps != [] {
      StepRemembers(s, steps[0], i);
      RunRemembers(Apply(s, steps[0]), steps[1..], i);
    }
  }

  /** The operator's abort is sound: what it accepts as never spawned had no effect. */
  lemma AbortIsSound(s0: State, steps: seq<Step>, n: Str, e: i64, actor: Str, ack: bool, ow: Write, w: Write)
    requires Init(s0) && Legal(s0, steps) && !Run(s0, steps).up
    requires
      var durable := Durable(AfterOperator(Run(s0, steps), n, MarkAborted, actor, ack, ow, w).store.disk);
      n in durable && durable[n].state == AbortedBeforeSpawn
    ensures (n, e) !in Run(s0, steps).history.ran
  {
    hide Inv, Run, AfterOperator;
    Reachable(s0, steps);
    BrokerSteps.OperatorInv(Run(s0, steps), n, MarkAborted, actor, ack, ow, w);
    AbortedUntouched(Run(s0, steps), n, e, actor, ack, ow, w);
  }

  lemma AbortedUntouched(s: State, n: Str, e: i64, actor: Str, ack: bool, ow: Write, w: Write)
    requires Inv(AfterOperator(s, n, MarkAborted, actor, ack, ow, w))
    requires
      var durable := Durable(AfterOperator(s, n, MarkAborted, actor, ack, ow, w).store.disk);
      n in durable && durable[n].state == AbortedBeforeSpawn
    ensures (n, e) !in s.history.ran
  {
    hide Open, Reconcile;
    assert (n, e).0 == n;
  }

  // ---------------------------------------------------------------- the active map and cancellation

  /** Registered execution `n` belongs to an intent that its own handler reserved, and the entry in
      memory is that intent's. */
  ghost predicate ReservedByOwner(s: State, n: Str)
    requires n in s.active
  {
    var a := s.active[n];
    && a.owner in s.handlers && s.handlers[a.owner].Executing? && s.handlers[a.owner].x.nonce == n
    && s.handlers[a.owner].Intent() in s.history.reservations
    && At(s.store.entries, s.handlers[a.owner].Intent())
  }

  ghost predicate AllReservedByOwner(s: State) {
    forall n :: n in s.active ==> ReservedByOwner(s, n)
  }

  /** Execution `k` is still there with its request. */
  ghost predicate KeepsRequest(s: State, t: State, k: HandlerId) {
    k in s.handlers && s.handlers[k].Executing? ==>
      k in t.handlers && t.handlers[k].Executing? && t.handlers[k].x == s.handlers[k].x
  }

  /** A step that leaves `active` and the ledger alone. */
  lemma QuietStep(s: State, step: Step, n: Str)
    requires Guard(s, step) && !step.UseLedger? && !step.UseActive? && !step.Crash? && !step.Restart? && !step.Operator?
    requires n in s.active && ReservedByOwner(s, n) && (forall k :: k in s.handlers ==> k < s.nextId)
    ensures n in Apply(s, step).active && ReservedByOwner(Apply(s, step), n)
  {
    var k := s.active[n].owner;
    assert KeepsRequest(s, Apply(s, step), k);
  }

  lemma RegisterStep(s: State, h: HandlerId)
    requires Guard(s, UseActive(h)) && s.handlers[h].Executing? && s.handlers[h].pc.Reserved?
    requires OwnerOk(s.handlers[h], s.store, s.history)
    ensures var t := AfterActive(s, h); s.handlers[h].x.nonce in t.active && ReservedByOwner(t, s.handlers[h].x.nonce)
  {
  }

  /** Registering, deregistering, looking up and signalling leave every other registration alone. */
  lemma OtherRegistration(s: State, h: HandlerId, n: Str)
    requires Guard(s, UseActive(h)) && n in s.active && n in AfterActive(s, h).active && ReservedByOwner(s, n)
    requires s.handlers[h].Executing? && s.handlers[h].pc.Reserved? ==> s.handlers[h].x.nonce != n
    ensures ReservedByOwner(AfterActive(s, h), n)
  {
    assert KeepsRequest(s, AfterActive(s, h), s.active[n].owner);
  }

  predicate Registers(s: State, h: HandlerId, n: Str)
    requires h in s.handlers
  {
    s.handlers[h].Executing? && s.handlers[h].pc.Reserved? && s.handlers[h].x.nonce == n
  }

  lemma OnlyItsOwnRegistration(s: State, h: HandlerId, n: Str)
    requires Guard(s, UseActive(h)) && n in AfterActive(s, h).active && !Registers(s, h, n)
    ensures n in s.active
  {
  }

  lemma RegistrationIsReserved(s: State, h: HandlerId, n: Str)
    requires Inv(s) && Guard(s, UseActive(h)) && Registers(s, h, n)
    ensures var t := AfterActive(s, h); n in t.active && ReservedByOwner(t, n)
  {
    hide AfterActive, ReservedByOwner;
    BrokerSteps.OwnerAt(s.handlers, h, s.store, s.history);
    RegisterStep(s, h);
  }

  lemma ActiveStep(s: State, h: HandlerId)
    requires Inv(s) && Guard(s, UseActive(h)) && AllReservedByOwner(s)
    ensures AllReservedByOwner(AfterActive(s, h))
  {
    hide Inv, AfterActive, ReservedByOwner;
    var t := AfterActive(s, h);
    forall n | n in t.active ensures ReservedByOwner(t, n) {
      if Registers(s, h, n) {
        RegistrationIsReserved(s, h, n);
      } else {
        OnlyItsOwnRegistration(s, h, n);
        OtherRegistration(s, h, n);
      }
    }
  }

  /** The ledger operation that handler `a` makes. */
  function LedgerOp(a: Handler, clock: i64, pw: Write, w: Write): LedgerRuns.Op
    requires a.WantsLedger()
  {
    var (n, e) := a.Intent();
    if a.Executing? then
      if a.pc.Timed? then LedgerRuns.DoReserve(n, a.Digest(), e, a.pc.now, pw, w)
      else if a.pc.Registered? then LedgerRuns.DoMarkSpawned(n, a.Digest(), None, w)
      else LedgerRuns.DoMarkCompleted(n, a.Digest(), w)
    else if a.cpc.CancelVerified? then LedgerRuns.DoReserve(n, a.Digest(), e, clock, pw, w)
    else if a.cpc.Matched? then LedgerRuns.DoMarkSpawned(n, a.Digest(), None, w)
    else LedgerRuns.DoMarkCompleted(n, a.Digest(), w)
  }

  lemma LedgerStep(s: State, h: HandlerId, pw: Write, w: Write, n: Str)
    requires Inv(s) && Guard(s, UseLedger(h, pw, w)) && n in s.active && ReservedByOwner(s, n)
    ensures n in AfterLedger(s, h, pw, w).active && ReservedByOwner(AfterLedger(s, h, pw, w), n)
  {
    hide LedgerInv, OwnerInv, ActiveInv, SignalInv, LockInv, EarlyInv, Reserve, MarkSpawned, MarkCompleted;
    BrokerSteps.ActiveAt(s.active, s.handlers, s.store, n);
    var op := LedgerOp(s.handlers[h], s.clock, pw, w);
    LedgerRuns.OnlyLegalTransitions(s.store, op, n);
    var t := AfterLedger(s, h, pw, w);
    assert t.store == LedgerRuns.Step(s.store, op).store;
    assert KeepsRequest(s, t, s.active[n].owner);
  }

  lemma StepReservedByOwner(s: State, step: Step)
    requires Inv(s) && Guard(s, step) && AllReservedByOwner(s)
    ensures AllReservedByOwner(Apply(s, step))
  {
    var t := Apply(s, step);
    if step.UseActive? {
      ActiveStep(s, step.h);
    } else if step.Crash? || step.Restart? || step.Operator? {
      DownHasNoActive(s, step);
    } else {
      KeepsActiveMap(s, step);
      assert forall k :: k in s.handlers ==> k < s.nextId;
      hide Inv, Guard, Apply, ReservedByOwner;
      forall n | n in t.active ensures ReservedByOwner(t, n) {
        if step.UseLedger? {
          ThroughApply(s, step);
          LedgerStep(s, step.h, step.pruneWrite, step.write, n);
        } else {
          QuietStep(s, step, n);
        }
      }
    }
  }

  lemma ThroughApply(s: State, step: Step)
    requires Guard(s, step) && step.UseLedger?
    ensures Apply(s, step) == AfterLedger(s, step.h, step.pruneWrite, step.write)
  {
    hide AfterLedger;
  }

  lemma KeepsActiveMap(s: State, step: Step)
    requires Guard(s, step) && !step.UseActive? && !step.Crash?
    ensures Apply(s, step).active == s.active
  {
    hide Open, Reconcile, Reserve, MarkSpawned, MarkCompleted, RecordPrune;
  }

  lemma DownHasNoActive(s: State, step: Step)
    requires Inv(s) && Guard(s, step) && (step.Crash? || step.Restart? || step.Operator?)
    ensures Apply(s, step).active == map[]
  {
    hide LedgerInv, OwnerInv, ActiveInv, SignalInv, LockInv, EarlyInv, Open, Reconcile;
  }

  lemma {:induction false} RunReservedByOwner(s: State, steps: seq<Step>)
    requires Inv(s) && Legal(s, steps) && AllReservedByOwner(s)
    ensures AllReservedByOwner(Run(s, steps))
    decreases |steps|
  {
    hide Inv, Apply, Guard, AllReservedByOwner;
    if steps != [] {
      StepReservedByOwner(s, steps[0]);
      BrokerSteps.StepInv(s, steps[0]);
      RunReservedByOwner(Apply(s, steps[0]), steps[1..]);
    }
  }

  /** Every registered execution has a live ledger entry with its digest, reserved by the handler
      that registered it; the handler is still running unless a failed write closed the ledger. */
  lemma ActiveIsReserved(s0: State, steps: seq<Step>, n: Str)
    requires Init(s0) && Legal(s0, steps) && n in Run(s0, steps).active
    ensures
      var s := Run(s0, steps);
      var a := s.active[n];
      && a.owner in s.handlers && s.handlers[a.owner].Executing?
      && a == AsActive(a.owner, s.handlers[a.owner].x) && a.nonce == n
      && n in s.store.entries && s.store.entries[n].digest == a.digest && !s.store.entries[n].state.Terminal()
      && s.handlers[a.owner].Intent() in s.history.reservations
      && At(s.store.entries, s.handlers[a.owner].Intent())
      && (!s.store.failedClosed ==> Present(s.handlers[a.owner]))
  {
    hide Run, LedgerInv, OwnerInv, ActiveInv, SignalInv, LockInv, EarlyInv;
    Reachable(s0, steps);
    InitInv(s0);
    RunReservedByOwner(s0, steps);
    var s := Run(s0, steps);
    assert ReservedByOwner(s, n);
    BrokerSteps.ActiveAt(s.active, s.handlers, s.store, n);
  }

  /** A Cancel answered ok has signalled exactly one execution: the one that matches its request
      id, operation id, nonce, facts digest and peer; no other handler holds that nonce. */
  lemma CancelSignalsItsTarget(s0: State, steps: seq<Step>, k: HandlerId)
    requires Init(s0) && Legal(s0, steps)
    requires
      var s := Run(s0, steps);
      k in s.handlers && s.handlers[k].Cancelling? && s.handlers[k].cpc.CancelReplied? && s.handlers[k].cpc.answer.Some?
    ensures
      var s := Run(s0, steps);
      var t := s.handlers[k].cpc.answer.value;
      && t in s.handlers && s.handlers[t].Executing? && s.handlers[t].signalled
      && s.handlers[t].x.requestId == s.handlers[k].c.targetRequestId
      && s.handlers[t].x.operationId == s.handlers[k].c.targetOperationId
      && s.handlers[t].x.nonce == s.handlers[k].c.targetNonce
      && s.handlers[t].x.digest == s.handlers[k].c.targetDigest
      && s.handlers[t].x.peer == s.handlers[k].c.peer
      && s.history.signals[(k, t)] == 1
      && (forall u :: u != t ==> s.history.signals[(k, u)] == 0)
      && (forall u :: u in s.handlers && u != t && Owns(s.handlers[u]) && Owns(s.handlers[t]) ==>
            s.handlers[u].Intent().0 != s.handlers[k].c.targetNonce)
  {
    hide Run;
    Reachable(s0, steps);
    var s := Run(s0, steps);
    assert SignalOk(k, s.handlers, s.history.signals);
  }

  // ---------------------------------------------------------------- no deadlock

  /** What handler `h` does next, given the locks it holds. */
  ghost function OwnStep(s: State, h: HandlerId): Step
    requires h in s.handlers
  {
    var a := s.handlers[h];
    var w := Write(0, Synced);
    if a.WantsLedger() then (if s.ledgerLock == Some(h) then UseLedger(h, w, w) else TakeLedger(h))
    else if a.WantsActive() then (if s.activeLock == Some(h) then UseActive(h) else TakeActive(h))
    else if a.Executing? then (if a.pc.Verified? then ReadClock(h) else Finish(h))
    else if a.cpc.Marked? then SendSignal(h)
    else UseActive(h)
  }

  /** The handler at the end of the wait chain that starts at `h`. */
  ghost function Blocker(s: State, h: HandlerId): HandlerId
    requires h in s.handlers && LockInv(s.handlers, s.ledgerLock, s.activeLock)
  {
    if s.handlers[h].WantsLedger() then
      (if s.ledgerLock.Some? then s.ledgerLock.value else h)
    else if s.handlers[h].WantsActive() && s.activeLock.Some? then
      var k := s.activeLock.value;
      if s.handlers[k].WantsLedger() && s.ledgerLock.Some? then s.ledgerLock.value else k
    else
      h
  }

  /** Whenever a handler has not replied, the handler its wait chain ends in can take its own next
      step: the locks are never held in a cycle. */
  lemma NoDeadlock(s0: State, steps: seq<Step>, h: HandlerId)
    requires Init(s0) && Legal(s0, steps)
    requires h in Run(s0, steps).handlers && !Run(s0, steps).handlers[h].Finished()
    ensures
      var s := Run(s0, steps);
      && LockInv(s.handlers, s.ledgerLock, s.activeLock)
      && var k := Blocker(s, h);
         k in s.handlers && !s.handlers[k].Finished() && Guard(s, OwnStep(s, k))
  {
    hide Run, LedgerInv, OwnerInv, ActiveInv, SignalInv, EarlyInv;
    Reachable(s0, steps);
  }
}
