/** Each step of the broker protocol preserves the invariant. */
module BrokerSteps {
  import opened Basics
  import opened ReplayLedger
  import opened BrokerProtocol
  import opened BrokerInvariant
  import LedgerRuns

  // ---------------------------------------------------------------- connections come and move

  lemma TickInv(s: State, to: i64)
    requires Inv(s) && s.clock <= to
    ensures Inv(s.(clock := to))
  {
  }

  lemma AcceptInv(s: State, b: Handler)
    requires Inv(s) && s.up
    requires b.Executing? ==> b.pc == Verified && !b.started && !b.signalled
    requires b.Cancelling? ==> b.cpc == CancelVerified
    ensures Inv(AfterAccept(s, b))
  {
    assert s.nextId !in s.handlers;
    SetNewcomerEarly(s.handlers, s.nextId, b, s.clock, s.ledgerLock, s.activeLock);
    hide LedgerInv, OwnerInv, ActiveInv, SignalInv, LockInv, EarlyInv;
    SetOwner(s.handlers, s.nextId, b, s.store, s.history);
    SetNewcomer(s.active, s.handlers, s.store, s.nextId, b);
    SetNewcomerSignals(s.handlers, s.nextId, s.history.signals, b);
  }

  lemma SetNewcomerEarly(handlers: Handlers, nextId: HandlerId, b: Handler, clock: i64,
                         ledgerLock: Option<HandlerId>, activeLock: Option<HandlerId>)
    requires EarlyInv(handlers, nextId, clock) && LockInv(handlers, ledgerLock, activeLock)
    requires b.Executing? ==> b.pc == Verified && !b.started
    requires b.Cancelling? ==> b.cpc == CancelVerified
    ensures EarlyInv(handlers[nextId := b], nextId + 1, clock) && LockInv(handlers[nextId := b], ledgerLock, activeLock)
  {
  }

  /** A move that touches neither the ledger, nor `active`, nor the history. */
  lemma MoveInv(s: State, h: HandlerId, b: Handler)
    requires Inv(s) && Live(s, h)
    requires Continues(s.handlers[h], b) && Present(s.handlers[h]) == Present(b)
    requires Owns(b) ==> Owns(s.handlers[h]) && OwnerOk(b, s.store, s.history)
    requires EarlyOk(b, s.clock)
    requires s.handlers[h].Executing? ==> b.signalled == s.handlers[h].signalled
    requires b.Cancelling? ==> b.cpc == CancelReplied(None)
    requires s.ledgerLock != Some(h) && s.activeLock != Some(h) && !b.KeepsActive()
    ensures Inv(SetHandler(s, h, b))
  {
    if Owns(b) {
      StillOwns(s.handlers, h, b, s.store, s.history);
    }
    SetOwner(s.handlers, h, b, s.store, s.history);
    SetActive(s.active, s.handlers, s.store, h, b);
    assert SignalOk(h, s.handlers, s.history.signals);
    SetSignal(s.handlers, s.nextId, s.history.signals, h, b);
    SetLock(s.handlers, h, b, s.ledgerLock, s.activeLock);
    SetEarly(s.handlers, h, b, s.nextId, s.clock);
  }

  lemma ReadClockInv(s: State, h: HandlerId)
    requires Inv(s) && Guard(s, ReadClock(h))
    ensures Inv(AfterReadClock(s, h))
  {
    hide LedgerInv, ActiveInv, SignalInv, OwnerInv;
    assert EarlyOk(s.handlers[h], s.clock);
    MoveInv(s, h, AfterReadClock(s, h).handlers[h]);
  }

  lemma AbandonInv(s: State, h: HandlerId)
    requires Inv(s) && Guard(s, Abandon(h))
    ensures Inv(AfterAbandon(s, h))
  {
    hide LedgerInv, ActiveInv, SignalInv, OwnerInv;
    MoveInv(s, h, AfterAbandon(s, h).handlers[h]);
  }

  lemma NoticeDisconnectInv(s: State, h: HandlerId)
    requires Inv(s) && Guard(s, NoticeDisconnect(h))
    ensures Inv(SetHandler(s, h, s.handlers[h].(pc := Disconnected)))
  {
    hide LedgerInv, ActiveInv, SignalInv;
    var b := s.handlers[h].(pc := Disconnected);
    SameOwner(s.handlers, h, b, s.store, s.history);
    HoldsNothing(s.handlers, h, s.ledgerLock, s.activeLock);
    MoveInv(s, h, b);
  }

  lemma FinishInv(s: State, h: HandlerId)
    requires Inv(s) && Guard(s, Finish(h))
    ensures Inv(SetHandler(s, h, s.handlers[h].(pc := Exited)))
  {
    hide LedgerInv, ActiveInv, SignalInv;
    var b := s.handlers[h].(pc := Exited);
    SameOwner(s.handlers, h, b, s.store, s.history);
    HoldsNothing(s.handlers, h, s.ledgerLock, s.activeLock);
    MoveInv(s, h, b);
  }

  lemma TakeLedgerInv(s: State, h: HandlerId)
    requires Inv(s) && Guard(s, TakeLedger(h))
    ensures Inv(s.(ledgerLock := Some(h)))
  {
  }

  lemma TakeActiveInv(s: State, h: HandlerId)
    requires Inv(s) && Guard(s, TakeActive(h))
    ensures Inv(s.(activeLock := Some(h)))
  {
  }

  // ---------------------------------------------------------------- effects

  /** An effect by an owner past the boundary that had none yet. */
  lemma EffectLedger(up: bool, clock: i64, store: Store, g: History, a: Handler)
    requires LedgerInv(up, clock, store, g)
    requires OwnerOk(a, store, g) && PastBoundary(a) && !Effected(a)
    ensures LedgerInv(up, clock, store, RecordEffect(g, a.Intent()))
  {
    hide Agrees, LedgerRuns.Sound;
    EffectAgrees(Durable(store.disk), g, a.Intent());
    if up {
      EffectAgrees(store.entries, g, a.Intent());
    }
  }

  lemma EffectAgrees(es: Entries, g: History, i: Intent)
    requires Agrees(es, g) && At(es, i) && es[i.0].state == SpawnedUncertain
    ensures Agrees(es, RecordEffect(g, i))
  {
  }

  lemma EffectOwners(handlers: Handlers, h: HandlerId, b: Handler, store: Store, g: History)
    requires OwnerInv(handlers, store, g)
    requires h in handlers && Owns(handlers[h]) && Continues(handlers[h], b)
    requires PastBoundary(handlers[h]) && PastBoundary(b) && Effected(b)
    ensures OwnerInv(handlers[h := b], store, RecordEffect(g, b.Intent()))
  {
    var next, g' := handlers[h := b], RecordEffect(g, b.Intent());
    assert OwnerOk(handlers[h], store, g);
    forall k | k in next && Owns(next[k]) ensures OwnerOk(next[k], store, g') {
      if k != h {
        assert OwnerOk(handlers[k], store, g);
        assert handlers[k].Intent() != b.Intent();
      }
    }
  }

  lemma StartChildInv(s: State, h: HandlerId)
    requires Inv(s) && Guard(s, StartChild(h))
    ensures Inv(AfterStart(s, h))
  {
    hide LedgerInv, ActiveInv, OwnerInv;
    var b := s.handlers[h].(started := true);
    assert OwnerOk(s.handlers[h], s.store, s.history) by {
      OwnerAt(s.handlers, h, s.store, s.history);
    }
    EffectLedger(s.up, s.clock, s.store, s.history, s.handlers[h]);
    EffectOwners(s.handlers, h, b, s.store, s.history);
    SetActive(s.active, s.handlers, s.store, h, b);
    assert SignalOk(h, s.handlers, s.history.signals);
    SetSignal(s.handlers, s.nextId, s.history.signals, h, b);
    HoldsNothing(s.handlers, h, s.ledgerLock, s.activeLock);
    SetLock(s.handlers, h, b, s.ledgerLock, s.activeLock);
    SetEarly(s.handlers, h, b, s.nextId, s.clock);
  }

  // ---------------------------------------------------------------- crash and recovery

  lemma CrashInv(s: State)
    requires Inv(s)
    ensures Inv(AfterCrash(s))
  {
  }

  ghost predicate Readable(disk: Disk) {
    disk.File? && disk.doc.Current?
  }

  ghost predicate Pristine(g: History) {
    g.reservations == multiset{} && g.effects == multiset{} && g.ran == {}
  }

  lemma OpenAgrees(disk: Disk, limit: nat, w: Write, g: History)
    requires Agrees(Durable(disk), g)
    requires !Readable(disk) ==> Pristine(g)
    ensures
      var o := Open(disk, limit, w);
      && Agrees(Durable(o.disk), g)
      && (Readable(disk) ==> Readable(o.disk))
      && (o.ledger.Ok? ==>
            && var a := o.ledger.value;
               a.limit == limit && a.disk == o.disk && Readable(a.disk)
               && LedgerRuns.Sound(a) && !a.failedClosed && Agrees(a.entries, g) && Durable(a.disk) == a.entries)
  {
    LedgerRuns.OpenIsSound(disk, limit, w);
  }

  lemma RestartInv(s: State, w: Write)
    requires Inv(s) && !s.up
    ensures Inv(AfterRestart(s, w))
  {
    hide Agrees, LedgerRuns.Sound, Open;
    OpenAgrees(s.store.disk, s.limit, w, s.history);
  }

  lemma ReconcileAgrees(a: Store, n: Str, d: Decision, actor: Str, now: i64, ack: bool, w: Write, g: History)
    requires Readable(a.disk) && Durable(a.disk) == a.entries && Agrees(a.entries, g)
    ensures
      var disk := Reconcile(a, n, d, actor, now, ack, w).store.disk;
      Readable(disk) && Agrees(Durable(disk), g)
  {
    hide Agrees;
    if n in a.entries {
      var next := Disposition(a.entries[n].state, d, ack);
      if next.Some? {
        var entry := Advance(a.entries[n], next.value).(
          reconciliation := Some(Reconciliation(actor, now, a.entries[n].state, next.value)));
        AgreesAdvance(a.entries, g, n, entry);
      }
    }
  }

  lemma OperatorInv(s: State, n: Str, d: Decision, actor: Str, ack: bool, ow: Write, w: Write)
    requires Inv(s) && !s.up
    ensures Inv(AfterOperator(s, n, d, actor, ack, ow, w))
  {
    hide Agrees, LedgerRuns.Sound, Open, Reconcile;
    OpenAgrees(s.store.disk, s.limit, ow, s.history);
    var o := Open(s.store.disk, s.limit, ow);
    if o.ledger.Ok? {
      ReconcileAgrees(o.ledger.value, n, d, actor, s.clock, ack, w, s.history);
    }
  }

  // ---------------------------------------------------------------- reserving

  /** After the prune, and after the insertion if there is one, both copies account for the history. */
  lemma ReserveAgrees(a: Store, g: History, n: Str, d: Str, e: i64, now: i64, pw: Write, w: Write)
    requires LedgerRuns.Sound(a) && Agrees(a.entries, g) && Agrees(Durable(a.disk), g)
    ensures
      var o := Reserve(a, n, d, e, now, pw, w);
      var pruned := RecordPrune(g, a, n, d, e, now, pw);
      && Agrees(o.store.entries, pruned) && Agrees(Durable(o.store.disk), pruned)
      && (o.answer.Ok? ==> Agrees(Pruned(a.entries, now), pruned))
  {
    hide Reserve, Agrees, LedgerRuns.Sound, ReachesPrune, Inserts, Pruning, Inserting;
    ReserveFacts(a, n, d, e, now, pw, w);
    if ReachesPrune(a, n, d, e, now) {
      var pruning := Pruning(g, a.entries, now);
      AgreesPruned(a.entries, g, now);
      if Inserts(a, n, d, e, now, pw) {
        AgreesUninserted(a.entries, pruning, n);
        AgreesUninserted(Pruned(a.entries, now), pruning, n);
        AgreesInsert(Pruned(a.entries, now), pruning, n, FreshEntry(d, e, now));
      }
    }
  }

  lemma PruneTimely(clock: i64, g: History, a: Store, n: Str, d: Str, e: i64, now: i64, pw: Write)
    requires Counted(g) && Timely(g, clock) && now <= clock
    ensures Counted(RecordPrune(g, a, n, d, e, now, pw)) && Timely(RecordPrune(g, a, n, d, e, now, pw), clock)
  {
    hide ReachesPrune, Inserts;
  }

  lemma ReserveLedger(clock: i64, a: Store, g: History, n: Str, d: Str, e: i64, now: i64, pw: Write, w: Write)
    requires LedgerInv(true, clock, a, g) && now <= clock
    ensures
      var o := Reserve(a, n, d, e, now, pw, w);
      var pruned := RecordPrune(g, a, n, d, e, now, pw);
      LedgerInv(true, clock, o.store, if o.answer.Ok? then RecordReserved(pruned, (n, e), clock) else pruned)
  {
    hide Reserve, Agrees, Counted, LedgerRuns.Sound, ReachesPrune, Inserts, RecordPrune;
    ReserveFacts(a, n, d, e, now, pw, w);
    ReserveAgrees(a, g, n, d, e, now, pw, w);
    PruneTimely(clock, g, a, n, d, e, now, pw);
    var o := Reserve(a, n, d, e, now, pw, w);
    var pruned := RecordPrune(g, a, n, d, e, now, pw);
    if o.answer.Ok? {
      AcceptedOnce(clock, pruned, Pruned(a.entries, now), (n, e));
      AgreesReserved(o.store.entries, pruned, (n, e), clock);
    }
  }

  /** A copy that does not hold the fresh entry still accounts for everything else. */
  lemma AgreesUninserted(es: Entries, g: History, n: Str)
    requires Agrees(es, g)
    ensures Agrees(es, Inserting(g, n))
  {
  }

  lemma AgreesReserved(es: Entries, g: History, i: Intent, clock: i64)
    requires Agrees(es, g) && At(es, i)
    ensures Agrees(es, RecordReserved(g, i, clock))
  {
  }

  /** A nonce absent after the prune was never reserved with this expiry, unless it was retired. */
  lemma AcceptedOnce(clock: i64, g: History, kept: Entries, i: Intent)
    requires Counted(g) && Timely(g, clock) && Agrees(kept, g)
    requires i.0 !in kept
    ensures Counted(RecordReserved(g, i, clock))
    ensures i in g.reservations ==> i in g.retired && i.1 < clock
  {
  }

  /** An owner keeps its entry when another handler reserves, and that other nonce is not its own. */
  lemma ReserveKeepsOwner(x: Handler, a: Store, g: History,
                          n: Str, d: Str, e: i64, now: i64, pw: Write, w: Write, clock: i64, reserved: bool)
    requires OwnerOk(x, a, g) && LedgerRuns.Sound(a) && Counted(g)
    requires Reserve(a, n, d, e, now, pw, w).answer.Ok? == reserved
    ensures
      var pruned := RecordPrune(g, a, n, d, e, now, pw);
      OwnerOk(x, Reserve(a, n, d, e, now, pw, w).store,
              if reserved then RecordReserved(pruned, (n, e), clock) else pruned)
    ensures reserved ==> x.Intent().0 != n
  {
    hide Reserve, LedgerRuns.Sound, ReachesPrune, Inserts;
    ReserveFacts(a, n, d, e, now, pw, w);
  }

  /** The reserving handler owns its new entry, in memory and on disk. */
  lemma ReserveMakesOwner(b: Handler, a: Store, g: History,
                          n: Str, d: Str, e: i64, now: i64, pw: Write, w: Write, clock: i64)
    requires LedgerRuns.Sound(a) && Counted(g)
    requires b.Intent() == (n, e) && b.Digest() == d && !PastBoundary(b) && !Effected(b)
    requires Reserve(a, n, d, e, now, pw, w).answer.Ok?
    ensures OwnerOk(b, Reserve(a, n, d, e, now, pw, w).store,
        RecordReserved(RecordPrune(g, a, n, d, e, now, pw), (n, e), clock))
  {
    hide Reserve, LedgerRuns.Sound, ReachesPrune, Inserts;
    ReserveFacts(a, n, d, e, now, pw, w);
  }

  /** Owners other than the reserving handler keep their entries, in memory and on disk. */
  lemma ReserveOwners(handlers: Handlers, h: HandlerId, b: Handler, a: Store, g: History,
                      n: Str, d: Str, e: i64, now: i64, pw: Write, w: Write, clock: i64)
    requires OwnerInv(handlers, a, g) && LedgerRuns.Sound(a)
    requires h in handlers && !Owns(handlers[h])
    requires b.Intent() == (n, e) && b.Digest() == d && !PastBoundary(b) && !Effected(b)
    requires Reserve(a, n, d, e, now, pw, w).answer.Ok? == Owns(b)
    requires Counted(g)
    ensures
      var pruned := RecordPrune(g, a, n, d, e, now, pw);
      OwnerInv(handlers[h := b], Reserve(a, n, d, e, now, pw, w).store,
               if Owns(b) then RecordReserved(pruned, (n, e), clock) else pruned)
  {
    hide Reserve, LedgerRuns.Sound, OwnerOk, Owns, RecordPrune, RecordReserved, Counted;
    var o := Reserve(a, n, d, e, now, pw, w);
    var pruned := RecordPrune(g, a, n, d, e, now, pw);
    var g' := if Owns(b) then RecordReserved(pruned, (n, e), clock) else pruned;
    var next := handlers[h := b];
    forall k | k in next && Owns(next[k])
      ensures OwnerOk(next[k], o.store, g')
      ensures k != h && Owns(b) ==> next[k].Intent().0 != n
    {
      if k != h {
        assert OwnerOk(handlers[k], a, g);
        ReserveKeepsOwner(handlers[k], a, g, n, d, e, now, pw, w, clock, Owns(b));
      } else {
        ReserveMakesOwner(b, a, g, n, d, e, now, pw, w, clock);
      }
    }
  }

  lemma OwnerAt(handlers: Handlers, h: HandlerId, store: Store, g: History)
    requires OwnerInv(handlers, store, g) && h in handlers && Owns(handlers[h])
    ensures OwnerOk(handlers[h], store, g)
  {
  }

  lemma ReserveActive(active: map<Str, ActiveExecution>, handlers: Handlers, h: HandlerId, b: Handler,
                      a: Store, n: Str, d: Str, e: i64, now: i64, pw: Write, w: Write)
    requires ActiveInv(active, handlers, a) && LedgerRuns.Sound(a)
    requires h in handlers && Continues(handlers[h], b) && !Present(handlers[h]) && !Present(b)
    ensures ActiveInv(active, handlers[h := b], Reserve(a, n, d, e, now, pw, w).store)
  {
    hide Reserve, LedgerRuns.Sound, ReachesPrune, Inserts;
    ReserveFacts(a, n, d, e, now, pw, w);
    ReserveKeepsClosed(a, n, d, e, now, pw, w);
    SetActive(active, handlers, a, h, b);
    var o := Reserve(a, n, d, e, now, pw, w);
    forall m | m in active ensures ActiveOk(m, active[m], handlers[h := b], o.store) {
      assert ActiveOk(m, active[m], handlers[h := b], a);
    }
  }

  lemma ReserveKeepsClosed(a: Store, n: Str, d: Str, e: i64, now: i64, pw: Write, w: Write)
    ensures a.failedClosed ==> Reserve(a, n, d, e, now, pw, w).store == a
  {
  }

  /** A refused handler has replied; an accepted one owns its nonce. */
  lemma ReserveInv(s: State, h: HandlerId, now: i64, pw: Write, w: Write, next: Handler, refused: Handler)
    requires Inv(s) && Live(s, h) && now <= s.clock
    requires !Owns(s.handlers[h]) && !Present(s.handlers[h]) && s.handlers[h].WantsLedger()
    requires s.ledgerLock == Some(h)
    requires Continues(s.handlers[h], next) && Continues(s.handlers[h], refused)
    requires Owns(next) && !PastBoundary(next) && !Effected(next) && !Present(next) && EarlyOk(next, s.clock)
    requires refused.Finished() && !Effected(refused) && EarlyOk(refused, s.clock)
    requires next.Executing? ==> next.signalled == s.handlers[h].signalled == refused.signalled
    requires next.Cancelling? ==> next.cpc == CancelReserved && refused.cpc == CancelReplied(None)
    ensures Inv(DoReserve(s, h, now, pw, w, next, refused))
  {
    hide LedgerInv, OwnerInv, ActiveInv, SignalInv, Reserve, RecordPrune, RecordReserved;
    var a := s.handlers[h];
    var (n, e) := a.Intent();
    var o := Reserve(s.store, n, a.Digest(), e, now, pw, w);
    var b := if o.answer.Ok? then next else refused;
    assert LedgerRuns.Sound(s.store) && Counted(s.history) by {
      SoundWhenUp(s.clock, s.store, s.history);
    }
    ReserveLedger(s.clock, s.store, s.history, n, a.Digest(), e, now, pw, w);
    ReserveOwners(s.handlers, h, b, s.store, s.history, n, a.Digest(), e, now, pw, w, s.clock);
    ReserveActive(s.active, s.handlers, h, b, s.store, n, a.Digest(), e, now, pw, w);
    KeepsSilence(s.handlers, s.nextId, s.history.signals, h, b);
    ReserveFrame(s.history, s.store, n, a.Digest(), e, now, pw, w, s.clock);
    SetEarly(s.handlers, h, b, s.nextId, s.clock);
    HoldsNothing(s.handlers, h, s.ledgerLock, s.activeLock);
    SetLock(s.handlers, h, b, None, s.activeLock);
  }

  lemma SoundWhenUp(clock: i64, store: Store, g: History)
    requires LedgerInv(true, clock, store, g)
    ensures LedgerRuns.Sound(store) && Counted(g)
  {
  }

  /** What a reservation leaves alone. */
  lemma ReserveFrame(g: History, a: Store, n: Str, d: Str, e: i64, now: i64, pw: Write, w: Write, clock: i64)
    requires LedgerRuns.Sound(a)
    ensures
      var pruned := RecordPrune(g, a, n, d, e, now, pw);
      var o := Reserve(a, n, d, e, now, pw, w);
      && pruned.signals == g.signals
      && RecordReserved(pruned, (n, e), clock).signals == g.signals
      && o.store.limit == a.limit
      && o.store.disk.File? && o.store.disk.doc.Current?
  {
    ReserveFacts(a, n, d, e, now, pw, w);
  }

  /** Before its first signal a handler may move freely. */
  lemma KeepsSilence(handlers: Handlers, nextId: HandlerId, g: Signals, h: HandlerId, b: Handler)
    requires SignalInv(handlers, nextId, g)
    requires h in handlers && Continues(handlers[h], b)
    requires handlers[h].Executing? && handlers[h].signalled ==> b.signalled
    requires b.Cancelling? ==>
      && (handlers[h].cpc.CancelVerified? || handlers[h].cpc.CancelReserved? || handlers[h].cpc.Searching?
          || handlers[h].cpc.Matched?)
      && (b.cpc.CancelReserved? || b.cpc.Searching? || b.cpc == CancelReplied(None))
    ensures SignalInv(handlers[h := b], nextId, g)
  {
    assert SignalOk(h, handlers, g);
    SetSignal(handlers, nextId, g, h, b);
  }

  // ---------------------------------------------------------------- marking

  /** The call on the entry of owner `h` either was refused by a closed ledger or rewrote that entry. */
  ghost predicate RefusedOrRewrote(a: Store, b: Store, n: Str, entry: Entry) {
    if a.failedClosed then b == a else Rewrote(a, b, n, entry)
  }

  lemma MarkLedger(clock: i64, a: Store, b: Store, g: History, n: Str, entry: Entry)
    requires LedgerInv(true, clock, a, g) && LedgerRuns.Sound(b)
    requires n in a.entries && RefusedOrRewrote(a, b, n, entry)
    requires entry.expires == a.entries[n].expires && LedgerRuns.Edge(a.entries[n].state, entry.state)
    ensures LedgerInv(true, clock, b, g)
  {
    hide LedgerRuns.Sound, Agrees;
    if !a.failedClosed {
      RewroteAgrees(a, b, n, entry, g);
    }
  }

  lemma MarkOwners(handlers: Handlers, h: HandlerId, next: Handler, a: Store, b: Store, g: History, entry: Entry)
    requires OwnerInv(handlers, a, g)
    requires h in handlers && Owns(handlers[h])
    requires RefusedOrRewrote(a, b, handlers[h].Intent().0, entry)
    requires Owns(next) ==> OwnerOk(next, b, g) && next.Intent().0 == handlers[h].Intent().0
    ensures OwnerInv(handlers[h := next], b, g)
  {
    var next' := handlers[h := next];
    forall k | k in next' && Owns(next'[k]) ensures OwnerOk(next'[k], b, g) {
      if k != h {
        assert OwnerOk(handlers[k], a, g);
        assert handlers[k].Intent().0 != handlers[h].Intent().0;
      }
    }
  }

  lemma MarkActive(active: map<Str, ActiveExecution>, handlers: Handlers, h: HandlerId, next: Handler,
                   a: Store, b: Store, n: Str, entry: Entry)
    requires ActiveInv(active, handlers, a)
    requires h in handlers && Continues(handlers[h], next)
    requires n in a.entries && RefusedOrRewrote(a, b, n, entry) && entry.digest == a.entries[n].digest
    requires n in active && !a.failedClosed ==> !entry.state.Terminal()
    requires
      || Present(handlers[h]) == Present(next)
      || (next.Executing? && next.pc == Replied(false) && b.failedClosed)
    requires a.failedClosed ==> b.failedClosed
    requires !Present(handlers[h]) ==> !Present(next)
    ensures ActiveInv(active, handlers[h := next], b)
  {
    var next' := handlers[h := next];
    forall m | m in active ensures ActiveOk(m, active[m], next', b) {
      assert ActiveOk(m, active[m], handlers, a);
    }
    forall k | k in next' && Present(next'[k])
      ensures next'[k].x.nonce in active && active[next'[k].x.nonce].owner == k
    {
      assert k in handlers && Present(handlers[k]) && next'[k].x == handlers[k].x;
    }
  }

  /** An `active` entry under the nonce of owner `h` belongs to `h`, unless the ledger is closed. */
  lemma ActiveIsOwned(active: map<Str, ActiveExecution>, handlers: Handlers, h: HandlerId, a: Store, g: History)
    requires ActiveInv(active, handlers, a) && OwnerInv(handlers, a, g)
    requires h in handlers && Owns(handlers[h]) && !a.failedClosed
    ensures handlers[h].Intent().0 in active ==> active[handlers[h].Intent().0].owner == h && Present(handlers[h])
  {
    var n := handlers[h].Intent().0;
    if n in active {
      assert ActiveOk(n, active[n], handlers, a);
      var k := active[n].owner;
      assert Present(handlers[k]) && Owns(handlers[k]) && handlers[k].Intent().0 == n;
    }
  }

  lemma MarkSpawnedInv(s: State, h: HandlerId, w: Write, next: Handler, refused: Handler)
    requires Inv(s) && Live(s, h)
    requires Owns(s.handlers[h]) && !PastBoundary(s.handlers[h]) && !Effected(s.handlers[h])
    requires s.handlers[h].WantsLedger() && s.ledgerLock == Some(h)
    requires s.handlers[h].Executing? ==>
      && s.handlers[h].pc == Registered
      && next == s.handlers[h].(pc := Running) && refused == s.handlers[h].(pc := Replied(false))
    requires s.handlers[h].Cancelling? ==>
      && s.handlers[h].cpc.Matched?
      && next == s.handlers[h].(cpc := Marked(s.handlers[h].cpc.target))
      && refused == s.handlers[h].(cpc := CancelReplied(None))
    ensures Inv(DoMarkSpawned(s, h, w, next, refused))
  {
    hide LedgerInv, OwnerInv, ActiveInv, SignalInv, MarkSpawned, LedgerRuns.Sound;
    var a := s.handlers[h];
    var n := a.Intent().0;
    OwnerAt(s.handlers, h, s.store, s.history);
    SoundWhenUp(s.clock, s.store, s.history);
    MarkSpawnedRewrites(s.store, n, a.Digest(), w);
    var o := MarkSpawned(s.store, n, a.Digest(), None, w);
    var b := if o.answer.Ok? then next else refused;
    var entry := Advance(s.store.entries[n], SpawnedUncertain);
    MarkLedger(s.clock, s.store, o.store, s.history, n, entry);
    MarkOwners(s.handlers, h, b, s.store, o.store, s.history, entry);
    MarkActive(s.active, s.handlers, h, b, s.store, o.store, n, entry);
    SignalMove(s.handlers, s.nextId, s.history.signals, h, b);
    SetEarly(s.handlers, h, b, s.nextId, s.clock);
    LockMove(s.handlers, h, b, s.activeLock);
    ReadableWhenSound(o.store);
  }

  lemma ReadableWhenSound(store: Store)
    requires LedgerRuns.Sound(store)
    ensures store.disk.File? && store.disk.doc.Current?
  {
  }

  /** After its ledger call `h` holds no ledger lock, and a Cancel that replied holds no `active` lock. */
  lemma LockMove(handlers: Handlers, h: HandlerId, b: Handler, activeLock: Option<HandlerId>)
    requires LockInv(handlers, Some(h), activeLock)
    requires h in handlers && Continues(handlers[h], b)
    requires handlers[h].KeepsActive() ==> b.KeepsActive() || b.Finished()
    requires handlers[h].Executing? ==> !b.KeepsActive() && !handlers[h].WantsActive()
    requires handlers[h].Cancelling? ==> handlers[h].KeepsActive()
    ensures LockInv(handlers[h := b], None, if b.Cancelling? && b.Finished() then None else activeLock)
  {
  }

  lemma SignalMove(handlers: Handlers, nextId: HandlerId, g: Signals, h: HandlerId, b: Handler)
    requires SignalInv(handlers, nextId, g)
    requires h in handlers && Continues(handlers[h], b)
    requires handlers[h].Executing? && handlers[h].signalled ==> b.signalled
    requires b.Cancelling? ==>
      || (handlers[h].cpc.Matched? && b.cpc == Marked(handlers[h].cpc.target))
      || (handlers[h].cpc.Sent? && b.cpc == CancelReplied(Some(handlers[h].cpc.target)))
      || b.cpc == CancelReplied(None)
    ensures SignalInv(handlers[h := b], nextId, g)
  {
    assert SignalOk(h, handlers, g);
    SetSignal(handlers, nextId, g, h, b);
  }

  lemma MarkCompletedInv(s: State, h: HandlerId, w: Write, next: Handler, refused: Handler)
    requires Inv(s) && Live(s, h)
    requires Owns(s.handlers[h]) && PastBoundary(s.handlers[h])
    requires s.handlers[h].WantsLedger() && s.ledgerLock == Some(h)
    requires s.handlers[h].Executing? ==>
      && s.handlers[h].pc == Deregistered
      && next == s.handlers[h].(pc := Replied(true)) && refused == s.handlers[h].(pc := Replied(false))
    requires s.handlers[h].Cancelling? ==>
      && s.handlers[h].cpc.Sent?
      && next == s.handlers[h].(cpc := CancelReplied(Some(s.handlers[h].cpc.target)))
      && refused == s.handlers[h].(cpc := CancelReplied(None))
    ensures Inv(DoMarkCompleted(s, h, w, next, refused))
  {
    hide LedgerInv, OwnerInv, ActiveInv, SignalInv, MarkCompleted, LedgerRuns.Sound;
    var a := s.handlers[h];
    var n := a.Intent().0;
    OwnerAt(s.handlers, h, s.store, s.history);
    SoundWhenUp(s.clock, s.store, s.history);
    MarkCompletedRewrites(s.store, n, a.Digest(), w);
    var o := MarkCompleted(s.store, n, a.Digest(), w);
    var b := if o.answer.Ok? then next else refused;
    var entry := Advance(s.store.entries[n], Completed);
    MarkLedger(s.clock, s.store, o.store, s.history, n, entry);
    MarkOwners(s.handlers, h, b, s.store, o.store, s.history, entry);
    if !s.store.failedClosed {
      ActiveIsOwned(s.active, s.handlers, h, s.store, s.history);
    }
    MarkActive(s.active, s.handlers, h, b, s.store, o.store, n, entry);
    SignalMove(s.handlers, s.nextId, s.history.signals, h, b);
    SetEarly(s.handlers, h, b, s.nextId, s.clock);
    LockMove(s.handlers, h, b, s.activeLock);
    ReadableWhenSound(o.store);
  }

  // ---------------------------------------------------------------- the `active` map

  lemma RegisterActive(active: map<Str, ActiveExecution>, handlers: Handlers, h: HandlerId, store: Store, g: History)
    requires ActiveInv(active, handlers, store) && OwnerInv(handlers, store, g)
    requires h in handlers && handlers[h].Executing? && handlers[h].pc == Reserved
    ensures ActiveInv(active[handlers[h].x.nonce := AsActive(h, handlers[h].x)],
                      handlers[h := handlers[h].(pc := Registered)], store)
  {
    var n, b := handlers[h].x.nonce, handlers[h].(pc := Registered);
    var next, map' := handlers[h := b], active[n := AsActive(h, handlers[h].x)];
    assert OwnerOk(handlers[h], store, g);
    forall m | m in map' ensures ActiveOk(m, map'[m], next, store) {
      if m != n {
        assert ActiveOk(m, active[m], handlers, store);
      }
    }
    forall k | k in next && Present(next[k])
      ensures next[k].x.nonce in map' && map'[next[k].x.nonce].owner == k
    {
      if k != h {
        assert Owns(handlers[k]) && handlers[k].Intent().0 != handlers[h].Intent().0;
      }
    }
  }

  lemma DeregisterActive(active: map<Str, ActiveExecution>, handlers: Handlers, h: HandlerId, store: Store, g: History)
    requires ActiveInv(active, handlers, store) && OwnerInv(handlers, store, g)
    requires h in handlers && handlers[h].Executing? && handlers[h].pc == Exited
    ensures ActiveInv(active - {handlers[h].x.nonce}, handlers[h := handlers[h].(pc := Deregistered)], store)
  {
    var n, b := handlers[h].x.nonce, handlers[h].(pc := Deregistered);
    var next, map' := handlers[h := b], active - {n};
    forall m | m in map' ensures ActiveOk(m, map'[m], next, store) {
      assert ActiveOk(m, active[m], handlers, store);
    }
    forall k | k in next && Present(next[k])
      ensures next[k].x.nonce in map' && map'[next[k].x.nonce].owner == k
    {
      assert k != h && Owns(handlers[k]) && handlers[k].Intent().0 != handlers[h].Intent().0;
    }
  }

  lemma RegisterInv(s: State, h: HandlerId)
    requires Inv(s) && Guard(s, UseActive(h)) && s.handlers[h].Executing? && s.handlers[h].pc.Reserved?
    ensures Inv(AfterActive(s, h))
  {
    hide LedgerInv, OwnerInv, ActiveInv, SignalInv;
    var b := s.handlers[h].(pc := Registered);
    RegisterActive(s.active, s.handlers, h, s.store, s.history);
    SameOwner(s.handlers, h, b, s.store, s.history);
    StillOwns(s.handlers, h, b, s.store, s.history);
    SetOwner(s.handlers, h, b, s.store, s.history);
    SignalMove(s.handlers, s.nextId, s.history.signals, h, b);
    SetEarly(s.handlers, h, b, s.nextId, s.clock);
    ReleaseActive(s.handlers, h, b, s.ledgerLock);
  }

  lemma DeregisterInv(s: State, h: HandlerId)
    requires Inv(s) && Guard(s, UseActive(h)) && s.handlers[h].Executing? && s.handlers[h].pc.Exited?
    ensures Inv(AfterActive(s, h))
  {
    hide LedgerInv, OwnerInv, ActiveInv, SignalInv;
    var b := s.handlers[h].(pc := Deregistered);
    DeregisterActive(s.active, s.handlers, h, s.store, s.history);
    SameOwner(s.handlers, h, b, s.store, s.history);
    StillOwns(s.handlers, h, b, s.store, s.history);
    SetOwner(s.handlers, h, b, s.store, s.history);
    SignalMove(s.handlers, s.nextId, s.history.signals, h, b);
    SetEarly(s.handlers, h, b, s.nextId, s.clock);
    ReleaseActive(s.handlers, h, b, s.ledgerLock);
  }

  lemma ReleaseActive(handlers: Handlers, h: HandlerId, b: Handler, ledgerLock: Option<HandlerId>)
    requires LockInv(handlers, ledgerLock, Some(h))
    requires h in handlers && !b.KeepsActive() && (ledgerLock == Some(h) ==> b.WantsLedger())
    ensures LockInv(handlers[h := b], ledgerLock, None)
  {
  }

  /** The lookup of a Cancel: keep the guard, or refuse and drop it. */
  lemma SearchInv(s: State, h: HandlerId)
    requires Inv(s) && Guard(s, UseActive(h)) && s.handlers[h].Cancelling?
    ensures Inv(AfterActive(s, h))
  {
    hide LedgerInv, OwnerInv, SignalInv, ActiveInv;
    var t := AfterActive(s, h);
    var b := t.handlers[h];
    if Owns(b) {
      SameOwner(s.handlers, h, b, s.store, s.history);
      StillOwns(s.handlers, h, b, s.store, s.history);
    }
    SetOwner(s.handlers, h, b, s.store, s.history);
    SetActive(s.active, s.handlers, s.store, h, b);
    if b.cpc.Matched? {
      ActiveAt(s.active, s.handlers, s.store, b.c.targetNonce);
      MatchSignal(s.handlers, s.nextId, s.history.signals, h, b);
    } else {
      KeepsSilence(s.handlers, s.nextId, s.history.signals, h, b);
    }
    SetEarly(s.handlers, h, b, s.nextId, s.clock);
    if b.KeepsActive() {
      HoldsNothing(s.handlers, h, s.ledgerLock, s.activeLock);
      SetLock(s.handlers, h, b, s.ledgerLock, s.activeLock);
    } else {
      HoldsNothing(s.handlers, h, s.ledgerLock, s.activeLock);
      ReleaseActive(s.handlers, h, b, s.ledgerLock);
    }
  }

  lemma ActiveAt(active: map<Str, ActiveExecution>, handlers: Handlers, store: Store, n: Str)
    requires ActiveInv(active, handlers, store) && n in active
    ensures ActiveOk(n, active[n], handlers, store)
  {
  }

  lemma PresentIsActive(active: map<Str, ActiveExecution>, handlers: Handlers, store: Store, h: HandlerId)
    requires ActiveInv(active, handlers, store) && h in handlers && Present(handlers[h])
    ensures handlers[h].x.nonce in active && active[handlers[h].x.nonce].owner == h
  {
  }

  lemma MatchSignal(handlers: Handlers, nextId: HandlerId, g: Signals, h: HandlerId, b: Handler)
    requires SignalInv(handlers, nextId, g)
    requires h in handlers && Continues(handlers[h], b) && b.Cancelling?
    requires handlers[h].cpc.Searching? && b.cpc.Matched? && Fits(handlers, b.cpc.target, b.c)
    ensures SignalInv(handlers[h := b], nextId, g)
  {
    assert SignalOk(h, handlers, g);
    SetSignal(handlers, nextId, g, h, b);
  }

  // ---------------------------------------------------------------- signals

  function Woken(handlers: Handlers, t: HandlerId): Handlers
    requires t in handlers && handlers[t].Executing?
  {
    handlers[t := handlers[t].(signalled := true)]
  }

  /** Setting one watch to true changes nothing else that the invariant speaks of. */
  lemma WokenInv(s: State, t: HandlerId)
    requires Inv(s) && t in s.handlers && s.handlers[t].Listening()
    ensures OwnerInv(Woken(s.handlers, t), s.store, s.history)
    ensures ActiveInv(s.active, Woken(s.handlers, t), s.store)
    ensures EarlyInv(Woken(s.handlers, t), s.nextId, s.clock)
    ensures LockInv(Woken(s.handlers, t), s.ledgerLock, s.activeLock)
  {
    hide LedgerInv, OwnerInv, ActiveInv, SignalInv;
    var b := s.handlers[t].(signalled := true);
    SameOwner(s.handlers, t, b, s.store, s.history);
    StillOwns(s.handlers, t, b, s.store, s.history);
    SetOwner(s.handlers, t, b, s.store, s.history);
    SetActive(s.active, s.handlers, s.store, t, b);
    SetEarly(s.handlers, t, b, s.nextId, s.clock);
    SetLock(s.handlers, t, b, s.ledgerLock, s.activeLock);
  }

  lemma DeliverSignal(handlers: Handlers, nextId: HandlerId, g: Signals, h: HandlerId, t: HandlerId, b: Handler)
    requires SignalInv(handlers, nextId, g)
    requires h in handlers && h < nextId && Continues(handlers[h], b)
    requires t in handlers && handlers[t].Executing?
    requires b.Executing? ==> t == h && b.signalled
    requires b.Cancelling? ==> handlers[h].cpc == CancelPc.Marked(t) && b.cpc == Sent(t)
    ensures SignalInv(Woken(handlers, t)[h := b], nextId, g + multiset{(h, t)})
  {
    var next, g' := Woken(handlers, t)[h := b], g + multiset{(h, t)};
    assert SignalOk(h, handlers, g);
    forall k | k in next ensures SignalOk(k, next, g') {
      if k != h {
        assert SignalOk(k, handlers, g);
        assert forall u :: g'[(k, u)] == g[(k, u)];
      }
    }
  }

  lemma DisconnectInv(s: State, h: HandlerId)
    requires Inv(s) && Guard(s, UseActive(h)) && s.handlers[h].Executing? && s.handlers[h].pc.Disconnected?
    ensures Inv(AfterActive(s, h))
  {
    hide LedgerInv, OwnerInv, SignalInv, ActiveInv;
    PresentIsActive(s.active, s.handlers, s.store, h);
    var b := s.handlers[h].(pc := Draining, signalled := true);
    assert AfterActive(s, h).handlers == s.handlers[h := b];
    SameOwner(s.handlers, h, b, s.store, s.history);
    StillOwns(s.handlers, h, b, s.store, s.history);
    SetOwner(s.handlers, h, b, s.store, s.history);
    SignalsFrame(s.handlers[h := b], s.store, s.history, s.history.signals + multiset{(h, h)});
    LedgerFrame(s.up, s.clock, s.store, s.history, s.history.signals + multiset{(h, h)});
    SetActive(s.active, s.handlers, s.store, h, b);
    DeliverSignal(s.handlers, s.nextId, s.history.signals, h, h, b);
    assert Woken(s.handlers, h)[h := b] == s.handlers[h := b];
    SetEarly(s.handlers, h, b, s.nextId, s.clock);
    HoldsNothing(s.handlers, h, s.ledgerLock, s.activeLock);
    ReleaseActive(s.handlers, h, b, s.ledgerLock);
  }

  lemma SignalsFrame(handlers: Handlers, store: Store, g: History, signals: Signals)
    requires OwnerInv(handlers, store, g)
    ensures OwnerInv(handlers, store, g.(signals := signals))
  {
    forall k | k in handlers && Owns(handlers[k]) ensures OwnerOk(handlers[k], store, g.(signals := signals)) {
      assert OwnerOk(handlers[k], store, g);
    }
  }

  lemma LedgerFrame(up: bool, clock: i64, store: Store, g: History, signals: Signals)
    requires LedgerInv(up, clock, store, g)
    ensures LedgerInv(up, clock, store, g.(signals := signals))
  {
  }

  lemma SendInv(s: State, h: HandlerId)
    requires Inv(s) && Guard(s, SendSignal(h))
    ensures Inv(AfterSend(s, h))
  {
    hide LedgerInv, OwnerInv, ActiveInv, SignalInv;
    var a := s.handlers[h];
    var t := a.cpc.target;
    if t in s.handlers && s.handlers[t].Listening() {
      var b := a.(cpc := Sent(t));
      var signals := s.history.signals + multiset{(h, t)};
      var woken := Woken(s.handlers, t);
      WokenInv(s, t);
      OwnerAt(s.handlers, h, s.store, s.history);
      SignalsFrame(woken, s.store, s.history, signals);
      LedgerFrame(s.up, s.clock, s.store, s.history, signals);
      EffectLedger(s.up, s.clock, s.store, s.history.(signals := signals), a);
      EffectOwners(woken, h, b, s.store, s.history.(signals := signals));
      SetActive(s.active, woken, s.store, h, b);
      DeliverSignal(s.handlers, s.nextId, s.history.signals, h, t, b);
      SetEarly(woken, h, b, s.nextId, s.clock);
      HoldsNothing(s.handlers, h, s.ledgerLock, s.activeLock);
      SetLock(woken, h, b, s.ledgerLock, s.activeLock);
      OpenWhenUp(s);
    } else {
      var b := a.(cpc := CancelReplied(None));
      SetOwner(s.handlers, h, b, s.store, s.history);
      SetActive(s.active, s.handlers, s.store, h, b);
      SignalMove(s.handlers, s.nextId, s.history.signals, h, b);
      SetEarly(s.handlers, h, b, s.nextId, s.clock);
      HoldsNothing(s.handlers, h, s.ledgerLock, s.activeLock);
      ReleaseActive(s.handlers, h, b, s.ledgerLock);
    }
  }

  lemma OpenWhenUp(s: State)
    requires Inv(s) && s.up
    ensures s.store.disk.File? && s.store.disk.doc.Current?
  {
  }

  // ---------------------------------------------------------------- every step, every run

  lemma LedgerStepInv(s: State, h: HandlerId, pw: Write, w: Write)
    requires Inv(s) && Guard(s, UseLedger(h, pw, w))
    ensures Inv(AfterLedger(s, h, pw, w))
  {
    hide LedgerInv, ActiveInv, SignalInv, OwnerInv;
    var a := s.handlers[h];
    if Owns(a) {
      OwnerAt(s.handlers, h, s.store, s.history);
    }
    assert EarlyOk(a, s.clock);
    hide EarlyInv, LockInv, DoReserve, DoMarkSpawned, DoMarkCompleted;
    if a.Executing? {
      var refused := a.(pc := Replied(false));
      if a.pc.Timed? {
        ReserveInv(s, h, a.pc.now, pw, w, a.(pc := Reserved), refused);
      } else if a.pc.Registered? {
        MarkSpawnedInv(s, h, w, a.(pc := Running), refused);
      } else {
        MarkCompletedInv(s, h, w, a.(pc := Replied(true)), refused);
      }
    } else {
      var refused := a.(cpc := CancelReplied(None));
      if a.cpc.CancelVerified? {
        ReserveInv(s, h, s.clock, pw, w, a.(cpc := CancelReserved), refused);
      } else if a.cpc.Matched? {
        MarkSpawnedInv(s, h, w, a.(cpc := CancelPc.Marked(a.cpc.target)), refused);
      } else {
        MarkCompletedInv(s, h, w, a.(cpc := CancelReplied(Some(a.cpc.target))), refused);
      }
    }
  }

  lemma ActiveStepInv(s: State, h: HandlerId)
    requires Inv(s) && Guard(s, UseActive(h))
    ensures Inv(AfterActive(s, h))
  {
    hide Inv, AfterActive;
    if s.handlers[h].Cancelling? {
      SearchInv(s, h);
    } else if s.handlers[h].pc.Reserved? {
      RegisterInv(s, h);
    } else if s.handlers[h].pc.Disconnected? {
      DisconnectInv(s, h);
    } else {
      DeregisterInv(s, h);
    }
  }

  lemma StepInv(s: State, step: Step)
    requires Inv(s) && Guard(s, step)
    ensures Inv(Apply(s, step))
  {
    hide Inv, AfterLedger, AfterActive, AfterSend, AfterAccept, AfterReadClock, AfterAbandon, AfterStart,
         AfterCrash, AfterRestart, AfterOperator;
    match step
    case Tick(to) => TickInv(s, to);
    case AcceptExecute(x) => AcceptInv(s, Executing(x, Verified, false, false));
    case AcceptCancel(c) => AcceptInv(s, Cancelling(c, CancelVerified));
    case ReadClock(h) => ReadClockInv(s, h);
    case Abandon(h) => AbandonInv(s, h);
    case TakeLedger(h) => TakeLedgerInv(s, h);
    case UseLedger(h, pw, w) => LedgerStepInv(s, h, pw, w);
    case TakeActive(h) => TakeActiveInv(s, h);
    case UseActive(h) => ActiveStepInv(s, h);
    case SendSignal(h) => SendInv(s, h);
    case StartChild(h) => StartChildInv(s, h);
    case NoticeDisconnect(h) => NoticeDisconnectInv(s, h);
    case Finish(h) => FinishInv(s, h);
    case Crash => CrashInv(s);
    case Restart(w) => RestartInv(s, w);
    case Operator(n, d, actor, ack, ow, w) => OperatorInv(s, n, d, actor, ack, ow, w);
  }

  lemma {:induction false} RunInv(s: State, steps: seq<Step>)
    requires Inv(s) && Legal(s, steps)
    ensures Inv(Run(s, steps))
    decreases |steps|
  {
    hide Inv, Apply;
    if steps != [] {
      StepInv(s, steps[0]);
      RunInv(Apply(s, steps[0]), steps[1..]);
    }
  }
}
