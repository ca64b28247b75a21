/** What every step of the broker protocol keeps. */
module BrokerInvariant {
  import opened Basics
  import opened ReplayLedger
  import opened BrokerProtocol
  import LedgerRuns

  // ---------------------------------------------------------------- the invariant

  /** The entries a restart would read back. */
  function Durable(disk: Disk): Entries {
    if disk.File? && disk.doc.Current? then disk.doc.entries else map[]
  }

  ghost predicate At(es: Entries, i: Intent) {
    i.0 in es && es[i.0].expires == i.1
  }

  /** The entry has durably crossed the side-effect boundary. */
  ghost predicate Crossed(es: Entries, i: Intent) {
    At(es, i) && (es[i.0].state == SpawnedUncertain || es[i.0].state == Completed)
  }

  ghost predicate Untouched(entry: Entry) {
    entry.state == ReservedPreSpawn || entry.state == AbortedBeforeSpawn
  }

  /** One copy of the ledger, in memory or on disk, accounts for the history. */
  ghost predicate Agrees(es: Entries, g: History) {
    && (forall i :: i in g.reservations ==> i in g.retired || At(es, i))
    && (forall i :: i in g.effects ==> i in g.retired || Crossed(es, i))
    && (forall i :: i in g.ran && i.0 in es ==> !Untouched(es[i.0]))
    && (forall i :: i in g.ran ==> i.0 in g.dropped || Crossed(es, i))
  }

  ghost predicate Counted(g: History) {
    && (forall i :: g.reservations[i] <= 1 + g.late[i])
    && (forall i :: g.effects[i] <= g.reservations[i])
  }

  ghost predicate Timely(g: History, clock: i64) {
    && g.pruneTime <= clock
    && (forall i :: i in g.retired ==> i.1 < g.pruneTime)
    && (forall i :: i in g.late ==> i.1 < clock)
  }

  ghost predicate LedgerInv(up: bool, clock: i64, store: Store, g: History) {
    && Counted(g)
    && Timely(g, clock)
    && Agrees(Durable(store.disk), g)
    && (up ==> LedgerRuns.Sound(store) && Agrees(store.entries, g))
  }

  ghost predicate Owns(h: Handler) {
    if h.Executing? then !h.pc.Verified? && !h.pc.Timed? && !h.pc.Replied?
    else !h.cpc.CancelVerified? && !h.cpc.CancelReplied?
  }

  ghost predicate PastBoundary(h: Handler) {
    if h.Executing? then h.pc.Running? || h.pc.Disconnected? || h.pc.Draining? || h.pc.Exited? || h.pc.Deregistered?
    else h.cpc.Marked? || h.cpc.Sent?
  }

  ghost predicate Effected(h: Handler) {
    if h.Executing? then h.started else h.cpc.Sent?
  }

  /** A handler between its reservation and its completion owns its ledger entry. */
  ghost predicate OwnerOk(h: Handler, store: Store, g: History) {
    var i := h.Intent();
    && At(store.entries, i)
    && store.entries[i.0].digest == h.Digest()
    && store.entries[i.0].state == (if PastBoundary(h) then SpawnedUncertain else ReservedPreSpawn)
    && At(Durable(store.disk), i)
    && (PastBoundary(h) ==> Durable(store.disk)[i.0].state == SpawnedUncertain)
    && i in g.reservations
    && (Effected(h) ==> PastBoundary(h))
    && (!Effected(h) ==> g.effects[i] < g.reservations[i])
  }

  type Handlers = map<HandlerId, Handler>

  ghost predicate OwnerInv(handlers: Handlers, store: Store, g: History) {
    && (forall h :: h in handlers && Owns(handlers[h]) ==> OwnerOk(handlers[h], store, g))
    && (forall h, k :: h in handlers && k in handlers && h != k && Owns(handlers[h]) && Owns(handlers[k]) ==>
          handlers[h].Intent().0 != handlers[k].Intent().0)
  }

  ghost predicate EarlyOk(h: Handler, clock: i64) {
    h.Executing? ==>
      && (h.pc.Timed? ==> h.pc.now <= clock && h.pc.now <= h.x.expires)
      && (h.pc.Verified? || h.pc.Timed? || h.pc.Reserved? || h.pc.Registered? ==> !h.started)
  }

  ghost predicate EarlyInv(handlers: Handlers, nextId: HandlerId, clock: i64) {
    forall h :: h in handlers ==> h < nextId && EarlyOk(handlers[h], clock)
  }

  ghost predicate Present(h: Handler) {
    h.Listening() || (h.Executing? && h.pc.Exited?)
  }

  ghost predicate ActiveOk(n: Str, a: ActiveExecution, handlers: Handlers, store: Store) {
    && a.owner in handlers
    && handlers[a.owner].Executing?
    && a == AsActive(a.owner, handlers[a.owner].x)
    && a.nonce == n
    && n in store.entries
    && store.entries[n].digest == a.digest
    && !store.entries[n].state.Terminal()
    && (Present(handlers[a.owner]) || (handlers[a.owner].pc == Replied(false) && store.failedClosed))
  }

  ghost predicate ActiveInv(active: map<Str, ActiveExecution>, handlers: Handlers, store: Store) {
    && (forall n :: n in active ==> ActiveOk(n, active[n], handlers, store))
    && (forall h :: h in handlers && Present(handlers[h]) ==>
          handlers[h].x.nonce in active && active[handlers[h].x.nonce].owner == h)
  }

  /** Execution `t` is the one the Cancel names. */
  ghost predicate Fits(handlers: Handlers, t: HandlerId, c: Cancel) {
    && t in handlers
    && handlers[t].Executing?
    && Matches(AsActive(t, handlers[t].x), c)
  }

  type Signals = multiset<(HandlerId, HandlerId)>

  ghost predicate Silent(g: Signals, k: HandlerId) {
    forall u :: g[(k, u)] == 0
  }

  ghost predicate SignalledOnly(g: Signals, k: HandlerId, t: HandlerId) {
    g[(k, t)] == 1 && forall u :: u != t ==> g[(k, u)] == 0
  }

  ghost predicate SignalOk(k: HandlerId, handlers: Handlers, g: Signals)
    requires k in handlers
  {
    var h := handlers[k];
    if h.Executing? then
      forall u :: u != k ==> g[(k, u)] == 0
    else
      match h.cpc
      case CancelVerified => Silent(g, k)
      case CancelReserved => Silent(g, k)
      case Searching => Silent(g, k)
      case Matched(t) => Silent(g, k) && Fits(handlers, t, h.c)
      case Marked(t) => Silent(g, k) && Fits(handlers, t, h.c)
      case Sent(t) => SignalledOnly(g, k, t) && Fits(handlers, t, h.c) && handlers[t].signalled
      case CancelReplied(answer) =>
        answer.Some? ==>
          SignalledOnly(g, k, answer.value) && Fits(handlers, answer.value, h.c) && handlers[answer.value].signalled
  }

  ghost predicate SignalInv(handlers: Handlers, nextId: HandlerId, g: Signals) {
    && (forall k :: k in handlers ==> SignalOk(k, handlers, g))
    && (forall k, u :: nextId <= k ==> g[(k, u)] == 0)
  }

  ghost predicate LockInv(handlers: Handlers, ledgerLock: Option<HandlerId>, activeLock: Option<HandlerId>) {
    && (ledgerLock.Some? ==>
          ledgerLock.value in handlers && handlers[ledgerLock.value].WantsLedger())
    && (activeLock.Some? ==>
          && activeLock.value in handlers
          && (handlers[activeLock.value].WantsActive() || handlers[activeLock.value].KeepsActive()))
    && (forall h :: h in handlers && handlers[h].KeepsActive() ==> activeLock == Some(h))
  }

  ghost predicate DownInv(s: State) {
    && 0 < s.limit
    && (!s.up ==> s.handlers == map[] && s.active == map[] && s.ledgerLock == None && s.activeLock == None)
    && (s.up ==> s.store.limit == s.limit)
    && (!(s.store.disk.File? && s.store.disk.doc.Current?) ==>
          s.history.reservations == multiset{} && s.history.effects == multiset{} && s.history.ran == {})
  }

  ghost predicate Inv(s: State) {
    && DownInv(s)
    && LedgerInv(s.up, s.clock, s.store, s.history)
    && OwnerInv(s.handlers, s.store, s.history)
    && EarlyInv(s.handlers, s.nextId, s.clock)
    && ActiveInv(s.active, s.handlers, s.store)
    && SignalInv(s.handlers, s.nextId, s.history.signals)
    && LockInv(s.handlers, s.ledgerLock, s.activeLock)
  }

  lemma InitInv(s: State)
    requires Init(s)
    ensures Inv(s)
  {
  }

  // ---------------------------------------------------------------- ledger copies and history

  lemma AgreesAdvance(es: Entries, g: History, n: Str, entry: Entry)
    requires Agrees(es, g)
    requires n in es && entry.expires == es[n].expires
    requires LedgerRuns.Edge(es[n].state, entry.state)
    ensures Agrees(es[n := entry], g)
  {
  }

  lemma AgreesPruned(es: Entries, g: History, now: i64)
    requires Agrees(es, g)
    ensures Agrees(es, Pruning(g, es, now))
    ensures Agrees(Pruned(es, now), Pruning(g, es, now))
  {
  }

  lemma AgreesInsert(es: Entries, g: History, n: Str, entry: Entry)
    requires Agrees(es, g)
    requires n !in es
    ensures Agrees(es[n := entry], Inserting(g, n))
  {
  }

  /** What a call that rewrites the one entry `n` does to both copies. */
  ghost predicate Rewrote(a: Store, b: Store, n: Str, entry: Entry) {
    && n in a.entries
    && b.limit == a.limit
    && Durable(a.disk) == a.entries
    && b.entries == a.entries[n := entry]
    && b.disk.File? && b.disk.doc.Current?
    && (Durable(b.disk) == a.entries || Durable(b.disk) == b.entries)
    && (!b.failedClosed ==> Durable(b.disk) == b.entries)
  }

  lemma MarkSpawnedRewrites(a: Store, n: Str, d: Str, w: Write)
    requires LedgerRuns.Sound(a)
    requires n in a.entries && a.entries[n].digest == d && a.entries[n].state == ReservedPreSpawn
    ensures
      var o := MarkSpawned(a, n, d, None, w);
      && LedgerRuns.Sound(o.store)
      && (if a.failedClosed then o.store == a else Rewrote(a, o.store, n, Advance(a.entries[n], SpawnedUncertain)))
      && o.answer.Err? == o.store.failedClosed
  {
    LedgerRuns.StepIsSound(a, LedgerRuns.DoMarkSpawned(n, d, None, w));
  }

  lemma MarkCompletedRewrites(a: Store, n: Str, d: Str, w: Write)
    requires LedgerRuns.Sound(a)
    requires n in a.entries && a.entries[n].digest == d && a.entries[n].state == SpawnedUncertain
    ensures
      var o := MarkCompleted(a, n, d, w);
      && LedgerRuns.Sound(o.store)
      && (if a.failedClosed then o.store == a else Rewrote(a, o.store, n, Advance(a.entries[n], Completed)))
      && o.answer.Err? == o.store.failedClosed
  {
    LedgerRuns.StepIsSound(a, LedgerRuns.DoMarkCompleted(n, d, w));
  }

  lemma RewroteAgrees(a: Store, b: Store, n: Str, entry: Entry, g: History)
    requires Rewrote(a, b, n, entry)
    requires entry.expires == a.entries[n].expires && LedgerRuns.Edge(a.entries[n].state, entry.state)
    requires Agrees(a.entries, g)
    ensures Agrees(b.entries, g) && Agrees(Durable(b.disk), g)
  {
    AgreesAdvance(a.entries, g, n, entry);
  }

  /** What a reservation call that reaches its prune does to both copies. */
  ghost predicate ReservedIn(a: Store, b: Store, n: Str, entry: Entry, now: i64, inserts: bool) {
    var pruned := Pruned(a.entries, now);
    && Durable(a.disk) == a.entries
    && b.disk.File? && b.disk.doc.Current?
    && (b.entries == pruned || (inserts && b.entries == pruned[n := entry]))
    && (Durable(b.disk) == a.entries || Durable(b.disk) == pruned || (inserts && Durable(b.disk) == pruned[n := entry]))
    && (inserts ==> n !in pruned)
  }

  lemma ReserveFacts(a: Store, n: Str, d: Str, e: i64, now: i64, pw: Write, w: Write)
    requires LedgerRuns.Sound(a)
    ensures
      var o := Reserve(a, n, d, e, now, pw, w);
      var inserts := Inserts(a, n, d, e, now, pw);
      && LedgerRuns.Sound(o.store)
      && o.store.limit == a.limit
      && (if ReachesPrune(a, n, d, e, now) then ReservedIn(a, o.store, n, FreshEntry(d, e, now), now, inserts)
          else o.store == a && o.answer.Err?)
      && (o.answer.Ok? ==>
            && inserts
            && o.store.entries == Pruned(a.entries, now)[n := FreshEntry(d, e, now)]
            && Durable(o.store.disk) == o.store.entries)
  {
    LedgerRuns.ReserveIsSound(a, n, d, e, now, pw, w);
    LedgerRuns.PrunedIsSmaller(a.entries, now);
  }

  // ---------------------------------------------------------------- replacing one handler

  /** `b` may own its nonce in place of, or beside, the other handlers. */
  ghost predicate MayOwn(handlers: Handlers, h: HandlerId, b: Handler) {
    forall k :: k in handlers && k != h && Owns(handlers[k]) ==> handlers[k].Intent().0 != b.Intent().0
  }

  lemma SetOwner(handlers: Handlers, h: HandlerId, b: Handler, store: Store, g: History)
    requires OwnerInv(handlers, store, g)
    requires Owns(b) ==> OwnerOk(b, store, g) && MayOwn(handlers, h, b)
    ensures OwnerInv(handlers[h := b], store, g)
  {
  }

  lemma StillOwns(handlers: Handlers, h: HandlerId, b: Handler, store: Store, g: History)
    requires OwnerInv(handlers, store, g)
    requires h in handlers && Owns(handlers[h]) && b.Intent().0 == handlers[h].Intent().0
    ensures MayOwn(handlers, h, b)
  {
  }

  /** Same connection, further along. */
  ghost predicate Continues(a: Handler, b: Handler) {
    && !a.Finished()
    && a.Executing? == b.Executing?
    && (a.Executing? ==> a.x == b.x)
    && (a.Cancelling? ==> a.c == b.c)
  }

  lemma SetActive(active: map<Str, ActiveExecution>, handlers: Handlers, store: Store, h: HandlerId, b: Handler)
    requires ActiveInv(active, handlers, store)
    requires h in handlers && Continues(handlers[h], b) && Present(handlers[h]) == Present(b)
    ensures ActiveInv(active, handlers[h := b], store)
  {
  }

  lemma SetSignal(handlers: Handlers, nextId: HandlerId, g: Signals, h: HandlerId, b: Handler)
    requires SignalInv(handlers, nextId, g)
    requires h in handlers && Continues(handlers[h], b)
    requires handlers[h].Executing? && handlers[h].signalled ==> b.signalled
    requires SignalOk(h, handlers[h := b], g)
    ensures SignalInv(handlers[h := b], nextId, g)
  {
    var next := handlers[h := b];
    forall k | k in next ensures SignalOk(k, next, g) {
      if k != h {
        assert SignalOk(k, handlers, g);
      }
    }
  }

  lemma SameOwner(handlers: Handlers, h: HandlerId, b: Handler, store: Store, g: History)
    requires OwnerInv(handlers, store, g)
    requires h in handlers && Owns(handlers[h]) && Continues(handlers[h], b)
    requires PastBoundary(b) == PastBoundary(handlers[h]) && Effected(b) == Effected(handlers[h])
    ensures OwnerOk(b, store, g)
  {
    assert OwnerOk(handlers[h], store, g);
  }

  lemma HoldsNothing(handlers: Handlers, h: HandlerId, ledgerLock: Option<HandlerId>, activeLock: Option<HandlerId>)
    requires LockInv(handlers, ledgerLock, activeLock)
    requires h in handlers
    ensures !handlers[h].WantsLedger() ==> ledgerLock != Some(h)
    ensures !handlers[h].WantsActive() && !handlers[h].KeepsActive() ==> activeLock != Some(h)
  {
  }

  lemma SetLock(handlers: Handlers, h: HandlerId, b: Handler, ledgerLock: Option<HandlerId>,
      activeLock: Option<HandlerId>)
    requires LockInv(handlers, ledgerLock, activeLock)
    requires ledgerLock == Some(h) ==> b.WantsLedger()
    requires activeLock == Some(h) ==> b.WantsActive() || b.KeepsActive()
    requires b.KeepsActive() ==> activeLock == Some(h)
    ensures LockInv(handlers[h := b], ledgerLock, activeLock)
  {
  }

  lemma SetEarly(handlers: Handlers, h: HandlerId, b: Handler, nextId: HandlerId, clock: i64)
    requires EarlyInv(handlers, nextId, clock)
    requires h < nextId && EarlyOk(b, clock)
    ensures EarlyInv(handlers[h := b], nextId, clock)
  {
  }

  lemma SetNewcomer(active: map<Str, ActiveExecution>, handlers: Handlers, store: Store, h: HandlerId, b: Handler)
    requires ActiveInv(active, handlers, store)
    requires h !in handlers && !Present(b)
    ensures ActiveInv(active, handlers[h := b], store)
  {
  }

  lemma SetNewcomerSignals(handlers: Handlers, nextId: HandlerId, g: Signals, b: Handler)
    requires SignalInv(handlers, nextId, g)
    requires nextId !in handlers
    requires b.Cancelling? ==> b.cpc == CancelVerified
    ensures SignalInv(handlers[nextId := b], nextId + 1, g)
  {
    var next := handlers[nextId := b];
    forall k | k in next ensures SignalOk(k, next, g) {
      if k != nextId {
        assert SignalOk(k, handlers, g);
      }
    }
  }
}
