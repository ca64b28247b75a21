/** What every run of the replay ledger keeps, across failed writes and reopenings. */
module LedgerRuns {
  import opened Basics
  import opened ReplayLedger

  datatype Op =
    | DoReserve(nonce: Str, digest: Str, expires: i64, now: i64, pruneWrite: Write, write: Write)
    | DoMarkSpawned(nonce: Str, digest: Str, identity: Option<(u32, u64)>, write: Write)
    | DoMarkCompleted(nonce: Str, digest: Str, write: Write)
    | DoReconcile(nonce: Str, decision: Decision, actor: Str, now: i64, acknowledged: bool, write: Write)
    | Reopen(write: Write)

  function Step(s: Store, op: Op): Outcome {
    match op
    case DoReserve(n, d, e, now, pw, w) => Reserve(s, n, d, e, now, pw, w)
    case DoMarkSpawned(n, d, id, w) => MarkSpawned(s, n, d, id, w)
    case DoMarkCompleted(n, d, w) => MarkCompleted(s, n, d, w)
    case DoReconcile(n, dec, actor, now, ack, w) => Reconcile(s, n, dec, actor, now, ack, w)
    case Reopen(w) =>
      var o := Open(s.disk, s.limit, w);
      match o.ledger
      case Ok(t) => Outcome(t, Ok(()))
      case Err(e) => Outcome(s.(disk := o.disk), Err(e))
  }

  function Run(s: Store, ops: seq<Op>): Store
    decreases |ops|
  {
    if ops == [] then s else Run(Step(s, ops[0]).store, ops[1..])
  }

  /** A file that `open` accepts as it stands, holding `entries`. */
  predicate Holds(disk: Disk, limit: nat, entries: Entries) {
    && disk.File?
    && disk.size <= MAX_LEDGER_BYTES
    && disk.doc == Current(entries)
    && |entries| <= limit
    && ValidEntries(entries)
  }

  /** Both the ledger in memory and its file are acceptable. */
  predicate Ready(s: Store) {
    && 0 < s.limit
    && |s.entries| <= s.limit
    && ValidEntries(s.entries)
    && s.disk.File?
    && s.disk.doc.Current?
    && Holds(s.disk, s.limit, s.disk.doc.entries)
  }

  predicate Sound(s: Store) {
    Ready(s) && (!s.failedClosed ==> s.disk.doc.entries == s.entries)
  }

  lemma PrunedIsSmaller(entries: Entries, now: i64)
    ensures |Pruned(entries, now)| <= |entries|
    ensures |Pruned(entries, now)| == |entries| ==> Pruned(entries, now) == entries
  {
    var kept := Pruned(entries, now);
    assert kept.Keys <= entries.Keys;
    SubsetSize(kept.Keys, entries.Keys);
  }

  lemma SubsetSize<T>(a: set<T>, b: set<T>)
    requires a <= b
    ensures |a| <= |b|
    ensures |a| == |b| ==> a == b
  {
    assert b == a + (b - a);
    assert |b| == |a| + |b - a|;
  }

  lemma OpenIsSound(disk: Disk, limit: nat, w: Write)
    ensures Open(disk, limit, w).ledger.Ok? ==> Sound(Open(disk, limit, w).ledger.value)
  {
    if disk.File? && disk.doc.Legacy? {
      assert |MigratedAll(disk.doc.legacy).Keys| == |disk.doc.legacy.Keys|;
    }
  }

  lemma CommitIsSound(s: Store, w: Write)
    requires Ready(s)
    ensures Sound(Commit(s, w).store)
  {
  }

  lemma ReplaceIsSound(s: Store, nonce: Str, entry: Entry, w: Write)
    requires Ready(s)
    requires ValidEntry(nonce, entry)
    requires nonce in s.entries || |s.entries| < s.limit
    ensures Sound(Commit(s.(entries := s.entries[nonce := entry]), w).store)
  {
    var t := s.(entries := s.entries[nonce := entry]);
    assert t.entries.Keys == s.entries.Keys + {nonce};
    CommitIsSound(t, w);
  }

  lemma PruneIsSound(s: Store, now: i64, w: Write)
    requires Sound(s)
    ensures Sound(PruneCompleted(s, now, w).store)
  {
    PrunedIsSmaller(s.entries, now);
    CommitIsSound(s.(entries := Pruned(s.entries, now)), w);
  }

  lemma ReserveIsSound(s: Store, n: Str, d: Str, e: i64, now: i64, pw: Write, w: Write)
    requires Sound(s)
    ensures Sound(Reserve(s, n, d, e, now, pw, w).store)
  {
    if !s.failedClosed && ValidReservation(n, d, e, now) {
      PruneIsSound(s, now, pw);
      var p := PruneCompleted(s, now, pw);
      if p.answer.Ok? && |p.store.entries| < s.limit {
        ReplaceIsSound(p.store, n, FreshEntry(d, e, now), w);
      }
    }
  }

  lemma ReconcileIsSound(s: Store, n: Str, dec: Decision, actor: Str, now: i64, ack: bool, w: Write)
    requires Sound(s)
    ensures Sound(Reconcile(s, n, dec, actor, now, ack, w).store)
  {
    if ValidActor(actor) && n in s.entries {
      var prior := s.entries[n];
      var next := Disposition(prior.state, dec, ack);
      if next.Some? {
        ReplaceIsSound(s, n, Advance(prior, next.value).(
          reconciliation := Some(Reconciliation(actor, now, prior.state, next.value))), w);
      }
    }
  }

  lemma MarkSpawnedIsSound(s: Store, n: Str, d: Str, id: Option<(u32, u64)>, w: Write)
    requires Sound(s)
    ensures Sound(MarkSpawned(s, n, d, id, w).store)
  {
    hide Commit;
    if n in s.entries {
      ReplaceIsSound(s, n, WithIdentity(Advance(s.entries[n], SpawnedUncertain), id), w);
    }
  }

  lemma MarkCompletedIsSound(s: Store, n: Str, d: Str, w: Write)
    requires Sound(s)
    ensures Sound(MarkCompleted(s, n, d, w).store)
  {
    hide Commit;
    if n in s.entries {
      ReplaceIsSound(s, n, Advance(s.entries[n], Completed), w);
    }
  }

  lemma ReopenIsSound(s: Store, w: Write)
    requires Sound(s)
    ensures Sound(Step(s, Reopen(w)).store)
  {
    OpenIsSound(s.disk, s.limit, w);
  }

  lemma StepIsSound(s: Store, op: Op)
    requires Sound(s)
    ensures Sound(Step(s, op).store)
  {
    hide Sound, Reserve, MarkSpawned, MarkCompleted, Reconcile;
    match op
    case DoReserve(n, d, e, now, pw, w) => ReserveIsSound(s, n, d, e, now, pw, w);
    case DoMarkSpawned(n, d, id, w) => MarkSpawnedIsSound(s, n, d, id, w);
    case DoMarkCompleted(n, d, w) => MarkCompletedIsSound(s, n, d, w);
    case DoReconcile(n, dec, actor, now, ack, w) => ReconcileIsSound(s, n, dec, actor, now, ack, w);
    case Reopen(w) => ReopenIsSound(s, w);
  }

  lemma {:induction false} RunIsSound(s: Store, ops: seq<Op>)
    requires Sound(s)
    ensures Sound(Run(s, ops))
    decreases |ops|
  {
    if ops != [] {
      StepIsSound(s, ops[0]);
      RunIsSound(Step(s, ops[0]).store, ops[1..]);
    }
  }

  /** Every file left behind by any run, at any point, reopens to exactly what it holds: the
      ledger in memory, unless a failed write has closed that ledger. */
  lemma PersistedFilesReopen(disk: Disk, limit: nat, w: Write, ops: seq<Op>, again: Write)
    requires Open(disk, limit, w).ledger.Ok?
    ensures
      var s := Run(Open(disk, limit, w).ledger.value, ops);
      var o := Open(s.disk, s.limit, again);
      && o.disk == s.disk
      && o.ledger.Ok?
      && s.disk == File(s.disk.size, Current(o.ledger.value.entries))
      && !o.ledger.value.failedClosed
      && (!s.failedClosed ==> o.ledger.value == s)
  {
    OpenIsSound(disk, limit, w);
    RunIsSound(Open(disk, limit, w).ledger.value, ops);
  }

  // ---------------------------------------------------------------- fail closed

  lemma ClosedStep(s: Store, op: Op)
    requires s.failedClosed && !op.Reopen?
    ensures Step(s, op) == Outcome(s, Err(FailedClosed))
  {
  }

  /** After one failed durable write, or one document refused as too large, nothing succeeds and
      nothing changes until a reopen. */
  lemma {:induction false} FailedWriteCloses(s: Store, op: Op, later: seq<Op>)
    requires !op.Reopen? && (Step(s, op).store.failedClosed || Step(s, op).answer == Err(WriteFailed))
    requires forall i :: 0 <= i < |later| ==> !later[i].Reopen?
    ensures Run(Step(s, op).store, later) == Step(s, op).store
    ensures forall o: Op :: !o.Reopen? ==> Step(Run(Step(s, op).store, later), o).answer == Err(FailedClosed)
  {
    var t := Step(s, op).store;
    assert t.failedClosed;
    ClosedRun(t, later);
    forall o: Op | !o.Reopen? ensures Step(t, o).answer == Err(FailedClosed) {
      ClosedStep(t, o);
    }
  }

  lemma {:induction false} ClosedRun(s: Store, ops: seq<Op>)
    requires s.failedClosed
    requires forall i :: 0 <= i < |ops| ==> !ops[i].Reopen?
    ensures Run(s, ops) == s
    decreases |ops|
  {
    if ops != [] {
      ClosedStep(s, ops[0]);
      ClosedRun(s, ops[1..]);
    }
  }

  // ---------------------------------------------------------------- legal transitions

  predicate Edge(a: ReplayState, b: ReplayState) {
    || a == b
    || (a == ReservedPreSpawn && (b == SpawnedUncertain || b == AbortedBeforeSpawn))
    || (a == SpawnedUncertain && b == Completed)
  }

  /** `now` as the operation reads it, for the operations that read one to prune. */
  predicate PrunesAt(op: Op, entry: Entry) {
    op.DoReserve? && Prunable(entry, op.now)
  }

  /** What one operation may do to the entry of one nonce. */
  predicate LegalMove(before: Entries, after: Entries, op: Op, nonce: Str) {
    if nonce in before then
      var was := before[nonce];
      if nonce !in after then PrunesAt(op, was)
      else
        || (&& Edge(was.state, after[nonce].state)
            && after[nonce].digest == was.digest && after[nonce].expires == was.expires)
        || (PrunesAt(op, was) && after[nonce] == FreshEntry(op.digest, op.expires, op.now))
    else
      nonce in after ==> op.DoReserve? && op.nonce == nonce && after[nonce] == FreshEntry(op.digest, op.expires, op.now)
  }

  lemma ReserveMoves(s: Store, op: Op, nonce: Str)
    requires op.DoReserve?
    ensures LegalMove(s.entries, Step(s, op).store.entries, op, nonce)
  {
    hide Commit, ValidReservation;
    assert PruneCompleted(s, op.now, op.pruneWrite).store.entries == Pruned(s.entries, op.now);
  }

  lemma ReconcileMoves(s: Store, op: Op, nonce: Str)
    requires op.DoReconcile?
    ensures LegalMove(s.entries, Step(s, op).store.entries, op, nonce)
  {
    hide Commit, ValidActor;
  }

  lemma MarkMoves(s: Store, op: Op, nonce: Str)
    requires op.DoMarkSpawned? || op.DoMarkCompleted?
    ensures LegalMove(s.entries, Step(s, op).store.entries, op, nonce)
  {
    hide Commit;
  }

  /** Each operation moves entries along legal edges only, keeps digest and expiry, drops nothing
      but expired terminal entries, and creates entries only as fresh reservations. */
  lemma OnlyLegalTransitions(s: Store, op: Op, nonce: Str)
    requires !op.Reopen?
    ensures LegalMove(s.entries, Step(s, op).store.entries, op, nonce)
  {
    hide Step, LegalMove;
    match op
    case DoReserve(_, _, _, _, _, _) => ReserveMoves(s, op, nonce);
    case DoReconcile(_, _, _, _, _, _) => ReconcileMoves(s, op, nonce);
    case _ => MarkMoves(s, op, nonce);
  }

  // ---------------------------------------------------------------- migration

  /** The file after any number of interrupted `open` calls. */
  function AfterAttempts(disk: Disk, limit: nat, attempts: seq<Write>): Disk
    decreases |attempts|
  {
    if attempts == [] then disk else AfterAttempts(Open(disk, limit, attempts[0]).disk, limit, attempts[1..])
  }

  predicate Migratable(legacy: map<Str, LegacyEntry>, limit: nat) {
    0 < limit && |legacy| <= limit && ValidEntries(MigratedAll(legacy))
  }

  lemma {:induction false} MigrationSettles(disk: Disk, limit: nat, legacy: map<Str, LegacyEntry>, attempts: seq<Write>)
    requires Migratable(legacy, limit)
    requires disk.File? && disk.size <= MAX_LEDGER_BYTES
    requires disk.doc == Legacy(legacy) || disk.doc == Current(MigratedAll(legacy))
    ensures
      var d := AfterAttempts(disk, limit, attempts);
      && d.File? && d.size <= MAX_LEDGER_BYTES
      && (d.doc == Legacy(legacy) || d.doc == Current(MigratedAll(legacy)))
    decreases |attempts|
  {
    if attempts != [] {
      assert |MigratedAll(legacy).Keys| == |legacy.Keys|;
      MigrationSettles(Open(disk, limit, attempts[0]).disk, limit, legacy, attempts[1..]);
    }
  }

  /** However often the version-1 migration is interrupted, the next `open` that succeeds gives the
      same ledger: every nonce, digest and expiry is kept, and a v1 reservation becomes
      uncertain rather than recoverable. */
  lemma MigrationIsRepeatable(size: nat, legacy: map<Str, LegacyEntry>, limit: nat, attempts: seq<Write>, w: Write)
    requires Migratable(legacy, limit) && size <= MAX_LEDGER_BYTES
    requires Open(AfterAttempts(File(size, Legacy(legacy)), limit, attempts), limit, w).ledger.Ok?
    ensures
      var o := Open(AfterAttempts(File(size, Legacy(legacy)), limit, attempts), limit, w);
      && o.ledger.value.entries == MigratedAll(legacy)
      && o.disk.File? && o.disk.doc == Current(o.ledger.value.entries)
      && forall n :: n in legacy ==>
           var entry := o.ledger.value.entries[n];
           && entry.digest == legacy[n].digest
           && entry.expires == legacy[n].expires
           && entry.state == (if legacy[n].state.LegacyReserved? then SpawnedUncertain else Completed)
  {
    MigrationSettles(File(size, Legacy(legacy)), limit, legacy, attempts);
    assert |MigratedAll(legacy).Keys| == |legacy.Keys|;
  }

  /** An open with a write that succeeds gets through, however the earlier ones ended. */
  lemma MigrationGetsThrough(size: nat, legacy: map<Str, LegacyEntry>, limit: nat, attempts: seq<Write>, w: Write)
    requires Migratable(legacy, limit) && size <= MAX_LEDGER_BYTES
    requires w.fate == Synced && w.size <= MAX_LEDGER_BYTES
    ensures Open(AfterAttempts(File(size, Legacy(legacy)), limit, attempts), limit, w).ledger.Ok?
  {
    MigrationSettles(File(size, Legacy(legacy)), limit, legacy, attempts);
    assert |MigratedAll(legacy).Keys| == |legacy.Keys|;
  }
}
