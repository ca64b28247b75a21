/**
  The crash-conservative replay ledger of the Unix broker.

  `Store` is the open ledger together with the file it owns.  The functions give each operation
  as a step of that pair; the class `LedgerObject.Ledger` is the object, and each of its methods is
  proved to be that step.  Whether a durable write succeeds, and how large the serialized file
  is, are inputs.
*/
module ReplayLedger {
  import opened Basics

  const MAX_LEDGER_BYTES := 4 * 1024 * 1024
  const MAX_NONCE_BYTES := 256

  datatype ReplayState = ReservedPreSpawn | SpawnedUncertain | Completed | AbortedBeforeSpawn {
    predicate Terminal() {
      Completed? || AbortedBeforeSpawn?
    }
  }

  datatype Reconciliation = Reconciliation(actor: Str, at: i64, prior: ReplayState, next: ReplayState)

  datatype Entry = Entry(
    digest: Str,
    reservedAt: i64,
    expires: i64,
    transitions: u64,
    state: ReplayState,
    pid: Option<u32>,
    birth: Option<u64>,
    resultDigest: Option<Str>,
    reconciliation: Option<Reconciliation>)

  type Entries = map<Str, Entry>

  datatype LegacyState = LegacyReserved | LegacyCompleted

  datatype LegacyEntry = LegacyEntry(digest: Str, expires: i64, state: LegacyState)

  /** What the ledger file parses to. */
  datatype Document =
    | Unreadable
    | Legacy(legacy: map<Str, LegacyEntry>)
    | Current(entries: Entries)
    | Forward(version: nat)

  datatype Disk = NoFile | File(size: nat, doc: Document)

  /** The fate of one atomic replace: durable, failed with the old file, failed with the new one. */
  datatype Fate = Synced | LostWrite | LandedWrite

  datatype Write = Write(size: nat, fate: Fate)

  datatype LedgerError = Replay | DigestConflict | Full | Corrupt | WriteFailed | FailedClosed | Invalid

  type Answer = Result<(), LedgerError>

  datatype Store = Store(limit: nat, disk: Disk, entries: Entries, failedClosed: bool)

  datatype Outcome = Outcome(store: Store, answer: Answer)

  datatype Decision = MarkAborted | MarkComplete

  // ---------------------------------------------------------------- validation

  predicate ValidNonce(nonce: Str) {
    0 < |nonce| <= MAX_NONCE_BYTES && 0 !in nonce
  }

  predicate ValidReservation(nonce: Str, digest: Str, expires: i64, now: i64) {
    ValidNonce(nonce) && IsDigest(digest) && now <= expires
  }

  predicate ValidActor(actor: Str) {
    0 < |actor| <= 128 && 10 !in actor && 13 !in actor && 0 !in actor
  }

  predicate ValidEntry(nonce: Str, entry: Entry) {
    && ValidReservation(nonce, entry.digest, entry.expires, I64_MIN)
    && entry.transitions != 0
    && entry.pid.Some? == entry.birth.Some?
    && (entry.resultDigest.Some? ==> IsDigest(entry.resultDigest.value))
    && (entry.reconciliation.Some? ==> ValidActor(entry.reconciliation.value.actor))
  }

  predicate ValidEntries(entries: Entries) {
    forall n :: n in entries ==> ValidEntry(n, entries[n])
  }

  // ---------------------------------------------------------------- operations

  function FreshEntry(digest: Str, expires: i64, now: i64): Entry {
    Entry(digest, now, expires, 1, ReservedPreSpawn, None, None, None, None)
  }

  function Bump(n: u64): u64 {
    if n == U64_MAX then n else n + 1
  }

  predicate Prunable(entry: Entry, now: i64) {
    entry.state.Terminal() && entry.expires < now
  }

  function Pruned(entries: Entries, now: i64): (kept: Entries)
    ensures forall n :: n in kept <==> n in entries && !Prunable(entries[n], now)
    ensures forall n :: n in kept ==> kept[n] == entries[n]
  {
    map n | n in entries && !Prunable(entries[n], now) :: entries[n]
  }

  /** `persist`: serialize, refuse an oversized file, replace atomically. */
  function Persist(s: Store, w: Write): (o: Outcome)
    ensures o.store == s.(disk := o.store.disk)
    ensures o.store.disk == s.disk || o.store.disk == File(w.size, Current(s.entries))
  {
    if w.size > MAX_LEDGER_BYTES then
      Outcome(s, Err(Full))
    else
      var written := s.(disk := File(w.size, Current(s.entries)));
      match w.fate
      case Synced => Outcome(written, Ok(()))
      case LostWrite => Outcome(s, Err(WriteFailed))
      case LandedWrite => Outcome(written, Err(WriteFailed))
  }

  /** `persist` as every mutation calls it: a failure closes the ledger. */
  function Commit(s: Store, w: Write): (o: Outcome)
    ensures o.store.entries == s.entries && o.store.limit == s.limit
    ensures o.answer.Ok? ==> o.store.disk == File(w.size, Current(s.entries)) && w.size <= MAX_LEDGER_BYTES
    ensures o.answer.Err? ==> o.store.failedClosed
  {
    var p := Persist(s, w);
    if p.answer.Err? then Outcome(p.store.(failedClosed := true), p.answer) else p
  }

  function PruneCompleted(s: Store, now: i64, w: Write): Outcome {
    var kept := s.(entries := Pruned(s.entries, now));
    if |kept.entries| != |s.entries| then Commit(kept, w) else Outcome(kept, Ok(()))
  }

  function Reserve(s: Store, nonce: Str, digest: Str, expires: i64, now: i64, pruneWrite: Write,
      write: Write): Outcome {
    if s.failedClosed then
      Outcome(s, Err(FailedClosed))
    else if !ValidReservation(nonce, digest, expires, now) then
      Outcome(s, Err(Invalid))
    else
      var p := PruneCompleted(s, now, pruneWrite);
      if p.answer.Err? then
        p
      else if nonce in p.store.entries then
        Outcome(p.store, Err(if p.store.entries[nonce].digest == digest then Replay else DigestConflict))
      else if |p.store.entries| >= s.limit then
        Outcome(p.store, Err(Full))
      else
        Commit(p.store.(entries := p.store.entries[nonce := FreshEntry(digest, expires, now)]), write)
  }

  function WithIdentity(entry: Entry, identity: Option<(u32, u64)>): Entry {
    match identity
    case Some((pid, birth)) => entry.(pid := Some(pid), birth := Some(birth))
    case None => entry
  }

  function Advance(entry: Entry, next: ReplayState): Entry {
    entry.(state := next, transitions := Bump(entry.transitions))
  }

  function MarkSpawned(s: Store, nonce: Str, digest: Str, identity: Option<(u32, u64)>, w: Write): Outcome {
    if s.failedClosed then
      Outcome(s, Err(FailedClosed))
    else if nonce !in s.entries then
      Outcome(s, Err(Replay))
    else if s.entries[nonce].digest != digest then
      Outcome(s, Err(DigestConflict))
    else if s.entries[nonce].state != ReservedPreSpawn then
      Outcome(s, Err(Replay))
    else
      var entry := WithIdentity(Advance(s.entries[nonce], SpawnedUncertain), identity);
      Commit(s.(entries := s.entries[nonce := entry]), w)
  }

  function MarkCompleted(s: Store, nonce: Str, digest: Str, w: Write): Outcome {
    if s.failedClosed then
      Outcome(s, Err(FailedClosed))
    else if nonce !in s.entries then
      Outcome(s, Err(Replay))
    else if s.entries[nonce].digest != digest then
      Outcome(s, Err(DigestConflict))
    else if s.entries[nonce].state != SpawnedUncertain then
      Outcome(s, Err(Replay))
    else
      Commit(s.(entries := s.entries[nonce := Advance(s.entries[nonce], Completed)]), w)
  }

  /** The state an operator decision leads to, if the durable state admits it. */
  function Disposition(prior: ReplayState, decision: Decision, acknowledged: bool): Option<ReplayState> {
    match decision
    case MarkAborted => if prior == ReservedPreSpawn then Some(AbortedBeforeSpawn) else None
    case MarkComplete => if prior == SpawnedUncertain && acknowledged then Some(Completed) else None
  }

  function Reconcile(s: Store, nonce: Str, decision: Decision, actor: Str, now: i64, acknowledged: bool,
      w: Write): Outcome {
    if s.failedClosed then
      Outcome(s, Err(FailedClosed))
    else if !ValidActor(actor) then
      Outcome(s, Err(Invalid))
    else if nonce !in s.entries then
      Outcome(s, Err(Replay))
    else
      var prior := s.entries[nonce];
      match Disposition(prior.state, decision, acknowledged)
      case None => Outcome(s, Err(Invalid))
      case Some(next) =>
        var entry := Advance(prior, next).(
          reconciliation := Some(Reconciliation(actor, now, prior.state, next)));
        Commit(s.(entries := s.entries[nonce := entry]), w)
  }

  function Migrated(entry: LegacyEntry): Entry {
    var state := match entry.state case LegacyReserved => SpawnedUncertain case LegacyCompleted => Completed;
    Entry(entry.digest, 0, entry.expires, 1, state, None, None, None, None)
  }

  function MigratedAll(legacy: map<Str, LegacyEntry>): (entries: Entries)
    ensures entries.Keys == legacy.Keys
  {
    map n | n in legacy :: Migrated(legacy[n])
  }

  /** The result of `open`: the ledger or an error, and the file it leaves behind. */
  datatype Opened = Opened(ledger: Result<Store, LedgerError>, disk: Disk)

  function OpenWith(disk: Disk, limit: nat, entries: Entries, w: Write): Opened {
    var p := Persist(Store(limit, disk, entries, false), w);
    Opened(if p.answer.Ok? then Ok(p.store) else Err(p.answer.error), p.store.disk)
  }

  function Open(disk: Disk, limit: nat, w: Write): Opened {
    if limit == 0 then
      Opened(Err(Invalid), disk)
    else
      match disk
      case NoFile => OpenWith(disk, limit, map[], w)
      case File(size, doc) =>
        if size > MAX_LEDGER_BYTES then
          Opened(Err(Corrupt), disk)
        else
          match doc
          case Unreadable => Opened(Err(Corrupt), disk)
          case Forward(_) => Opened(Err(Corrupt), disk)
          case Legacy(legacy) =>
            var entries := MigratedAll(legacy);
            if |legacy| > limit || !ValidEntries(entries) then
              Opened(Err(Corrupt), disk)
            else
              OpenWith(disk, limit, entries, w)
          case Current(entries) =>
            if |entries| > limit || !ValidEntries(entries) then
              Opened(Err(Corrupt), disk)
            else
              Opened(Ok(Store(limit, disk, entries, false)), disk)
  }
}
