/**
  What each ledger call answers and leaves behind, spelled out field by field and without the
  definitions of the calls.
*/
module LedgerLaws {
  import opened Basics
  import opened ReplayLedger
  import LedgerRuns
  import W = WindowsLedger

  // ---------------------------------------------------------------- vocabulary

  predicate Hexadecimal(s: Str) {
    |s| == 64 && forall i :: 0 <= i < 64 ==> 48 <= s[i] <= 57 || 97 <= s[i] <= 102
  }

  /** What the Windows ledger takes for a digest: digits and any lower-case letters. */
  predicate LowerText(s: Str) {
    |s| == 64 && forall i :: 0 <= i < 64 ==> 48 <= s[i] <= 57 || 97 <= s[i] <= 122
  }

  predicate Named(nonce: Str) {
    nonce != [] && |nonce| <= 256 && forall i :: 0 <= i < |nonce| ==> nonce[i] != 0
  }

  predicate Signed(actor: Str) {
    actor != [] && |actor| <= 128 && forall i :: 0 <= i < |actor| ==> actor[i] !in {0, 10, 13}
  }

  predicate Unfinished(entry: Entry) {
    entry.state == ReservedPreSpawn || entry.state == SpawnedUncertain
  }

  /** A prune retains it. */
  predicate Retained(entry: Entry, now: i64) {
    Unfinished(entry) || entry.expires >= now
  }

  function Survivors(entries: Entries, now: i64): set<Str> {
    set n | n in entries && Retained(entries[n], now)
  }

  predicate WellKept(nonce: Str, entry: Entry) {
    && Named(nonce) && Hexadecimal(entry.digest) && entry.transitions > 0
    && (entry.pid == None <==> entry.birth == None)
    && (entry.resultDigest == None || Hexadecimal(entry.resultDigest.value))
    && (entry.reconciliation == None || Signed(entry.reconciliation.value.actor))
  }

  predicate WellKeptOnWindows(nonce: Str, entry: Entry) {
    && Named(nonce) && LowerText(entry.digest) && entry.transitions > 0
    && (entry.pid == None <==> entry.birth == None)
    && (entry.resultDigest == None || LowerText(entry.resultDigest.value))
    && (entry.reconciliation == None
        || (&& Signed(entry.reconciliation.value.actor)
            && entry.reconciliation.value.prior != entry.reconciliation.value.next))
  }

  /** The write is durable. */
  predicate Works(w: Write) {
    w.fate == Synced && w.size <= 4_194_304
  }

  /** The same entries but for `nonce`. */
  ghost predicate OthersSame(before: Entries, after: Entries, nonce: Str) {
    forall n :: n != nonce ==> (n in after <==> n in before) && (n in before ==> after[n] == before[n])
  }

  /** `after` is `before` one transition later, in `state`, with the given record. */
  predicate Steps(before: Entry, after: Entry, state: ReplayState, record: Option<Reconciliation>) {
    && after.state == state
    && after.transitions == Min(before.transitions + 1, 0xffff_ffff_ffff_ffff)
    && after.digest == before.digest && after.reservedAt == before.reservedAt && after.expires == before.expires
    && after.resultDigest == before.resultDigest && after.reconciliation == record
  }

  predicate SameIdentity(before: Entry, after: Entry) {
    after.pid == before.pid && after.birth == before.birth
  }

  /** Memory and file hold the same, and the ledger is open. */
  predicate Durable(s: Store) {
    !s.failedClosed && s.disk.File? && s.disk.doc == Current(s.entries)
  }

  // ---------------------------------------------------------------- validation

  lemma DigestMeans(s: Str)
    ensures IsDigest(s) <==> Hexadecimal(s)
    ensures W.IsWindowsDigest(s) <==> LowerText(s)
  {
  }

  lemma NameMeans(nonce: Str, actor: Str)
    ensures ValidNonce(nonce) <==> Named(nonce)
    ensures ValidActor(actor) <==> Signed(actor)
  {
  }

  lemma EntryMeans(nonce: Str, entry: Entry)
    ensures ValidEntry(nonce, entry) <==> WellKept(nonce, entry)
    ensures W.ValidWindowsEntry(nonce, entry) <==> WellKeptOnWindows(nonce, entry)
  {
    hide IsDigest, Hexadecimal, W.IsWindowsDigest, LowerText, ValidNonce, Named, ValidActor, Signed;
    DigestMeans(entry.digest);
    if entry.resultDigest.Some? {
      DigestMeans(entry.resultDigest.value);
    }
    NameMeans(nonce, if entry.reconciliation.Some? then entry.reconciliation.value.actor else []);
  }

  lemma EntriesMean(entries: Entries)
    ensures ValidEntries(entries) <==> forall n :: n in entries ==> WellKept(n, entries[n])
    ensures W.ValidWindowsEntries(entries) <==> forall n :: n in entries ==> WellKeptOnWindows(n, entries[n])
  {
    hide ValidEntry, WellKept, W.ValidWindowsEntry, WellKeptOnWindows;
    forall n | n in entries
      ensures ValidEntry(n, entries[n]) <==> WellKept(n, entries[n])
      ensures W.ValidWindowsEntry(n, entries[n]) <==> WellKeptOnWindows(n, entries[n])
    {
      EntryMeans(n, entries[n]);
    }
  }

  // ---------------------------------------------------------------- opening

  /** The old file, entry by entry, in the new form. */
  ghost predicate IsMigration(legacy: map<Str, LegacyEntry>, entries: Entries) {
    && entries.Keys == legacy.Keys
    && forall n :: n in legacy ==>
         entries[n] == Entry(legacy[n].digest, 0, legacy[n].expires, 1,
                             if legacy[n].state == LegacyReserved then SpawnedUncertain else Completed,
                             None, None, None, None)
  }

  lemma MigrationMeans(legacy: map<Str, LegacyEntry>)
    ensures IsMigration(legacy, MigratedAll(legacy))
    ensures |MigratedAll(legacy)| == |legacy|
  {
    assert |MigratedAll(legacy).Keys| == |legacy.Keys|;
  }

  /** The files the Unix ledger opens, given whether its write works. */
  ghost predicate Openable(disk: Disk, limit: nat, works: bool) {
    && limit > 0
    && match disk
       case NoFile => works
       case File(size, doc) =>
         && size <= 4_194_304
         && match doc
            case Unreadable => false
            case Forward(_) => false
            case Current(entries) => |entries| <= limit && forall n :: n in entries ==> WellKept(n, entries[n])
            case Legacy(legacy) =>
              && works && |legacy| <= limit
              && forall n :: n in legacy ==> Named(n) && Hexadecimal(legacy[n].digest)
  }

  lemma MigratedIsWellKept(legacy: map<Str, LegacyEntry>)
    ensures ValidEntries(MigratedAll(legacy)) <==> forall n :: n in legacy ==> Named(n) && Hexadecimal(legacy[n].digest)
    ensures W.ValidWindowsEntries(MigratedAll(legacy)) <==>
      forall n :: n in legacy ==> Named(n) && LowerText(legacy[n].digest)
  {
    MigrationMeans(legacy);
    EntriesMean(MigratedAll(legacy));
    hide Hexadecimal, LowerText, Named;
  }

  /** What an opened ledger holds. */
  ghost predicate OpensTo(disk: Disk, limit: nat, s: Store) {
    && Durable(s) && s.limit == limit
    && match disk
       case NoFile => s.entries == map[]
       case File(_, doc) =>
         (match doc
          case Current(entries) => s.entries == entries && s.disk == disk
          case Legacy(legacy) => IsMigration(legacy, s.entries)
          case _ => false)
  }

  /**
    `open` accepts exactly a missing file, a current file within its limits, and an old file within
    them, the first and the last when the write works; a refusal with a write that works, or with
    none to make, leaves the file as it was.
  */
  lemma OpenLaw(disk: Disk, limit: nat, w: Write)
    ensures
      var o := Open(disk, limit, w);
      && (o.ledger.Ok? <==> Openable(disk, limit, Works(w)))
      && (o.ledger.Ok? ==> OpensTo(disk, limit, o.ledger.value) && o.disk == o.ledger.value.disk)
      && (o.ledger.Err? && (Works(w) || w.fate == LostWrite) ==> o.disk == disk)
      && (limit == 0 ==> o.ledger == Err(Invalid))
      && (limit > 0 && o.ledger.Err? && disk.File? && (disk.doc.Unreadable? || disk.doc.Forward?) ==>
            o.ledger == Err(Corrupt) && o.disk == disk)
  {
    if disk.File? {
      match disk.doc
      case Current(entries) => EntriesMean(entries);
      case Legacy(legacy) =>
        MigratedIsWellKept(legacy);
        MigrationMeans(legacy);
      case _ =>
    }
    hide ValidEntries, MigratedAll, IsMigration, WellKept, Hexadecimal, Named;
  }

  ghost predicate OpenableOnWindows(disk: Disk, limit: nat, works: bool) {
    && limit > 0
    && match disk
       case NoFile => works
       case File(size, doc) =>
         && size <= 4_194_304
         && match doc
            case Unreadable => false
            case Forward(_) => false
            case Current(entries) => |entries| <= limit && forall n :: n in entries ==> WellKeptOnWindows(n, entries[n])
            case Legacy(legacy) =>
              && works && |legacy| <= limit
              && forall n :: n in legacy ==> Named(n) && LowerText(legacy[n].digest)
  }

  lemma WindowsOpenLaw(disk: Disk, limit: nat, w: Write)
    ensures
      var o := W.LazyOpen(disk, limit, w);
      && (o.ledger.Ok? <==> OpenableOnWindows(disk, limit, Works(w)))
      && (o.ledger.Ok? ==> OpensTo(disk, limit, o.ledger.value) && o.disk == o.ledger.value.disk)
      && (o.ledger.Err? && (Works(w) || w.fate == LostWrite) ==> o.disk == disk)
      && (o.ledger.Err? && disk.File? && (disk.doc.Unreadable? || disk.doc.Forward?) ==> o.disk == disk)
  {
    if disk.File? {
      match disk.doc
      case Current(entries) => EntriesMean(entries);
      case Legacy(legacy) =>
        MigratedIsWellKept(legacy);
        MigrationMeans(legacy);
      case _ =>
    }
    hide W.ValidWindowsEntries, MigratedAll, IsMigration, WellKeptOnWindows, LowerText, Named;
  }

  // ---------------------------------------------------------------- pruning and reserving

  /** A prune drops exactly the completed and the aborted entries whose expiry has passed. */
  lemma PruneLaw(entries: Entries, now: i64)
    ensures Pruned(entries, now).Keys == Survivors(entries, now)
    ensures forall n :: n in Survivors(entries, now) ==> Pruned(entries, now)[n] == entries[n]
    ensures |Pruned(entries, now)| == |Survivors(entries, now)|
  {
    assert Pruned(entries, now).Keys == Survivors(entries, now);
  }

  /** Memory after an accepted reservation: the survivors and the new entry. */
  ghost predicate ReservedIn(before: Entries, after: Entries, n: Str, d: Str, e: i64, now: i64) {
    && after.Keys == Survivors(before, now) + {n}
    && after[n] == Entry(d, now, e, 1, ReservedPreSpawn, None, None, None, None)
    && forall m :: m in Survivors(before, now) && m != n ==> after[m] == before[m]
  }

  /** Memory after a reservation refused past its checks: the survivors. */
  ghost predicate OnlySurvivors(before: Entries, after: Entries, now: i64) {
    after.Keys == Survivors(before, now) && forall m :: m in after ==> after[m] == before[m]
  }

  /** Each answer of a reservation, with writes that work. */
  lemma ReserveLaw(s: Store, n: Str, d: Str, e: i64, now: i64, pw: Write, w: Write)
    requires Works(pw) && Works(w) && (!s.failedClosed ==> Durable(s))
    ensures
      var o := Reserve(s, n, d, e, now, pw, w);
      var valid := Named(n) && Hexadecimal(d) && now <= e;
      var taken := n in Survivors(s.entries, now);
      && (o.answer == Err(FailedClosed) <==> s.failedClosed)
      && (o.answer == Err(Invalid) <==> !s.failedClosed && !valid)
      && (o.answer == Err(Replay) <==> !s.failedClosed && valid && taken && s.entries[n].digest == d)
      && (o.answer == Err(DigestConflict) <==> !s.failedClosed && valid && taken && s.entries[n].digest != d)
      && (o.answer == Err(Full) <==> !s.failedClosed && valid && !taken && |Survivors(s.entries, now)| >= s.limit)
      && (o.answer.Ok? <==> !s.failedClosed && valid && !taken && |Survivors(s.entries, now)| < s.limit)
      && (s.failedClosed || !valid ==> o.store == s)
      && (!s.failedClosed ==> Durable(o.store) && o.store.limit == s.limit)
      && (o.answer.Ok? ==> ReservedIn(s.entries, o.store.entries, n, d, e, now))
      && (!s.failedClosed && valid && o.answer.Err? ==> OnlySurvivors(s.entries, o.store.entries, now))
  {
    DigestMeans(d);
    NameMeans(n, []);
    PruneLaw(s.entries, now);
    hide Hexadecimal, IsDigest, Named, ValidNonce, Survivors, Pruned;
    LedgerRuns.PrunedIsSmaller(s.entries, now);
  }

  /** Nothing was dropped, so nothing is written for the prune: how that write would have gone is no matter. */
  lemma NothingToPrune(s: Store, n: Str, d: Str, e: i64, now: i64, pw: Write, pv: Write, w: Write)
    requires Survivors(s.entries, now) == s.entries.Keys
    ensures Reserve(s, n, d, e, now, pw, w) == Reserve(s, n, d, e, now, pv, w)
  {
    PruneLaw(s.entries, now);
    hide Survivors, Pruned, ValidReservation;
  }

  /** Each answer of the lazy reservation: the file changes only with a new entry. */
  lemma WindowsReserveLaw(s: Store, n: Str, d: Str, e: i64, now: i64, w: Write)
    requires Works(w)
    ensures
      var o := W.LazyReserve(s, n, d, e, now, w);
      var valid := Named(n) && LowerText(d) && now <= e;
      var taken := n in Survivors(s.entries, now);
      && (o.answer.Ok? <==> !s.failedClosed && valid && !taken && |Survivors(s.entries, now)| < s.limit)
      && (s.failedClosed || !valid ==> o.store == s)
      && o.store.failedClosed == s.failedClosed && o.store.limit == s.limit
      && (o.answer.Ok? ==> Durable(o.store) && ReservedIn(s.entries, o.store.entries, n, d, e, now))
      && (!s.failedClosed && valid && o.answer.Err? ==>
            OnlySurvivors(s.entries, o.store.entries, now) && o.store.disk == s.disk)
  {
    DigestMeans(d);
    NameMeans(n, []);
    PruneLaw(s.entries, now);
    hide LowerText, W.IsWindowsDigest, Named, ValidNonce, Survivors, Pruned;
  }

  // ---------------------------------------------------------------- the two marks

  /** The entry of `n` is there, with this digest and in this state. */
  predicate Stands(s: Store, n: Str, d: Str, state: ReplayState) {
    n in s.entries && s.entries[n].digest == d && s.entries[n].state == state
  }

  /** The call rewrote the entry of `n` durably and nothing else. */
  ghost predicate Rewrote(s: Store, t: Store, n: Str) {
    n in s.entries && n in t.entries && Durable(t) && t.limit == s.limit && OthersSame(s.entries, t.entries, n)
  }

  lemma MarkSpawnedLaw(s: Store, n: Str, d: Str, identity: Option<(u32, u64)>, w: Write)
    requires Works(w)
    ensures
      var o := MarkSpawned(s, n, d, identity, w);
      && (o.answer.Ok? <==> !s.failedClosed && Stands(s, n, d, ReservedPreSpawn))
      && (o.answer.Err? ==> o.store == s)
      && (o.answer.Ok? ==>
            && Rewrote(s, o.store, n)
            && var a, b := s.entries[n], o.store.entries[n];
               && Steps(a, b, SpawnedUncertain, a.reconciliation)
               && (if identity.Some? then b.pid == Some(identity.value.0) && b.birth == Some(identity.value.1)
                   else SameIdentity(a, b)))
      && (o.answer == Err(FailedClosed) <==> s.failedClosed)
      && (o.answer == Err(DigestConflict) <==> !s.failedClosed && n in s.entries && s.entries[n].digest != d)
  {
  }

  lemma MarkCompletedLaw(s: Store, n: Str, d: Str, w: Write)
    requires Works(w)
    ensures
      var o := MarkCompleted(s, n, d, w);
      && (o.answer.Ok? <==> !s.failedClosed && Stands(s, n, d, SpawnedUncertain))
      && (o.answer.Err? ==> o.store == s)
      && (o.answer.Ok? ==>
            && Rewrote(s, o.store, n)
            && var a, b := s.entries[n], o.store.entries[n];
               Steps(a, b, Completed, a.reconciliation) && SameIdentity(a, b))
      && (o.answer == Err(FailedClosed) <==> s.failedClosed)
      && (o.answer == Err(DigestConflict) <==> !s.failedClosed && n in s.entries && s.entries[n].digest != d)
  {
  }

  lemma WindowsMarkLaw(s: Store, n: Str, d: Str, w: Write)
    requires Works(w)
    ensures
      var o := W.LazyMarkSpawned(s, n, d, w);
      && (o.answer.Ok? <==> !s.failedClosed && Stands(s, n, d, ReservedPreSpawn))
      && (!Stands(s, n, d, ReservedPreSpawn) ==> o.store == s)
      && (o.answer.Ok? ==>
            && Rewrote(s, o.store, n)
            && var a, b := s.entries[n], o.store.entries[n];
               Steps(a, b, SpawnedUncertain, a.reconciliation) && SameIdentity(a, b))
    ensures
      var o := W.LazyComplete(s, n, d, w);
      && (o.answer.Ok? <==> !s.failedClosed && Stands(s, n, d, SpawnedUncertain))
      && (!Stands(s, n, d, SpawnedUncertain) ==> o.store == s)
      && (o.answer.Ok? ==>
            && Rewrote(s, o.store, n)
            && var a, b := s.entries[n], o.store.entries[n];
               Steps(a, b, Completed, a.reconciliation) && SameIdentity(a, b))
  {
  }

  // ---------------------------------------------------------------- the operator

  /** The decision fits what the ledger says happened. */
  predicate Admissible(entry: Entry, decision: Decision, acknowledged: bool) {
    || (decision == MarkAborted && entry.state == ReservedPreSpawn)
    || (decision == MarkComplete && entry.state == SpawnedUncertain && acknowledged)
  }

  predicate Decided(a: Entry, b: Entry, decision: Decision, actor: Str, now: i64) {
    var next := if decision == MarkAborted then AbortedBeforeSpawn else Completed;
    Steps(a, b, next, Some(Reconciliation(actor, now, a.state, next))) && SameIdentity(a, b)
  }

  /** An operator's decision is taken exactly when it fits, is recorded with the state it was about,
      and is otherwise refused without a trace. */
  lemma ReconcileLaw(s: Store, n: Str, decision: Decision, actor: Str, now: i64, acknowledged: bool, w: Write)
    requires Works(w)
    ensures
      var o := Reconcile(s, n, decision, actor, now, acknowledged, w);
      && (o.answer.Ok? <==>
            !s.failedClosed && Signed(actor) && n in s.entries && Admissible(s.entries[n], decision, acknowledged))
      && (o.answer.Ok? ==> Rewrote(s, o.store, n) && Decided(s.entries[n], o.store.entries[n], decision, actor, now))
      && (o.answer.Err? ==> o.store == s)
      && (o.answer == Err(FailedClosed) <==> s.failedClosed)
      && (o.answer == Err(Replay) <==> !s.failedClosed && Signed(actor) && n !in s.entries)
  {
    NameMeans([], actor);
    hide Signed, ValidActor;
  }

  lemma WindowsReconcileLaw(s: Store, n: Str, decision: Decision, actor: Str, now: i64, acknowledged: bool, w: Write)
    requires Works(w)
    ensures
      var o := W.LazyReconcile(s, n, decision, actor, now, acknowledged, w);
      && (o.answer.Ok? <==>
            !s.failedClosed && Signed(actor) && n in s.entries && Admissible(s.entries[n], decision, acknowledged))
      && (o.answer.Ok? ==> Rewrote(s, o.store, n) && Decided(s.entries[n], o.store.entries[n], decision, actor, now))
      && (o.answer.Err? ==> o.store == s)
  {
    NameMeans([], actor);
    hide Signed, ValidActor;
  }
}
