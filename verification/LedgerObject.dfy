/** The ledger as the object the code updates in place, call by call. */
module LedgerObject {
  import opened Basics
  import opened ReplayLedger
  import LedgerRuns

  /** What every call on the ledger keeps, whatever its outcome. */
  lemma Guarantees(s: Store, op: LedgerRuns.Op)
    requires !op.Reopen?
    ensures LedgerRuns.Sound(s) ==> LedgerRuns.Sound(LedgerRuns.Step(s, op).store)
    ensures s.failedClosed ==> LedgerRuns.Step(s, op) == Outcome(s, Err(FailedClosed))
    ensures forall n :: LedgerRuns.LegalMove(s.entries, LedgerRuns.Step(s, op).store.entries, op, n)
  {
    hide LedgerRuns.Step, LedgerRuns.Sound, LedgerRuns.LegalMove;
    if LedgerRuns.Sound(s) {
      LedgerRuns.StepIsSound(s, op);
    }
    if s.failedClosed {
      LedgerRuns.ClosedStep(s, op);
    }
    forall n ensures LedgerRuns.LegalMove(s.entries, LedgerRuns.Step(s, op).store.entries, op, n) {
      LedgerRuns.OnlyLegalTransitions(s, op, n);
    }
  }

  class Ledger {
    const limit: nat
    var disk: Disk
    var entries: Entries
    var failedClosed: bool

    ghost function View(): Store
      reads this
    {
      Store(limit, disk, entries, failedClosed)
    }

    constructor (store: Store)
      ensures View() == store
    {
      limit, disk, entries, failedClosed := store.limit, store.disk, store.entries, store.failedClosed;
    }

    method PersistFile(w: Write) returns (answer: Answer)
      modifies this`disk
      ensures Outcome(View(), answer) == Persist(old(View()), w)
    {
      if w.size > MAX_LEDGER_BYTES {
        return Err(Full);
      }
      if w.fate != LostWrite {
        disk := File(w.size, Current(entries));
      }
      answer := if w.fate == Synced then Ok(()) else Err(WriteFailed);
    }

    method CommitFile(w: Write) returns (answer: Answer)
      modifies this`disk, this`failedClosed
      ensures Outcome(View(), answer) == Commit(old(View()), w)
    {
      answer := PersistFile(w);
      if answer.Err? {
        failedClosed := true;
      }
    }

    method PruneCompletedEntries(now: i64, w: Write) returns (answer: Answer)
      modifies this
      ensures Outcome(View(), answer) == PruneCompleted(old(View()), now, w)
    {
      var prior := |entries|;
      entries := map n | n in entries && !Prunable(entries[n], now) :: entries[n];
      answer := Ok(());
      if |entries| != prior {
        answer := CommitFile(w);
      }
    }

    method ReserveNonce(nonce: Str, digest: Str, expires: i64, now: i64, pruneWrite: Write, write: Write)
      returns (answer: Answer)
      modifies this
      ensures Outcome(View(), answer) == Reserve(old(View()), nonce, digest, expires, now, pruneWrite, write)
      ensures LedgerRuns.Sound(old(View())) ==> LedgerRuns.Sound(View())
      ensures old(failedClosed) ==> answer == Err(FailedClosed) && View() == old(View())
      ensures forall n :: LedgerRuns.LegalMove(old(entries), entries,
          LedgerRuns.DoReserve(nonce, digest, expires, now, pruneWrite, write), n)
    {
      Guarantees(View(), LedgerRuns.DoReserve(nonce, digest, expires, now, pruneWrite, write));
      hide LedgerRuns.Sound, LedgerRuns.LegalMove;
      if failedClosed {
        return Err(FailedClosed);
      }
      if !ValidReservation(nonce, digest, expires, now) {
        return Err(Invalid);
      }
      answer := PruneCompletedEntries(now, pruneWrite);
      if answer.Err? {
        return;
      }
      if nonce in entries {
        return Err(if entries[nonce].digest == digest then Replay else DigestConflict);
      }
      if |entries| >= limit {
        return Err(Full);
      }
      entries := entries[nonce := FreshEntry(digest, expires, now)];
      answer := CommitFile(write);
    }

    method MarkNonceSpawned(nonce: Str, digest: Str, identity: Option<(u32, u64)>, w: Write)
      returns (answer: Answer)
      modifies this
      ensures Outcome(View(), answer) == MarkSpawned(old(View()), nonce, digest, identity, w)
      ensures LedgerRuns.Sound(old(View())) ==> LedgerRuns.Sound(View())
      ensures old(failedClosed) ==> answer == Err(FailedClosed) && View() == old(View())
      ensures forall n :: LedgerRuns.LegalMove(old(entries), entries,
          LedgerRuns.DoMarkSpawned(nonce, digest, identity, w), n)
    {
      Guarantees(View(), LedgerRuns.DoMarkSpawned(nonce, digest, identity, w));
      hide LedgerRuns.Sound, LedgerRuns.LegalMove;
      if failedClosed {
        return Err(FailedClosed);
      }
      if nonce !in entries {
        return Err(Replay);
      }
      var entry := entries[nonce];
      if entry.digest != digest {
        return Err(DigestConflict);
      }
      if entry.state != ReservedPreSpawn {
        return Err(Replay);
      }
      entry := entry.(state := SpawnedUncertain, transitions := Bump(entry.transitions));
      if identity.Some? {
        entry := entry.(pid := Some(identity.value.0), birth := Some(identity.value.1));
      }
      entries := entries[nonce := entry];
      answer := CommitFile(w);
    }

    method MarkNonceCompleted(nonce: Str, digest: Str, w: Write) returns (answer: Answer)
      modifies this
      ensures Outcome(View(), answer) == MarkCompleted(old(View()), nonce, digest, w)
      ensures LedgerRuns.Sound(old(View())) ==> LedgerRuns.Sound(View())
      ensures old(failedClosed) ==> answer == Err(FailedClosed) && View() == old(View())
      ensures forall n :: LedgerRuns.LegalMove(old(entries), entries, LedgerRuns.DoMarkCompleted(nonce, digest, w), n)
    {
      Guarantees(View(), LedgerRuns.DoMarkCompleted(nonce, digest, w));
      hide LedgerRuns.Sound, LedgerRuns.LegalMove;
      if failedClosed {
        return Err(FailedClosed);
      }
      if nonce !in entries {
        return Err(Replay);
      }
      var entry := entries[nonce];
      if entry.digest != digest {
        return Err(DigestConflict);
      }
      if entry.state != SpawnedUncertain {
        return Err(Replay);
      }
      entries := entries[nonce := entry.(state := Completed, transitions := Bump(entry.transitions))];
      answer := CommitFile(w);
    }

    method ReconcileNonce(nonce: Str, decision: Decision, actor: Str, now: i64, acknowledged: bool, w: Write)
      returns (answer: Answer)
      modifies this
      ensures Outcome(View(), answer) == Reconcile(old(View()), nonce, decision, actor, now, acknowledged, w)
      ensures LedgerRuns.Sound(old(View())) ==> LedgerRuns.Sound(View())
      ensures old(failedClosed) ==> answer == Err(FailedClosed) && View() == old(View())
      ensures forall n :: LedgerRuns.LegalMove(old(entries), entries,
          LedgerRuns.DoReconcile(nonce, decision, actor, now, acknowledged, w), n)
    {
      Guarantees(View(), LedgerRuns.DoReconcile(nonce, decision, actor, now, acknowledged, w));
      hide LedgerRuns.Sound, LedgerRuns.LegalMove;
      if failedClosed {
        return Err(FailedClosed);
      }
      if !ValidActor(actor) {
        return Err(Invalid);
      }
      if nonce !in entries {
        return Err(Replay);
      }
      var entry := entries[nonce];
      var prior := entry.state;
      var next: ReplayState;
      if decision == MarkAborted && prior == ReservedPreSpawn {
        next := AbortedBeforeSpawn;
      } else if decision == MarkComplete && prior == SpawnedUncertain && acknowledged {
        next := Completed;
      } else {
        return Err(Invalid);
      }
      entry := entry.(
        state := next,
        transitions := Bump(entry.transitions),
        reconciliation := Some(Reconciliation(actor, now, prior, next)));
      entries := entries[nonce := entry];
      answer := CommitFile(w);
    }
  }
}
