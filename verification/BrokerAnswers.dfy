/** What an answer of the broker means: a call answered ok is durably completed. */
module BrokerAnswers {
  import opened Basics
  import opened ReplayLedger
  import opened BrokerProtocol
  import opened BrokerInvariant
  import BrokerSteps

  predicate AnsweredOk(a: Handler) {
    if a.Executing? then a.pc == Replied(true) else a.cpc.CancelReplied? && a.cpc.answer.Some?
  }

  /** This copy of the ledger holds the intent as completed. */
  ghost predicate Closed(es: Entries, i: Intent, d: Str) {
    At(es, i) && es[i.0].digest == d && es[i.0].state == Completed
  }

  /** Both copies do, or the entry has expired and was pruned. */
  ghost predicate Settled(store: Store, g: History, i: Intent, d: Str) {
    i in g.retired || (Closed(store.entries, i, d) && Closed(Durable(store.disk), i, d))
  }

  ghost predicate Answers(a: Handler, store: Store, g: History) {
    AnsweredOk(a) ==> a.Intent() in g.reservations && Settled(store, g, a.Intent(), a.Digest())
  }

  ghost predicate AllAnswers(s: State) {
    forall h :: h in s.handlers ==> Answers(s.handlers[h], s.store, s.history)
  }

  // ---------------------------------------------------------------- the ledger calls

  lemma ReserveKeeps(store: Store, g: History, n: Str, d: Str, e: i64, now: i64, pw: Write, w: Write,
                     i: Intent, id: Str)
    requires Settled(store, g, i, id)
    ensures Settled(Reserve(store, n, d, e, now, pw, w).store, RecordPrune(g, store, n, d, e, now, pw), i, id)
  {
    hide ValidReservation;
    if i !in g.retired && ReachesPrune(store, n, d, e, now) && Prunable(store.entries[i.0], now) {
      assert i in RetiredBy(store.entries, now);
    }
  }

  lemma MarkKeeps(store: Store, g: History, n: Str, d: Str, w: Write, i: Intent, id: Str)
    requires Settled(store, g, i, id)
    ensures Settled(MarkSpawned(store, n, d, None, w).store, g, i, id)
    ensures Settled(MarkCompleted(store, n, d, w).store, g, i, id)
  {
  }

  /** A completed call leaves the entry completed in memory and in the file. */
  lemma CompletionSettles(a: Handler, store: Store, g: History, w: Write)
    requires OwnerOk(a, store, g) && MarkCompleted(store, a.Intent().0, a.Digest(), w).answer.Ok?
    ensures Settled(MarkCompleted(store, a.Intent().0, a.Digest(), w).store, g, a.Intent(), a.Digest())
  {
  }

  lemma LedgerKeeps(s: State, k: HandlerId, pw: Write, w: Write, i: Intent, d: Str)
    requires Guard(s, UseLedger(k, pw, w)) && Settled(s.store, s.history, i, d)
    ensures
      var t := AfterLedger(s, k, pw, w);
      Settled(t.store, t.history, i, d)
  {
    var a := s.handlers[k];
    var (n, e) := a.Intent();
    MarkKeeps(s.store, s.history, n, a.Digest(), w, i, d);
    ReserveKeeps(s.store, s.history, n, a.Digest(), e, if a.Executing? && a.pc.Timed? then a.pc.now else s.clock,
                 pw, w, i, d);
    hide Reserve, MarkSpawned, MarkCompleted, RecordPrune;
  }

  /** The caller itself is answered ok only by a completion. */
  lemma CallerSettles(s: State, k: HandlerId, pw: Write, w: Write)
    requires Guard(s, UseLedger(k, pw, w)) && OwnerInv(s.handlers, s.store, s.history)
    ensures
      var t := AfterLedger(s, k, pw, w);
      Answers(t.handlers[k], t.store, t.history)
  {
    var a := s.handlers[k];
    if (a.Executing? && a.pc.Deregistered?) || (a.Cancelling? && a.cpc.Sent?) {
      assert OwnerOk(a, s.store, s.history);
      hide Reserve, MarkSpawned, RecordPrune;
      if MarkCompleted(s.store, a.Intent().0, a.Digest(), w).answer.Ok? {
        CompletionSettles(a, s.store, s.history, w);
      }
      hide MarkCompleted, OwnerOk, OwnerInv, Settled;
    } else {
      hide Reserve, MarkSpawned, MarkCompleted, RecordPrune, OwnerInv, Settled;
    }
  }

  /** The call touches no other handler and forgets no reservation. */
  ghost predicate Frames(s: State, t: State, k: HandlerId) {
    && t.handlers.Keys == s.handlers.Keys
    && (forall h :: h in s.handlers && h != k ==> t.handlers[h] == s.handlers[h])
    && (forall i :: i in s.history.reservations ==> i in t.history.reservations)
  }

  lemma ReserveFrame(s: State, k: HandlerId, now: i64, pw: Write, w: Write, next: Handler, refused: Handler)
    requires k in s.handlers
    ensures Frames(s, DoReserve(s, k, now, pw, w, next, refused), k)
  {
    hide Reserve, ReachesPrune, Inserts, RetiredBy;
  }

  lemma MarkFrame(s: State, k: HandlerId, w: Write, next: Handler, refused: Handler)
    requires k in s.handlers
    ensures Frames(s, DoMarkSpawned(s, k, w, next, refused), k)
    ensures Frames(s, DoMarkCompleted(s, k, w, next, refused), k)
  {
    hide MarkSpawned, MarkCompleted;
  }

  lemma LedgerFrame(s: State, k: HandlerId, pw: Write, w: Write)
    requires Guard(s, UseLedger(k, pw, w))
    ensures Frames(s, AfterLedger(s, k, pw, w), k)
  {
    hide DoReserve, DoMarkSpawned, DoMarkCompleted, Frames;
    var a := s.handlers[k];
    if a.Executing? {
      var refused := a.(pc := Replied(false));
      MarkFrame(s, k, w, a.(pc := Running), refused);
      MarkFrame(s, k, w, a.(pc := Replied(true)), refused);
      if a.pc.Timed? {
        ReserveFrame(s, k, a.pc.now, pw, w, a.(pc := Reserved), refused);
      }
    } else {
      var refused := a.(cpc := CancelReplied(None));
      ReserveFrame(s, k, s.clock, pw, w, a.(cpc := CancelReserved), refused);
      if a.cpc.Matched? || a.cpc.Sent? {
        MarkFrame(s, k, w, a.(cpc := Marked(a.cpc.target)), refused);
        MarkFrame(s, k, w, a.(cpc := CancelReplied(Some(a.cpc.target))), refused);
      }
    }
  }

  lemma LedgerStep(s: State, k: HandlerId, pw: Write, w: Write)
    requires Guard(s, UseLedger(k, pw, w)) && OwnerInv(s.handlers, s.store, s.history) && AllAnswers(s)
    ensures AllAnswers(AfterLedger(s, k, pw, w))
  {
    var t := AfterLedger(s, k, pw, w);
    LedgerFrame(s, k, pw, w);
    CallerSettles(s, k, pw, w);
    hide AfterLedger, Settled, OwnerInv;
    forall h | h in t.handlers && h != k && AnsweredOk(t.handlers[h])
      ensures Answers(t.handlers[h], t.store, t.history)
    {
      assert Answers(s.handlers[h], s.store, s.history);
      LedgerKeeps(s, k, pw, w, s.handlers[h].Intent(), s.handlers[h].Digest());
    }
  }

  // ---------------------------------------------------------------- the other steps

  /** The step answers nobody ok and leaves the ledger alone. */
  ghost predicate AnswersNobody(s: State, t: State) {
    && t.store == s.store && t.history.retired == s.history.retired
    && t.history.reservations == s.history.reservations
    && forall h :: h in t.handlers && AnsweredOk(t.handlers[h]) ==> h in s.handlers && t.handlers[h] == s.handlers[h]
  }

  lemma QuietAnswers(s: State, t: State)
    requires AllAnswers(s) && AnswersNobody(s, t)
    ensures AllAnswers(t)
  {
    hide Closed;
    forall h | h in t.handlers ensures Answers(t.handlers[h], t.store, t.history) {
      assert h in s.handlers ==> Answers(s.handlers[h], s.store, s.history);
    }
  }

  lemma ExecuteActiveStep(s: State, k: HandlerId)
    requires Guard(s, UseActive(k)) && s.handlers[k].Executing?
    ensures AnswersNobody(s, AfterActive(s, k))
  {
  }

  lemma CancelActiveStep(s: State, k: HandlerId)
    requires Guard(s, UseActive(k)) && s.handlers[k].Cancelling?
    ensures AnswersNobody(s, AfterActive(s, k))
  {
    hide Matches;
  }

  lemma SendStep(s: State, k: HandlerId)
    requires Guard(s, SendSignal(k))
    ensures AnswersNobody(s, AfterSend(s, k))
  {
  }

  lemma OtherStep(s: State, step: Step)
    requires Guard(s, step) && !step.UseLedger? && !step.Crash? && !step.Restart? && !step.Operator?
    ensures AnswersNobody(s, Apply(s, step))
  {
    hide AfterActive, AfterSend;
    if step.UseActive? {
      if s.handlers[step.h].Executing? {
        ExecuteActiveStep(s, step.h);
      } else {
        CancelActiveStep(s, step.h);
      }
    } else if step.SendSignal? {
      SendStep(s, step.h);
    }
  }

  lemma DownStep(s: State, step: Step)
    requires DownInv(s) && Guard(s, step) && (step.Crash? || step.Restart? || step.Operator?)
    ensures AllAnswers(Apply(s, step))
  {
    assert Apply(s, step).handlers == map[];
  }

  lemma StepAnswers(s: State, step: Step)
    requires Inv(s) && Guard(s, step) && AllAnswers(s)
    ensures AllAnswers(Apply(s, step))
  {
    assert DownInv(s) && OwnerInv(s.handlers, s.store, s.history);
    hide Inv, AfterLedger, AllAnswers, DownInv, OwnerInv;
    if step.UseLedger? {
      LedgerStep(s, step.h, step.pruneWrite, step.write);
    } else if step.Crash? || step.Restart? || step.Operator? {
      DownStep(s, step);
    } else {
      OtherStep(s, step);
      QuietAnswers(s, Apply(s, step));
    }
  }

  lemma {:induction false} RunAnswers(s: State, steps: seq<Step>)
    requires Inv(s) && Legal(s, steps) && AllAnswers(s)
    ensures AllAnswers(Run(s, steps))
    decreases |steps|
  {
    hide Inv, AllAnswers, Guard, Apply;
    if steps != [] {
      StepAnswers(s, steps[0]);
      BrokerSteps.StepInv(s, steps[0]);
      RunAnswers(Apply(s, steps[0]), steps[1..]);
    }
  }

  /**
    An Execute or a Cancel that was answered ok had reserved its intent, and at every later point of
    the session the file holds that intent as completed, with its digest, or has had it pruned after
    its expiry; whatever other calls, failed writes and disconnects came in between.
  */
  lemma OkMeansCompleted(s0: State, steps: seq<Step>, h: HandlerId)
    requires Init(s0) && Legal(s0, steps)
    requires h in Run(s0, steps).handlers && AnsweredOk(Run(s0, steps).handlers[h])
    ensures
      var s := Run(s0, steps);
      var a := s.handlers[h];
      var (n, e) := a.Intent();
      && (n, e) in s.history.reservations
      && ((n, e) in s.history.retired
          || (&& s.store.disk.File? && s.store.disk.doc.Current? && n in s.store.disk.doc.entries
              && s.store.disk.doc.entries[n].expires == e && s.store.disk.doc.entries[n].digest == a.Digest()
              && s.store.disk.doc.entries[n].state == Completed))
      && ((n, e) in s.history.retired ==> e < s.clock)
  {
    InitInv(s0);
    RunAnswers(s0, steps);
    BrokerSteps.RunInv(s0, steps);
    hide Run;
    var s := Run(s0, steps);
    assert Answers(s.handlers[h], s.store, s.history);
    assert LedgerInv(s.up, s.clock, s.store, s.history);
  }
}
