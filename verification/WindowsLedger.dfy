/**
  The Windows replay ledger: the same states and calls as the Unix one, but a prune is not written
  back until a later call writes, and a closed ledger refuses at the write rather than up front.
*/
module WindowsLedger {
  import opened Basics
  import opened ReplayLedger

  predicate IsLowerAlphanumeric(b: byte) {
    IsDigit(b) || 97 <= b <= 122
  }

  /** The Windows test admits any lower-case letter, not only a hexadecimal digit. */
  predicate IsWindowsDigest(s: Str) {
    |s| == 64 && forall i :: 0 <= i < |s| ==> IsLowerAlphanumeric(s[i])
  }

  predicate ValidWindowsEntry(nonce: Str, entry: Entry) {
    && ValidNonce(nonce)
    && IsWindowsDigest(entry.digest)
    && entry.transitions != 0
    && entry.pid.Some? == entry.birth.Some?
    && (entry.resultDigest.Some? ==> IsWindowsDigest(entry.resultDigest.value))
    && (entry.reconciliation.Some? ==>
          && ValidActor(entry.reconciliation.value.actor)
          && entry.reconciliation.value.prior != entry.reconciliation.value.next)
  }

  predicate ValidWindowsEntries(entries: Entries) {
    forall n :: n in entries ==> ValidWindowsEntry(n, entries[n])
  }

  /** `persist`: refuses on a closed ledger, and closes it on every failure. */
  function LazyPersist(s: Store, w: Write): (o: Outcome)
    ensures o.store.entries == s.entries && o.store.limit == s.limit
  {
    if s.failedClosed then
      Outcome(s, Err(FailedClosed))
    else if w.size > MAX_LEDGER_BYTES then
      Outcome(s.(failedClosed := true), Err(Full))
    else
      var written := s.(disk := File(w.size, Current(s.entries)));
      match w.fate
      case Synced => Outcome(written, Ok(()))
      case LostWrite => Outcome(s.(failedClosed := true), Err(WriteFailed))
      case LandedWrite => Outcome(written.(failedClosed := true), Err(WriteFailed))
  }

  function LazyReserve(s: Store, nonce: Str, digest: Str, expires: i64, now: i64, w: Write): Outcome {
    if s.failedClosed then
      Outcome(s, Err(FailedClosed))
    else if !(ValidNonce(nonce) && now <= expires && IsWindowsDigest(digest)) then
      Outcome(s, Err(Invalid))
    else
      var kept := s.(entries := Pruned(s.entries, now));
      if nonce in kept.entries then
        Outcome(kept, Err(Replay))
      else if |kept.entries| >= s.limit then
        Outcome(kept, Err(Full))
      else
        LazyPersist(kept.(entries := kept.entries[nonce := FreshEntry(digest, expires, now)]), w)
  }

  function LazyMarkSpawned(s: Store, nonce: Str, digest: Str, w: Write): Outcome {
    if nonce !in s.entries then
      Outcome(s, Err(Replay))
    else if s.entries[nonce].digest != digest || s.entries[nonce].state != ReservedPreSpawn then
      Outcome(s, Err(DigestConflict))
    else
      LazyPersist(s.(entries := s.entries[nonce := Advance(s.entries[nonce], SpawnedUncertain)]), w)
  }

  function LazyComplete(s: Store, nonce: Str, digest: Str, w: Write): Outcome {
    if nonce !in s.entries then
      Outcome(s, Err(Replay))
    else if s.entries[nonce].digest != digest then
      Outcome(s, Err(DigestConflict))
    else if s.entries[nonce].state != SpawnedUncertain then
      Outcome(s, Err(Replay))
    else
      LazyPersist(s.(entries := s.entries[nonce := Advance(s.entries[nonce], Completed)]), w)
  }

  function LazyReconcile(s: Store, nonce: Str, decision: Decision, actor: Str, now: i64, acknowledged: bool,
      w: Write): Outcome {
    if s.failedClosed then
      Outcome(s, Err(FailedClosed))
    else if !ValidActor(actor) then
      Outcome(s, Err(Invalid))
    else if nonce !in s.entries then
      Outcome(s, Err(Replay))
    else
      var prior := s.entries[nonce];
      match Disposition(prior.state, decision, acknowledged)
      case None => Outcome(s, Err(Invalid))
      case Some(next) =>
        var entry := Advance(prior, next).(
          reconciliation := Some(Reconciliation(actor, now, prior.state, next)));
        LazyPersist(s.(entries := s.entries[nonce := entry]), w)
  }

  function LazyOpenWith(disk: Disk, limit: nat, entries: Entries, w: Write): Opened {
    var p := LazyPersist(Store(limit, disk, entries, false), w);
    Opened(if p.answer.Ok? then Ok(p.store) else Err(p.answer.error), p.store.disk)
  }

  function LazyOpen(disk: Disk, limit: nat, w: Write): Opened {
    if limit == 0 then
      Opened(Err(Invalid), disk)
    else
      match disk
      case NoFile => LazyOpenWith(disk, limit, map[], w)
      case File(size, doc) =>
        if size > MAX_LEDGER_BYTES then
          Opened(Err(Corrupt), disk)
        else
          match doc
          case Unreadable => Opened(Err(Corrupt), disk)
          case Forward(_) => Opened(Err(Corrupt), disk)
          case Legacy(legacy) =>
            var entries := MigratedAll(legacy);
            if |legacy| > limit || !ValidWindowsEntries(entries) then
              Opened(Err(Corrupt), disk)
            else
              LazyOpenWith(disk, limit, entries, w)
          case Current(entries) =>
            if |entries| > limit || !ValidWindowsEntries(entries) then
              Opened(Err(Corrupt), disk)
            else
              Opened(Ok(Store(limit, disk, entries, false)), disk)
  }
}

/** The lazy ledger against the eager one. */
module WindowsLedgerRefinement {
  import opened Basics
  import opened ReplayLedger
  import opened LedgerRuns
  import W = WindowsLedger

  /** The Windows call that corresponds to a Unix one. */
  function WindowsStep(s: Store, op: Op): Outcome {
    match op
    case DoReserve(n, d, e, now, _, w) => W.LazyReserve(s, n, d, e, now, w)
    case DoMarkSpawned(n, d, _, w) => W.LazyMarkSpawned(s, n, d, w)
    case DoMarkCompleted(n, d, w) => W.LazyComplete(s, n, d, w)
    case DoReconcile(n, dec, actor, now, ack, w) => W.LazyReconcile(s, n, dec, actor, now, ack, w)
    case Reopen(w) =>
      var o := W.LazyOpen(s.disk, s.limit, w);
      match o.ledger
      case Ok(t) => Outcome(t, Ok(()))
      case Err(e) => Outcome(s.(disk := o.disk), Err(e))
  }

  function UnixAnswers(s: Store, ops: seq<Op>): seq<bool>
    decreases |ops|
  {
    if ops == [] then [] else [Step(s, ops[0]).answer.Ok?] + UnixAnswers(Step(s, ops[0]).store, ops[1..])
  }

  function WindowsAnswers(s: Store, ops: seq<Op>): seq<bool>
    decreases |ops|
  {
    if ops == [] then []
    else [WindowsStep(s, ops[0]).answer.Ok?] + WindowsAnswers(WindowsStep(s, ops[0]).store, ops[1..])
  }

  predicate Succeeds(w: Write) {
    w.fate == Synced && w.size <= MAX_LEDGER_BYTES
  }

  /** No write fails, and reservations carry a digest as `operation_facts_digest` renders it. */
  predicate Smooth(op: Op) {
    && Succeeds(op.write)
    && (op.DoReserve? ==> Succeeds(op.pruneWrite) && IsDigest(op.digest))
    && (op.DoMarkSpawned? ==> op.identity == None)
  }

  /** The latest reservation time so far. */
  function TimeAfter(op: Op, time: i64): i64 {
    if op.DoReserve? && time < op.now then op.now else time
  }

  /**
    No reservation uses a time before `floor`, the latest reservation time before the last reopening;
    `top` is the latest so far. Between two reopenings the times may come in any order.
  */
  predicate InOrder(ops: seq<Op>, floor: i64, top: i64)
    decreases |ops|
  {
    ops == [] ||
    (&& (ops[0].DoReserve? ==> floor <= ops[0].now)
     && InOrder(ops[1..], if ops[0].Reopen? then top else floor, TimeAfter(ops[0], top)))
  }

  /** `big` is `small` plus terminal entries that expired before `time`. */
  predicate Extends(big: Entries, small: Entries, time: i64) {
    && (forall n :: n in small ==> n in big && big[n] == small[n])
    && (forall n :: n in big && n !in small ==> Prunable(big[n], time))
  }

  predicate Tidy(nonce: Str, entry: Entry) {
    ValidEntry(nonce, entry) && W.ValidWindowsEntry(nonce, entry)
  }

  predicate AllTidy(entries: Entries) {
    forall n :: n in entries ==> Tidy(n, entries[n])
  }

  predicate Acceptable(disk: Disk, limit: nat) {
    && disk.File? && disk.doc.Current? && disk.size <= MAX_LEDGER_BYTES
    && |disk.doc.entries| <= limit && AllTidy(disk.doc.entries)
  }

  /**
    The Windows ledger in memory holds the Unix entries plus terminal ones that expired before
    `floor`, and its file holds that plus terminal ones that expired before `top`.
  */
  predicate Related(u: Store, w: Store, floor: i64, top: i64) {
    && Sound(u) && !u.failedClosed && !w.failedClosed && u.limit == w.limit
    && |w.entries| <= w.limit
    && AllTidy(w.entries)
    && Acceptable(w.disk, w.limit)
    && floor <= top
    && Extends(w.entries, u.entries, floor)
    && Extends(w.disk.doc.entries, w.entries, top)
  }

  lemma SamePrune(u: Entries, w: Entries, time: i64, now: i64)
    requires Extends(w, u, time) && time <= now
    ensures Pruned(w, now) == Pruned(u, now)
    ensures Extends(u, Pruned(u, now), now)
    ensures Extends(w, Pruned(w, now), now)
  {
    var a, b := Pruned(w, now), Pruned(u, now);
    assert forall n :: n in a <==> n in b;
  }

  lemma ExtendsTransitive(a: Entries, b: Entries, c: Entries, time: i64)
    requires Extends(a, b, time) && Extends(b, c, time)
    ensures Extends(a, c, time)
  {
  }

  lemma DigestsAgree(d: Str)
    requires IsDigest(d)
    ensures W.IsWindowsDigest(d)
  {
  }

  /** The Unix call, when its writes succeed. */
  lemma UnixReserve(u: Store, n: Str, d: Str, e: i64, now: i64, pw: Write, w: Write)
    requires Sound(u) && !u.failedClosed && Succeeds(pw) && Succeeds(w) && ValidReservation(n, d, e, now)
    ensures
      var kept := Pruned(u.entries, now);
      var o := Reserve(u, n, d, e, now, pw, w);
      && !o.store.failedClosed && o.store.limit == u.limit && Sound(o.store)
      && o.answer.Ok? == (n !in kept && |kept| < u.limit)
      && o.store.entries == (if o.answer.Ok? then kept[n := FreshEntry(d, e, now)] else kept)
  {
    hide Sound;
    ReserveIsSound(u, n, d, e, now, pw, w);
  }

  /** The Windows call, when its write succeeds: the file changes only with a new entry. */
  lemma WindowsReserve(s: Store, n: Str, d: Str, e: i64, now: i64, w: Write, time: i64)
    requires !s.failedClosed && Succeeds(w) && ValidReservation(n, d, e, now) && W.IsWindowsDigest(d)
    requires |s.entries| <= s.limit && AllTidy(s.entries) && Acceptable(s.disk, s.limit)
    requires Extends(s.disk.doc.entries, s.entries, time) && now <= time
    ensures
      var kept := Pruned(s.entries, now);
      var o := W.LazyReserve(s, n, d, e, now, w);
      && !o.store.failedClosed && o.store.limit == s.limit
      && o.answer.Ok? == (n !in kept && |kept| < s.limit)
      && o.store.entries == (if o.answer.Ok? then kept[n := FreshEntry(d, e, now)] else kept)
      && |o.store.entries| <= o.store.limit && AllTidy(o.store.entries)
      && Acceptable(o.store.disk, o.store.limit) && Extends(o.store.disk.doc.entries, o.store.entries, time)
  {
    hide Extends, AllTidy;
    var kept := Pruned(s.entries, now);
    PrunedIsSmaller(s.entries, now);
    PruneExtends(s.disk.doc.entries, s.entries, time, now);
    TidyPruned(s.entries, now);
    if n !in kept && |kept| < s.limit {
      var added := kept[n := FreshEntry(d, e, now)];
      assert added.Keys == kept.Keys + {n};
      TidyUpdate(kept, n, FreshEntry(d, e, now));
      SelfExtends(added, time);
    }
  }

  lemma ReserveRelated(u: Store, w: Store, floor: i64, top: i64, op: Op)
    requires Related(u, w, floor, top) && op.DoReserve? && Smooth(op) && floor <= op.now
    ensures Step(u, op).answer.Ok? == WindowsStep(w, op).answer.Ok?
    ensures Related(Step(u, op).store, WindowsStep(w, op).store, floor, TimeAfter(op, top))
  {
    hide Sound, AllTidy, Extends, Reserve, IsDigest, W.IsWindowsDigest;
    var DoReserve(n, d, e, now, pw, wr) := op;
    DigestsAgree(d);
    LaterExtends(w.disk.doc.entries, w.entries, top, TimeAfter(op, top));
    InvalidRefused(u, n, d, e, now, pw, wr);
    if ValidReservation(n, d, e, now) {
      UnixReserve(u, n, d, e, now, pw, wr);
      WindowsReserve(w, n, d, e, now, wr, TimeAfter(op, top));
      hide W.LazyReserve, Pruned;
      SamePrune(u.entries, w.entries, floor, now);
      SelfExtends(Step(u, op).store.entries, floor);
    }
  }

  lemma InvalidRefused(u: Store, n: Str, d: Str, e: i64, now: i64, pw: Write, w: Write)
    ensures !ValidReservation(n, d, e, now) ==>
      Reserve(u, n, d, e, now, pw, w).answer.Err? && Reserve(u, n, d, e, now, pw, w).store == u
  {
  }

  lemma SelfExtends(es: Entries, time: i64)
    ensures Extends(es, es, time)
  {
  }

  lemma TidyPruned(es: Entries, now: i64)
    requires AllTidy(es)
    ensures AllTidy(Pruned(es, now))
  {
  }

  lemma TidyUpdate(es: Entries, n: Str, entry: Entry)
    requires AllTidy(es) && Tidy(n, entry)
    ensures AllTidy(es[n := entry])
  {
  }

  lemma ExtendsUpdate(big: Entries, small: Entries, n: Str, entry: Entry, time: i64)
    requires Extends(big, small, time) && n in small
    ensures Extends(big[n := entry], small[n := entry], time)
  {
  }

  /** A call that rewrites the entry of `n`, present in both or in neither. */
  lemma RewriteRelated(u: Store, w: Store, floor: i64, top: i64, n: Str, entry: Entry, wr: Write)
    requires Related(u, w, floor, top) && n in u.entries && Tidy(n, entry) && Succeeds(wr)
    ensures Related(
      Commit(u.(entries := u.entries[n := entry]), wr).store,
      W.LazyPersist(w.(entries := w.entries[n := entry]), wr).store, floor, top)
  {
    hide Sound, AllTidy, Extends, Tidy;
    SoundIsReady(u);
    TidyIsValid(n, entry);
    ReplaceIsSound(u, n, entry, wr);
    PresentInBoth(u.entries, w.entries, n, floor);
    assert w.entries[n := entry].Keys == w.entries.Keys;
    TidyUpdate(w.entries, n, entry);
    ExtendsUpdate(w.entries, u.entries, n, entry, floor);
    SelfExtends(w.entries[n := entry], top);
  }

  lemma TidyIsValid(n: Str, entry: Entry)
    requires Tidy(n, entry)
    ensures ValidEntry(n, entry)
  {
  }

  lemma PresentInBoth(small: Entries, big: Entries, n: Str, time: i64)
    requires Extends(big, small, time)
    ensures n in small ==> n in big && big[n] == small[n]
    ensures n !in small && n in big ==> big[n].state.Terminal()
  {
  }

  lemma TidyAt(es: Entries, n: Str)
    requires AllTidy(es) && n in es
    ensures Tidy(n, es[n])
  {
  }

  lemma SoundIsReady(u: Store)
    requires Sound(u)
    ensures Ready(u)
  {
  }

  lemma MarkRelated(u: Store, w: Store, floor: i64, top: i64, op: Op)
    requires Related(u, w, floor, top) && Smooth(op) && (op.DoMarkSpawned? || op.DoMarkCompleted?)
    ensures Step(u, op).answer.Ok? == WindowsStep(w, op).answer.Ok?
    ensures Related(Step(u, op).store, WindowsStep(w, op).store, floor, top)
  {
    hide Sound, AllTidy, Extends;
    var n := op.nonce;
    PresentInBoth(u.entries, w.entries, n, floor);
    if n in u.entries {
      var next := if op.DoMarkSpawned? then SpawnedUncertain else Completed;
      TidyAt(w.entries, n);
      assert Tidy(n, Advance(u.entries[n], next));
      RewriteRelated(u, w, floor, top, n, Advance(u.entries[n], next), op.write);
    }
  }

  lemma ReconcileRelated(u: Store, w: Store, floor: i64, top: i64, op: Op)
    requires Related(u, w, floor, top) && Smooth(op) && op.DoReconcile?
    ensures Step(u, op).answer.Ok? == WindowsStep(w, op).answer.Ok?
    ensures Related(Step(u, op).store, WindowsStep(w, op).store, floor, top)
  {
    hide Sound, AllTidy, Extends;
    var DoReconcile(n, dec, actor, now, ack, wr) := op;
    PresentInBoth(u.entries, w.entries, n, floor);
    if ValidActor(actor) && n in u.entries {
      var prior := u.entries[n];
      var next := Disposition(prior.state, dec, ack);
      TidyAt(w.entries, n);
      if next.Some? {
        RewriteRelated(u, w, floor, top, n, Advance(prior, next.value).(
          reconciliation := Some(Reconciliation(actor, now, prior.state, next.value))), wr);
      }
    }
  }

  lemma ReopenRelated(u: Store, w: Store, floor: i64, top: i64, op: Op)
    requires Related(u, w, floor, top) && op.Reopen?
    ensures Step(u, op).answer.Ok? && WindowsStep(w, op).answer.Ok?
    ensures Related(Step(u, op).store, WindowsStep(w, op).store, top, top)
  {
    LaterExtends(w.entries, u.entries, floor, top);
    ExtendsTransitive(w.disk.doc.entries, w.entries, u.entries, top);
  }

  lemma StepRelated(u: Store, w: Store, floor: i64, top: i64, op: Op)
    requires Related(u, w, floor, top) && Smooth(op) && (op.DoReserve? ==> floor <= op.now)
    ensures Step(u, op).answer.Ok? == WindowsStep(w, op).answer.Ok?
    ensures Related(Step(u, op).store, WindowsStep(w, op).store, if op.Reopen? then top else floor, TimeAfter(op, top))
  {
    hide Related, Step, WindowsStep, Smooth;
    match op
    case DoReserve(_, _, _, _, _, _) => ReserveRelated(u, w, floor, top, op);
    case DoMarkSpawned(_, _, _, _) => MarkRelated(u, w, floor, top, op);
    case DoMarkCompleted(_, _, _) => MarkRelated(u, w, floor, top, op);
    case DoReconcile(_, _, _, _, _, _) => ReconcileRelated(u, w, floor, top, op);
    case Reopen(_) => ReopenRelated(u, w, floor, top, op);
  }

  /** Without write failures, and with no reservation time from before the last reopening, the two
      ledgers accept and refuse the same calls, over every sequence of calls and restarts. */
  lemma {:induction false} SameAnswers(u: Store, w: Store, floor: i64, top: i64, ops: seq<Op>)
    requires Related(u, w, floor, top)
    requires forall i :: 0 <= i < |ops| ==> Smooth(ops[i])
    requires InOrder(ops, floor, top)
    ensures UnixAnswers(u, ops) == WindowsAnswers(w, ops)
    decreases |ops|
  {
    if ops != [] {
      var op := ops[0];
      StepRelated(u, w, floor, top, op);
      hide Related, Step, WindowsStep;
      SameAnswers(Step(u, op).store, WindowsStep(w, op).store,
                  if op.Reopen? then top else floor, TimeAfter(op, top), ops[1..]);
    }
  }

  /**
    The calls happen at the times `clocks` of one clock that never goes backwards, and a reservation
    uses a reading taken at any moment since the last reopening, however long it then waited.
  */
  predicate Clocked(ops: seq<Op>, clocks: seq<i64>, since: i64, clock: i64)
    requires |clocks| == |ops|
    decreases |ops|
  {
    ops == [] ||
    (&& clock <= clocks[0]
     && (ops[0].DoReserve? ==> since <= ops[0].now <= clocks[0])
     && Clocked(ops[1..], clocks[1..], if ops[0].Reopen? then clocks[0] else since, clocks[0]))
  }

  lemma {:induction false} ClockKeepsOrder(ops: seq<Op>, clocks: seq<i64>, since: i64, clock: i64, floor: i64, top: i64)
    requires |clocks| == |ops| && Clocked(ops, clocks, since, clock)
    requires floor <= since && top <= clock
    ensures InOrder(ops, floor, top)
    decreases |ops|
  {
    if ops != [] {
      var reopens := ops[0].Reopen?;
      ClockKeepsOrder(ops[1..], clocks[1..], if reopens then clocks[0] else since, clocks[0],
                      if reopens then top else floor, TimeAfter(ops[0], top));
    }
  }

  /** Both open the same file, and then agree for good. */
  lemma SameAnswersFromOneFile(disk: Disk, limit: nat, wr: Write, ops: seq<Op>)
    requires Succeeds(wr)
    requires Open(disk, limit, wr).ledger.Ok? && W.LazyOpen(disk, limit, wr).ledger.Ok?
    requires forall i :: 0 <= i < |ops| ==> Smooth(ops[i])
    requires InOrder(ops, I64_MIN, I64_MIN)
    ensures
      var u, w := Open(disk, limit, wr).ledger.value, W.LazyOpen(disk, limit, wr).ledger.value;
      UnixAnswers(u, ops) == WindowsAnswers(w, ops)
  {
    OpenRelated(disk, limit, wr);
    hide Related, Open, W.LazyOpen;
    SameAnswers(Open(disk, limit, wr).ledger.value, W.LazyOpen(disk, limit, wr).ledger.value, I64_MIN, I64_MIN, ops);
  }

  /** Under one clock that never goes backwards, wherever the handlers read it, they always agree. */
  lemma SameAnswersUnderOneClock(disk: Disk, limit: nat, wr: Write, ops: seq<Op>, clocks: seq<i64>, start: i64)
    requires Succeeds(wr)
    requires Open(disk, limit, wr).ledger.Ok? && W.LazyOpen(disk, limit, wr).ledger.Ok?
    requires forall i :: 0 <= i < |ops| ==> Smooth(ops[i])
    requires |clocks| == |ops| && Clocked(ops, clocks, start, start)
    ensures
      var u, w := Open(disk, limit, wr).ledger.value, W.LazyOpen(disk, limit, wr).ledger.value;
      UnixAnswers(u, ops) == WindowsAnswers(w, ops)
  {
    ClockKeepsOrder(ops, clocks, start, start, I64_MIN, I64_MIN);
    SameAnswersFromOneFile(disk, limit, wr, ops);
  }

  lemma OpenRelated(disk: Disk, limit: nat, wr: Write)
    requires Succeeds(wr)
    requires Open(disk, limit, wr).ledger.Ok? && W.LazyOpen(disk, limit, wr).ledger.Ok?
    ensures Related(Open(disk, limit, wr).ledger.value, W.LazyOpen(disk, limit, wr).ledger.value, I64_MIN, I64_MIN)
  {
    hide Sound, AllTidy, Extends;
    OpenIsSound(disk, limit, wr);
    var w := W.LazyOpen(disk, limit, wr).ledger.value;
    SelfExtends(w.entries, I64_MIN);
    OpensTidy(w.entries);
    if disk.File? && disk.doc.Legacy? {
      assert |MigratedAll(disk.doc.legacy).Keys| == |disk.doc.legacy.Keys|;
    }
  }

  lemma OpensTidy(es: Entries)
    ensures ValidEntries(es) && W.ValidWindowsEntries(es) ==> AllTidy(es)
  {
  }

  // ---------------------------------------------------------------- with write failures

  /** While open, the file is the ledger in memory plus terminal entries expired before `time`. */
  predicate LazilyPruned(s: Store, time: i64) {
    !s.failedClosed ==> s.disk.File? && s.disk.doc.Current? && Extends(s.disk.doc.entries, s.entries, time)
  }

  lemma StepLazilyPruned(s: Store, time: i64, op: Op)
    requires LazilyPruned(s, time)
    ensures LazilyPruned(WindowsStep(s, op).store, TimeAfter(op, time))
  {
    var t := WindowsStep(s, op).store;
    SelfExtends(t.entries, TimeAfter(op, time));
    if op.DoReserve? && !s.failedClosed {
      LaterExtends(s.disk.doc.entries, s.entries, time, TimeAfter(op, time));
      PruneExtends(s.disk.doc.entries, s.entries, TimeAfter(op, time), op.now);
    }
    hide Extends;
  }

  lemma LaterExtends(big: Entries, small: Entries, time: i64, later: i64)
    requires Extends(big, small, time) && time <= later
    ensures Extends(big, small, later)
  {
  }

  lemma PruneExtends(big: Entries, small: Entries, time: i64, now: i64)
    requires Extends(big, small, time) && now <= time
    ensures Extends(big, Pruned(small, now), time)
  {
  }

  function WindowsRun(s: Store, ops: seq<Op>): Store
    decreases |ops|
  {
    if ops == [] then s else WindowsRun(WindowsStep(s, ops[0]).store, ops[1..])
  }

  function LatestTime(ops: seq<Op>, time: i64): i64
    decreases |ops|
  {
    if ops == [] then time else LatestTime(ops[1..], TimeAfter(ops[0], time))
  }

  /** Over any calls and reopenings, whatever their times and however their writes fare. */
  lemma {:induction false} RunLazilyPruned(s: Store, time: i64, ops: seq<Op>)
    requires LazilyPruned(s, time)
    ensures LazilyPruned(WindowsRun(s, ops), LatestTime(ops, time))
    decreases |ops|
  {
    hide WindowsStep, LazilyPruned;
    if ops != [] {
      StepLazilyPruned(s, time, ops[0]);
      RunLazilyPruned(WindowsStep(s, ops[0]).store, TimeAfter(ops[0], time), ops[1..]);
    }
  }

  /** A file that the Windows ledger accepts as it stands. */
  predicate WindowsHolds(disk: Disk, limit: nat) {
    && disk.File? && disk.doc.Current? && disk.size <= MAX_LEDGER_BYTES
    && |disk.doc.entries| <= limit && W.ValidWindowsEntries(disk.doc.entries)
  }

  /** Both the Windows ledger in memory and its file are acceptable. */
  predicate WindowsReady(s: Store) {
    && 0 < s.limit && |s.entries| <= s.limit && W.ValidWindowsEntries(s.entries)
    && WindowsHolds(s.disk, s.limit)
  }

  lemma OpenIsReady(disk: Disk, limit: nat, w: Write)
    ensures W.LazyOpen(disk, limit, w).ledger.Ok? ==> WindowsReady(W.LazyOpen(disk, limit, w).ledger.value)
  {
    if disk.File? && disk.doc.Legacy? {
      assert |MigratedAll(disk.doc.legacy).Keys| == |disk.doc.legacy.Keys|;
    }
  }

  lemma PersistIsReady(s: Store, n: Str, entry: Entry, w: Write)
    requires WindowsReady(s) && W.ValidWindowsEntry(n, entry) && (n in s.entries || |s.entries| < s.limit)
    ensures WindowsReady(W.LazyPersist(s.(entries := s.entries[n := entry]), w).store)
  {
    hide W.ValidWindowsEntry;
    assert s.entries[n := entry].Keys == s.entries.Keys + {n};
  }

  lemma ReserveIsReady(s: Store, n: Str, d: Str, e: i64, now: i64, w: Write)
    requires WindowsReady(s)
    ensures WindowsReady(W.LazyReserve(s, n, d, e, now, w).store)
  {
    var kept := s.(entries := Pruned(s.entries, now));
    PrunedIsSmaller(s.entries, now);
    assert WindowsReady(kept);
    hide WindowsReady, W.LazyPersist;
    if ValidNonce(n) && W.IsWindowsDigest(d) && |kept.entries| < s.limit {
      PersistIsReady(kept, n, FreshEntry(d, e, now), w);
    }
  }

  lemma EntryIsValid(s: Store, n: Str)
    requires WindowsReady(s) && n in s.entries
    ensures W.ValidWindowsEntry(n, s.entries[n])
  {
  }

  lemma MarkIsReady(s: Store, op: Op)
    requires WindowsReady(s) && (op.DoMarkSpawned? || op.DoMarkCompleted?)
    ensures WindowsReady(WindowsStep(s, op).store)
  {
    hide W.LazyPersist, WindowsReady;
    if op.nonce in s.entries {
      EntryIsValid(s, op.nonce);
      var entry := s.entries[op.nonce];
      PersistIsReady(s, op.nonce, Advance(entry, if op.DoMarkSpawned? then SpawnedUncertain else Completed), op.write);
    }
  }

  lemma ReconcileIsReady(s: Store, op: Op)
    requires WindowsReady(s) && op.DoReconcile?
    ensures WindowsReady(WindowsStep(s, op).store)
  {
    hide W.LazyPersist, WindowsReady;
    if op.nonce in s.entries && ValidActor(op.actor) {
      EntryIsValid(s, op.nonce);
      var entry := s.entries[op.nonce];
      var next := Disposition(entry.state, op.decision, op.acknowledged);
      if next.Some? {
        PersistIsReady(s, op.nonce, Advance(entry, next.value).(
          reconciliation := Some(Reconciliation(op.actor, op.now, entry.state, next.value))), op.write);
      }
    }
  }

  lemma StepIsReady(s: Store, op: Op)
    requires WindowsReady(s)
    ensures WindowsReady(WindowsStep(s, op).store)
  {
    match op
    case DoReserve(n, d, e, now, _, w) => ReserveIsReady(s, n, d, e, now, w);
    case DoReconcile(_, _, _, _, _, _) => ReconcileIsReady(s, op);
    case Reopen(w) => OpenIsReady(s.disk, s.limit, w);
    case _ => MarkIsReady(s, op);
  }

  lemma {:induction false} RunIsReady(s: Store, ops: seq<Op>)
    requires WindowsReady(s)
    ensures WindowsReady(WindowsRun(s, ops))
    decreases |ops|
  {
    hide WindowsReady, WindowsStep;
    if ops != [] {
      StepIsReady(s, ops[0]);
      RunIsReady(WindowsStep(s, ops[0]).store, ops[1..]);
    }
  }

  /** Every file a Windows run leaves behind, also after failed writes, reopens to exactly what it
      holds, without a write. */
  lemma WindowsFilesReopen(disk: Disk, limit: nat, w: Write, ops: seq<Op>, again: Write)
    requires W.LazyOpen(disk, limit, w).ledger.Ok?
    ensures
      var s := WindowsRun(W.LazyOpen(disk, limit, w).ledger.value, ops);
      && s.disk.File? && s.disk.doc.Current?
      && W.LazyOpen(s.disk, s.limit, again) == Opened(Ok(Store(s.limit, s.disk, s.disk.doc.entries, false)), s.disk)
  {
    OpenIsReady(disk, limit, w);
    RunIsReady(W.LazyOpen(disk, limit, w).ledger.value, ops);
  }

  lemma ClosedWindowsStep(s: Store, op: Op)
    requires s.failedClosed && !op.Reopen?
    ensures
      var o := WindowsStep(s, op);
      o.answer.Err? && o.store.failedClosed && o.store.disk == s.disk
  {
  }

  /** After one failed write, or one document refused as too large, no call succeeds and the file
      stays as it is, until a reopen; memory may still move, because `mark_spawned` and `complete`
      change it before they try to write. */
  lemma {:induction false} WindowsFailedWriteCloses(s: Store, op: Op, later: seq<Op>)
    requires !op.Reopen? && (WindowsStep(s, op).store.failedClosed || WindowsStep(s, op).answer == Err(WriteFailed))
    requires forall i :: 0 <= i < |later| ==> !later[i].Reopen?
    ensures
      var t := WindowsStep(s, op).store;
      && WindowsRun(t, later).disk == t.disk
      && (forall o: Op :: !o.Reopen? ==> WindowsStep(WindowsRun(t, later), o).answer.Err?)
  {
    var t := WindowsStep(s, op).store;
    assert t.failedClosed;
    hide WindowsStep;
    ClosedWindowsRun(t, later);
    forall o: Op | !o.Reopen? ensures WindowsStep(WindowsRun(t, later), o).answer.Err? {
      ClosedWindowsStep(WindowsRun(t, later), o);
    }
  }

  lemma {:induction false} ClosedWindowsRun(s: Store, ops: seq<Op>)
    requires s.failedClosed
    requires forall i :: 0 <= i < |ops| ==> !ops[i].Reopen?
    ensures WindowsRun(s, ops).failedClosed && WindowsRun(s, ops).disk == s.disk
    decreases |ops|
  {
    hide WindowsStep;
    if ops != [] {
      ClosedWindowsStep(s, ops[0]);
      ClosedWindowsRun(WindowsStep(s, ops[0]).store, ops[1..]);
    }
  }

  // ---------------------------------------------------------------- the clock hypothesis is needed

  lemma TwoAnswers(u: Store, w: Store, a: Op, b: Op)
    ensures UnixAnswers(u, [a, b]) == [Step(u, a).answer.Ok?, Step(Step(u, a).store, b).answer.Ok?]
    ensures WindowsAnswers(w, [a, b]) ==
        [WindowsStep(w, a).answer.Ok?, WindowsStep(WindowsStep(w, a).store, b).answer.Ok?]
  {
    hide Step, WindowsStep;
    assert [a, b][1..] == [b] && [b][1..] == [];
    assert UnixAnswers(Step(u, a).store, [b]) == [Step(Step(u, a).store, b).answer.Ok?] + [];
    assert WindowsAnswers(WindowsStep(w, a).store, [b]) == [WindowsStep(WindowsStep(w, a).store, b).answer.Ok?] + [];
  }

  /** Across a reopening a reservation with an earlier time than the latest before it tells the two
      apart whenever the Windows file still holds the pruned nonce: Unix accepts it, Windows refuses. */
  lemma EarlierTimeTellsThemApart(u: Store, w: Store, floor: i64, top: i64, n: Str, d: Str, e: i64, now: i64, wr: Write)
    requires Related(u, w, floor, top) && Succeeds(wr)
    requires ValidReservation(n, d, e, now) && |u.entries| < u.limit
    requires n !in u.entries && n in w.disk.doc.entries && w.disk.doc.entries[n].expires == e
    ensures
      var ops := [Reopen(wr), DoReserve(n, d, e, now, wr, wr)];
      UnixAnswers(u, ops) == [true, true] && WindowsAnswers(w, ops) == [true, false] && now < top
  {
    var reopen, reserve := Reopen(wr), DoReserve(n, d, e, now, wr, wr);
    TwoAnswers(u, w, reopen, reserve);
    UnixAccepts(u, n, d, e, now, wr);
    WindowsRefuses(w, n, d, e, now, wr);
    hide AllTidy, Sound, Step, WindowsStep;
  }

  lemma UnixAccepts(u: Store, n: Str, d: Str, e: i64, now: i64, wr: Write)
    requires Sound(u) && !u.failedClosed && Succeeds(wr)
    requires ValidReservation(n, d, e, now) && |u.entries| < u.limit && n !in u.entries
    ensures Step(u, Reopen(wr)) == Outcome(u, Ok(()))
    ensures Step(u, DoReserve(n, d, e, now, wr, wr)).answer.Ok?
  {
    UnixReserve(u, n, d, e, now, wr, wr);
    PrunedIsSmaller(u.entries, now);
  }

  lemma WindowsRefuses(w: Store, n: Str, d: Str, e: i64, now: i64, wr: Write)
    requires Acceptable(w.disk, w.limit) && 0 < w.limit && now <= e
    requires n in w.disk.doc.entries && w.disk.doc.entries[n].expires == e
    ensures
      var o := WindowsStep(w, Reopen(wr));
      o.answer.Ok? && WindowsStep(o.store, DoReserve(n, d, e, now, wr, wr)).answer.Err?
  {
  }
}

/** The Windows ledger as the object the code updates in place, call by call. */
module WindowsLedgerObject {
  import opened Basics
  import opened ReplayLedger
  import opened WindowsLedger
  import opened WindowsLedgerRefinement
  import LedgerRuns

  /** What every call on the ledger keeps, whatever its outcome. */
  lemma Guarantees(s: Store, op: LedgerRuns.Op)
    requires !op.Reopen?
    ensures forall time :: LazilyPruned(s, time) ==> LazilyPruned(WindowsStep(s, op).store, TimeAfter(op, time))
    ensures
      var o := WindowsStep(s, op);
      s.failedClosed ==> o.answer.Err? && o.store.failedClosed && o.store.disk == s.disk
  {
    hide WindowsStep, LazilyPruned;
    forall time | LazilyPruned(s, time) ensures LazilyPruned(WindowsStep(s, op).store, TimeAfter(op, time)) {
      StepLazilyPruned(s, time, op);
    }
    if s.failedClosed {
      ClosedWindowsStep(s, op);
    }
  }

  class WindowsDurableLedger {
    const limit: nat
    var disk: Disk
    var entries: Entries
    var failedClosed: bool

    ghost function View(): Store
      reads this
    {
      Store(limit, disk, entries, failedClosed)
    }

    constructor (store: Store)
      ensures View() == store
    {
      limit, disk, entries, failedClosed := store.limit, store.disk, store.entries, store.failedClosed;
    }

    method PersistFile(w: Write) returns (answer: Answer)
      modifies this`disk, this`failedClosed
      ensures Outcome(View(), answer) == LazyPersist(old(View()), w)
    {
      if failedClosed {
        return Err(FailedClosed);
      }
      if w.size > MAX_LEDGER_BYTES {
        failedClosed := true;
        return Err(Full);
      }
      if w.fate != LostWrite {
        disk := File(w.size, Current(entries));
      }
      if w.fate != Synced {
        failedClosed := true;
        return Err(WriteFailed);
      }
      answer := Ok(());
    }

    method ReserveNonce(nonce: Str, digest: Str, expires: i64, now: i64, w: Write) returns (answer: Answer)
      modifies this
      ensures Outcome(View(), answer) == LazyReserve(old(View()), nonce, digest, expires, now, w)
      ensures forall time :: LazilyPruned(old(View()), time) ==>
          LazilyPruned(View(), TimeAfter(LedgerRuns.DoReserve(nonce, digest, expires, now, w, w), time))
      ensures old(failedClosed) ==> answer.Err? && failedClosed && disk == old(disk)
    {
      Guarantees(View(), LedgerRuns.DoReserve(nonce, digest, expires, now, w, w));
      hide LazilyPruned;
      if failedClosed {
        return Err(FailedClosed);
      }
      if !(ValidNonce(nonce) && now <= expires && IsWindowsDigest(digest)) {
        return Err(Invalid);
      }
      entries := map n | n in entries && !Prunable(entries[n], now) :: entries[n];
      if nonce in entries {
        return Err(Replay);
      }
      if |entries| >= limit {
        return Err(Full);
      }
      entries := entries[nonce := FreshEntry(digest, expires, now)];
      answer := PersistFile(w);
    }

    method MarkNonceSpawned(nonce: Str, digest: Str, w: Write) returns (answer: Answer)
      modifies this
      ensures Outcome(View(), answer) == LazyMarkSpawned(old(View()), nonce, digest, w)
      ensures forall time :: LazilyPruned(old(View()), time) ==>
          LazilyPruned(View(), TimeAfter(LedgerRuns.DoMarkSpawned(nonce, digest, None, w), time))
      ensures old(failedClosed) ==> answer.Err? && failedClosed && disk == old(disk)
    {
      Guarantees(View(), LedgerRuns.DoMarkSpawned(nonce, digest, None, w));
      hide LazilyPruned;
      if nonce !in entries {
        return Err(Replay);
      }
      var entry := entries[nonce];
      if entry.digest != digest || entry.state != ReservedPreSpawn {
        return Err(DigestConflict);
      }
      entries := entries[nonce := entry.(state := SpawnedUncertain, transitions := Bump(entry.transitions))];
      answer := PersistFile(w);
    }

    method CompleteNonce(nonce: Str, digest: Str, w: Write) returns (answer: Answer)
      modifies this
      ensures Outcome(View(), answer) == LazyComplete(old(View()), nonce, digest, w)
      ensures forall time :: LazilyPruned(old(View()), time) ==>
          LazilyPruned(View(), TimeAfter(LedgerRuns.DoMarkCompleted(nonce, digest, w), time))
      ensures old(failedClosed) ==> answer.Err? && failedClosed && disk == old(disk)
    {
      Guarantees(View(), LedgerRuns.DoMarkCompleted(nonce, digest, w));
      hide LazilyPruned;
      if nonce !in entries {
        return Err(Replay);
      }
      var entry := entries[nonce];
      if entry.digest != digest {
        return Err(DigestConflict);
      }
      if entry.state != SpawnedUncertain {
        return Err(Replay);
      }
      entries := entries[nonce := entry.(state := Completed, transitions := Bump(entry.transitions))];
      answer := PersistFile(w);
    }

    method ReconcileNonce(nonce: Str, decision: Decision, actor: Str, now: i64, acknowledged: bool, w: Write)
      returns (answer: Answer)
      modifies this
      ensures Outcome(View(), answer) == LazyReconcile(old(View()), nonce, decision, actor, now, acknowledged, w)
      ensures forall time :: LazilyPruned(old(View()), time) ==>
          LazilyPruned(View(), TimeAfter(LedgerRuns.DoReconcile(nonce, decision, actor, now, acknowledged, w), time))
      ensures old(failedClosed) ==> answer.Err? && failedClosed && disk == old(disk)
    {
      Guarantees(View(), LedgerRuns.DoReconcile(nonce, decision, actor, now, acknowledged, w));
      hide LazilyPruned;
      if failedClosed {
        return Err(FailedClosed);
      }
      if !ValidActor(actor) {
        return Err(Invalid);
      }
      if nonce !in entries {
        return Err(Replay);
      }
      var entry := entries[nonce];
      var prior := entry.state;
      var next: ReplayState;
      if decision == MarkAborted && prior == ReservedPreSpawn {
        next := AbortedBeforeSpawn;
      } else if decision == MarkComplete && prior == SpawnedUncertain && acknowledged {
        next := Completed;
      } else {
        return Err(Invalid);
      }
      entry := entry.(
        state := next,
        transitions := Bump(entry.transitions),
        reconciliation := Some(Reconciliation(actor, now, prior, next)));
      entries := entries[nonce := entry];
      answer := PersistFile(w);
    }
  }
}
