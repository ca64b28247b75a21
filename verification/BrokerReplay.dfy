/**
  Exactly when one intent is started at most once.

  An Execute handler reads the clock before it takes the ledger lock, and reserves with that
  reading.  If another reservation has meanwhile pruned with a later time, a completed entry that
  expired in between is gone, and the earlier reading still passes the expiry test.
*/
module BrokerReplay {
  import opened Basics
  import opened ReplayLedger
  import opened BrokerProtocol
  import opened BrokerInvariant
  import BrokerSteps
  import BrokerTheorems
  import LedgerRuns

  /** In every reachable state in which reservations have pruned up to `pruneTime`, a further
      reservation of an already reserved intent with expiry `expires` is refused. */
  ghost predicate ReplayRefused(pruneTime: i64, expires: i64) {
    forall s0: State, steps: seq<Step>, h: HandlerId, pw: Write, w: Write ::
      && Init(s0) && Legal(s0, steps) && Guard(Run(s0, steps), UseLedger(h, pw, w))
      && IsReplay(Run(s0, steps), h, expires)
      && Run(s0, steps).history.pruneTime == pruneTime
      ==> Apply(Run(s0, steps), UseLedger(h, pw, w)).history.reservations == Run(s0, steps).history.reservations
  }

  /** Handler `h` is about to reserve an intent that was reserved before. */
  ghost predicate IsReplay(s: State, h: HandlerId, expires: i64) {
    && h in s.handlers
    && !Owns(s.handlers[h])
    && s.handlers[h].Intent().1 == expires
    && s.handlers[h].Intent() in s.history.reservations
  }

  lemma RefusedBeforePrune(s: State, h: HandlerId, pw: Write, w: Write)
    requires Inv(s) && Guard(s, UseLedger(h, pw, w))
    requires IsReplay(s, h, s.handlers[h].Intent().1)
    requires s.history.pruneTime <= s.handlers[h].Intent().1
    ensures Apply(s, UseLedger(h, pw, w)).history.reservations == s.history.reservations
  {
    hide LedgerInv, OwnerInv, ActiveInv, SignalInv, LockInv, Reserve;
    var a := s.handlers[h];
    var (n, e) := a.Intent();
    assert EarlyOk(a, s.clock);
    var now := if a.Executing? then a.pc.now else s.clock;
    BrokerSteps.SoundWhenUp(s.clock, s.store, s.history);
    ReserveFacts(s.store, n, a.Digest(), e, now, pw, w);
    if now <= e {
      StillThere(s.clock, s.store, s.history, now, (n, e));
    } else {
      Expired(s.store, n, a.Digest(), e, now, pw, w);
    }
  }

  lemma StillThere(clock: i64, store: Store, g: History, now: i64, i: Intent)
    requires LedgerInv(true, clock, store, g)
    requires i in g.reservations && g.pruneTime <= i.1 && now <= i.1
    ensures i.0 in Pruned(store.entries, now)
  {
  }

  lemma Expired(a: Store, n: Str, d: Str, e: i64, now: i64, pw: Write, w: Write)
    ensures e < now ==> Reserve(a, n, d, e, now, pw, w).answer.Err?
  {
  }

  // ---------------------------------------------------------------- one execution, start to end

  const GOOD := Write(0, Synced)

  function Life(h: HandlerId): seq<Step> {
    Launch(h) + WindUp(h)
  }

  function Launch(h: HandlerId): seq<Step> {
    LedgerTurn(h) + Locked(h) + LedgerTurn(h)
  }

  function WindUp(h: HandlerId): seq<Step> {
    [StartChild(h), Finish(h)] + Locked(h) + LedgerTurn(h)
  }

  /** Take the `active` lock and use it. */
  function Locked(h: HandlerId): seq<Step> {
    [TakeActive(h), UseActive(h)]
  }

  /** Take the ledger lock and make the next call, with writes that succeed. */
  function LedgerTurn(h: HandlerId): seq<Step> {
    [TakeLedger(h), UseLedger(h, GOOD, GOOD)]
  }

  lemma {:induction false} RunConcat(s: State, a: seq<Step>, b: seq<Step>)
    requires Legal(s, a) && Legal(Run(s, a), b)
    ensures Legal(s, a + b) && Run(s, a + b) == Run(Run(s, a), b)
    decreases |a|
  {
    hide Guard, Apply;
    if a == [] {
      assert a + b == b;
    } else {
      RunConcat(Apply(s, a[0]), a[1..], b);
      assert (a + b)[1..] == a[1..] + b;
    }
  }

  lemma RunOne(s: State, a: Step)
    requires Guard(s, a)
    ensures Legal(s, [a]) && Run(s, [a]) == Apply(s, a)
  {
    hide Guard, Apply;
    assert [a][1..] == [];
    assert Legal(Apply(s, a), []);
  }

  lemma RunTwo(s: State, a: Step, b: Step)
    requires Guard(s, a) && Guard(Apply(s, a), b)
    ensures Legal(s, [a, b]) && Run(s, [a, b]) == Apply(Apply(s, a), b)
  {
    hide Guard, Apply;
    assert [a, b][1..] == [b];
    RunOne(Apply(s, a), b);
    assert Legal(Apply(s, a), [b]);
  }

  /** The broker is up, its ledger is open, and nobody holds a lock. */
  ghost predicate Quiet(s: State) {
    s.up && s.ledgerLock == None && s.activeLock == None && !s.store.failedClosed
  }

  ghost predicate AtPc(s: State, h: HandlerId, x: Execute, pc: ExecutePc, started: bool) {
    Quiet(s) && h in s.handlers && s.handlers[h].Executing?
    && s.handlers[h].x == x && s.handlers[h].pc == pc && s.handlers[h].started == started
  }

  /** `t` is `s` except for handler `h`, the ledger, `active` and the history. */
  ghost predicate OthersKept(s: State, t: State, h: HandlerId) {
    && t.clock == s.clock && t.store.limit == s.store.limit
    && t.handlers.Keys == s.handlers.Keys
    && forall k :: k in s.handlers && k != h ==> t.handlers[k] == s.handlers[k]
  }

  lemma GoodReserve(store: Store, n: Str, d: Str, e: i64, now: i64)
    requires !store.failedClosed && ValidReservation(n, d, e, now)
    requires n !in Pruned(store.entries, now) && |Pruned(store.entries, now)| < store.limit
    ensures
      var o := Reserve(store, n, d, e, now, GOOD, GOOD);
      && o.answer.Ok? && !o.store.failedClosed && o.store.limit == store.limit
      && o.store.entries == Pruned(store.entries, now)[n := FreshEntry(d, e, now)]
  {
    hide ValidReservation, Pruned;
  }

  lemma ReserveSegment(s: State, h: HandlerId, x: Execute, now: i64)
    requires AtPc(s, h, x, Timed(now), false)
    requires ValidReservation(x.nonce, x.digest, x.expires, now)
    requires x.nonce !in Pruned(s.store.entries, now) && |Pruned(s.store.entries, now)| < s.store.limit
    ensures Legal(s, LedgerTurn(h))
    ensures
      var t := Run(s, LedgerTurn(h));
      && AtPc(t, h, x, Reserved, false) && OthersKept(s, t, h)
      && t.store.entries == Pruned(s.store.entries, now)[x.nonce := FreshEntry(x.digest, x.expires, now)]
      && t.history.effects == s.history.effects
      && t.history.reservations == s.history.reservations + multiset{(x.nonce, x.expires)}
      && t.history.pruneTime == (if s.history.pruneTime < now then now else s.history.pruneTime)
  {
    GoodReserve(s.store, x.nonce, x.digest, x.expires, now);
    hide Reserve, ValidReservation, Inserts, RetiredBy, FreshEntry, Pruned;
    RunTwo(s, TakeLedger(h), UseLedger(h, GOOD, GOOD));
  }

  lemma RegisterSegment(s: State, h: HandlerId, x: Execute)
    requires AtPc(s, h, x, Reserved, false)
    ensures Legal(s, Locked(h))
    ensures
      var t := Run(s, Locked(h));
      AtPc(t, h, x, Registered, false) && OthersKept(s, t, h) && t.store == s.store && t.history == s.history
  {
    RunTwo(s, TakeActive(h), UseActive(h));
  }

  lemma SpawnSegment(s: State, h: HandlerId, x: Execute)
    requires AtPc(s, h, x, Registered, false)
    requires x.nonce in s.store.entries && s.store.entries[x.nonce].digest == x.digest
    requires s.store.entries[x.nonce].state == ReservedPreSpawn
    ensures Legal(s, LedgerTurn(h))
    ensures
      var t := Run(s, LedgerTurn(h));
      && AtPc(t, h, x, Running, false) && OthersKept(s, t, h) && t.history == s.history
      && t.store.entries == s.store.entries[x.nonce := Advance(s.store.entries[x.nonce], SpawnedUncertain)]
  {
    RunTwo(s, TakeLedger(h), UseLedger(h, GOOD, GOOD));
  }

  lemma StartSegment(s: State, h: HandlerId, x: Execute)
    requires AtPc(s, h, x, Running, false)
    ensures Legal(s, [StartChild(h), Finish(h)])
    ensures
      var t := Run(s, [StartChild(h), Finish(h)]);
      && AtPc(t, h, x, Exited, true) && OthersKept(s, t, h) && t.store == s.store
      && t.history.effects == s.history.effects + multiset{(x.nonce, x.expires)}
      && t.history.reservations == s.history.reservations && t.history.pruneTime == s.history.pruneTime
  {
    RunTwo(s, StartChild(h), Finish(h));
  }

  lemma LeaveSegment(s: State, h: HandlerId, x: Execute)
    requires AtPc(s, h, x, Exited, true)
    ensures Legal(s, Locked(h))
    ensures
      var t := Run(s, Locked(h));
      AtPc(t, h, x, Deregistered, true) && OthersKept(s, t, h) && t.store == s.store && t.history == s.history
  {
    RunTwo(s, TakeActive(h), UseActive(h));
  }

  lemma CompleteSegment(s: State, h: HandlerId, x: Execute)
    requires AtPc(s, h, x, Deregistered, true)
    requires x.nonce in s.store.entries && s.store.entries[x.nonce].digest == x.digest
    requires s.store.entries[x.nonce].state == SpawnedUncertain
    ensures Legal(s, LedgerTurn(h))
    ensures
      var t := Run(s, LedgerTurn(h));
      && AtPc(t, h, x, Replied(true), true) && OthersKept(s, t, h) && t.history == s.history
      && t.store.entries == s.store.entries[x.nonce := Advance(s.store.entries[x.nonce], Completed)]
  {
    RunTwo(s, TakeLedger(h), UseLedger(h, GOOD, GOOD));
  }

  lemma LaunchRuns(s: State, h: HandlerId, x: Execute, now: i64)
    requires AtPc(s, h, x, Timed(now), false)
    requires ValidReservation(x.nonce, x.digest, x.expires, now)
    requires x.nonce !in Pruned(s.store.entries, now) && |Pruned(s.store.entries, now)| < s.store.limit
    ensures Legal(s, Launch(h))
    ensures
      var t := Run(s, Launch(h));
      && AtPc(t, h, x, Running, false) && OthersKept(s, t, h)
      && t.store.entries == Pruned(s.store.entries, now)[
           x.nonce := Advance(FreshEntry(x.digest, x.expires, now), SpawnedUncertain)]
      && t.history.effects == s.history.effects
      && t.history.reservations == s.history.reservations + multiset{(x.nonce, x.expires)}
      && t.history.pruneTime == (if s.history.pruneTime < now then now else s.history.pruneTime)
  {
    hide Legal, Run, Guard, Apply;
    ReserveSegment(s, h, x, now);
    var s1 := Run(s, LedgerTurn(h));
    RegisterSegment(s1, h, x);
    var s2 := Run(s1, Locked(h));
    SpawnSegment(s2, h, x);
    RunConcat(s, LedgerTurn(h), Locked(h));
    RunConcat(s, LedgerTurn(h) + Locked(h), LedgerTurn(h));
  }

  lemma WindUpRuns(s: State, h: HandlerId, x: Execute)
    requires AtPc(s, h, x, Running, false)
    requires x.nonce in s.store.entries && s.store.entries[x.nonce].digest == x.digest
    requires s.store.entries[x.nonce].state == SpawnedUncertain
    ensures Legal(s, WindUp(h))
    ensures
      var t := Run(s, WindUp(h));
      && AtPc(t, h, x, Replied(true), true) && OthersKept(s, t, h)
      && t.store.entries == s.store.entries[x.nonce := Advance(s.store.entries[x.nonce], Completed)]
      && t.history.effects == s.history.effects + multiset{(x.nonce, x.expires)}
      && t.history.reservations == s.history.reservations && t.history.pruneTime == s.history.pruneTime
  {
    hide Legal, Run, Guard, Apply;
    StartSegment(s, h, x);
    var s1 := Run(s, [StartChild(h), Finish(h)]);
    LeaveSegment(s1, h, x);
    var s2 := Run(s1, Locked(h));
    CompleteSegment(s2, h, x);
    RunConcat(s, [StartChild(h), Finish(h)], Locked(h));
    RunConcat(s, [StartChild(h), Finish(h)] + Locked(h), LedgerTurn(h));
  }

  /** From a reading of the clock to the reply: one effect, and a completed entry. */
  lemma LifeRuns(s: State, h: HandlerId, x: Execute, now: i64)
    requires AtPc(s, h, x, Timed(now), false)
    requires ValidReservation(x.nonce, x.digest, x.expires, now)
    requires x.nonce !in Pruned(s.store.entries, now) && |Pruned(s.store.entries, now)| < s.store.limit
    ensures Legal(s, Life(h))
    ensures
      var t := Run(s, Life(h));
      && AtPc(t, h, x, Replied(true), true) && OthersKept(s, t, h)
      && t.store.entries == Pruned(s.store.entries, now)[
           x.nonce := Advance(Advance(FreshEntry(x.digest, x.expires, now), SpawnedUncertain), Completed)]
      && t.history.effects == s.history.effects + multiset{(x.nonce, x.expires)}
      && t.history.reservations == s.history.reservations + multiset{(x.nonce, x.expires)}
      && t.history.pruneTime == (if s.history.pruneTime < now then now else s.history.pruneTime)
  {
    hide Legal, Run, Guard, Apply;
    LaunchRuns(s, h, x, now);
    WindUpRuns(Run(s, Launch(h)), h, x);
    RunConcat(s, Launch(h), WindUp(h));
  }

  // ---------------------------------------------------------------- the stale reading

  /** Two copies of one intent, and a third connection with another nonce. */
  function Copied(e: i64): Execute {
    Execute([], [], [97], seq(64, _ => 48), e, [])
  }

  function Other(later: i64): Execute {
    Execute([], [], [98], seq(64, _ => 48), later, [])
  }

  function Start(e: i64): State {
    State(false, e, 2, Store(2, NoFile, map[], false), map[], 0, map[], None, None,
          History(multiset{}, multiset{}, multiset{}, {}, {}, {}, multiset{}, I64_MIN))
  }

  function Arrive(e: i64, later: i64): seq<Step> {
    [Restart(GOOD), AcceptExecute(Copied(e))] + [AcceptExecute(Copied(e)), AcceptExecute(Other(later))]
    + [ReadClock(0), ReadClock(1)]
  }

  /** Handlers 0 and 1 have both read the clock at `e`. */
  lemma Arrived(e: i64, later: i64)
    ensures Legal(Start(e), Arrive(e, later))
    ensures
      var s := Run(Start(e), Arrive(e, later));
      && AtPc(s, 0, Copied(e), Timed(e), false) && AtPc(s, 1, Copied(e), Timed(e), false)
      && AtPc(s, 2, Other(later), Verified, false)
      && s.clock == e && s.store.limit == 2 && s.store.entries == map[]
      && s.history.effects == multiset{} && s.history.reservations == multiset{}
      && s.history.pruneTime == I64_MIN
  {
    var first := [Restart(GOOD), AcceptExecute(Copied(e))];
    var second := [AcceptExecute(Copied(e)), AcceptExecute(Other(later))];
    RunTwo(Start(e), first[0], first[1]);
    var s1 := Run(Start(e), first);
    RunTwo(s1, second[0], second[1]);
    var s2 := Run(s1, second);
    RunTwo(s2, ReadClock(0), ReadClock(1));
    RunConcat(Start(e), first, second);
    RunConcat(Start(e), first + second, [ReadClock(0), ReadClock(1)]);
  }

  /** Handler 0 runs to its reply, the clock moves on, and handler 2 reserves and prunes. */
  function Prologue(e: i64, later: i64): seq<Step> {
    Arrive(e, later) + Life(0) + [Tick(later), ReadClock(2)] + LedgerTurn(2)
  }

  /** The intent is consumed and pruned, while handler 1 still holds its reading `e`. */
  lemma StaleReading(e: i64, later: i64)
    requires e < later
    ensures Init(Start(e)) && Legal(Start(e), Prologue(e, later))
    ensures
      var s := Run(Start(e), Prologue(e, later));
      && AtPc(s, 1, Copied(e), Timed(e), false) && s.clock == later
      && s.store.limit == 2 && |s.store.entries| == 1 && [97] !in s.store.entries
      && s.history.pruneTime == later
      && s.history.effects == multiset{([97], e)} && ([97], e) in s.history.reservations
  {
    hide Legal, Run, Apply, Guard;
    Arrived(e, later);
    var s1 := Run(Start(e), Arrive(e, later));
    LifeRuns(s1, 0, Copied(e), e);
    var s2 := Run(s1, Life(0));
    TimePasses(s2, 2, Other(later), later);
    var s3 := Run(s2, [Tick(later), ReadClock(2)]);
    assert Pruned(s3.store.entries, later) == map[];
    ReserveSegment(s3, 2, Other(later), later);
    RunConcat(Start(e), Arrive(e, later), Life(0));
    RunConcat(Start(e), Arrive(e, later) + Life(0), [Tick(later), ReadClock(2)]);
    RunConcat(Start(e), Arrive(e, later) + Life(0) + [Tick(later), ReadClock(2)], LedgerTurn(2));
  }

  lemma TimePasses(s: State, h: HandlerId, x: Execute, to: i64)
    requires AtPc(s, h, x, Verified, false) && s.clock <= to <= x.expires
    ensures Legal(s, [Tick(to), ReadClock(h)])
    ensures
      var t := Run(s, [Tick(to), ReadClock(h)]);
      && AtPc(t, h, x, Timed(to), false) && t.store == s.store && t.history == s.history && t.clock == to
      && t.handlers.Keys == s.handlers.Keys
      && forall k :: k in s.handlers && k != h ==> t.handlers[k] == s.handlers[k]
  {
    RunTwo(s, Tick(to), ReadClock(h));
  }

  /** For every expiry, and every later time: a legal run under a nondecreasing clock in which one
      intent starts two children. */
  lemma OneIntentStartsTwice(e: i64, later: i64)
    requires e < later
    ensures Init(Start(e)) && Legal(Start(e), Prologue(e, later) + Life(1))
    ensures Run(Start(e), Prologue(e, later) + Life(1)).history.effects[([97], e)] == 2
    ensures Run(Start(e), Prologue(e, later) + Life(1)).clock == later
  {
    hide Legal, Run, Apply, Guard;
    StaleReading(e, later);
    var s := Run(Start(e), Prologue(e, later));
    assert |Pruned(s.store.entries, e)| <= |s.store.entries| by {
      LedgerRuns.PrunedIsSmaller(s.store.entries, e);
    }
    LifeRuns(s, 1, Copied(e), e);
    RunConcat(Start(e), Prologue(e, later), Life(1));
  }

  /** Every run that ends with the clock at most `c` gives each intent with expiry `e` at most one
      effect. */
  ghost predicate StartsOnceUntil(c: i64, e: i64) {
    forall s0: State, steps: seq<Step>, n: Str ::
      Init(s0) && Legal(s0, steps) && Run(s0, steps).clock <= c ==> Run(s0, steps).history.effects[(n, e)] <= 1
  }

  lemma OnceBeforeExpiry(s0: State, steps: seq<Step>, i: Intent)
    requires Init(s0) && Legal(s0, steps) && Run(s0, steps).clock <= i.1
    ensures Run(s0, steps).history.effects[i] <= 1
  {
    hide Run, OwnerInv, ActiveInv, SignalInv, LockInv, EarlyInv;
    BrokerTheorems.Reachable(s0, steps);
    assert i !in Run(s0, steps).history.late;
    BrokerTheorems.AtMostOnce(s0, steps, i);
  }

  lemma OneMore(m: multiset<Intent>, i: Intent)
    ensures m + multiset{i} != m
  {
    assert (m + multiset{i})[i] == m[i] + 1;
  }

  /** A reservation call is late exactly when it succeeds after the expiry. */
  lemma ReserveLate(s: State, h: HandlerId, now: i64, pw: Write, w: Write, next: Handler, refused: Handler)
    requires h in s.handlers
    ensures
      var g := DoReserve(s, h, now, pw, w, next, refused).history;
      && (g.late != s.history.late <==> g.reservations != s.history.reservations && s.clock > s.handlers[h].Intent().1)
      && (g.reservations != s.history.reservations ==> now <= s.handlers[h].Intent().1)
  {
    var a := s.handlers[h];
    Expired(s.store, a.Intent().0, a.Digest(), a.Intent().1, now, pw, w);
    hide Reserve, ReachesPrune, Inserts;
    OneMore(s.history.reservations, a.Intent());
    OneMore(s.history.late, a.Intent());
  }

  /** A reservation that uses the current time, as a Cancel does under the ledger lock, is never late;
      an Execute makes a late one exactly when it succeeds after the clock has passed its expiry. */
  lemma LateExactly(s: State, h: HandlerId, pw: Write, w: Write)
    requires Guard(s, UseLedger(h, pw, w))
    ensures
      var t := AfterLedger(s, h, pw, w);
      t.history.late != s.history.late <==>
        && s.handlers[h].Executing? && s.handlers[h].pc.Timed? && s.clock > s.handlers[h].x.expires
        && t.history.reservations != s.history.reservations
  {
    var a := s.handlers[h];
    if a.Executing? && a.pc.Timed? {
      ReserveLate(s, h, a.pc.now, pw, w, a.(pc := Reserved), a.(pc := Replied(false)));
    } else if a.Cancelling? && a.cpc.CancelVerified? {
      ReserveLate(s, h, s.clock, pw, w, a.(cpc := CancelReserved), a.(cpc := CancelReplied(None)));
    }
    hide DoReserve, MarkSpawned, MarkCompleted;
  }

  /** One intent starts at most one child, in every run, exactly as long as the clock has not passed
      its expiry. */
  lemma StartsOnceExactly(c: i64, e: i64)
    ensures StartsOnceUntil(c, e) <==> c <= e
  {
    hide Run, Legal;
    if c <= e {
      forall s0: State, steps: seq<Step>, n: Str | Init(s0) && Legal(s0, steps) && Run(s0, steps).clock <= c
        ensures Run(s0, steps).history.effects[(n, e)] <= 1
      {
        OnceBeforeExpiry(s0, steps, (n, e));
      }
    } else {
      OneIntentStartsTwice(e, c);
      assert Run(Start(e), Prologue(e, c) + Life(1)).history.effects[([97], e)] == 2;
    }
  }

  /** A consumed intent is refused if and only if no reservation has pruned past its expiry. */
  lemma ReplayRefusedExactly(pruneTime: i64, expires: i64)
    ensures ReplayRefused(pruneTime, expires) <==> pruneTime <= expires
  {
    if pruneTime <= expires {
      RefusedWhenFresh(pruneTime, expires);
    } else {
      AcceptedWhenStale(pruneTime, expires);
    }
  }

  lemma RefusedWhenFresh(pruneTime: i64, expires: i64)
    requires pruneTime <= expires
    ensures ReplayRefused(pruneTime, expires)
  {
    hide Inv, Run, Legal, Guard, Apply;
    forall s0: State, steps: seq<Step>, h: HandlerId, pw: Write, w: Write |
      && Init(s0) && Legal(s0, steps) && Guard(Run(s0, steps), UseLedger(h, pw, w))
      && IsReplay(Run(s0, steps), h, expires)
      && Run(s0, steps).history.pruneTime == pruneTime
      ensures Apply(Run(s0, steps), UseLedger(h, pw, w)).history.reservations == Run(s0, steps).history.reservations
    {
      BrokerTheorems.Reachable(s0, steps);
      RefusedBeforePrune(Run(s0, steps), h, pw, w);
    }
  }

  lemma AcceptedWhenStale(pruneTime: i64, expires: i64)
    requires expires < pruneTime
    ensures !ReplayRefused(pruneTime, expires)
  {
    hide Legal, Run, Apply, Guard;
    StaleReading(expires, pruneTime);
    var steps := Prologue(expires, pruneTime) + [TakeLedger(1)];
    var s := Run(Start(expires), Prologue(expires, pruneTime));
    WaitingReplay(s, 1, Copied(expires), expires);
    RunConcat(Start(expires), Prologue(expires, pruneTime), [TakeLedger(1)]);
    var t := Run(Start(expires), steps);
    assert Guard(t, UseLedger(1, GOOD, GOOD));
  }

  lemma WaitingReplay(s: State, h: HandlerId, x: Execute, now: i64)
    requires AtPc(s, h, x, Timed(now), false)
    requires ValidReservation(x.nonce, x.digest, x.expires, now)
    requires x.nonce !in s.store.entries && |s.store.entries| < s.store.limit
    requires (x.nonce, x.expires) in s.history.reservations
    ensures Legal(s, [TakeLedger(h)])
    ensures
      var t := Run(s, [TakeLedger(h)]);
      && Guard(t, UseLedger(h, GOOD, GOOD)) && IsReplay(t, h, x.expires)
      && t.history == s.history
      && Apply(t, UseLedger(h, GOOD, GOOD)).history.reservations ==
          s.history.reservations + multiset{(x.nonce, x.expires)}
  {
    hide Run, Legal, Guard, Apply;
    TakesLedger(s, h, x, now);
    RunOne(s, TakeLedger(h));
    LedgerRuns.PrunedIsSmaller(s.store.entries, now);
    var t := s.(ledgerLock := Some(h));
    ReserveAccepts(t, h, x, now);
    hide DoReserve;
    ReservesNext(t, h, now);
  }

  lemma TakesLedger(s: State, h: HandlerId, x: Execute, now: i64)
    requires AtPc(s, h, x, Timed(now), false)
    ensures Guard(s, TakeLedger(h)) && Apply(s, TakeLedger(h)) == s.(ledgerLock := Some(h))
    ensures Guard(s.(ledgerLock := Some(h)), UseLedger(h, GOOD, GOOD))
  {
    hide AfterLedger;
  }

  lemma ReservesNext(t: State, h: HandlerId, now: i64)
    requires Guard(t, UseLedger(h, GOOD, GOOD)) && t.handlers[h].Executing? && t.handlers[h].pc == Timed(now)
    ensures
      var a := t.handlers[h];
      Apply(t, UseLedger(h, GOOD, GOOD)) ==
          DoReserve(t, h, now, GOOD, GOOD, a.(pc := Reserved), a.(pc := Replied(false)))
  {
    hide DoReserve, DoMarkSpawned, DoMarkCompleted;
  }

  lemma ReserveAccepts(t: State, h: HandlerId, x: Execute, now: i64)
    requires h in t.handlers && t.handlers[h].Executing? && t.handlers[h].x == x && !t.store.failedClosed
    requires ValidReservation(x.nonce, x.digest, x.expires, now)
    requires x.nonce !in Pruned(t.store.entries, now) && |Pruned(t.store.entries, now)| < t.store.limit
    ensures
      var a := t.handlers[h];
      DoReserve(t, h, now, GOOD, GOOD, a.(pc := Reserved), a.(pc := Replied(false))).history.reservations
      == t.history.reservations + multiset{(x.nonce, x.expires)}
  {
    assert Reserve(t.store, x.nonce, x.digest, x.expires, now, GOOD, GOOD).answer.Ok?;
    hide Reserve, ReachesPrune, Inserts;
  }
}
