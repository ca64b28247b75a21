/**
  Saves, loads, write errors and crashes over the configuration directory refine an atomic register
  that holds one pair.
*/
module ConfigTransactions {
  import opened Basics
  import opened ConfigStore

  // ---------------------------------------------------------------- what a directory means

  predicate OneOf<T(==)>(x: T, a: T, b: T) {
    x == a || x == b
  }

  /**
    A journal, if any, can be recovered; under it each file is on its own old or new, and a committed
    journal stands over the new pair.
  */
  predicate Sound(d: Dir) {
    match d.journal
    case Absent => true
    case Unreadable => false
    case Parsed(tx) =>
      && tx.schema == TX_SCHEMA
      && OneOf(d.files.config, tx.before.config, Some(tx.newConfig))
      && OneOf(d.files.policy, tx.before.policy, Some(tx.newPolicy))
      && (tx.phase.Committed? ==> d.files == tx.After())
  }

  /** The pair a directory stands for. */
  function Meaning(d: Dir): Pair {
    match d.journal
    case Absent => d.files
    case Unreadable => d.files
    case Parsed(tx) => Outcome(tx)
  }

  /** Every directory a crash may leave is sound and stands for one of the two pairs. */
  ghost predicate Within(d: Disk, p: Pair, q: Pair) {
    forall i :: i in Images(d) ==> Sound(i) && OneOf(Meaning(i), p, q)
  }

  /** Every directory a crash may leave stands for the same pair. */
  ghost predicate Settled(d: Disk, p: Pair) {
    Within(d, p, p)
  }

  ghost predicate SoundDisk(d: Disk) {
    forall i :: i in Images(d) ==> Sound(i)
  }

  /** Nothing but `d`'s own directories, or directories that stand for `p` or `q`. */
  ghost predicate Adds(d: Disk, n: Disk, p: Pair, q: Pair) {
    forall i :: i in Images(n) ==> i in Images(d) || (Sound(i) && OneOf(Meaning(i), p, q))
  }

  // ---------------------------------------------------------------- one transaction

  /** Publishing the pair a journal calls for adds no other meaning, and clears the journal when done. */
  lemma PublishKeeps(d: Disk, tx: Tx, f: PairFaults)
    requires Sound(d.live) && d.live.journal == Parsed(tx)
    ensures
      var n := Publish(d, Outcome(tx), f);
      && Sound(n.disk.live) && Meaning(n.disk.live) == Outcome(tx)
      && Adds(d, n.disk, Outcome(tx), Outcome(tx))
      && (n.status.Done? ==> n.disk.live == Dir(Outcome(tx), Absent))
  {
    var a := WriteConfig(d, Outcome(tx).config, f.config);
    var b := WritePolicy(a.disk, Outcome(tx).policy, f.policy);
  }

  lemma RecoverKeeps(d: Disk, f: PairFaults)
    requires Sound(d.live)
    ensures
      var n := Recover(d, f);
      && Sound(n.disk.live) && Meaning(n.disk.live) == Meaning(d.live)
      && Adds(d, n.disk, Meaning(d.live), Meaning(d.live))
      && (n.status.Done? ==> n.disk.live == Dir(Meaning(d.live), Absent))
  {
    if d.live.journal.Parsed? {
      PublishKeeps(d, d.live.journal.tx, f);
    }
  }

  lemma RollbackKeeps(d: Disk, tx: Tx, f: PairFaults)
    requires Sound(d.live) && d.live.journal.Parsed? && !d.live.journal.tx.phase.Committed?
    requires d.live.journal.tx.before == tx.before
    ensures
      var n := Rollback(d, tx, f);
      && !n.status.Done? && Sound(n.disk.live) && Meaning(n.disk.live) == tx.before
      && Adds(d, n.disk, tx.before, tx.before)
  {
    PublishKeeps(d, d.live.journal.tx, f);
  }

  /** The write, if it took effect, was synced, and an error meant it had not. */
  predicate Sharp(write: Fault) {
    !write.Unsynced? && !write.Muddled?
  }

  /**
    What a save does to the directory, from a directory without a journal: it stays within the old
    and the new pair, and when `sharp` no crash can take it from one to the other.
  */
  ghost predicate Transacted(d: Disk, n: Progress, tx: Tx, sharp: bool) {
    && Sound(n.disk.live) && OneOf(Meaning(n.disk.live), tx.before, tx.After())
    && Adds(d, n.disk, tx.before, tx.After())
    && (n.status.Done? ==> n.disk.live == Dir(tx.After(), Absent))
    && (sharp ==>
          || (Meaning(n.disk.live) == tx.before && Adds(d, n.disk, tx.before, tx.before))
          || Settled(n.disk, tx.After()))
  }

  predicate Fresh(d: Disk, tx: Tx) {
    d.live == Dir(tx.before, Absent) && tx.schema == TX_SCHEMA && tx.phase.Prepared?
  }

  /** The directory while a save holds an uncommitted journal. */
  ghost predicate Underway(d: Disk, n: Disk, tx: Tx) {
    && Sound(n.live) && n.live.journal.Parsed? && !n.live.journal.tx.phase.Committed?
    && n.live.journal.tx.before == tx.before
    && n.live.journal.tx.newConfig == tx.newConfig && n.live.journal.tx.newPolicy == tx.newPolicy
    && Adds(d, n, tx.before, tx.before)
  }

  lemma OrRollbackKeeps(d: Disk, p: Progress, tx: Tx, f: SaveFaults)
    requires Underway(d, p.disk, tx) && !p.status.Done?
    ensures Transacted(d, OrRollback(p, tx, f), tx, true)
    ensures !OrRollback(p, tx, f).status.Done?
  {
    RollbackKeeps(p.disk, tx, f.rollback);
  }

  lemma PrepareUnderway(d: Disk, tx: Tx, fault: Fault)
    requires Fresh(d, tx)
    ensures
      var n := WriteJournal(d, tx, fault);
      if n.status.Done? then Underway(d, n.disk, tx) && n.disk.live.files == tx.before
      else Transacted(d, n, tx, true)
  {
  }

  lemma ConfigUnderway(d: Disk, m: Disk, tx: Tx, fault: Fault)
    requires Underway(d, m, tx)
    ensures
      var n := WriteConfig(m, Some(tx.newConfig), fault);
      && Underway(d, n.disk, tx)
      && (n.status.Done? ==> n.disk.live.files.config == Some(tx.newConfig))
  {
  }

  lemma NoteUnderway(d: Disk, m: Disk, tx: Tx, fault: Fault)
    requires Underway(d, m, tx) && tx.schema == TX_SCHEMA
    ensures
      var n := WriteJournal(m, tx.(phase := ConfigWritten), fault);
      Underway(d, n.disk, tx) && n.disk.live.files == m.live.files
  {
  }

  lemma PolicyUnderway(d: Disk, m: Disk, tx: Tx, fault: Fault)
    requires Underway(d, m, tx)
    ensures
      var n := WritePolicy(m, Some(tx.newPolicy), fault);
      && Underway(d, n.disk, tx)
      && n.disk.live.files.config == m.live.files.config
      && (n.status.Done? ==> n.disk.live.files.policy == Some(tx.newPolicy))
  {
  }

  lemma CommitTransacted(d: Disk, m: Disk, tx: Tx, f: SaveFaults)
    requires Underway(d, m, tx) && m.live.files == tx.After() && tx.schema == TX_SCHEMA
    ensures
      var n := WriteJournal(m, tx.(phase := Committed), f.commit);
      Transacted(d, if n.status.Done? then ClearJournal(n.disk, f.clear) else n, tx, Sharp(f.commit))
  {
  }

  /** Never mixed: every directory a save leaves behind stands for the old pair or the new one. */
  lemma TransactKeeps(d: Disk, tx: Tx, f: SaveFaults)
    requires Fresh(d, tx)
    ensures Transacted(d, Transact(d, tx, f), tx, Sharp(f.commit))
  {
    hide Underway, Transacted, WriteConfig, WritePolicy, WriteJournal, ClearJournal, OrRollback;
    var a := WriteJournal(d, tx, f.prepare);
    PrepareUnderway(d, tx, f.prepare);
    if a.status.Done? {
      var b := WriteConfig(a.disk, Some(tx.newConfig), f.config);
      ConfigUnderway(d, a.disk, tx, f.config);
      if b.status.Done? {
        var written := tx.(phase := ConfigWritten);
        var c := WriteJournal(b.disk, written, f.note);
        NoteUnderway(d, b.disk, tx, f.note);
        UnderwayAnyPhase(d, c.disk, tx, written);
        if c.status.Done? {
          var e := WritePolicy(c.disk, Some(tx.newPolicy), f.policy);
          PolicyUnderway(d, c.disk, tx, f.policy);
          UnderwayAnyPhase(d, e.disk, tx, written);
          if e.status.Done? {
            CommitTransacted(d, e.disk, tx, f);
          } else {
            OrRollbackKeeps(d, e, written, f);
            TransactedAnyPhase(d, OrRollback(e, written, f), tx, written, Sharp(f.commit));
          }
        } else {
          OrRollbackKeeps(d, c, written, f);
          TransactedAnyPhase(d, OrRollback(c, written, f), tx, written, Sharp(f.commit));
        }
      } else {
        OrRollbackKeeps(d, b, tx, f);
        TransactedAnyPhase(d, OrRollback(b, tx, f), tx, tx, Sharp(f.commit));
      }
    } else {
      TransactedAnyPhase(d, a, tx, tx, Sharp(f.commit));
    }
  }

  lemma UnderwayAnyPhase(d: Disk, n: Disk, tx: Tx, other: Tx)
    requires Underway(d, n, tx) && other == tx.(phase := other.phase)
    ensures Underway(d, n, other)
  {
  }

  lemma TransactedAnyPhase(d: Disk, n: Progress, tx: Tx, other: Tx, sharp: bool)
    requires Transacted(d, n, other, true) && other == tx.(phase := other.phase)
    ensures Transacted(d, n, tx, sharp)
  {
  }

  // ---------------------------------------------------------------- when an acknowledged save survives

  lemma DoneMeansDone(d: Disk, tx: Tx, f: SaveFaults)
    requires Transact(d, tx, f).status.Done?
    ensures StatusOf(f.prepare).Done? && StatusOf(f.config).Done? && StatusOf(f.note).Done?
    ensures StatusOf(f.policy).Done? && StatusOf(f.commit).Done? && StatusOf(f.clear).Done?
    ensures
      var noted := WriteJournal(WriteConfig(WriteJournal(d, tx, f.prepare).disk, Some(tx.newConfig), f.config).disk,
                                tx.(phase := ConfigWritten), f.note).disk;
      var staged := WritePolicy(noted, Some(tx.newPolicy), f.policy).disk;
      && staged.live == Dir(tx.After(), Parsed(tx.(phase := ConfigWritten)))
      && Transact(d, tx, f).disk
         == ClearJournal(WriteJournal(staged, tx.(phase := Committed), f.commit).disk, f.clear).disk
  {
  }

  /**
    A save that was acknowledged survives every crash exactly when the directory was synced after the
    committed journal was renamed into place. The code attempts that sync and ignores its failure.
  */
  lemma AcknowledgedSaveSurvives(d: Disk, tx: Tx, f: SaveFaults)
    requires Fresh(d, tx) && Transact(d, tx, f).status.Done?
    ensures Settled(Transact(d, tx, f).disk, tx.After()) <==> f.commit.Fine? || tx.before == tx.After()
  {
    DoneMeansDone(d, tx, f);
    hide Transact, WriteConfig, WritePolicy;
    var n := Transact(d, tx, f).disk;
    var staged := Dir(tx.After(), Parsed(tx.(phase := ConfigWritten)));
    assert Meaning(staged) == tx.before;
    if !f.commit.Fine? {
      assert staged in Images(n);
    }
  }

  /** A save reported as failed, with no journal left, has left the old pair, unless the final unlink
      took effect and still reported an error. */
  lemma FailedSaveRestores(d: Disk, tx: Tx, f: SaveFaults)
    requires Fresh(d, tx) && Transact(d, tx, f).status.Failed? && Transact(d, tx, f).disk.live.journal.Absent?
    requires tx.before != tx.After()
    ensures Transact(d, tx, f).disk.live.files == tx.before <==>
        !(StatusOf(f.commit).Done? && f.clear.Muddled? && ReachedCommit(f))
  {
    TransactKeeps(d, tx, f);
    FailurePoint(d, tx, f);
    hide Transact, Transacted;
  }

  predicate ReachedCommit(f: SaveFaults) {
    StatusOf(f.prepare).Done? && StatusOf(f.config).Done? && StatusOf(f.note).Done? && StatusOf(f.policy).Done?
  }

  /** A failed save rolled back or never started, unless it had reached its commit point. */
  lemma FailurePoint(d: Disk, tx: Tx, f: SaveFaults)
    requires Fresh(d, tx) && Transact(d, tx, f).status.Failed?
    ensures
      var n := Transact(d, tx, f).disk.live;
      if !ReachedCommit(f) then Meaning(n) == tx.before
      else if !StatusOf(f.commit).Done? then n.journal.Parsed?
      else n == Dir(tx.After(), if f.clear.Muddled? then Absent else Parsed(tx.(phase := Committed)))
  {
    var a := WriteJournal(d, tx, f.prepare);
    if a.status.Done? {
      var written := tx.(phase := ConfigWritten);
      var b := WriteConfig(a.disk, Some(tx.newConfig), f.config);
      if !b.status.Done? {
        RollbackKeeps(b.disk, tx, f.rollback);
      } else {
        var c := WriteJournal(b.disk, written, f.note);
        if !c.status.Done? {
          RollbackKeeps(c.disk, written, f.rollback);
        } else {
          var e := WritePolicy(c.disk, Some(tx.newPolicy), f.policy);
          if !e.status.Done? {
            RollbackKeeps(e.disk, written, f.rollback);
          }
        }
      }
    }
  }
}

/** Whole runs: any calls, any write errors, any crashes. */
module ConfigRuns {
  import opened Basics
  import opened ConfigStore
  import opened ConfigTransactions

  /** `Ensure` is a load or an explicit recovery; `Crashes` is a machine crash that leaves `image`. */
  datatype Op =
    | SaveBoth(request: Request, faults: SaveFaults)
    | SetConfig(text: Str, valid: bool, recovery: PairFaults, fault: Fault)
    | SetPolicy(text: Str, valid: bool, recovery: PairFaults, fault: Fault)
    | Ensure(recovery: PairFaults)
    | Crashes(image: Dir)

  predicate Enabled(d: Disk, op: Op) {
    op.Crashes? ==> op.image in Images(d)
  }

  function Step(d: Disk, op: Op): Progress {
    match op
    case SaveBoth(request, f) => Save(d, request, f)
    case SetConfig(text, valid, recovery, fault) => SaveConfig(d, text, valid, recovery, fault)
    case SetPolicy(text, valid, recovery, fault) => SavePolicy(d, text, valid, recovery, fault)
    case Ensure(recovery) => Recover(d, recovery)
    case Crashes(image) => Progress(Reboot(image), Crashed)
  }

  predicate Legal(d: Disk, ops: seq<Op>)
    decreases |ops|
  {
    ops == [] || (Enabled(d, ops[0]) && Legal(Step(d, ops[0]).disk, ops[1..]))
  }

  function Run(d: Disk, ops: seq<Op>): Disk
    decreases |ops|
  {
    if ops == [] then d else Run(Step(d, ops[0]).disk, ops[1..])
  }

  /** What the call asks of a register that holds one pair. */
  function Effect(op: Op, p: Pair): Pair {
    match op
    case SaveBoth(request, _) => request.Wanted()
    case SetConfig(text, _, _, _) => p.(config := Some(text))
    case SetPolicy(text, _, _, _) => p.(policy := Some(text))
    case Ensure(_) => p
    case Crashes(_) => p
  }

  // ---------------------------------------------------------------- one call

  /** The call took effect as a whole or not at all, and took effect if it said so. */
  ghost predicate Atomic(d: Disk, op: Op, n: Progress) {
    var p := Meaning(d.live);
    && Sound(n.disk.live) && OneOf(Meaning(n.disk.live), p, Effect(op, p))
    && Adds(d, n.disk, p, Effect(op, p))
    && (n.status.Done? ==> n.disk.live == Dir(Effect(op, p), Absent))
  }

  lemma AddsTrans(d: Disk, m: Disk, n: Disk, p: Pair, q: Pair)
    requires Adds(d, m, p, p) && Adds(m, n, p, q)
    ensures Adds(d, n, p, q)
  {
  }

  lemma SaveIsAtomic(d: Disk, request: Request, f: SaveFaults)
    requires Sound(d.live)
    ensures Atomic(d, SaveBoth(request, f), Save(d, request, f))
  {
    var p := Meaning(d.live);
    var a := Recover(d, f.recovery);
    RecoverKeeps(d, f.recovery);
    if request.valid && a.status.Done? && request.secretFree && f.snapshot.Fine? {
      var tx := Tx(TX_SCHEMA, Prepared, a.disk.live.files, request.config, request.policy);
      TransactKeeps(a.disk, tx, f);
      AddsTrans(d, a.disk, Save(d, request, f).disk, p, request.Wanted());
    }
  }

  lemma SetConfigIsAtomic(d: Disk, text: Str, valid: bool, recovery: PairFaults, fault: Fault)
    requires Sound(d.live)
    ensures Atomic(d, SetConfig(text, valid, recovery, fault), SaveConfig(d, text, valid, recovery, fault))
  {
    RecoverKeeps(d, recovery);
    hide Recover;
  }

  lemma SetPolicyIsAtomic(d: Disk, text: Str, valid: bool, recovery: PairFaults, fault: Fault)
    requires Sound(d.live)
    ensures Atomic(d, SetPolicy(text, valid, recovery, fault), SavePolicy(d, text, valid, recovery, fault))
  {
    RecoverKeeps(d, recovery);
    hide Recover;
  }

  lemma CallIsAtomic(d: Disk, op: Op)
    requires Sound(d.live) && !op.Crashes?
    ensures Atomic(d, op, Step(d, op))
  {
    match op
    case SaveBoth(request, f) => SaveIsAtomic(d, request, f);
    case SetConfig(text, valid, recovery, fault) => SetConfigIsAtomic(d, text, valid, recovery, fault);
    case SetPolicy(text, valid, recovery, fault) => SetPolicyIsAtomic(d, text, valid, recovery, fault);
    case Ensure(recovery) => RecoverKeeps(d, recovery);
  }

  /** The documents do not validate, or a rendering holds a secret. */
  predicate Unfit(op: Op) {
    match op
    case SaveBoth(request, _) => !request.valid || !request.secretFree
    case SetConfig(_, valid, _, _) => !valid
    case SetPolicy(_, valid, _, _) => !valid
    case _ => false
  }

  /** Unfit documents are refused: the call is not acknowledged, and every directory it can leave
      stands for what was there. */
  lemma UnfitIsRefused(d: Disk, op: Op)
    requires Sound(d.live) && Unfit(op)
    ensures
      var n := Step(d, op);
      && !n.status.Done? && Sound(n.disk.live) && Meaning(n.disk.live) == Meaning(d.live)
      && Adds(d, n.disk, Meaning(d.live), Meaning(d.live))
    ensures op.SaveBoth? && !op.request.valid ==> Step(d, op) == Progress(d, Failed)
  {
    match op
    case SaveBoth(_, f) => RecoverKeeps(d, f.recovery);
    case SetConfig(_, _, recovery, _) => RecoverKeeps(d, recovery);
    case SetPolicy(_, _, recovery, _) => RecoverKeeps(d, recovery);
    hide Recover;
  }

  // ---------------------------------------------------------------- never mixed

  ghost function Meanings(d: Disk): set<Pair> {
    set i | i in Images(d) :: Meaning(i)
  }

  /** The pairs a register can have held. */
  function Held(values: set<Pair>, ops: seq<Op>): set<Pair>
    decreases |ops|
  {
    if ops == [] then values
    else Held(values + (set v | v in values :: Effect(ops[0], v)), ops[1..])
  }

  lemma {:induction false} HeldGrows(values: set<Pair>, more: set<Pair>, ops: seq<Op>)
    requires values <= more
    ensures Held(values, ops) <= Held(more, ops)
    decreases |ops|
  {
    if ops != [] {
      HeldGrows(values + (set v | v in values :: Effect(ops[0], v)),
          more + (set v | v in more :: Effect(ops[0], v)), ops[1..]);
    }
  }

  lemma StepStaysHeld(d: Disk, op: Op)
    requires SoundDisk(d) && Enabled(d, op)
    ensures SoundDisk(Step(d, op).disk)
    ensures Meanings(Step(d, op).disk) <= Meanings(d) + (set v | v in Meanings(d) :: Effect(op, v))
  {
    var n := Step(d, op).disk;
    if !op.Crashes? {
      CallIsAtomic(d, op);
      hide Step;
      var p := Meaning(d.live);
      assert d.live in Images(d) && p in Meanings(d);
      forall i | i in Images(n)
        ensures Sound(i)
        ensures Meaning(i) in Meanings(d) + (set v | v in Meanings(d) :: Effect(op, v))
      {
      }
    }
  }

  /**
    Whatever is called, whatever fails and wherever it crashes, every directory a crash may leave is
    recoverable and stands for a pair the register has held.
  */
  lemma {:induction false} NeverMixed(d: Disk, ops: seq<Op>)
    requires SoundDisk(d) && Legal(d, ops)
    ensures SoundDisk(Run(d, ops))
    ensures Meanings(Run(d, ops)) <= Held(Meanings(d), ops)
    decreases |ops|
  {
    if ops != [] {
      var n := Step(d, ops[0]).disk;
      StepStaysHeld(d, ops[0]);
      NeverMixed(n, ops[1..]);
      HeldGrows(Meanings(n), Meanings(d) + (set v | v in Meanings(d) :: Effect(ops[0], v)), ops[1..]);
    }
  }

  predicate PairOp(op: Op) {
    op.SaveBoth? || op.Ensure? || op.Crashes?
  }

  lemma {:induction false} HeldPairs(values: set<Pair>, ops: seq<Op>, p: Pair)
    requires forall k :: 0 <= k < |ops| ==> PairOp(ops[k])
    requires p in Held(values, ops)
    ensures p in values || exists k :: 0 <= k < |ops| && ops[k].SaveBoth? && ops[k].request.Wanted() == p
    decreases |ops|
  {
    if ops != [] {
      var next := values + (set v | v in values :: Effect(ops[0], v));
      HeldPairs(next, ops[1..], p);
      if p in next {
        if p !in values {
          assert ops[0].SaveBoth? && ops[0].request.Wanted() == p;
        }
      } else {
        var k :| 0 <= k < |ops[1..]| && ops[1..][k].SaveBoth? && ops[1..][k].request.Wanted() == p;
        assert ops[k + 1].request.Wanted() == p;
      }
    }
  }

  /**
    After any run of two-file saves, recoveries, errors and crashes, a successful recovery finds
    exactly the initial pair or the pair of one of the saves.
  */
  lemma RecoveredPairIsWhole(d: Disk, ops: seq<Op>, f: PairFaults)
    requires SoundDisk(d) && Legal(d, ops) && (forall k :: 0 <= k < |ops| ==> PairOp(ops[k]))
    requires Recover(Run(d, ops), f).status.Done?
    ensures
      var found := Recover(Run(d, ops), f).disk.live;
      && found.journal.Absent?
      && (|| found.files in Meanings(d)
          || exists k :: 0 <= k < |ops| && ops[k].SaveBoth? && ops[k].request.Wanted() == found.files)
  {
    var n := Run(d, ops);
    NeverMixed(d, ops);
    assert n.live in Images(n) && Meaning(n.live) in Meanings(n);
    RecoverKeeps(n, f);
    HeldPairs(Meanings(d), ops, Meaning(n.live));
  }

  // ---------------------------------------------------------------- refinement of the register

  /** The write with which a call moves the register. */
  function MovingWrite(op: Op): Fault {
    match op
    case SaveBoth(_, f) => f.commit
    case SetConfig(_, _, _, fault) => fault
    case SetPolicy(_, _, _, fault) => fault
    case _ => Fine
  }

  /** The sync after the call's moving write failed. */
  predicate Undoable(op: Op) {
    MovingWrite(op).Unsynced?
  }

  /** Register value `q` comes from `u` by this call: its effect, or nothing when it may be skipped. */
  predicate Moves(op: Op, u: Pair, q: Pair, skippable: bool) {
    q == Effect(op, u) || (skippable && q == u)
  }

  /** After the call a crash can bring back nothing older than what the call itself started from. */
  ghost predicate Covers(d: Disk, op: Op) {
    Within(Step(d, op).disk, Meaning(d.live), Effect(op, Meaning(d.live)))
  }

  /**
    What was done before `ops` may still be undone: a machine crash comes, or the run ends and `atEnd`
    counts as one, before any call has covered it.
  */
  ghost predicate Exposed(d: Disk, ops: seq<Op>, atEnd: bool)
    decreases |ops|
  {
    if ops == [] then atEnd
    else ops[0].Crashes? || (!Covers(d, ops[0]) && Exposed(Step(d, ops[0]).disk, ops[1..], atEnd))
  }

  /** The acknowledged first call may be missing after the run. */
  ghost predicate Losable(d: Disk, ops: seq<Op>, atEnd: bool)
    requires ops != []
  {
    Undoable(ops[0]) && Exposed(Step(d, ops[0]).disk, ops[1..], atEnd)
  }

  /**
    A register holding `p` comes to hold `q`: every acknowledged call takes effect unless it is
    losable, and any other may take effect or not.
  */
  ghost predicate Explained(d: Disk, ops: seq<Op>, p: Pair, q: Pair, atEnd: bool)
    decreases |ops|
  {
    if ops == [] then p == q
    else
      var n := Step(d, ops[0]);
      || Explained(n.disk, ops[1..], Effect(ops[0], p), q, atEnd)
      || ((!n.status.Done? || Losable(d, ops, atEnd)) && Explained(n.disk, ops[1..], p, q, atEnd))
  }

  /** The same, with every acknowledged call in effect. */
  ghost predicate Refined(d: Disk, ops: seq<Op>, p: Pair, q: Pair)
    decreases |ops|
  {
    if ops == [] then p == q
    else
      var n := Step(d, ops[0]);
      || Refined(n.disk, ops[1..], Effect(ops[0], p), q)
      || (!n.status.Done? && Refined(n.disk, ops[1..], p, q))
  }

  predicate Saves(op: Op) {
    op.SaveBoth? || op.SetConfig? || op.SetPolicy?
  }

  /** An acknowledged save covers everything before it: only the last one can be missing after a crash. */
  lemma AcknowledgedSaveCovers(d: Disk, op: Op)
    requires SoundDisk(d) && Saves(op) && Step(d, op).status.Done?
    ensures Covers(d, op)
    ensures !Undoable(op) ==> Settled(Step(d, op).disk, Effect(op, Meaning(d.live)))
  {
    match op
    case SaveBoth(request, f) =>
      var a := Recover(d, f.recovery);
      RecoverKeeps(d, f.recovery);
      hide Recover, Transact, WriteConfig, WritePolicy;
      var tx := Tx(TX_SCHEMA, Prepared, a.disk.live.files, request.config, request.policy);
      DoneMeansDone(a.disk, tx, f);
      assert Step(d, op).disk == Transact(a.disk, tx, f).disk;
    case SetConfig(text, valid, recovery, fault) =>
      RecoverKeeps(d, recovery);
      hide Recover;
    case SetPolicy(text, valid, recovery, fault) =>
      RecoverKeeps(d, recovery);
      hide Recover;
  }

  /**
    One call: each pair that can be there afterwards comes from one that can be there before. Unless
    the earlier pair is the visible one, it is there only because the call did not cover it.
  */
  lemma StepExplained(d: Disk, op: Op, q: Pair) returns (u: Pair)
    requires SoundDisk(d) && !op.Crashes? && q in Meanings(Step(d, op).disk)
    ensures u in Meanings(d)
    ensures
      var n := Step(d, op);
      || Moves(op, u, q, !n.status.Done?)
      || (Moves(op, u, q, true) && Undoable(op) && q != Meaning(n.disk.live))
    ensures u == Meaning(d.live) || (!Covers(d, op) && q != Meaning(Step(d, op).disk.live))
  {
    var n := Step(d, op);
    assert d.live in Images(d) && Meaning(d.live) in Meanings(d);
    u := Meaning(d.live);
    CallIsAtomic(d, op);
    if n.status.Done? && Saves(op) {
      AcknowledgedSaveCovers(d, op);
    } else if q != Effect(op, u) && q != u {
      u := q;
    }
    hide Step;
  }

  /**
    Every run, whatever is called, whatever fails and wherever it crashes, refines the register: each
    pair that can be found comes from one that could be there before, by calls that took effect
    wholly or not at all; an acknowledged call is missing only if its own sync failed and a crash came
    before any later call covered it. Without `atEnd` the pair is the visible one.
  */
  lemma {:induction false} EveryRunIsExplained(d: Disk, ops: seq<Op>, q: Pair, atEnd: bool)
    requires SoundDisk(d) && Legal(d, ops) && q in Meanings(Run(d, ops))
    requires !atEnd ==> q == Meaning(Run(d, ops).live)
    ensures exists v ::
      v in Meanings(d) && Explained(d, ops, v, q, atEnd) && (v == Meaning(d.live) || Exposed(d, ops, atEnd))
    decreases |ops|
  {
    if ops == [] {
      assert Explained(d, ops, q, q, atEnd);
    } else {
      var n := Step(d, ops[0]).disk;
      StepStaysHeld(d, ops[0]);
      EveryRunIsExplained(n, ops[1..], q, atEnd);
      var v :| v in Meanings(n) && Explained(n, ops[1..], v, q, atEnd) &&
          (v == Meaning(n.live) || Exposed(n, ops[1..], atEnd));
      if ops[0].Crashes? {
        assert v in Meanings(d) && Explained(d, ops, v, q, atEnd);
      } else {
        var u := StepExplained(d, ops[0], v);
        hide Step, Covers;
        assert Explained(d, ops, u, q, atEnd);
      }
    }
  }

  /** No acknowledged call of the run is losable. */
  ghost predicate NothingLosable(d: Disk, ops: seq<Op>, atEnd: bool)
    decreases |ops|
  {
    ops == [] ||
    (&& !(Step(d, ops[0]).status.Done? && Losable(d, ops, atEnd))
     && NothingLosable(Step(d, ops[0]).disk, ops[1..], atEnd))
  }

  lemma {:induction false} ExplainedIsRefined(d: Disk, ops: seq<Op>, p: Pair, q: Pair, atEnd: bool)
    requires Explained(d, ops, p, q, atEnd) && NothingLosable(d, ops, atEnd)
    ensures Refined(d, ops, p, q)
    decreases |ops|
  {
    if ops != [] {
      hide Step, Losable;
      var n := Step(d, ops[0]);
      if Explained(n.disk, ops[1..], Effect(ops[0], p), q, atEnd) {
        ExplainedIsRefined(n.disk, ops[1..], Effect(ops[0], p), q, atEnd);
      } else {
        ExplainedIsRefined(n.disk, ops[1..], p, q, atEnd);
      }
    }
  }

  /**
    A run with any crashes and any errors in which nothing acknowledged is losable refines the
    register: each acknowledged call took effect, every other one took effect wholly or not at all,
    and nothing else happened.
  */
  lemma RunRefinesRegister(d: Disk, ops: seq<Op>, q: Pair, atEnd: bool)
    requires SoundDisk(d) && Legal(d, ops) && q in Meanings(Run(d, ops))
    requires !atEnd ==> q == Meaning(Run(d, ops).live)
    requires NothingLosable(d, ops, atEnd)
    ensures exists v :: v in Meanings(d) && Refined(d, ops, v, q)
    ensures forall p :: Settled(d, p) ==> Refined(d, ops, p, q)
  {
    EveryRunIsExplained(d, ops, q, atEnd);
    var v :| v in Meanings(d) && Explained(d, ops, v, q, atEnd);
    ExplainedIsRefined(d, ops, v, q, atEnd);
  }

  /** Nothing is losable when every moving write was synced, or when the run has no machine crash and
      the visible pair is asked for. */
  lemma {:induction false} NothingLosableWhen(d: Disk, ops: seq<Op>, atEnd: bool)
    requires
      || (forall k :: 0 <= k < |ops| ==> !Undoable(ops[k]))
      || (!atEnd && forall k :: 0 <= k < |ops| ==> !ops[k].Crashes?)
    ensures NothingLosable(d, ops, atEnd)
    ensures (!atEnd && forall k :: 0 <= k < |ops| ==> !ops[k].Crashes?) ==> !Exposed(d, ops, atEnd)
    decreases |ops|
  {
    if ops != [] {
      hide Step, Covers;
      NothingLosableWhen(Step(d, ops[0]).disk, ops[1..], atEnd);
    }
  }

  lemma AddsSettled(d: Disk, n: Disk, p: Pair)
    requires Settled(d, p) && Adds(d, n, p, p)
    ensures Settled(n, p)
  {
  }

  lemma SaveSettles(d: Disk, request: Request, f: SaveFaults)
    requires Settled(d, Meaning(d.live)) && Sharp(f.commit)
    ensures var n := Save(d, request, f).disk; Settled(n, Meaning(n.live))
  {
    assert d.live in Images(d);
    var p := Meaning(d.live);
    var a := Recover(d, f.recovery);
    RecoverKeeps(d, f.recovery);
    AddsSettled(d, a.disk, p);
    hide Recover, Transact;
    if request.valid && a.status.Done? && request.secretFree && f.snapshot.Fine? {
      var tx := Tx(TX_SCHEMA, Prepared, a.disk.live.files, request.config, request.policy);
      TransactKeeps(a.disk, tx, f);
      var n := Transact(a.disk, tx, f).disk;
      if Settled(n, tx.After()) {
        assert n.live in Images(n);
      } else {
        AddsSettled(a.disk, n, p);
      }
    }
  }

  /** When the moving write was synced and told the truth, no crash changes what the directory stands for. */
  lemma StepSettles(d: Disk, op: Op)
    requires Settled(d, Meaning(d.live)) && Sharp(MovingWrite(op)) && Enabled(d, op)
    ensures var n := Step(d, op).disk; Settled(n, Meaning(n.live))
    ensures op.Crashes? ==> Meaning(Step(d, op).disk.live) == Meaning(d.live)
  {
    assert d.live in Images(d);
    match op
    case SaveBoth(request, f) => SaveSettles(d, request, f);
    case SetConfig(text, valid, recovery, fault) =>
      RecoverKeeps(d, recovery);
      AddsSettled(d, Recover(d, recovery).disk, Meaning(d.live));
      hide Recover;
    case SetPolicy(text, valid, recovery, fault) =>
      RecoverKeeps(d, recovery);
      AddsSettled(d, Recover(d, recovery).disk, Meaning(d.live));
      hide Recover;
    case Ensure(recovery) =>
      RecoverKeeps(d, recovery);
      AddsSettled(d, Recover(d, recovery).disk, Meaning(d.live));
    case Crashes(image) =>
  }

  /** Without machine crashes the register is refined whatever fails, synced or not. */
  lemma {:induction false} CrashFreeRunRefinesRegister(d: Disk, ops: seq<Op>)
    requires Sound(d.live)
    requires forall k :: 0 <= k < |ops| ==> !ops[k].Crashes?
    ensures Sound(Run(d, ops).live)
    ensures Refined(d, ops, Meaning(d.live), Meaning(Run(d, ops).live))
    decreases |ops|
  {
    if ops != [] {
      CallIsAtomic(d, ops[0]);
      hide Step;
      CrashFreeRunRefinesRegister(Step(d, ops[0]).disk, ops[1..]);
    }
  }

  /** A load that succeeds after any run sees a pair that the register explains, and refines it when
      nothing acknowledged was losable. */
  lemma LoadSeesRegister(d: Disk, ops: seq<Op>, f: PairFaults)
    requires SoundDisk(d) && Legal(d, ops)
    requires Recover(Run(d, ops), f).status.Done?
    ensures
      var found := Recover(Run(d, ops), f).disk.live.files;
      && (exists v :: v in Meanings(d) && Explained(d, ops, v, found, false))
      && (NothingLosable(d, ops, false) ==> exists v :: v in Meanings(d) && Refined(d, ops, v, found))
  {
    var n := Run(d, ops);
    NeverMixed(d, ops);
    assert n.live in Images(n) && Meaning(n.live) in Meanings(n);
    RecoverKeeps(n, f);
    hide Recover;
    EveryRunIsExplained(d, ops, Meaning(n.live), false);
    if NothingLosable(d, ops, false) {
      RunRefinesRegister(d, ops, Meaning(n.live), false);
    }
  }

  // ---------------------------------------------------------------- one trace for every load

  /**
    `trace` is one history of the register: from pair to pair by the calls, with every acknowledged
    one taking effect, and every call that succeeds, a load among them, leaves and sees its pair.
  */
  ghost predicate Traced(d: Disk, ops: seq<Op>, trace: seq<Pair>)
    decreases |ops|
  {
    && |trace| == |ops| + 1
    && trace[0] == Meaning(d.live)
    && (ops != [] ==>
          var n := Step(d, ops[0]);
          && Moves(ops[0], trace[0], trace[1], !n.status.Done?)
          && (n.status.Done? ==> n.disk.live == Dir(trace[1], Absent))
          && Traced(n.disk, ops[1..], trace[1..]))
  }

  /** Each machine crash leaves a directory that stands for the pair that was visible before it. */
  ghost predicate Undisturbed(d: Disk, ops: seq<Op>)
    decreases |ops|
  {
    ops == [] ||
    (&& (ops[0].Crashes? ==> Sound(ops[0].image) && Meaning(ops[0].image) == Meaning(d.live))
     && Undisturbed(Step(d, ops[0]).disk, ops[1..]))
  }

  /** In such a run every load that succeeds sees one and the same history of the register. */
  lemma {:induction false} LoadsSeeOneTrace(d: Disk, ops: seq<Op>) returns (trace: seq<Pair>)
    requires Sound(d.live) && Undisturbed(d, ops)
    ensures Traced(d, ops, trace)
    decreases |ops|
  {
    trace := [Meaning(d.live)];
    if ops != [] {
      var n := Step(d, ops[0]).disk;
      if !ops[0].Crashes? {
        CallIsAtomic(d, ops[0]);
      }
      assert Sound(n.live);
      var rest := LoadsSeeOneTrace(n, ops[1..]);
      trace := trace + rest;
      assert trace[1..] == rest;
    }
  }

  /** No crash disturbs a run whose moving writes were synced and told the truth. */
  lemma {:induction false} SyncedIsUndisturbed(d: Disk, ops: seq<Op>)
    requires Legal(d, ops) && Settled(d, Meaning(d.live))
    requires forall k :: 0 <= k < |ops| ==> Sharp(MovingWrite(ops[k]))
    ensures Undisturbed(d, ops)
    decreases |ops|
  {
    if ops != [] {
      StepSettles(d, ops[0]);
      hide Step;
      SyncedIsUndisturbed(Step(d, ops[0]).disk, ops[1..]);
    }
  }

  /**
    An error that hides an effect can break a common history: a load sees the new text, the machine
    crashes, and the next load sees the old one.
  */
  lemma HiddenEffectIsSeenThenLost(before: Pair, text: Str)
    requires before.config != Some(text)
    ensures
      var clean := PairFaults(Fine, Fine, Fine, Fine);
      var d := Disk(Dir(before, Absent), {});
      var written := Step(d, SetConfig(text, true, clean, Muddled));
      var seen := Step(written.disk, Ensure(clean));
      && written.status.Failed? && seen.status.Done? && seen.disk.live.files == before.(config := Some(text))
      && Enabled(seen.disk, Crashes(d.live))
      && Step(Step(seen.disk, Crashes(d.live)).disk, Ensure(clean)) == Progress(d, Done)
  {
  }

  // ---------------------------------------------------------------- interrupted recovery

  predicate Attempt(op: Op) {
    op.Ensure? || op.Crashes?
  }

  lemma {:induction false} AttemptsKeep(d: Disk, ops: seq<Op>, p: Pair)
    requires Settled(d, p) && Legal(d, ops) && forall k :: 0 <= k < |ops| ==> Attempt(ops[k])
    ensures Settled(Run(d, ops), p)
    decreases |ops|
  {
    if ops != [] {
      assert d.live in Images(d);
      StepSettles(d, ops[0]);
      if ops[0].Ensure? {
        RecoverKeeps(d, ops[0].recovery);
      }
      var n := Step(d, ops[0]).disk;
      assert Meaning(n.live) == p;
      hide Step, Settled;
      AttemptsKeep(n, ops[1..], p);
    }
  }

  /**
    Recovery interrupted any number of times, by errors and by crashes, ends with the new pair when
    the journal was committed and with the old pair otherwise.
  */
  lemma InterruptedRecoveryConverges(d: Disk, tx: Tx, ops: seq<Op>, f: PairFaults)
    requires d.live.journal == Parsed(tx) && Settled(d, Outcome(tx))
    requires Legal(d, ops) && forall k :: 0 <= k < |ops| ==> Attempt(ops[k])
    requires Recover(Run(d, ops), f).status.Done?
    ensures Recover(Run(d, ops), f).disk.live == Dir(if tx.phase.Committed? then tx.After() else tx.before, Absent)
  {
    AttemptsKeep(d, ops, Outcome(tx));
    var n := Run(d, ops);
    assert n.live in Images(n);
    RecoverKeeps(n, f);
  }

  predicate NoFaults(f: PairFaults) {
    f == PairFaults(Fine, Fine, Fine, Fine)
  }

  /** Without faults recovery succeeds exactly on a missing or supported journal, and otherwise touches nothing. */
  lemma RecoversExactly(d: Disk, f: PairFaults)
    requires NoFaults(f)
    ensures Recover(d, f).status.Done? <==>
        d.live.journal.Absent? || (d.live.journal.Parsed? && d.live.journal.tx.schema == TX_SCHEMA)
    ensures !Recover(d, f).status.Done? ==> Recover(d, f).disk == d
  {
  }

  /** Without faults a valid save succeeds whenever recovery does. */
  lemma FaultFreeSaveSucceeds(d: Disk, request: Request, f: SaveFaults)
    requires request.valid && request.secretFree && NoFaults(f.recovery)
    requires f == SaveFaults(f.recovery, Fine, Fine, Fine, Fine, Fine, Fine, Fine, f.rollback)
    ensures Save(d, request, f).status.Done? <==> Recover(d, f.recovery).status.Done?
  {
    var a := Recover(d, f.recovery);
    hide Recover;
    var tx := Tx(TX_SCHEMA, Prepared, a.disk.live.files, request.config, request.policy);
    assert Transact(a.disk, tx, f).status.Done?;
  }

  /** A journal that cannot be read, or is of another schema, stops every call and stays in place. */
  lemma UnsupportedJournalStopsCalls(d: Disk, op: Op)
    requires d.live.journal.Unreadable? || (d.live.journal.Parsed? && d.live.journal.tx.schema != TX_SCHEMA)
    requires !op.Crashes?
    ensures Step(d, op).disk == d && !Step(d, op).status.Done?
  {
  }

  /**
    Without that sync an acknowledged save can be lost: every primitive succeeds, the machine
    crashes, and recovery succeeds with the old pair.
  */
  lemma UnsyncedCommitIsLost(before: Pair, request: Request)
    requires request.valid && request.secretFree && request.Wanted() != before
    ensures
      var clean := PairFaults(Fine, Fine, Fine, Fine);
      var d := Disk(Dir(before, Absent), {});
      var f := SaveFaults(clean, Fine, Fine, Fine, Fine, Fine, Unsynced, Fine, clean);
      var n := Save(d, request, f);
      && n.status.Done? && n.disk.live.files == request.Wanted()
      && exists image :: image in Images(n.disk)
           && Recover(Reboot(image), clean).status.Done? &&
               Recover(Reboot(image), clean).disk.live == Dir(before, Absent)
  {
    var clean := PairFaults(Fine, Fine, Fine, Fine);
    var d := Disk(Dir(before, Absent), {});
    var f := SaveFaults(clean, Fine, Fine, Fine, Fine, Fine, Unsynced, Fine, clean);
    var tx := Tx(TX_SCHEMA, Prepared, before, request.config, request.policy);
    assert Save(d, request, f) == Transact(d, tx, f);
    var image := Dir(request.Wanted(), Parsed(tx.(phase := ConfigWritten)));
    assert image in Images(Transact(d, tx, f).disk);
    RecoverKeeps(Reboot(image), clean);
  }
}
