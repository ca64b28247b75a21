/** What a process that dies at some write of a save or a recovery leaves to be seen, write by write. */
module ConfigLaws {
  import opened Basics
  import opened ConfigStore

  /** The primitive took effect and said so. */
  predicate Went(f: Fault) {
    f == Fine || f == Unsynced
  }

  predicate AllWent(f: PairFaults) {
    Went(f.config) && Went(f.policy) && Went(f.clear)
  }

  /** The directory is left like this by a process that died. */
  predicate Died(p: Progress, dir: Dir) {
    p.status == Crashed && p.disk.live == dir
  }

  /** The config file comes first, then the policy file, then the journal goes. */
  lemma PublishDiesAt(d: Disk, pair: Pair, f: PairFaults)
    ensures
      var n := Publish(d, pair, f);
      var journal := d.live.journal;
      && (f.config == Crash ==> Died(n, d.live))
      && (Went(f.config) && f.policy == Crash ==> Died(n, Dir(Pair(pair.config, d.live.files.policy), journal)))
      && (Went(f.config) && Went(f.policy) && f.clear == Crash ==> Died(n, Dir(pair, journal)))
      && (n.status == Done <==> AllWent(f))
      && (n.status == Done ==> n.disk.live == Dir(pair, Absent))
  {
  }

  /** Recovery completes a committed journal and undoes any other. */
  lemma RecoverDiesAt(d: Disk, tx: Tx, f: PairFaults)
    requires d.live.journal == Parsed(tx) && tx.schema == 1 && f.read == Fine
    ensures
      var n := Recover(d, f);
      var pair := if tx.phase == Committed then Pair(Some(tx.newConfig), Some(tx.newPolicy)) else tx.before;
      && (Went(f.config) && f.policy == Crash ==> Died(n, Dir(Pair(pair.config, d.live.files.policy), Parsed(tx))))
      && (Went(f.config) && Went(f.policy) && f.clear == Crash ==> Died(n, Dir(pair, Parsed(tx))))
      && (AllWent(f) ==> n.status == Done && n.disk.live == Dir(pair, Absent))
  {
    PublishDiesAt(d, Outcome(tx), f);
    hide Publish;
  }

  /** The prepared journal, the config file, the second journal, the policy file, the committed
      journal and the journal's removal, in this order. */
  lemma TransactDiesAt(d: Disk, tx: Tx, f: SaveFaults)
    requires d.live == Dir(tx.before, Absent) && tx.phase == Prepared
    ensures
      var n := Transact(d, tx, f);
      var half := Pair(Some(tx.newConfig), tx.before.policy);
      var whole := Pair(Some(tx.newConfig), Some(tx.newPolicy));
      var noted := tx.(phase := ConfigWritten);
      && (f.prepare == Crash ==> Died(n, Dir(tx.before, Absent)))
      && (Went(f.prepare) && f.config == Crash ==> Died(n, Dir(tx.before, Parsed(tx))))
      && (Went(f.prepare) && Went(f.config) && f.note == Crash ==> Died(n, Dir(half, Parsed(tx))))
      && (Went(f.prepare) && Went(f.config) && Went(f.note) ==>
            && (f.policy == Crash ==> Died(n, Dir(half, Parsed(noted))))
            && (Went(f.policy) && f.commit == Crash ==> Died(n, Dir(whole, Parsed(noted))))
            && (Went(f.policy) && Went(f.commit) && f.clear == Crash ==>
                  Died(n, Dir(whole, Parsed(tx.(phase := Committed)))))
            && (Went(f.policy) && Went(f.commit) && Went(f.clear) ==>
                  n.status == Done && n.disk.live == Dir(whole, Absent)))
  {
  }

  /** A fit request found no journal: what is journalled is the pair found and the pair asked for. */
  lemma SaveJournals(d: Disk, request: Request, f: SaveFaults)
    requires d.live.journal == Absent && request.valid && request.secretFree
    requires f.recovery.read == Fine && f.snapshot == Fine
    ensures Save(d, request, f) == Transact(d, Tx(1, Prepared, d.live.files, request.config, request.policy), f)
  {
    hide Transact;
  }

  /** A single save changes its own file and no other. */
  lemma SingleSaves(d: Disk, text: Str, recovery: PairFaults, fault: Fault)
    requires d.live.journal == Absent && recovery.read == Fine
    ensures
      var n := SaveConfig(d, text, true, recovery, fault);
      && (n.status == Done <==> Went(fault))
      && (n.status == Done ==> n.disk.live == Dir(Pair(Some(text), d.live.files.policy), Absent))
      && (fault == Refused ==> n == Progress(d, Failed))
    ensures
      var n := SavePolicy(d, text, true, recovery, fault);
      && (n.status == Done <==> Went(fault))
      && (n.status == Done ==> n.disk.live == Dir(Pair(d.live.files.config, Some(text)), Absent))
      && (fault == Refused ==> n == Progress(d, Failed))
  {
  }
}
