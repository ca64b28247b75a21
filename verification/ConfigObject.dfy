/** The directory as the code changes it, one primitive after another. */
module ConfigObject {
  import opened Basics
  import opened ConfigStore
  import opened ConfigTransactions
  import opened ConfigRuns

  class Store {
    var config: Option<Str>
    var policy: Option<Str>
    var journal: Journal
    var stale: set<Dir>

    constructor (d: Disk)
      ensures View() == d
    {
      config, policy, journal, stale := d.live.files.config, d.live.files.policy, d.live.journal, d.stale;
    }

    function View(): Disk
      reads this
    {
      Disk(Dir(Pair(config, policy), journal), stale)
    }

    method WriteConfigFile(text: Option<Str>, fault: Fault) returns (status: Status)
      modifies this
      ensures Progress(View(), status) == WriteConfig(old(View()), text, fault)
    {
      var was := View();
      if !fault.Refused? && !fault.Crash? {
        config := text;
        stale := if text.None? then Images(was) else if fault.Fine? then {} else {was.live};
      }
      status := StatusOf(fault);
    }

    method WritePolicyFile(text: Option<Str>, fault: Fault) returns (status: Status)
      modifies this
      ensures Progress(View(), status) == WritePolicy(old(View()), text, fault)
    {
      var was := View();
      if !fault.Refused? && !fault.Crash? {
        policy := text;
        stale := if text.None? then Images(was) else if fault.Fine? then {} else {was.live};
      }
      status := StatusOf(fault);
    }

    method WriteJournalFile(tx: Tx, fault: Fault) returns (status: Status)
      modifies this
      ensures Progress(View(), status) == WriteJournal(old(View()), tx, fault)
    {
      var was := View();
      if !fault.Refused? && !fault.Crash? {
        journal := Parsed(tx);
        stale := if fault.Fine? then {} else {was.live};
      }
      status := StatusOf(fault);
    }

    method ClearJournalFile(fault: Fault) returns (status: Status)
      modifies this
      ensures Progress(View(), status) == ClearJournal(old(View()), fault)
    {
      var was := View();
      if !fault.Refused? && !fault.Crash? {
        journal := Absent;
        stale := Images(was);
      }
      status := StatusOf(fault);
    }

    method PublishPair(pair: Pair, f: PairFaults) returns (status: Status)
      modifies this
      ensures Progress(View(), status) == Publish(old(View()), pair, f)
    {
      status := WriteConfigFile(pair.config, f.config);
      if !status.Done? { return; }
      status := WritePolicyFile(pair.policy, f.policy);
      if !status.Done? { return; }
      status := ClearJournalFile(f.clear);
    }

    method RecoverTransaction(f: PairFaults) returns (status: Status)
      modifies this
      ensures Progress(View(), status) == Recover(old(View()), f)
      ensures Sound(old(View()).live) ==> Atomic(old(View()), Ensure(f), Progress(View(), status))
    {
      if Sound(View().live) {
        CallIsAtomic(View(), Ensure(f));
      }
      if !f.read.Fine? { return if f.read.Crash? then Crashed else Failed; }
      match journal
      case Absent =>
        return Done;
      case Unreadable =>
        return Failed;
      case Parsed(tx) =>
        if tx.schema != TX_SCHEMA { return Failed; }
        if tx.phase.Committed? {
          status := PublishPair(tx.After(), f);
        } else {
          status := PublishPair(tx.before, f);
        }
    }

    method RollbackOrPreserveJournal(tx: Tx, f: PairFaults) returns (status: Status)
      modifies this
      ensures Progress(View(), status) == Rollback(old(View()), tx, f)
    {
      status := PublishPair(tx.before, f);
      if status.Done? { status := Failed; }
    }

    method Apply(prepared: Tx, f: SaveFaults) returns (status: Status)
      modifies this
      ensures Progress(View(), status) == Transact(old(View()), prepared, f)
    {
      var tx := prepared;
      status := WriteJournalFile(tx, f.prepare);
      if !status.Done? { return; }
      status := WriteConfigFile(Some(tx.newConfig), f.config);
      if status.Failed? { status := RollbackOrPreserveJournal(tx, f.rollback); return; }
      if status.Crashed? { return; }
      tx := tx.(phase := ConfigWritten);
      status := WriteJournalFile(tx, f.note);
      if status.Failed? { status := RollbackOrPreserveJournal(tx, f.rollback); return; }
      if status.Crashed? { return; }
      status := WritePolicyFile(Some(tx.newPolicy), f.policy);
      if status.Failed? { status := RollbackOrPreserveJournal(tx, f.rollback); return; }
      if status.Crashed? { return; }
      tx := tx.(phase := Committed);
      status := WriteJournalFile(tx, f.commit);
      if !status.Done? { return; }
      status := ClearJournalFile(f.clear);
    }

    method SaveTransactional(request: Request, f: SaveFaults) returns (status: Status)
      modifies this
      ensures Progress(View(), status) == Save(old(View()), request, f)
      ensures Sound(old(View()).live) ==> Atomic(old(View()), SaveBoth(request, f), Progress(View(), status))
    {
      if Sound(View().live) {
        CallIsAtomic(View(), SaveBoth(request, f));
      }
      if !request.valid { return Failed; }
      status := RecoverTransaction(f.recovery);
      if !status.Done? { return; }
      if !request.secretFree { return Failed; }
      if !f.snapshot.Fine? { return if f.snapshot.Crash? then Crashed else Failed; }
      var tx := Tx(TX_SCHEMA, Prepared, Pair(config, policy), request.config, request.policy);
      status := Apply(tx, f);
    }

    method SaveConfigFile(text: Str, valid: bool, recovery: PairFaults, fault: Fault) returns (status: Status)
      modifies this
      ensures Progress(View(), status) == SaveConfig(old(View()), text, valid, recovery, fault)
      ensures Sound(old(View()).live) ==>
          Atomic(old(View()), SetConfig(text, valid, recovery, fault), Progress(View(), status))
    {
      if Sound(View().live) {
        CallIsAtomic(View(), SetConfig(text, valid, recovery, fault));
      }
      status := RecoverTransaction(recovery);
      if !status.Done? { return; }
      if !valid { return Failed; }
      status := WriteConfigFile(Some(text), fault);
    }

    method SavePolicyFile(text: Str, valid: bool, recovery: PairFaults, fault: Fault) returns (status: Status)
      modifies this
      ensures Progress(View(), status) == SavePolicy(old(View()), text, valid, recovery, fault)
      ensures Sound(old(View()).live) ==>
          Atomic(old(View()), SetPolicy(text, valid, recovery, fault), Progress(View(), status))
    {
      if Sound(View().live) {
        CallIsAtomic(View(), SetPolicy(text, valid, recovery, fault));
      }
      status := RecoverTransaction(recovery);
      if !status.Done? { return; }
      if !valid { return Failed; }
      status := WritePolicyFile(Some(text), fault);
    }
  }
}
