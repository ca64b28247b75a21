/**
  The configuration and policy files, the journal that makes a change to both atomic, and the
  directory that holds all three.

  A directory operation is visible at once but may be undone by a machine crash until the directory
  is next synced; operations reach the medium in the order they were made. A disk is therefore the
  directory as it is seen, plus the earlier directories a crash may still bring back.
*/
module ConfigStore {
  import opened Basics

  const TX_SCHEMA: nat := 1

  datatype Phase = Prepared | ConfigWritten | Committed | Unknown(name: Str)

  datatype Pair = Pair(config: Option<Str>, policy: Option<Str>)

  datatype Tx = Tx(schema: nat, phase: Phase, before: Pair, newConfig: Str, newPolicy: Str)
  {
    function After(): Pair {
      Pair(Some(newConfig), Some(newPolicy))
    }
  }

  datatype Journal = Absent | Unreadable | Parsed(tx: Tx)

  datatype Dir = Dir(files: Pair, journal: Journal)

  /** `stale` are the directories a crash may bring back besides `live`. */
  datatype Disk = Disk(live: Dir, stale: set<Dir>)

  function Images(d: Disk): set<Dir> {
    d.stale + {d.live}
  }

  /**
    What becomes of one primitive. `Fine`: it took effect and the directory sync after it succeeded.
    `Unsynced`: it took effect and the sync after it failed, which is not reported; the next atomic
    replacement syncs the directory before its own rename. `Refused`: an error and no effect.
    `Muddled`: an error although it took effect. `Crash`: the process dies first.
  */
  datatype Fault = Fine | Unsynced | Refused | Muddled | Crash

  datatype Status = Done | Failed | Crashed

  datatype Progress = Progress(disk: Disk, status: Status)

  function StatusOf(fault: Fault): Status {
    match fault
    case Fine => Done
    case Unsynced => Done
    case Refused => Failed
    case Muddled => Failed
    case Crash => Crashed
  }

  /** Sync the directory, rename a new file into place, sync again without reporting a failure. */
  function Replace(d: Disk, next: Dir, fault: Fault): Progress {
    Progress(
      match fault
      case Fine => Disk(next, {})
      case Unsynced => Disk(next, {d.live})
      case Refused => d
      case Muddled => Disk(next, {d.live})
      case Crash => d,
      StatusOf(fault))
  }

  /** Unlink a file; the directory is not synced, so `Fine` and `Unsynced` are the same here. */
  function Unlink(d: Disk, next: Dir, fault: Fault): Progress {
    Progress(if fault.Refused? || fault.Crash? then d else Disk(next, Images(d)), StatusOf(fault))
  }

  function WriteConfig(d: Disk, text: Option<Str>, fault: Fault): Progress {
    var next := d.live.(files := d.live.files.(config := text));
    if text.Some? then Replace(d, next, fault) else Unlink(d, next, fault)
  }

  function WritePolicy(d: Disk, text: Option<Str>, fault: Fault): Progress {
    var next := d.live.(files := d.live.files.(policy := text));
    if text.Some? then Replace(d, next, fault) else Unlink(d, next, fault)
  }

  function WriteJournal(d: Disk, tx: Tx, fault: Fault): Progress {
    Replace(d, d.live.(journal := Parsed(tx)), fault)
  }

  function ClearJournal(d: Disk, fault: Fault): Progress {
    Unlink(d, d.live.(journal := Absent), fault)
  }

  // ---------------------------------------------------------------- recovery

  datatype PairFaults = PairFaults(read: Fault, config: Fault, policy: Fault, clear: Fault)

  /** Write both files, then drop the journal; the first trouble ends it. */
  function Publish(d: Disk, pair: Pair, f: PairFaults): Progress {
    var a := WriteConfig(d, pair.config, f.config);
    if !a.status.Done? then a else
    var b := WritePolicy(a.disk, pair.policy, f.policy);
    if !b.status.Done? then b else ClearJournal(b.disk, f.clear)
  }

  /** Where a journal says the pair should end. */
  function Outcome(tx: Tx): Pair {
    if tx.phase.Committed? then tx.After() else tx.before
  }

  function Recover(d: Disk, f: PairFaults): Progress {
    if !f.read.Fine? then Progress(d, if f.read.Crash? then Crashed else Failed) else
    match d.live.journal
    case Absent => Progress(d, Done)
    case Unreadable => Progress(d, Failed)
    case Parsed(tx) => if tx.schema != TX_SCHEMA then Progress(d, Failed) else Publish(d, Outcome(tx), f)
  }

  /** Roll back after a write error. Whatever happens, the caller is told the save failed. */
  function Rollback(d: Disk, tx: Tx, f: PairFaults): Progress {
    var a := Publish(d, tx.before, f);
    if a.status.Crashed? then a else Progress(a.disk, Failed)
  }

  // ---------------------------------------------------------------- saves and loads

  /** `valid`: both documents validate. `secretFree`: neither rendering holds a secret. */
  datatype Request = Request(config: Str, policy: Str, valid: bool, secretFree: bool)
  {
    function Wanted(): Pair {
      Pair(Some(config), Some(policy))
    }
  }

  datatype SaveFaults = SaveFaults(recovery: PairFaults, snapshot: Fault, prepare: Fault, config: Fault,
                                   note: Fault, policy: Fault, commit: Fault, clear: Fault, rollback: PairFaults)

  function OrRollback(p: Progress, tx: Tx, f: SaveFaults): Progress {
    if p.status.Failed? then Rollback(p.disk, tx, f.rollback) else p
  }

  /** The journalled part of a save, from a directory without a journal. */
  function Transact(d: Disk, tx: Tx, f: SaveFaults): Progress {
    var a := WriteJournal(d, tx, f.prepare);
    if !a.status.Done? then a else
    var b := WriteConfig(a.disk, Some(tx.newConfig), f.config);
    if !b.status.Done? then OrRollback(b, tx, f) else
    var written := tx.(phase := ConfigWritten);
    var c := WriteJournal(b.disk, written, f.note);
    if !c.status.Done? then OrRollback(c, written, f) else
    var e := WritePolicy(c.disk, Some(tx.newPolicy), f.policy);
    if !e.status.Done? then OrRollback(e, written, f) else
    var g := WriteJournal(e.disk, tx.(phase := Committed), f.commit);
    if !g.status.Done? then g else ClearJournal(g.disk, f.clear)
  }

  function Save(d: Disk, request: Request, f: SaveFaults): Progress {
    if !request.valid then Progress(d, Failed) else
    var a := Recover(d, f.recovery);
    if !a.status.Done? then a
    else if !request.secretFree then Progress(a.disk, Failed)
    else if !f.snapshot.Fine? then Progress(a.disk, if f.snapshot.Crash? then Crashed else Failed)
    else Transact(a.disk, Tx(TX_SCHEMA, Prepared, a.disk.live.files, request.config, request.policy), f)
  }

  function SaveConfig(d: Disk, text: Str, valid: bool, recovery: PairFaults, fault: Fault): Progress {
    var a := Recover(d, recovery);
    if !a.status.Done? then a
    else if !valid then Progress(a.disk, Failed)
    else WriteConfig(a.disk, Some(text), fault)
  }

  function SavePolicy(d: Disk, text: Str, valid: bool, recovery: PairFaults, fault: Fault): Progress {
    var a := Recover(d, recovery);
    if !a.status.Done? then a
    else if !valid then Progress(a.disk, Failed)
    else WritePolicy(a.disk, Some(text), fault)
  }

  /** A machine crash: the directory found afterwards. */
  function Reboot(image: Dir): Disk {
    Disk(image, {})
  }
}
