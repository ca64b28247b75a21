# OwnMesh: a verified model of the privileged broker and its stores

This project models, in Dafny, the parts of OwnMesh that must behave correctly across crashes, races and retries, and proves what they promise. Check it with `dafny verify dfyconfig.toml`.

## What is modelled

**Replay ledger** (`ReplayLedger`, `LedgerRuns`, `LedgerLaws`, `LedgerObject`). The durable ledger that makes a nonce usable once. A write either takes effect durably, or fails having left the old file or the new one; a failure closes the ledger until it is reopened. The class `Ledger` follows the source's methods; each is proved equal to a function on a store of memory and file, and carries what the run lemmas prove of that function. `LedgerLaws` says of both ledgers, in terms of the entries alone, what each call accepts, what it then changes, and that a refusal changes nothing.

**Broker protocol** (`BrokerProtocol`, `BrokerInvariant`, `BrokerSteps`, `BrokerTheorems`, `BrokerReplay`, `BrokerAnswers`, `BrokerRuns`). Any number of Execute and Cancel connections, the two locks, the `active` map, disconnects, failed writes, crashes, restarts and operator decisions, one lock-protected action a step. The clock never goes backwards. History fields record reservations, effects, signals and retirements.

The Execute path reads the clock (`serve.rs:1040`) before it waits for the ledger lock (`serve.rs:1064`), while the Cancel path reads it under the lock (`serve.rs:983`). A reading taken before expiry may therefore reach the ledger after another call has pruned the completed entry. The ledger alone then accepts the same intent a second time: `OneIntentStartsTwice` gives the run. `StartsOnceExactly` gives the exact condition: one intent starts at most one child, in every run, exactly as long as the clock has not passed its expiry. `LateExactly` says which call breaks it: an Execute that reserves after the clock has passed the expiry since its own reading; a reservation made with the current time never does. `AtMostOnce` is the bound that always holds. The comment at `ledger.rs:112-113` says a nonce cannot be reused even by an identical retry; the model follows the code.

**Windows ledger** (`WindowsLedger`, `WindowsLedgerRefinement`, `WindowsLedgerObject`). The variant that prunes in memory and leaves the file to the next write, related to the eager ledger. Its digest test admits any lower-case letter, not only hexadecimal ones; the comparison is over digests as the code renders them. The two ledgers may differ only when a reservation uses a time from before the last reopening (`EarlierTimeTellsThemApart`), which one clock that never goes backwards rules out (`SameAnswersUnderOneClock`).

**Windows runner** (`WindowsRunner`, `WindowsRunnerInvariant`, `WindowsRunnerTheorems`, `WindowsRunnerRuns`). `run`, `cancel` and `cancel_all` on any number of threads, one lock acquisition, atomic access, map operation or release a step, in any interleaving. Concurrent runs have distinct nonces, which the ledger provides. A failed `ResumeThread` leaves its child suspended.

**Configuration store** (`ConfigStore`, `ConfigTransactions`, `ConfigRuns`, `ConfigLaws`, `ConfigObject`). The two files, the journal, and a directory whose unsynced operations a machine crash may undo, latest first. Each primitive may succeed, succeed unsynced, fail without effect, fail with effect, or be where the process dies. An atomic replacement syncs the directory before its rename and reports only errors before it; the sync after the rename is attempted and its failure ignored. So an acknowledged save is durable exactly when that attempt succeeded (`AcknowledgedSaveSurvives`, `UnsyncedCommitIsLost`); that pairs are never mixed needs no such condition (`NeverMixed`), and at most the last acknowledged save before a machine crash can be missing (`EveryRunIsExplained`, `AcknowledgedSaveCovers`).

**Canonical encodings** (`Wire`, `SortedMap`, `Canonical`). The octets that are digested, signed and authenticated, each with a decoder.

**Authority** (`Hex`, `Authority`, `AuthorityTheorems`, `AuthorityLaws`). The shape of a request, minting and checking a capability, building and checking a cancel. Digest, MAC and signatures are function parameters; what is assumed of them is a hypothesis of each lemma.

**Windows security identifiers** (`WindowsSid`, `WindowsSidTheorems`), **framing** (`Framing`) and **staging** (`Staging`). Text and binary identifiers, newline frames, the copy and drain loops, and the recheck before launch.

Clocks, random identifiers, peer facts, write outcomes, chunk boundaries and thread schedules are parameters or steps. Strings are octet sequences; fixed-width integers are bounded types and saturation is written out.

## Model

| member | source | states |
|---|---|---|
| `LedgerObject.Ledger.PersistFile` | crates/ownmesh-broker/src/ledger.rs:511-557 | writes the entries as one atomic replacement; an error may leave the old or the new file; an oversized document is refused unwritten |
| `LedgerObject.Ledger.CommitFile` | crates/ownmesh-broker/src/ledger.rs:299-302 | persists, and closes the ledger when that fails |
| `LedgerObject.Ledger.PruneCompletedEntries` | crates/ownmesh-broker/src/ledger.rs:494-509 | drops exactly the expired terminal entries and persists only if some were dropped |
| `LedgerObject.Ledger.ReserveNonce` | crates/ownmesh-broker/src/ledger.rs:265-304 | the whole effect of a reservation on memory and file, with every refusal; it keeps the ledger sound, moves entries only legally, and does nothing on a closed ledger |
| `LedgerObject.Ledger.MarkNonceSpawned` | crates/ownmesh-broker/src/ledger.rs:323-351 | moves a reserved entry past the spawn boundary, and is acknowledged only when durable; keeps the ledger sound, moves entries only legally, and does nothing on a closed ledger |
| `LedgerObject.Ledger.MarkNonceCompleted` | crates/ownmesh-broker/src/ledger.rs:460-480 | completes only an entry past the spawn boundary; keeps the ledger sound, moves entries only legally, and does nothing on a closed ledger |
| `LedgerObject.Ledger.ReconcileNonce` | crates/ownmesh-broker/src/ledger.rs:404-456 | exactly the decision `LedgerLaws.ReconcileLaw` describes, with every refusal; keeps the ledger sound, moves entries only legally, and does nothing on a closed ledger |
| `ReplayLedger.MigratedAll` | crates/ownmesh-broker/src/ledger.rs:176-211 | migration keeps exactly the nonces of the old file |
| `LedgerRuns.RunIsSound` | crates/ownmesh-broker/src/ledger.rs:151-557 | in every run with failed writes and reopenings, memory equals file while the ledger is open, and both are acceptable |
| `LedgerRuns.PersistedFilesReopen` | crates/ownmesh-broker/src/ledger.rs:153-261 | every file any run leaves behind is accepted by a reopening with the same limit and yields the same entries |
| `LedgerRuns.FailedWriteCloses` | crates/ownmesh-broker/src/ledger.rs:486-492 | after one failed write, or one document refused as too large, no operation succeeds or changes anything until the ledger is reopened |
| `LedgerRuns.OnlyLegalTransitions` | crates/ownmesh-broker/src/ledger.rs:265-480 | an operation moves an entry only along the four legal edges, keeps digest and expiry, drops only expired terminal entries and creates only fresh reservations |
| `LedgerRuns.MigrationSettles` | crates/ownmesh-broker/src/ledger.rs:176-246 | however often `open` is interrupted, the file is the old one or its one migration |
| `LedgerRuns.MigrationIsRepeatable` | crates/ownmesh-broker/src/ledger.rs:176-246 | however `open` was interrupted before, the one that succeeds gives exactly the migrated entries: every nonce, digest and expiry kept, Reserved turned into SpawnedUncertain |
| `LedgerRuns.MigrationGetsThrough` | crates/ownmesh-broker/src/ledger.rs:176-246 | an `open` whose write succeeds gets through, however the earlier ones ended |
| `LedgerLaws.EntryMeans` | crates/ownmesh-broker/src/ledger.rs:578-608 | what a stored entry must look like, with every length, character and number written out |
| `LedgerLaws.MigrationMeans` | crates/ownmesh-broker/src/ledger.rs:176-211 | what each old entry becomes, field by field |
| `LedgerLaws.OpenLaw` | crates/ownmesh-broker/src/ledger.rs:153-261 | with a working write `open` succeeds exactly on no file, on a file of bounded size with at most the limit of acceptable entries, or on an old file that migrates to such entries; what it then holds; every other file is refused and left as it was |
| `LedgerLaws.PruneLaw` | crates/ownmesh-broker/src/ledger.rs:494-509 | a prune keeps exactly the entries that are reserved, uncertain or not past their expiry, unchanged, so an expired completed or aborted one is dropped |
| `LedgerLaws.ReserveLaw` | crates/ownmesh-broker/src/ledger.rs:265-304 | with working writes a reservation is accepted exactly when it is well formed and unexpired, its nonce is not among the survivors of the prune and there is room; the entry it adds; which refusal a repeated nonce gets |
| `LedgerLaws.NothingToPrune` | crates/ownmesh-broker/src/ledger.rs:494-509 | a prune that drops nothing writes nothing: how that write would have gone does not matter |
| `LedgerLaws.MarkSpawnedLaw` | crates/ownmesh-broker/src/ledger.rs:323-351 | crossing the spawn boundary succeeds exactly on a reserved entry with that digest, and changes only its state, count and process identity |
| `LedgerLaws.MarkCompletedLaw` | crates/ownmesh-broker/src/ledger.rs:460-480 | completion succeeds exactly on an uncertain entry with that digest, and changes only its state and count |
| `LedgerLaws.ReconcileLaw` | crates/ownmesh-broker/src/ledger.rs:404-456 | a decision is accepted exactly when it aborts a reserved entry, or completes an uncertain one with acknowledgement, signed by a well-formed actor; the record it leaves; a refusal changes nothing |
| `BrokerSteps.StepInv` | crates/ownmesh-broker/src/serve.rs:944-1134 | every step of every handler, crash, restart, failed write and operator decision keeps the invariant that ties handlers, ledger, file, `active` and locks |
| `BrokerSteps.RunInv` | crates/ownmesh-broker/src/serve.rs:944-1134 | the invariant in every reachable state |
| `BrokerTheorems.AtMostOnce` | crates/ownmesh-broker/src/serve.rs:1064-1118 | in every run an intent has at most one effect per reservation and at most one reservation besides those made after its expiry; so at most one child when none was late |
| `BrokerTheorems.ReservedAgainOnlyAfterRetirement` | crates/ownmesh-broker/src/ledger.rs:265-304 | a nonce is reserved again only after each earlier reservation of it was retired, with its expiry strictly past |
| `BrokerTheorems.RetirementIsTerminal` | crates/ownmesh-broker/src/ledger.rs:494-509 | what is retired, or dropped from memory, was terminal and expired, and only a ledger call does it |
| `BrokerTheorems.EffectsAreDurable` | crates/ownmesh-broker/src/serve.rs:1083-1104 | at every point, so at every crash: each effect since its nonce was last inserted has a durable entry of that intent past the boundary, unless that entry was dropped by a prune; a handler that still owns its entry has no such excuse; a durable reserved or aborted entry never ran |
| `BrokerTheorems.EffectIsRemembered` | crates/ownmesh-broker/src/ledger.rs:323-351 | until a call puts a fresh entry for its nonce into memory, every later file holds an effect's entry past the boundary or has had it dropped, and never reads as merely reserved |
| `BrokerTheorems.AbortIsSound` | crates/ownmesh-broker/src/ledger.rs:404-456 | an abort the operator is allowed to make concerns a nonce that never ran |
| `BrokerTheorems.ActiveIsReserved` | crates/ownmesh-broker/src/serve.rs:1064-1105 | every registered execution has a non-terminal entry with its digest and expiry, reserved by the handler that registered it, also after a failed write |
| `BrokerTheorems.CancelSignalsItsTarget` | crates/ownmesh-broker/src/serve.rs:975-1029 | a cancel answered ok signalled exactly one execution, once, and that execution has the request id, operation id, nonce, digest and peer the cancel named |
| `BrokerAnswers.OkMeansCompleted` | crates/ownmesh-broker/src/serve.rs:1012-1120 | in every run, an Execute or a Cancel answered ok had reserved its intent, and from then on the file holds it as completed or has had it pruned after its expiry, whatever else the session does |
| `BrokerTheorems.NoDeadlock` | crates/ownmesh-broker/src/serve.rs:975-1016 | in every reachable state the handler at the end of any wait chain can step |
| `BrokerReplay.RefusedBeforePrune` | crates/ownmesh-broker/src/ledger.rs:265-304 | a repeated reservation is refused in every state where no prune has passed its expiry |
| `BrokerReplay.OneIntentStartsTwice` | crates/ownmesh-broker/src/serve.rs:1040-1068 | for every expiry and later time: a legal run with a nondecreasing clock, ending at that time, in which one intent starts two children |
| `BrokerReplay.StartsOnceExactly` | crates/ownmesh-broker/src/serve.rs:1040-1118 | every run that ends with the clock at most c gives each intent with expiry e at most one effect, exactly when c <= e |
| `BrokerReplay.LateExactly` | crates/ownmesh-broker/src/serve.rs:983-1068 | a ledger call makes a late reservation exactly when it is an Execute that succeeds after the clock has passed its expiry; a call that uses the current time never does |
| `BrokerReplay.ReplayRefusedExactly` | crates/ownmesh-broker/src/serve.rs:1040-1068 | a repeated intent is refused in all reachable states exactly when no prune has used a time past its expiry |
| `BrokerRuns.ExecuteCallLaw` | crates/ownmesh-broker/src/serve.rs:1064-1118 | the three ledger calls of an Execute, with which arguments, and where each answer leads |
| `BrokerRuns.CancelCallLaw` | crates/ownmesh-broker/src/serve.rs:975-1016 | the three ledger calls of a Cancel, which lock it keeps or lets go, and where each answer leads |
| `BrokerRuns.LocksAreKept` | crates/ownmesh-broker/src/serve.rs:975-1105 | no step but the holder's own, or a crash, takes either lock away |
| `BrokerRuns.RestartLaw` | crates/ownmesh-broker/src/ledger.rs:153-261 | a restart comes up exactly on a file the ledger opens, and then with nothing but that file |
| `BrokerRuns.OperatorLaw` | crates/ownmesh-broker/src/ledger.rs:404-456 | with the broker down an operator's decision reaches the file exactly when it fits the entry there, and any other leaves the file alone |
| `BrokerRuns.LookupLaw` | crates/ownmesh-broker/src/serve.rs:989-1000 | a Cancel pursues the registered execution exactly when request, operation, nonce, digest and peer all agree, and is refused otherwise |
| `BrokerRuns.CancelRuns` | crates/ownmesh-broker/src/serve.rs:975-1029 | a Cancel that names a registered, listening execution, left alone with working writes, signals it, is answered ok, and is durably completed |
| `BrokerRuns.DisconnectSignalsItself` | crates/ownmesh-broker/src/serve.rs:1098-1104 | an Execute whose peer is gone signals its own run and goes on to wait for it |
| `WindowsLedgerObject.WindowsDurableLedger.PersistFile` | crates/ownmesh-broker/src/windows_ledger.rs:183-207 | writes the entries; a failure closes the ledger and may leave either file |
| `WindowsLedgerObject.WindowsDurableLedger.ReserveNonce` | crates/ownmesh-broker/src/windows_ledger.rs:312-339 | prunes in memory only, then reserves and persists; memory stays the file without expired terminal entries, and a closed ledger accepts nothing |
| `WindowsLedgerObject.WindowsDurableLedger.MarkNonceSpawned` | crates/ownmesh-broker/src/windows_ledger.rs:341-351 | moves a reserved entry past the boundary, memory first; keeps the relation of memory to file, and a closed ledger accepts nothing |
| `WindowsLedgerObject.WindowsDurableLedger.CompleteNonce` | crates/ownmesh-broker/src/windows_ledger.rs:353-366 | completes an entry past the boundary; keeps the relation of memory to file, and a closed ledger accepts nothing |
| `WindowsLedgerObject.WindowsDurableLedger.ReconcileNonce` | crates/ownmesh-broker/src/windows_ledger.rs:265-308 | exactly the decision `LedgerLaws.WindowsReconcileLaw` describes, with every refusal; keeps the relation of memory to file, and a closed ledger accepts nothing |
| `LedgerLaws.WindowsOpenLaw` | crates/ownmesh-broker/src/windows_ledger.rs:96-181 | the files the Windows ledger opens, what it then holds, and that it leaves every other file as it was |
| `LedgerLaws.WindowsReserveLaw` | crates/ownmesh-broker/src/windows_ledger.rs:312-339 | when a Windows reservation is accepted, what it adds, and what each refusal leaves |
| `LedgerLaws.WindowsMarkLaw` | crates/ownmesh-broker/src/windows_ledger.rs:341-366 | the two Windows transitions succeed exactly from their one state with that digest, and what they change |
| `LedgerLaws.WindowsReconcileLaw` | crates/ownmesh-broker/src/windows_ledger.rs:265-308 | the same decisions are accepted by the Windows ledger, with the same record |
| `WindowsLedgerRefinement.UnixReserve` | crates/ownmesh-broker/src/ledger.rs:265-304 | with working writes a valid reservation is accepted exactly when the nonce is not among the unpruned entries and there is room |
| `WindowsLedgerRefinement.WindowsReserve` | crates/ownmesh-broker/src/windows_ledger.rs:312-339 | the same for the lazy ledger, whose file stays memory plus expired terminal entries, at any time of the call |
| `WindowsLedgerRefinement.SameAnswers` | crates/ownmesh-broker/src/windows_ledger.rs:312-366 | without failed writes, and with no reservation time from before the last reopening, related Unix and Windows ledgers give the same answer to every operation of every sequence; within a session the times may come in any order |
| `WindowsLedgerRefinement.SameAnswersFromOneFile` | crates/ownmesh-broker/src/windows_ledger.rs:96-181 | the same from one common file |
| `WindowsLedgerRefinement.SameAnswersUnderOneClock` | crates/ownmesh-broker/src/windows.rs:347-384 | under one clock that never goes backwards, with each reservation using any reading taken since the last reopening, the two ledgers always agree |
| `WindowsLedgerRefinement.RunLazilyPruned` | crates/ownmesh-broker/src/windows_ledger.rs:209-216 | over any calls, reopenings, times and write outcomes, memory is the file without some expired terminal entries while the ledger is open |
| `WindowsLedgerRefinement.WindowsFilesReopen` | crates/ownmesh-broker/src/windows_ledger.rs:96-181 | every file a run leaves behind, also after failed writes, reopens to exactly what it holds |
| `WindowsLedgerRefinement.WindowsFailedWriteCloses` | crates/ownmesh-broker/src/windows_ledger.rs:183-207 | after one failed write, or one document over the byte ceiling, no operation succeeds and the file stays, until reopening |
| `WindowsLedgerRefinement.EarlierTimeTellsThemApart` | crates/ownmesh-broker/src/windows_ledger.rs:209-216 | the converse, across a reopening only: a reservation with a time from before it is accepted by one ledger and refused by the other |
| `WindowsRunnerInvariant.StepInv` | crates/ownmesh-broker/src/windows_runner.rs:86-172 | every lock, load, store, map operation and release by any thread keeps the invariant |
| `WindowsRunnerInvariant.RunInv` | crates/ownmesh-broker/src/windows_runner.rs:86-172 | the invariant in every reachable state |
| `WindowsRunnerTheorems.ActiveListsExactly` | crates/ownmesh-broker/src/windows_runner.rs:95-120 | in every reachable state `active` lists exactly the runs between their insertion and their removal, each under its nonce with its request id; a run that returned, also with an error, is not listed |
| `WindowsRunnerTheorems.ResumeIsGuarded` | crates/ownmesh-broker/src/windows_runner.rs:250-266 | a child is resumed only by a registered run that holds its own gate with its flag clear |
| `WindowsRunnerTheorems.GateDecides` | crates/ownmesh-broker/src/windows_runner.rs:250-266 | a run left alone at its gate resumes its child exactly when its flag is clear |
| `WindowsRunnerTheorems.CancelBeforeResume` | crates/ownmesh-broker/src/windows_runner.rs:250-266 | once the flag is set, whether that child ever runs is settled for every continuation |
| `WindowsRunnerTheorems.CancelSettles` | crates/ownmesh-broker/src/windows_runner.rs:127-148 | `cancel` answering true names exactly the matching execution and settles whether it ever runs |
| `WindowsRunnerTheorems.NoStrayCancel` | crates/ownmesh-broker/src/windows_runner.rs:127-148 | before shutdown a flag is set only by a cancel naming that request id and nonce |
| `WindowsRunnerTheorems.NoLaunchAfterStop` | crates/ownmesh-broker/src/windows_runner.rs:150-172 | after any `cancel_all` has returned no child is resumed in any continuation, including runs that enter later |
| `WindowsRunnerTheorems.NeverHoldsBoth` | crates/ownmesh-broker/src/windows_runner.rs:95-172 | in every reachable state a thread that holds `active` or a gate holds only that one lock, waits for nothing and is unfinished |
| `WindowsRunnerTheorems.RunnerNeverDeadlocks` | crates/ownmesh-broker/src/windows_runner.rs:95-172 | in every reachable state each unfinished thread can step, or the holder of the lock it waits for can |
| `WindowsRunnerRuns.LookupLaw` | crates/ownmesh-broker/src/windows_runner.rs:127-140 | a lookup pursues exactly the execution registered under that nonce with that request id |
| `WindowsRunnerRuns.CancelAlone` | crates/ownmesh-broker/src/windows_runner.rs:127-148 | a `cancel` left alone with that gate free answers true and sets the flag exactly when such an execution is registered; otherwise it answers false and changes nothing |
| `WindowsRunnerRuns.RunAlone` | crates/ownmesh-broker/src/windows_runner.rs:86-125 | an uncancelled `run` left alone registers itself, resumes its child, takes its entry out and returns; once the fence is up it returns at once |
| `WindowsRunnerRuns.StopAlone` | crates/ownmesh-broker/src/windows_runner.rs:150-172 | `cancel_all` left alone raises the fence, flags every registered execution and no other, and returns |
| `ConfigObject.Store.WriteConfigFile` | crates/ownmesh-config/src/store.rs:172-201 | one atomic replacement or removal, with its crash images |
| `ConfigObject.Store.WriteJournalFile` | crates/ownmesh-config/src/store.rs:454-469 | the journal is replaced atomically |
| `ConfigObject.Store.ClearJournalFile` | crates/ownmesh-config/src/store.rs:471-480 | the journal is unlinked; the removal may be undone by a crash |
| `ConfigObject.Store.PublishPair` | crates/ownmesh-config/src/store.rs:596-628 | both files in order, then the journal; the first trouble ends it |
| `ConfigObject.Store.RecoverTransaction` | crates/ownmesh-config/src/store.rs:660-716 | recovery, with every refusal and every point of failure; it keeps the pair the directory stands for |
| `ConfigObject.Store.RollbackOrPreserveJournal` | crates/ownmesh-config/src/store.rs:484-503 | rollback reports failure and keeps the journal unless the pair is restored |
| `ConfigObject.Store.Apply` | crates/ownmesh-config/src/store.rs:546-593 | the journalled writes in the source's order, with its rollback and its two unguarded journal writes |
| `ConfigObject.Store.SaveTransactional` | crates/ownmesh-config/src/store.rs:519-594 | the whole save; from a recoverable directory it takes effect wholly or not at all, and did so if acknowledged |
| `ConfigObject.Store.SaveConfigFile` | crates/ownmesh-config/src/store.rs:73-91 | recovery, then one file; wholly or not at all, and did so if acknowledged |
| `ConfigObject.Store.SavePolicyFile` | crates/ownmesh-config/src/store.rs:135-150 | recovery, then one file; wholly or not at all, and did so if acknowledged |
| `ConfigTransactions.RecoverKeeps` | crates/ownmesh-config/src/store.rs:660-716 | recovery keeps the pair the directory stands for at every point, and a successful one leaves exactly that pair and no journal |
| `ConfigTransactions.TransactKeeps` | crates/ownmesh-config/src/store.rs:546-593 | every directory a save can leave is recoverable and stands for the old pair or the new one, never a mixture |
| `ConfigTransactions.AcknowledgedSaveSurvives` | crates/ownmesh-persist/src/lib.rs:67-75 | an acknowledged save survives every crash exactly when the directory was synced after the committed journal was renamed |
| `ConfigTransactions.FailedSaveRestores` | crates/ownmesh-config/src/store.rs:554-593 | a failed save that leaves no journal has left the old pair, exactly unless the last unlink took effect and reported an error |
| `ConfigRuns.CallIsAtomic` | crates/ownmesh-config/src/store.rs:519-594 | every call takes effect as a whole or not at all, and took effect if it said so |
| `ConfigRuns.NeverMixed` | crates/ownmesh-config/src/store.rs:519-716 | over every run of saves, loads, errors and crashes, every directory is recoverable and stands for a pair an atomic register has held |
| `ConfigRuns.RecoveredPairIsWhole` | crates/ownmesh-config/src/store.rs:660-716 | after any run of two-file saves a successful recovery finds the initial pair or one save's pair |
| `ConfigRuns.EveryRunIsExplained` | crates/ownmesh-config/src/store.rs:519-716 | over every run without any condition, each pair that can be found comes from an initial one by a register run; an acknowledged call is missing only if its own sync failed and a crash came before any later call covered it |
| `ConfigRuns.AcknowledgedSaveCovers` | crates/ownmesh-config/src/store.rs:519-594 | an acknowledged save covers everything before it, so at most the last one before a crash can be missing; a synced one cannot |
| `ConfigRuns.NothingLosableWhen` | crates/ownmesh-config/src/store.rs:519-594 | nothing is losable when every moving write was synced, or when the run has no crash and the visible pair is asked for |
| `ConfigRuns.RunRefinesRegister` | crates/ownmesh-config/src/store.rs:519-594 | with any crashes and any errors, when no acknowledged call is losable in that sense, the run refines a pair register in which every acknowledged call took effect |
| `ConfigRuns.CrashFreeRunRefinesRegister` | crates/ownmesh-config/src/store.rs:519-594 | without machine crashes the same holds whatever fails |
| `ConfigRuns.LoadSeesRegister` | crates/ownmesh-config/src/store.rs:105-125 | a load that succeeds after any run sees a pair that the register explains, with every acknowledged call in effect when none was losable |
| `ConfigRuns.LoadsSeeOneTrace` | crates/ownmesh-config/src/store.rs:105-125 | when each machine crash leaves a directory that stands for the pair visible before it, all successful loads and saves of a run see one history of the register |
| `ConfigRuns.SyncedIsUndisturbed` | crates/ownmesh-config/src/store.rs:519-594 | moving writes that were synced and told the truth meet that condition, wherever the machine crashes |
| `ConfigRuns.HiddenEffectIsSeenThenLost` | crates/ownmesh-config/src/store.rs:172-201 | telling the truth is needed there: after an error that hid an effect, one load sees the new text and, after a crash, the next sees the old one |
| `ConfigRuns.InterruptedRecoveryConverges` | crates/ownmesh-config/src/store.rs:686-714 | recovery interrupted any number of times ends in the new pair if committed, else in the old one, from any directory whose crash images agree |
| `ConfigRuns.RecoversExactly` | crates/ownmesh-config/src/store.rs:660-684 | without faults recovery succeeds exactly on a missing or supported journal and otherwise touches nothing |
| `ConfigRuns.FaultFreeSaveSucceeds` | crates/ownmesh-config/src/store.rs:519-594 | without faults a valid save succeeds exactly when recovery does |
| `ConfigRuns.UnfitIsRefused` | crates/ownmesh-config/src/store.rs:519-545 | a document that does not validate, or holds a plaintext secret, is never acknowledged, and every directory the call can leave stands for the old pair |
| `ConfigRuns.UnsupportedJournalStopsCalls` | crates/ownmesh-config/src/store.rs:672-684 | an unreadable or unsupported journal stops every call and stays in place |
| `ConfigRuns.UnsyncedCommitIsLost` | crates/ownmesh-persist/src/lib.rs:69-75 | for every old pair and request: an acknowledged save, a crash, and a successful recovery with the old pair |
| `ConfigLaws.PublishDiesAt` | crates/ownmesh-config/src/store.rs:596-628 | what is to be seen of the two files and the journal when the process dies at each write of a restoration, and when it does not |
| `ConfigLaws.RecoverDiesAt` | crates/ownmesh-config/src/store.rs:686-714 | the same for a recovery, which completes a committed journal and undoes any other |
| `ConfigLaws.TransactDiesAt` | crates/ownmesh-config/src/store.rs:546-593 | what is to be seen when the process dies at each of the six writes of a save: the files and the phase the journal names |
| `ConfigLaws.SaveJournals` | crates/ownmesh-config/src/store.rs:519-554 | what a save journals is the pair it found and the pair it was asked for |
| `ConfigLaws.SingleSaves` | crates/ownmesh-config/src/store.rs:73-150 | a single save changes its own file and no other |
| `Canonical.FactsRoundTrip` | crates/ownmesh-broker-client/src/lib.rs:910-944 | facts are uniquely decodable when lengths, counts and the output limit fit 32 bits |
| `Canonical.FactsInjective` | crates/ownmesh-broker-client/src/lib.rs:910-944 | distinct facts have distinct encodings there |
| `Canonical.OutputLimitSaturates` | crates/ownmesh-broker-client/src/lib.rs:919-922 | output limits from 2^32-1 on share one encoding; below it they never do |
| `Canonical.CapabilityRoundTrip` | crates/ownmesh-broker-client/src/lib.rs:946-969 | tokens are uniquely decodable, signature aside |
| `Canonical.RequestRoundTrip` | crates/ownmesh-broker-client/src/lib.rs:971-995 | requests are uniquely decodable, MAC aside |
| `Canonical.CancelRoundTrip` | crates/ownmesh-broker-client/src/lib.rs:997-1011 | cancel intents are uniquely decodable, MAC aside |
| `Canonical.KindsNeverCollide` | crates/ownmesh-broker-client/src/lib.rs:98-105 | under one secret no first-version request, second-version request or cancel payload equals one of another kind |
| `Canonical.TagsNeverCollide` | crates/ownmesh-broker-client/src/lib.rs:98-105 | what is signed, what is digested and what is authenticated never coincide, whatever follows their tags |
| `Canonical.EncodeFacts` | crates/ownmesh-broker-client/src/lib.rs:910-944 | the buffer the encoder fills is the encoding the decoder inverts |
| `Canonical.PutMap` | crates/ownmesh-broker-client/src/lib.rs:902-908 | the environment is written in ascending order of its names, whatever order it came in |
| `SortedMap.FlatBack` | crates/ownmesh-broker-client/src/lib.rs:902-908 | the ordered listing of a map determines the map |
| `Authority.ValidShapeFits` | crates/ownmesh-broker-client/src/lib.rs:1027-1120 | the facts of every request of valid shape lie in the region of unique decoding |
| `AuthorityLaws.BlankLaw` | crates/ownmesh-broker-client/src/lib.rs:1020-1025 | a text is blank exactly when it is a run of Unicode white space |
| `AuthorityLaws.ShapeLaw` | crates/ownmesh-broker-client/src/lib.rs:1027-1120 | the accepted shape in field terms: version 2, issued by now, unexpired, at most 300 seconds, well-formed names and token, no environment, its own operation, and a command that starts the pinned image; the two kinds of refusal |
| `AuthorityLaws.RequestLaw` | crates/ownmesh-broker-client/src/lib.rs:865-875 | a wire request is accepted exactly when its shape is and its MAC spells the computed code |
| `AuthorityLaws.CapabilityLaw` | crates/ownmesh-broker-client/src/lib.rs:834-859 | a token is accepted exactly when present, current, bound to this request, peer and broker, and signed; which refusal each failure gets |
| `AuthorityLaws.CancelLaw` | crates/ownmesh-broker-client/src/lib.rs:758-789 | a cancel is accepted exactly when it is current, short-lived, well named and spells the computed code; which refusal a wrong code gets |
| `AuthorityLaws.BuiltCancelLaw` | crates/ownmesh-broker-client/src/transport.rs:464-487 | what a built cancel says, field by field, and when it expires |
| `AuthorityTheorems.MintThenVerify` | crates/ownmesh-broker/src/serve.rs:1040-1063 | for a valid unexpired request the minted token is accepted exactly when peer and broker names are well formed, and expires exactly with the request |
| `AuthorityTheorems.AcceptedWasMinted` | crates/ownmesh-broker-client/src/lib.rs:834-859 | with ideal signatures and no digest collision, an accepted request's facts, nonce, operation, peer and broker are exactly those of one mint, its request has not expired, its token speaks for the principal in those facts, and its command starts the pinned image with no environment; the mints may include expired and malformed ones, which are signed before they are checked |
| `AuthorityTheorems.BuiltCancelVerifies` | crates/ownmesh-broker-client/src/transport.rs:464-487 | a cancel built for a valid execute is accepted exactly from its making until its own expiry |
| `AuthorityTheorems.BuiltCancelNamesItsExecute` | crates/ownmesh-broker/src/serve.rs:989-1000 | a built cancel passes the broker's fence for an execution exactly when that execution has its own target's identifiers and facts |
| `AuthorityTheorems.CancelMacBindsFields` | crates/ownmesh-broker-client/src/lib.rs:758-789 | one MAC text authenticates one cancel: every field is bound |
| `AuthorityTheorems.RequestMacBindsFields` | crates/ownmesh-broker-client/src/lib.rs:865-875 | one MAC text authenticates one wire request: every field and every fact is bound |
| `Hex.SameCodeExactly` | crates/ownmesh-broker-client/src/lib.rs:1193-1209 | a computed code is matched exactly by the texts that spell it, in either case |
| `Hex.EncodeDecode` | crates/ownmesh-broker-client/src/lib.rs:1193-1209 | lower-case hexadecimal text is determined by the octets it spells |
| `Hex.DecodeExactly` | crates/ownmesh-broker-client/src/lib.rs:1193-1209 | a text spells some octets exactly when, in lower case, it is their encoding |
| `Hex.EncodeAt` | crates/ownmesh-broker-client/src/lib.rs:1185-1190 | octet by octet, the two digits are the high and the low half |
| `WindowsSidTheorems.ParseNeedsNoRecheck` | crates/ownmesh-broker/src/windows.rs:735-768 | every accepted text is the rendering of what it parses to, with or without the run-time comparison |
| `WindowsSidTheorems.ReadExactly` | crates/ownmesh-broker/src/windows.rs:735-768 | a text parses to an identifier exactly when it is its rendering and has at least 7 characters |
| `WindowsSidTheorems.ParseOfRender` | crates/ownmesh-broker/src/windows.rs:807-832 | rendering then parsing gives the identifier back exactly when it has a subauthority or an authority of at least 100 |
| `WindowsSidTheorems.TextBounds` | crates/ownmesh-broker/src/windows.rs:736-738 | every rendering has at most 184 characters |
| `WindowsSidTheorems.TokenExactly` | crates/ownmesh-broker/src/windows.rs:770-791 | a token text is read as an identifier exactly when it is `sid:` plus its lower-case hexadecimal and that identifier survives rendering |
| `WindowsSidTheorems.RecordNamesOneIdentity` | crates/ownmesh-broker/src/windows.rs:581-586 | a record is accepted exactly when its token is `sid:` plus the hexadecimal of its parsed pipe identifier |
| `WindowsSidTheorems.RenderSid` | crates/ownmesh-broker/src/windows.rs:807-832 | the loop builds exactly the text of the octets, or refuses malformed ones |
| `WindowsSid.DecimalExactly` | crates/ownmesh-broker/src/windows.rs:793-805 | a text is read as a number exactly when it is that number's decimal |
| `Framing.ReadFrame` | crates/ownmesh-broker/src/serve.rs:1142-1162 | the reader answers exactly what the stream holds, after at most limit + 1 octets, and leaves the rest |
| `Framing.FrameRoundTrip` | crates/ownmesh-broker-client/src/transport.rs:705-719 | a written frame comes back with the rest untouched exactly when it is one line within the limit; a longer line is refused |
| `Framing.HoldsOneThing` | crates/ownmesh-broker-client/src/transport.rs:783-807 | what a stream holds is unique |
| `Framing.FramesUnique` | crates/ownmesh-broker-client/src/transport.rs:705-719 | frames sent one after another can be read as no other frames |
| `Staging.Stage` | crates/ownmesh-broker/src/serve.rs:1290-1366 | staging succeeds exactly when the request is admissible, the files could be opened and all checks hold, and then the staged octets are what was read, with the pinned length and digest |
| `Staging.Recheck` | crates/ownmesh-broker/src/windows_runner.rs:433-467 | the recheck passes exactly when what is read has the pinned length and digest |
| `Staging.RecheckReadsFromStart` | crates/ownmesh-broker/src/windows_runner.rs:445-461 | only a recheck that starts at the front of the shared handle can pass |
| `Staging.LaunchesThePinnedImage` | crates/ownmesh-broker/src/windows_runner.rs:223-231 | what passes the recheck is what was staged and is the pinned image, without digest collisions |
| `Staging.Drain` | crates/ownmesh-broker/src/windows_runner.rs:486-511 | the captured output is the longest allowed prefix, flagged exactly when it is not all of it |

## Left out

- BrokerTheorems.AtMostOnce: bounds the effects of an intent by its late reservations instead of by one, because the unconditional bound is false (`OneIntentStartsTwice`); `StartsOnceExactly` gives the condition.
- ConfigTransactions.AcknowledgedSaveSurvives: durability of an acknowledged save is not unconditional, because a failed directory sync after the rename is ignored.
- Canonical.RequestRoundTrip: does not bound token fields that `validate_v2_request_shape` leaves unbounded; they are hypotheses of `RequestFits`.
- Canonical.KindsNeverCollide: does not encode the body of a first-version request; any octets after its tag are covered.
- Authority.ValidShapeFits: an absolute working directory is one that starts with `/`, as on Unix.
- ConfigObject.Store.WriteConfigFile: does not model the `.bak` copy; its failures count as a refused write.
- Staging.Stage: does not model file modes and ownership; they are one flag.
- The injectivity of the cancel path's own ledger digest, which is a plain concatenation.
- A pair read by `load_config` followed by `load_policy`: the lock is released between them.
- Config schema migration, TOML and JSON parsing, URL validation: they rest on other libraries.
- `status` of either ledger, CLI output and audit text: only easy members.
- Peer authentication, access control lists, file modes, service managers and installers: foreign calls.
- SHA-256, HMAC-SHA-256 (RFC 2104) and Ed25519 (RFC 8032) themselves, and key generation.
- Execution inside `ownmesh-exec`: a child start is one event; exit codes, timeouts and output limits of the Unix path.
- The Windows pipe handler `handle_connection` and its shutdown: the ledger and runner it drives are modelled, its pipe and semaphores are not.
- Poisoned locks and panics, and weaker memory orderings than the interleaving of atomic accesses.
- Directory operations reaching the medium out of order, and Windows directories, which have no sync.
- First-version requests and the in-memory replay cache, which only tests use.
