/**
  What every interleaving of the Windows runner keeps, and what follows for cancellation, shutdown
  and progress.
*/
module WindowsRunnerInvariant {
  import opened Basics
  import opened WindowsRunner

  /** `active` is locked by exactly the thread whose program counter is inside a critical section. */
  ghost predicate LockOwned(s: State) {
    forall i :: s.activeLock == Some(i) <==> i in s.threads && HoldsActive(s.threads[i])
  }

  /** Each gate is held by exactly the thread whose program counter says so. */
  ghost predicate GatesOwned(s: State) {
    forall r, i ::
      IsRun(s, r) ==> (s.threads[r].gate == Some(i) <==> i in s.threads && HoldsGate(i, s.threads[i]) == Some(r))
  }

  /** The executions a thread is about to cancel, or has cancelled. */
  function Targets(t: Thread): set<ThreadId> {
    match t
    case Runs(_, _, _, _, _, _) => {}
    case Cancels(_, _, pc) =>
      (match pc
       case Reaching(r) => {r}
       case Storing(r) => {r}
       case Stored(r) => {r}
       case Answered(found) => if found.Some? then {found.value} else {}
       case _ => {})
    case Stops(pc) =>
      (match pc
       case Sweeping(todo) => set r | r in todo
       case Marking(todo) => set r | r in todo
       case Unlocking(todo) => set r | r in todo
       case _ => {})
  }

  /** Between storing a flag and releasing the gate a sweep still has a head. */
  predicate SweepShaped(t: Thread) {
    t.Stops? && (t.spc.Marking? || t.spc.Unlocking?) ==> t.spc.todo != []
  }

  ghost predicate TargetsAreRuns(s: State) {
    && (forall i, r :: i in s.threads && r in Targets(s.threads[i]) ==> IsRun(s, r))
    && (forall i :: i in s.threads ==> SweepShaped(s.threads[i]))
  }

  /** Execution `r` is the one that cancel `t` names. */
  predicate Matches(s: State, t: Thread, r: ThreadId)
    requires t.Cancels?
  {
    IsRun(s, r) && s.threads[r].nonce == t.cancelNonce && s.threads[r].requestId == t.cancelRequest
  }

  /** A cancel pursues the execution it names, and one that stored its flag has done so. */
  predicate AnswerHolds(s: State, t: Thread) {
    t.Cancels? ==>
      (match t.cpc
       case Reaching(r) => Matches(s, t, r)
       case Storing(r) => Matches(s, t, r)
       case Stored(r) => Matches(s, t, r) && s.threads[r].cancelled
       case Answered(found) => found.Some? ==> Matches(s, t, found.value) && s.threads[found.value].cancelled
       case _ => true)
  }

  ghost predicate AnswersHold(s: State) {
    forall i :: i in s.threads ==> AnswerHolds(s, s.threads[i])
  }

  /** The child runs only after `Armed`, and `Armed` means the flag is still clear. */
  predicate LaunchSound(t: Thread) {
    t.Runs? ==>
      && (t.pc.Armed? ==> !t.cancelled)
      && (t.resumed ==> t.pc.Closing? || t.pc.Waiting? || t.pc.Leaving? || t.pc.Removing? || t.pc.Returned?)
  }

  ghost predicate LaunchesSound(s: State) {
    forall i :: i in s.threads ==> LaunchSound(s.threads[i])
  }

  /** From insertion until removal. */
  predicate Listed(pc: RunPc) {
    !(pc.Entering? || pc.Registering? || pc.Inserting? || pc.Returned?)
  }

  predicate EntrySound(s: State, nonce: Str, entry: Active) {
    && IsRun(s, entry.owner)
    && s.threads[entry.owner].nonce == nonce && s.threads[entry.owner].requestId == entry.requestId
    && Listed(s.threads[entry.owner].pc)
  }

  ghost predicate ActiveSound(s: State) {
    && (forall r :: IsRun(s, r) && Listed(s.threads[r].pc) ==>
          s.threads[r].nonce in s.active && s.active[s.threads[r].nonce].owner == r)
    && (forall n :: n in s.active ==> EntrySound(s, n, s.active[n]))
  }

  predicate Unfinished(s: State, r: ThreadId) {
    IsRun(s, r) && !Finished(s.threads[r])
  }

  ghost predicate NoncesDistinct(s: State) {
    forall p, q ::
      Unfinished(s, p) && Unfinished(s, q) && p != q ==> s.threads[p].nonce != s.threads[q].nonce
  }

  /** Registered, not yet launched, flag clear: the runs that could still start a child. */
  predicate CanLaunch(t: Thread) {
    && t.Runs? && !t.cancelled
    && (t.pc.Registered? || t.pc.Preparing? || t.pc.AtGate? || t.pc.Deciding? || t.pc.Armed?)
  }

  /** What a sweep that has taken its snapshot has left to mark. */
  function Unmarked(pc: StopPc): Option<seq<ThreadId>> {
    match pc
    case Sweeping(todo) => Some(todo)
    case Marking(todo) => Some(todo)
    case Unlocking(todo) => Some(if todo == [] then [] else todo[1..])
    case Stop => Some([])
    case _ => None
  }

  /** The thread has raised the fence, or has seen it raised. */
  predicate PastFence(t: Thread) {
    (t.Stops? && !t.spc.Raising?) || (t.Runs? && t.pc.Stopped?)
  }

  ghost predicate FenceUp(s: State) {
    forall a :: a in s.threads && PastFence(s.threads[a]) ==> s.stopping
  }

  ghost predicate SweepsCover(s: State) {
    forall a, r ::
      a in s.threads && s.threads[a].Stops? && Unmarked(s.threads[a].spc).Some? && r in s.threads &&
          CanLaunch(s.threads[r])
      ==> r in Unmarked(s.threads[a].spc).value
  }

  ghost predicate InvButGates(s: State) {
    && LockOwned(s) && TargetsAreRuns(s) && AnswersHold(s) && LaunchesSound(s)
    && ActiveSound(s) && NoncesDistinct(s) && FenceUp(s) && SweepsCover(s)
  }

  ghost predicate Inv(s: State) {
    InvButGates(s) && GatesOwned(s)
  }

  lemma InitInv(s: State)
    requires Init(s)
    ensures Inv(s)
  {
  }

  // ---------------------------------------------------------------- one thread moves

  /** Only thread `id` moves; it keeps its kind and its request. */
  predicate Moves(s: State, n: State, id: ThreadId) {
    && id in s.threads && id in n.threads
    && n.threads == s.threads[id := n.threads[id]]
    && (s.threads[id].Runs? <==> n.threads[id].Runs?)
    && (s.threads[id].Cancels? <==> n.threads[id].Cancels?)
    && (s.threads[id].Runs? ==> n.threads[id].nonce == s.threads[id].nonce)
    && (s.threads[id].Runs? ==> n.threads[id].requestId == s.threads[id].requestId)
  }

  predicate LockMoves(s: State, n: State, id: ThreadId)
    requires Moves(s, n, id)
  {
    && (HoldsActive(n.threads[id]) <==> n.activeLock == Some(id))
    && (n.activeLock == s.activeLock || (s.activeLock == None && n.activeLock == Some(id))
        || (s.activeLock == Some(id) && n.activeLock == None))
  }

  lemma OwnLock(s: State, n: State, id: ThreadId)
    requires LockOwned(s) && Moves(s, n, id) && LockMoves(s, n, id)
    ensures LockOwned(n)
  {
  }

  predicate GateMoves(s: State, n: State, id: ThreadId)
    requires Moves(s, n, id)
  {
    var t, u := s.threads[id], n.threads[id];
    if t.Runs? then
      && (HoldsGate(id, u) == Some(id) <==> u.gate == Some(id))
      && (u.gate == t.gate || (t.gate == None && u.gate == Some(id)) || (t.gate == Some(id) && u.gate == None))
    else HoldsGate(id, u) == HoldsGate(id, t)
  }

  lemma OwnGates(s: State, n: State, id: ThreadId)
    requires GatesOwned(s) && Moves(s, n, id) && GateMoves(s, n, id)
    ensures GatesOwned(n)
  {
    forall r, i | IsRun(n, r)
      ensures n.threads[r].gate == Some(i) <==> i in n.threads && HoldsGate(i, n.threads[i]) == Some(r)
    {
      assert IsRun(s, r);
    }
  }

  lemma OwnTargets(s: State, n: State, id: ThreadId)
    requires TargetsAreRuns(s) && Moves(s, n, id)
    requires forall r :: r in Targets(n.threads[id]) ==> IsRun(s, r)
    requires SweepShaped(n.threads[id])
    ensures TargetsAreRuns(n)
  {
    forall i, r | i in n.threads && r in Targets(n.threads[i]) ensures IsRun(n, r) {
      assert IsRun(s, r);
    }
  }

  lemma OwnAnswers(s: State, n: State, id: ThreadId)
    requires AnswersHold(s) && Moves(s, n, id) && AnswerHolds(s, n.threads[id])
    requires s.threads[id].Runs? && s.threads[id].cancelled ==> n.threads[id].cancelled
    ensures AnswersHold(n)
  {
    forall i | i in n.threads ensures AnswerHolds(n, n.threads[i]) {
      assert AnswerHolds(s, n.threads[i]);
    }
  }

  lemma OwnLaunches(s: State, n: State, id: ThreadId)
    requires LaunchesSound(s) && Moves(s, n, id) && LaunchSound(n.threads[id])
    ensures LaunchesSound(n)
  {
  }

  lemma OwnNonces(s: State, n: State, id: ThreadId)
    requires NoncesDistinct(s) && Moves(s, n, id)
    requires Finished(s.threads[id]) ==> Finished(n.threads[id])
    ensures NoncesDistinct(n)
  {
    forall p, q | Unfinished(n, p) && Unfinished(n, q) && p != q
      ensures n.threads[p].nonce != n.threads[q].nonce
    {
      assert Unfinished(s, p) && Unfinished(s, q);
    }
  }

  lemma OwnFence(s: State, n: State, id: ThreadId)
    requires FenceUp(s) && Moves(s, n, id)
    requires s.stopping ==> n.stopping
    requires PastFence(n.threads[id]) ==> n.stopping
    ensures FenceUp(n)
  {
  }

  /** `active` is left alone, or the mover inserts or removes its own nonce. */
  predicate ActiveMoves(s: State, n: State, id: ThreadId)
    requires Moves(s, n, id)
  {
    var t, u := s.threads[id], n.threads[id];
    || (n.active == s.active && (t.Runs? ==> (Listed(u.pc) <==> Listed(t.pc))))
    || (t.Runs? && !Finished(t)
        && n.active == if Listed(u.pc) then s.active[t.nonce := Active(id, t.requestId)] else s.active - {t.nonce})
  }

  lemma OwnActive(s: State, n: State, id: ThreadId)
    requires ActiveSound(s) && NoncesDistinct(s) && Moves(s, n, id) && ActiveMoves(s, n, id)
    ensures ActiveSound(n)
  {
    forall r | IsRun(n, r) && Listed(n.threads[r].pc)
      ensures n.threads[r].nonce in n.active && n.active[n.threads[r].nonce].owner == r
    {
      if r != id {
        assert IsRun(s, r);
        assert Unfinished(s, r);
        if n.active != s.active {
          assert Unfinished(s, id);
        }
      }
    }
    forall k | k in n.active ensures EntrySound(n, k, n.active[k]) {
      if k in s.active {
        assert EntrySound(s, k, s.active[k]);
      }
    }
  }

  lemma OwnSweeps(s: State, n: State, id: ThreadId)
    requires SweepsCover(s) && FenceUp(s) && Moves(s, n, id)
    requires CanLaunch(n.threads[id]) && !CanLaunch(s.threads[id]) ==> !s.stopping
    requires n.threads[id].Stops? && Unmarked(n.threads[id].spc).Some? ==>
               forall r :: r in s.threads && CanLaunch(s.threads[r]) ==> r in Unmarked(n.threads[id].spc).value
    ensures SweepsCover(n)
  {
    forall a, r | a in n.threads && n.threads[a].Stops? && Unmarked(n.threads[a].spc).Some? &&
        r in n.threads && CanLaunch(n.threads[r])
      ensures r in Unmarked(n.threads[a].spc).value
    {
    }
  }

  /** The local obligations of a thread that moves on its own, launch gates aside. */
  ghost predicate OwnStep(s: State, n: State, id: ThreadId) {
    && Moves(s, n, id)
    && LockMoves(s, n, id) && ActiveMoves(s, n, id)
    && (forall r :: r in Targets(n.threads[id]) ==> IsRun(s, r))
    && SweepShaped(n.threads[id])
    && AnswerHolds(s, n.threads[id])
    && (s.threads[id].Runs? && s.threads[id].cancelled ==> n.threads[id].cancelled)
    && LaunchSound(n.threads[id])
    && (Finished(s.threads[id]) ==> Finished(n.threads[id]))
    && (s.stopping ==> n.stopping)
    && (PastFence(n.threads[id]) ==> n.stopping)
    && (CanLaunch(n.threads[id]) && !CanLaunch(s.threads[id]) ==> !s.stopping)
    && (n.threads[id].Stops? && Unmarked(n.threads[id].spc).Some? ==>
          forall r :: r in s.threads && CanLaunch(s.threads[r]) ==> r in Unmarked(n.threads[id].spc).value)
  }

  lemma OwnKeeps(s: State, n: State, id: ThreadId)
    requires InvButGates(s) && OwnStep(s, n, id)
    ensures InvButGates(n)
  {
    hide LockOwned, TargetsAreRuns, AnswersHold, LaunchesSound, ActiveSound, NoncesDistinct, FenceUp, SweepsCover;
    hide Moves, LockMoves, ActiveMoves, Targets, AnswerHolds, LaunchSound;
    OwnLock(s, n, id);
    OwnTargets(s, n, id);
    OwnAnswers(s, n, id);
    OwnLaunches(s, n, id);
    OwnNonces(s, n, id);
    OwnFence(s, n, id);
    OwnActive(s, n, id);
    OwnSweeps(s, n, id);
  }

  /** What the invariant says of one thread. */
  ghost predicate ThreadFacts(s: State, id: ThreadId) {
    && id in s.threads
    && LaunchSound(s.threads[id])
    && (PastFence(s.threads[id]) ==> s.stopping)
    && (HoldsActive(s.threads[id]) <==> s.activeLock == Some(id))
    && (s.threads[id].Runs? ==> (HoldsGate(id, s.threads[id]) == Some(id) <==> s.threads[id].gate == Some(id)))
  }

  lemma FactsOfThread(s: State, id: ThreadId)
    requires Inv(s) && id in s.threads
    ensures ThreadFacts(s, id)
  {
    assert s.threads[id].Runs? ==> IsRun(s, id);
  }

  // ---------------------------------------------------------------- `run`

  /** The run is between its first fence and its insertion, or past the removal of its entry. */
  lemma EdgeMoves(s: State, id: ThreadId)
    requires IsRun(s, id) && ThreadFacts(s, id) && Unblocked(s, id)
    requires s.threads[id].pc.Entering? || s.threads[id].pc.Registering? || s.threads[id].pc.Leaving? ||
        s.threads[id].pc.Waiting?
    ensures OwnStep(s, AdvanceRun(s, id), id) && GateMoves(s, AdvanceRun(s, id), id)
  {
  }

  lemma CriticalMoves(s: State, id: ThreadId)
    requires IsRun(s, id) && ThreadFacts(s, id) && Unblocked(s, id)
    requires s.threads[id].pc.Inserting? || s.threads[id].pc.Fencing? || s.threads[id].pc.Stopped?
    ensures OwnStep(s, AdvanceRun(s, id), id) && GateMoves(s, AdvanceRun(s, id), id)
  {
  }

  lemma UnlockMoves(s: State, id: ThreadId)
    requires IsRun(s, id) && ThreadFacts(s, id) && Unblocked(s, id)
    requires s.threads[id].pc.Registered? || s.threads[id].pc.Removing?
    ensures OwnStep(s, AdvanceRun(s, id), id) && GateMoves(s, AdvanceRun(s, id), id)
  {
  }

  lemma GateMovesOwn(s: State, id: ThreadId)
    requires IsRun(s, id) && ThreadFacts(s, id) && Unblocked(s, id)
    requires s.threads[id].pc.Preparing? || s.threads[id].pc.AtGate? || s.threads[id].pc.Deciding?
    ensures OwnStep(s, AdvanceRun(s, id), id) && GateMoves(s, AdvanceRun(s, id), id)
  {
  }

  lemma LaunchMoves(s: State, id: ThreadId)
    requires IsRun(s, id) && ThreadFacts(s, id) && Unblocked(s, id)
    requires s.threads[id].pc.Armed? || s.threads[id].pc.Closing?
    ensures OwnStep(s, AdvanceRun(s, id), id) && GateMoves(s, AdvanceRun(s, id), id)
  {
  }

  lemma RunMoves(s: State, id: ThreadId)
    requires IsRun(s, id) && ThreadFacts(s, id) && !Finished(s.threads[id]) && Unblocked(s, id)
    ensures OwnStep(s, AdvanceRun(s, id), id) && GateMoves(s, AdvanceRun(s, id), id)
  {
    hide OwnStep, ThreadFacts, Unblocked, AdvanceRun;
    var pc := s.threads[id].pc;
    if pc.Entering? || pc.Registering? || pc.Leaving? || pc.Waiting? {
      EdgeMoves(s, id);
    } else if pc.Inserting? || pc.Fencing? || pc.Stopped? {
      CriticalMoves(s, id);
    } else if pc.Registered? || pc.Removing? {
      UnlockMoves(s, id);
    } else if pc.Preparing? || pc.AtGate? || pc.Deciding? {
      GateMovesOwn(s, id);
    } else {
      LaunchMoves(s, id);
    }
  }

  lemma FailMoves(s: State, id: ThreadId)
    requires ThreadFacts(s, id) && Guard(s, Fail(id))
    ensures OwnStep(s, FailRun(s, id), id) && GateMoves(s, FailRun(s, id), id)
  {
  }

  // ---------------------------------------------------------------- `cancel` and `cancel_all`

  /** Thread `id` takes, uses or releases the gate of execution `r`. */
  predicate OnGate(s: State, n: State, id: ThreadId, r: ThreadId) {
    && id in s.threads && IsRun(s, r) && id in n.threads && IsRun(n, r) && id != r
    && !s.threads[id].Runs? && !n.threads[id].Runs?
    && n.threads == s.threads[r := n.threads[r]][id := n.threads[id]]
    && HoldsGate(r, n.threads[r]) == HoldsGate(r, s.threads[r])
    && s.threads[r].gate == (if HoldsGate(id, s.threads[id]) == Some(r) then Some(id) else None)
    && n.threads[r].gate == (if HoldsGate(id, n.threads[id]) == Some(r) then Some(id) else None)
    && (HoldsGate(id, s.threads[id]) == None || HoldsGate(id, s.threads[id]) == Some(r))
    && (HoldsGate(id, n.threads[id]) == None || HoldsGate(id, n.threads[id]) == Some(r))
  }

  lemma PairGates(s: State, n: State, id: ThreadId, r: ThreadId)
    requires GatesOwned(s) && OnGate(s, n, id, r)
    ensures GatesOwned(n)
  {
    hide HoldsGate;
    forall q, i | IsRun(n, q)
      ensures n.threads[q].gate == Some(i) <==> i in n.threads && HoldsGate(i, n.threads[i]) == Some(q)
    {
      assert IsRun(s, q);
    }
  }

  /** What the invariant says of a thread that deals with execution `r`. */
  ghost predicate TargetFacts(s: State, id: ThreadId, r: ThreadId) {
    && ThreadFacts(s, id) && ThreadFacts(s, r)
    && IsRun(s, r) && id != r
    && (HoldsGate(id, s.threads[id]) == Some(r) <==> s.threads[r].gate == Some(id))
  }

  lemma FactsOfTarget(s: State, id: ThreadId, r: ThreadId)
    requires Inv(s) && id in s.threads && !s.threads[id].Runs? && r in Targets(s.threads[id])
    ensures TargetFacts(s, id, r)
  {
    assert IsRun(s, r);
    FactsOfThread(s, id);
    FactsOfThread(s, r);
  }

  /** A launch gate or a flag of execution `r` changes, and nothing else. */
  lemma FlagMoves(s: State, r: ThreadId, holder: Option<ThreadId>, stored: bool)
    requires IsRun(s, r) && ThreadFacts(s, r) && (stored ==> !s.threads[r].pc.Armed?)
    ensures OwnStep(s, Set(s, r, s.threads[r].(gate := holder, cancelled := s.threads[r].cancelled || stored)), r)
  {
  }

  lemma GateStepKeeps(s: State, id: ThreadId, r: ThreadId, holder: Option<ThreadId>, stored: bool, next: Thread)
    requires Inv(s) && IsRun(s, r) && ThreadFacts(s, r) && (stored ==> !s.threads[r].pc.Armed?)
    requires
      var m := Set(s, r, s.threads[r].(gate := holder, cancelled := s.threads[r].cancelled || stored));
      OwnStep(m, Set(m, id, next), id) && OnGate(s, Set(m, id, next), id, r)
    ensures
      var m := Set(s, r, s.threads[r].(gate := holder, cancelled := s.threads[r].cancelled || stored));
      Inv(Set(m, id, next))
  {
    hide InvButGates, GatesOwned, OwnStep, ThreadFacts, OnGate;
    var m := Set(s, r, s.threads[r].(gate := holder, cancelled := s.threads[r].cancelled || stored));
    FlagMoves(s, r, holder, stored);
    OwnKeeps(s, m, r);
    OwnKeeps(m, Set(m, id, next), id);
    PairGates(s, Set(m, id, next), id, r);
  }

  lemma CancelGateMoves(s: State, id: ThreadId, r: ThreadId)
    requires id in s.threads && s.threads[id].Cancels? && TargetFacts(s, id, r) && Unblocked(s, id)
    requires Targets(s.threads[id]) == {r} && !s.threads[id].cpc.Answered?
    requires AnswerHolds(s, s.threads[id])
    ensures
      var pc := s.threads[id].cpc;
      var run := s.threads[r];
      var holder := if pc.Stored? then None else Some(id);
      var m := Set(s, r, run.(gate := holder, cancelled := run.cancelled || pc.Storing?));
      var n := AdvanceCancel(s, id);
      && n == Set(m, id, n.threads[id])
      && OwnStep(m, n, id) && OnGate(s, n, id, r)
      && (pc.Storing? ==> !run.pc.Armed?)
  {
  }

  lemma CancelOwnMoves(s: State, id: ThreadId)
    requires id in s.threads && s.threads[id].Cancels? && ThreadFacts(s, id) && Unblocked(s, id)
    requires s.threads[id].cpc.Looking? || s.threads[id].cpc.Matching?
    requires ActiveSound(s)
    ensures OwnStep(s, AdvanceCancel(s, id), id) && GateMoves(s, AdvanceCancel(s, id), id)
  {
  }

  lemma StopGateMoves(s: State, id: ThreadId, r: ThreadId)
    requires id in s.threads && s.threads[id].Stops? && TargetFacts(s, id, r) && Unblocked(s, id)
    requires s.threads[id].spc.Sweeping? || s.threads[id].spc.Marking? || s.threads[id].spc.Unlocking?
    requires s.threads[id].spc.todo != [] && s.threads[id].spc.todo[0] == r
    requires TargetsAreRuns(s) && SweepsCover(s) && FenceUp(s)
    ensures
      var pc := s.threads[id].spc;
      var run := s.threads[r];
      var holder := if pc.Unlocking? then None else Some(id);
      var m := Set(s, r, run.(gate := holder, cancelled := run.cancelled || pc.Marking?));
      var n := AdvanceStop(s, id, []);
      && n == Set(m, id, n.threads[id])
      && OwnStep(m, n, id) && OnGate(s, n, id, r)
      && (pc.Marking? ==> !run.pc.Armed?)
  {
    var pc := s.threads[id].spc;
    var run := s.threads[r];
    var holder := if pc.Unlocking? then None else Some(id);
    var m := Set(s, r, run.(gate := holder, cancelled := run.cancelled || pc.Marking?));
    forall q | q in Targets(AdvanceStop(s, id, []).threads[id]) ensures IsRun(m, q) {
      assert q in Targets(s.threads[id]);
      assert IsRun(s, q);
    }
  }

  lemma StopOwnMoves(s: State, id: ThreadId, order: seq<ThreadId>)
    requires id in s.threads && s.threads[id].Stops? && ThreadFacts(s, id) && Unblocked(s, id)
    requires s.threads[id].spc.Raising? || s.threads[id].spc.Gathering? || s.threads[id].spc.Collecting? ||
        s.threads[id].spc == Sweeping([])
    requires s.threads[id].spc.Collecting? ==> Enumerates(order, s.active)
    requires ActiveSound(s) && SweepsCover(s) && FenceUp(s)
    ensures OwnStep(s, AdvanceStop(s, id, order), id) && GateMoves(s, AdvanceStop(s, id, order), id)
  {
    var n := AdvanceStop(s, id, order);
    if s.threads[id].spc.Collecting? {
      forall r | r in Targets(n.threads[id]) ensures IsRun(s, r) {
        assert r in order;
      }
      forall r | r in s.threads && CanLaunch(s.threads[r]) ensures r in Unmarked(n.threads[id].spc).value {
        assert IsRun(s, r);
      }
    }
  }

  // ---------------------------------------------------------------- every step

  lemma OwnKeepsAll(s: State, n: State, id: ThreadId)
    requires Inv(s) && OwnStep(s, n, id) && GateMoves(s, n, id)
    ensures Inv(n)
  {
    hide InvButGates, GatesOwned, GateMoves;
    OwnKeeps(s, n, id);
    OwnGates(s, n, id);
  }

  lemma RunKeeps(s: State, id: ThreadId)
    requires Inv(s) && IsRun(s, id) && !Finished(s.threads[id]) && Unblocked(s, id)
    ensures Inv(AdvanceRun(s, id))
  {
    hide Inv, ThreadFacts, OwnStep, GateMoves, AdvanceRun, Unblocked;
    FactsOfThread(s, id);
    RunMoves(s, id);
    OwnKeepsAll(s, AdvanceRun(s, id), id);
  }

  lemma CancelKeeps(s: State, id: ThreadId)
    requires Inv(s) && id in s.threads && s.threads[id].Cancels? && !Finished(s.threads[id]) && Unblocked(s, id)
    ensures Inv(AdvanceCancel(s, id))
  {
    var pc := s.threads[id].cpc;
    if pc.Looking? || pc.Matching? {
      FactsOfThread(s, id);
      CancelOwnMoves(s, id);
      OwnKeepsAll(s, AdvanceCancel(s, id), id);
    } else {
      CancelGateKeeps(s, id, pc.target);
    }
  }

  lemma CancelGateKeeps(s: State, id: ThreadId, r: ThreadId)
    requires Inv(s) && id in s.threads && s.threads[id].Cancels? && Unblocked(s, id)
    requires Targets(s.threads[id]) == {r} && !s.threads[id].cpc.Answered?
    ensures Inv(AdvanceCancel(s, id))
  {
    assert AnswerHolds(s, s.threads[id]);
    FactsOfTarget(s, id, r);
    hide Inv, OwnStep, OnGate, AdvanceCancel, Unblocked;
    CancelGateMoves(s, id, r);
    var pc := s.threads[id].cpc;
    GateStepKeeps(s, id, r, if pc.Stored? then None else Some(id), pc.Storing?, AdvanceCancel(s, id).threads[id]);
  }

  lemma StopKeeps(s: State, id: ThreadId, order: seq<ThreadId>)
    requires Inv(s) && Guard(s, Advance(id, order)) && s.threads[id].Stops?
    ensures Inv(AdvanceStop(s, id, order))
  {
    var pc := s.threads[id].spc;
    if pc.Raising? || pc.Gathering? || pc.Collecting? || pc == Sweeping([]) {
      FactsOfThread(s, id);
      StopOwnMoves(s, id, order);
      OwnKeepsAll(s, AdvanceStop(s, id, order), id);
    } else {
      assert SweepShaped(s.threads[id]);
      StopGateKeeps(s, id, pc.todo[0]);
      assert AdvanceStop(s, id, order) == AdvanceStop(s, id, []);
    }
  }

  lemma StopGateKeeps(s: State, id: ThreadId, r: ThreadId)
    requires Inv(s) && id in s.threads && s.threads[id].Stops? && Unblocked(s, id)
    requires s.threads[id].spc.Sweeping? || s.threads[id].spc.Marking? || s.threads[id].spc.Unlocking?
    requires s.threads[id].spc.todo != [] && s.threads[id].spc.todo[0] == r
    ensures Inv(AdvanceStop(s, id, []))
  {
    assert r in Targets(s.threads[id]);
    FactsOfTarget(s, id, r);
    hide OwnStep, OnGate, AdvanceStop, Unblocked;
    hide GatesOwned, LockOwned, TargetsAreRuns, AnswersHold, LaunchesSound, ActiveSound, NoncesDistinct,
        FenceUp, SweepsCover;
    StopGateMoves(s, id, r);
    var pc := s.threads[id].spc;
    GateStepKeeps(s, id, r, if pc.Unlocking? then None else Some(id), pc.Marking?, AdvanceStop(s, id, []).threads[id]);
  }

  predicate Starting(t: Thread) {
    match t
    case Runs(_, _, pc, cancelled, gate, resumed) => pc.Entering? && !cancelled && gate == None && !resumed
    case Cancels(_, _, pc) => pc.Looking?
    case Stops(pc) => pc.Raising?
  }

  lemma StartKeeps(s: State, id: ThreadId, t: Thread)
    requires Inv(s) && id !in s.threads && Starting(t)
    requires t.Runs? ==> forall r :: Unfinished(s, r) ==> s.threads[r].nonce != t.nonce
    ensures Inv(Set(s, id, t))
  {
    hide GatesOwned, LockOwned, TargetsAreRuns, AnswersHold, LaunchesSound, ActiveSound, NoncesDistinct,
        FenceUp, SweepsCover;
    StartKeepsGates(s, id, t);
    StartKeepsTargets(s, id, t);
    StartKeepsNonces(s, id, t);
    StartKeepsSweeps(s, id, t);
    StartKeepsActive(s, id, t);
  }

  lemma StartKeepsTargets(s: State, id: ThreadId, t: Thread)
    requires TargetsAreRuns(s) && AnswersHold(s) && id !in s.threads && Starting(t)
    ensures TargetsAreRuns(Set(s, id, t)) && AnswersHold(Set(s, id, t))
  {
    var n := Set(s, id, t);
    forall i, r | i in n.threads && r in Targets(n.threads[i]) ensures IsRun(n, r) {
      assert IsRun(s, r);
    }
    forall i | i in n.threads ensures AnswerHolds(n, n.threads[i]) {
      assert i != id ==> AnswerHolds(s, n.threads[i]);
    }
  }

  lemma StartKeepsNonces(s: State, id: ThreadId, t: Thread)
    requires NoncesDistinct(s) && id !in s.threads
    requires t.Runs? ==> forall r :: Unfinished(s, r) ==> s.threads[r].nonce != t.nonce
    ensures NoncesDistinct(Set(s, id, t))
  {
    var n := Set(s, id, t);
    forall p, q | Unfinished(n, p) && Unfinished(n, q) && p != q
      ensures n.threads[p].nonce != n.threads[q].nonce
    {
      assert p != id ==> Unfinished(s, p);
      assert q != id ==> Unfinished(s, q);
    }
  }

  lemma StartKeepsSweeps(s: State, id: ThreadId, t: Thread)
    requires LockOwned(s) && LaunchesSound(s) && FenceUp(s) && SweepsCover(s) && id !in s.threads && Starting(t)
    ensures var n := Set(s, id, t); LockOwned(n) && LaunchesSound(n) && FenceUp(n) && SweepsCover(n)
  {
  }

  lemma HeldIsRun(s: State, i: ThreadId)
    requires TargetsAreRuns(s) && i in s.threads && HoldsGate(i, s.threads[i]).Some?
    ensures IsRun(s, HoldsGate(i, s.threads[i]).value)
  {
    assert !s.threads[i].Runs? ==> HoldsGate(i, s.threads[i]).value in Targets(s.threads[i]);
  }

  lemma StartKeepsGates(s: State, id: ThreadId, t: Thread)
    requires GatesOwned(s) && TargetsAreRuns(s) && id !in s.threads && Starting(t)
    ensures GatesOwned(Set(s, id, t))
  {
    var n := Set(s, id, t);
    forall r, i | IsRun(n, r)
      ensures n.threads[r].gate == Some(i) <==> i in n.threads && HoldsGate(i, n.threads[i]) == Some(r)
    {
      if r != id {
        assert IsRun(s, r);
      } else if i in s.threads && HoldsGate(i, s.threads[i]).Some? {
        HeldIsRun(s, i);
      }
    }
  }

  lemma StartKeepsActive(s: State, id: ThreadId, t: Thread)
    requires ActiveSound(s) && id !in s.threads && Starting(t)
    ensures ActiveSound(Set(s, id, t))
  {
    var n := Set(s, id, t);
    forall r | IsRun(n, r) && Listed(n.threads[r].pc)
      ensures n.threads[r].nonce in n.active && n.active[n.threads[r].nonce].owner == r
    {
      assert r != id;
      assert IsRun(s, r);
    }
    forall k | k in n.active ensures EntrySound(n, k, n.active[k]) {
      assert EntrySound(s, k, s.active[k]);
    }
  }

  /** Every step keeps the invariant. */
  lemma StepInv(s: State, step: Step)
    requires Inv(s) && Guard(s, step)
    ensures Inv(Apply(s, step))
  {
    hide Inv, AdvanceRun, AdvanceCancel, AdvanceStop, FailRun;
    match step
    case StartRun(id, nonce, requestId) => StartKeeps(s, id, Runs(nonce, requestId, Entering, false, None, false));
    case StartCancel(id, requestId, nonce) => StartKeeps(s, id, Cancels(requestId, nonce, Looking));
    case StartStop(id) => StartKeeps(s, id, Stops(Raising));
    case Advance(id, order) =>
      if s.threads[id].Runs? {
        RunKeeps(s, id);
      } else if s.threads[id].Cancels? {
        CancelKeeps(s, id);
      } else {
        StopKeeps(s, id, order);
      }
    case Fail(id) =>
      FactsOfThread(s, id);
      FailMoves(s, id);
      OwnKeepsAll(s, FailRun(s, id), id);
  }

  lemma {:induction false} RunInv(s: State, steps: seq<Step>)
    requires Inv(s) && Legal(s, steps)
    ensures Inv(Run(s, steps))
    decreases |steps|
  {
    if steps != [] {
      StepInv(s, steps[0]);
      RunInv(Apply(s, steps[0]), steps[1..]);
    }
  }
}

/** The promises of the Windows runner, over every interleaving of any number of threads. */
module WindowsRunnerTheorems {
  import opened Basics
  import opened WindowsRunner
  import opened WindowsRunnerInvariant

  ghost predicate Reachable(s: State) {
    exists start, steps :: Init(start) && Legal(start, steps) && s == Run(start, steps)
  }

  lemma ReachableInv(s: State)
    requires Reachable(s)
    ensures Inv(s)
  {
    var start, steps :| Init(start) && Legal(start, steps) && s == Run(start, steps);
    InitInv(start);
    RunInv(start, steps);
  }

  /** In every reachable state `active` lists exactly the runs between their insertion and their
      removal, each under its own nonce with its request id; a run that has returned, with a child or
      with an error, is not listed. */
  lemma ActiveListsExactly(s: State, r: ThreadId, n: Str)
    requires Reachable(s) && IsRun(s, r)
    ensures
      var t := s.threads[r];
      n in s.active && s.active[n].owner == r
      <==> n == t.nonce && !t.pc.Entering? && !t.pc.Registering? && !t.pc.Inserting? && !t.pc.Returned?
    ensures n in s.active && s.active[n].owner == r ==> s.active[n].requestId == s.threads[r].requestId
  {
    ReachableInv(s);
    hide Reachable;
    assert n in s.active ==> EntrySound(s, n, s.active[n]);
  }

  predicate Resumed(s: State, r: ThreadId) {
    IsRun(s, r) && s.threads[r].resumed
  }

  predicate CancelledBeforeLaunch(s: State, r: ThreadId) {
    IsRun(s, r) && s.threads[r].cancelled && !s.threads[r].resumed
  }

  /** Execution `r` keeps its flag and its launch; it launches only from `Armed`. */
  predicate LaunchStep(s: State, n: State, r: ThreadId) {
    IsRun(s, r) ==>
      && IsRun(n, r)
      && (s.threads[r].cancelled ==> n.threads[r].cancelled)
      && (s.threads[r].resumed ==> n.threads[r].resumed)
      && (n.threads[r].resumed && !s.threads[r].resumed ==> s.threads[r].pc.Armed?)
  }

  predicate FlagSet(s: State, n: State, r: ThreadId) {
    IsRun(s, r) && IsRun(n, r) && !s.threads[r].cancelled && n.threads[r].cancelled
  }

  lemma RunLaunchStep(s: State, id: ThreadId, r: ThreadId)
    requires IsRun(s, id)
    ensures LaunchStep(s, AdvanceRun(s, id), r) && LaunchStep(s, FailRun(s, id), r)
    ensures IsRun(AdvanceRun(s, id), r) ==> IsRun(s, r)
    ensures FlagSet(s, AdvanceRun(s, id), r) ==> PastFence(s.threads[id])
  {
  }

  lemma CancelLaunchStep(s: State, id: ThreadId, r: ThreadId)
    requires id in s.threads && s.threads[id].Cancels?
    ensures LaunchStep(s, AdvanceCancel(s, id), r)
    ensures IsRun(AdvanceCancel(s, id), r) ==> IsRun(s, r)
    ensures FlagSet(s, AdvanceCancel(s, id), r) ==> s.threads[id].cpc == Storing(r)
  {
  }

  lemma StopLaunchStep(s: State, id: ThreadId, order: seq<ThreadId>, r: ThreadId)
    requires id in s.threads && s.threads[id].Stops?
    ensures LaunchStep(s, AdvanceStop(s, id, order), r)
    ensures IsRun(AdvanceStop(s, id, order), r) ==> IsRun(s, r)
    ensures FlagSet(s, AdvanceStop(s, id, order), r) ==> PastFence(s.threads[id])
  {
  }

  lemma EveryLaunchStep(s: State, step: Step, r: ThreadId)
    requires Guard(s, step)
    ensures LaunchStep(s, Apply(s, step), r)
    ensures Resumed(Apply(s, step), r) ==> IsRun(s, r)
    ensures FlagSet(s, Apply(s, step), r) ==>
              step.Advance? && (PastFence(s.threads[step.id]) ||
                  (s.threads[step.id].Cancels? && s.threads[step.id].cpc == Storing(r)))
  {
    if step.Advance? {
      hide AdvanceRun, AdvanceCancel, AdvanceStop, Unblocked, LaunchStep, PastFence, FlagSet;
      match s.threads[step.id]
      case Runs(_, _, _, _, _, _) => RunLaunchStep(s, step.id, r);
      case Cancels(_, _, _) => CancelLaunchStep(s, step.id, r);
      case Stops(_) => StopLaunchStep(s, step.id, step.order, r);
    }
  }

  /** A child is resumed only with its gate held by its own run and its flag clear. */
  lemma ResumeIsGuarded(s: State, step: Step, r: ThreadId)
    requires Inv(s) && Guard(s, step)
    requires Resumed(Apply(s, step), r) && !Resumed(s, r)
    ensures IsRun(s, r) && s.threads[r].gate == Some(r) && CanLaunch(s.threads[r])
  {
    hide Inv, Apply, Guard;
    EveryLaunchStep(s, step, r);
    FactsOfThread(s, r);
  }

  lemma {:induction false} NeverLaunches(s: State, steps: seq<Step>, r: ThreadId)
    requires Inv(s) && Legal(s, steps) && CancelledBeforeLaunch(s, r)
    ensures CancelledBeforeLaunch(Run(s, steps), r)
    decreases |steps|
  {
    if steps != [] {
      hide Inv, Apply, Guard;
      var n := Apply(s, steps[0]);
      StepInv(s, steps[0]);
      EveryLaunchStep(s, steps[0], r);
      FactsOfThread(s, r);
      NeverLaunches(n, steps[1..], r);
    }
  }

  lemma {:induction false} StaysResumed(s: State, steps: seq<Step>, r: ThreadId)
    requires Inv(s) && Legal(s, steps) && Resumed(s, r)
    ensures Resumed(Run(s, steps), r)
    decreases |steps|
  {
    if steps != [] {
      hide Inv, Apply, Guard;
      StepInv(s, steps[0]);
      EveryLaunchStep(s, steps[0], r);
      StaysResumed(Apply(s, steps[0]), steps[1..], r);
    }
  }

  /** A flag set before the resume step means that child never runs, whatever happens next. */
  lemma CancelBeforeResume(s: State, steps: seq<Step>, r: ThreadId)
    requires Reachable(s) && Legal(s, steps) && IsRun(s, r) && s.threads[r].cancelled
    ensures Resumed(Run(s, steps), r) <==> Resumed(s, r)
  {
    ReachableInv(s);
    if Resumed(s, r) {
      StaysResumed(s, steps, r);
    } else {
      NeverLaunches(s, steps, r);
    }
  }

  function Thrice(r: ThreadId): seq<Step> {
    [Advance(r, []), Advance(r, []), Advance(r, [])]
  }

  /** At a free gate, with no one else moving, the child is resumed exactly when the flag is clear. */
  lemma GateDecides(s: State, r: ThreadId)
    requires IsRun(s, r) && s.threads[r].pc.AtGate? && GateFree(s, r) && !s.threads[r].resumed
    ensures Legal(s, Thrice(r))
    ensures Resumed(Run(s, Thrice(r)), r) <==> !s.threads[r].cancelled
  {
    var step := Advance(r, []);
    var s1 := Apply(s, step);
    var s2 := Apply(s1, step);
    var s3 := Apply(s2, step);
    assert Thrice(r)[1..] == [step, step] && [step, step][1..] == [step] && [step][1..] == [];
    assert Legal(s3, []) && Run(s3, []) == s3;
    assert Legal(s2, [step]) && Run(s2, [step]) == s3;
    assert Legal(s1, [step, step]) && Run(s1, [step, step]) == s3;
  }

  /** `cancel` answered true for `r`: whether that child ever runs is already settled. */
  lemma CancelSettles(s: State, steps: seq<Step>, c: ThreadId, r: ThreadId)
    requires Reachable(s) && Legal(s, steps)
    requires c in s.threads && s.threads[c].Cancels? && s.threads[c].cpc == Answered(Some(r))
    ensures Matches(s, s.threads[c], r)
    ensures Resumed(Run(s, steps), r) <==> Resumed(s, r)
  {
    ReachableInv(s);
    assert AnswerHolds(s, s.threads[c]);
    CancelBeforeResume(s, steps, r);
  }

  /** Before shutdown a flag is set only by a cancel that names exactly that execution. */
  lemma NoStrayCancel(s: State, step: Step, r: ThreadId)
    requires Reachable(s) && Guard(s, step) && FlagSet(s, Apply(s, step), r)
    ensures step.Advance? && (s.stopping || (s.threads[step.id].Cancels? && Matches(s, s.threads[step.id], r)))
  {
    ReachableInv(s);
    hide Inv, Reachable, Unblocked, Apply, FlagSet, LaunchStep;
    FactsOfMover(s, step);
    EveryLaunchStep(s, step, r);
  }

  /** What the invariant says of the thread a step moves. */
  lemma FactsOfMover(s: State, step: Step)
    requires Inv(s) && Guard(s, step)
    ensures step.Advance? ==> AnswerHolds(s, s.threads[step.id])
    ensures step.Advance? && PastFence(s.threads[step.id]) ==> s.stopping
  {
  }

  predicate StopReturned(s: State, a: ThreadId) {
    a in s.threads && s.threads[a] == Stops(Stop)
  }

  lemma StopIsStable(s: State, step: Step, a: ThreadId)
    requires Guard(s, step) && StopReturned(s, a)
    ensures StopReturned(Apply(s, step), a)
  {
  }

  lemma NoneLeft(s: State, a: ThreadId, r: ThreadId)
    requires Inv(s) && StopReturned(s, a) && IsRun(s, r)
    ensures !CanLaunch(s.threads[r])
  {
    assert Unmarked(s.threads[a].spc) == Some([]);
  }

  lemma {:induction false} NothingLaunches(s: State, steps: seq<Step>, a: ThreadId, r: ThreadId)
    requires Inv(s) && Legal(s, steps) && StopReturned(s, a) && !Resumed(s, r)
    ensures !Resumed(Run(s, steps), r)
    decreases |steps|
  {
    if steps != [] {
      hide Inv, Apply, Guard;
      var n := Apply(s, steps[0]);
      StepInv(s, steps[0]);
      StopIsStable(s, steps[0], a);
      if Resumed(n, r) {
        ResumeIsGuarded(s, steps[0], r);
        NoneLeft(s, a, r);
      }
      NothingLaunches(n, steps[1..], a, r);
    }
  }

  /**
    After any `cancel_all` has returned no child is resumed at all: not one registered earlier, and
    not one whose run enters, or passes its first fence, later.
  */
  lemma NoLaunchAfterStop(s: State, steps: seq<Step>, a: ThreadId, r: ThreadId)
    requires Reachable(s) && Legal(s, steps) && StopReturned(s, a)
    ensures Resumed(Run(s, steps), r) ==> Resumed(s, r)
  {
    ReachableInv(s);
    if !Resumed(s, r) {
      NothingLaunches(s, steps, a, r);
    }
  }

  // ---------------------------------------------------------------- progress

  lemma HoldsOneLock(id: ThreadId, t: Thread)
    requires HoldsActive(t) || HoldsGate(id, t).Some?
    ensures !(HoldsActive(t) && HoldsGate(id, t).Some?)
    ensures !WantsActive(t) && WantsGate(id, t) == None && !Finished(t)
  {
  }

  /** Thread `i` holds the launch gate of execution `r`. */
  predicate HasGate(s: State, i: ThreadId, r: ThreadId) {
    IsRun(s, r) && s.threads[r].gate == Some(i)
  }

  /** In every reachable state a thread that holds `active` or a gate holds only that one lock, waits
      for nothing and has not finished. */
  lemma NeverHoldsBoth(s: State, i: ThreadId, r: ThreadId, q: ThreadId)
    requires Reachable(s) && (s.activeLock == Some(i) || HasGate(s, i, r))
    ensures !(s.activeLock == Some(i) && HasGate(s, i, r))
    ensures HasGate(s, i, r) && HasGate(s, i, q) ==> r == q
    ensures i in s.threads && Unblocked(s, i) && !Finished(s.threads[i])
  {
    ReachableInv(s);
    HoldsOneLock(i, s.threads[i]);
  }

  /** The map can be iterated. */
  lemma {:induction false} SomeOrder(active: map<Str, Active>) returns (order: seq<ThreadId>)
    ensures Enumerates(order, active)
    decreases |active|
  {
    if active == map[] {
      order := [];
    } else {
      var n :| n in active;
      var rest := active - {n};
      assert |rest| < |active| by {
        assert rest.Keys == active.Keys - {n};
      }
      var tail := SomeOrder(rest);
      order := [active[n].owner] + tail;
      forall k | k in active ensures active[k].owner in order {
        if k != n {
          assert k in rest && rest[k].owner in tail;
        }
      }
      forall i | 0 <= i < |order| ensures exists k :: k in active && active[k].owner == order[i] {
        if i > 0 {
          assert order[i] == tail[i - 1];
          var k :| k in rest && rest[k].owner == tail[i - 1];
          assert k in active && active[k].owner == order[i];
        }
      }
    }
  }

  /** Thread `id` waits for a lock that thread `h` holds. */
  predicate Awaits(s: State, id: ThreadId, h: ThreadId)
    requires id in s.threads
  {
    var t := s.threads[id];
    || (WantsActive(t) && s.activeLock == Some(h))
    || (WantsGate(id, t).Some? && HasGate(s, h, WantsGate(id, t).value))
  }

  /** The thread itself can step, or the holder of the lock it waits for can. */
  lemma HolderSteps(s: State, id: ThreadId) returns (h: ThreadId)
    requires Inv(s) && id in s.threads && !Finished(s.threads[id])
    ensures h in s.threads && !Finished(s.threads[h]) && Unblocked(s, h)
    ensures h == id || Awaits(s, id, h)
  {
    hide ActiveSound, NoncesDistinct, AnswersHold, SweepsCover, FenceUp, LaunchesSound, TargetsAreRuns;
    h := id;
    var t := s.threads[id];
    if WantsActive(t) && s.activeLock.Some? {
      h := s.activeLock.value;
      HoldsOneLock(h, s.threads[h]);
    } else if WantsGate(id, t).Some? && !GateFree(s, WantsGate(id, t).value) {
      WantedIsRun(s, id);
      h := s.threads[WantsGate(id, t).value].gate.value;
      HoldsOneLock(h, s.threads[h]);
    }
  }

  lemma WantedIsRun(s: State, id: ThreadId)
    requires Inv(s) && id in s.threads && WantsGate(id, s.threads[id]).Some?
    ensures IsRun(s, WantsGate(id, s.threads[id]).value)
  {
    if !s.threads[id].Runs? {
      assert WantsGate(id, s.threads[id]).value in Targets(s.threads[id]);
    }
  }

  /** In every reachable state each unfinished thread can step, or the holder of the lock it waits
      for can. */
  lemma RunnerNeverDeadlocks(s: State, id: ThreadId)
    requires Reachable(s) && id in s.threads && !Finished(s.threads[id])
    ensures exists h, order :: Guard(s, Advance(h, order)) && (h == id || Awaits(s, id, h))
  {
    ReachableInv(s);
    var h := HolderSteps(s, id);
    var order := SomeOrder(s.active);
    assert Guard(s, Advance(h, order));
  }
}
