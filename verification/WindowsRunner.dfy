/**
  The launch and cancellation protocol of the Windows Job runner, with any number of threads in
  `run`, `cancel` and `cancel_all`.

  One step is one lock acquisition, one atomic load or store, one map operation, or one release.
  Each execution is identified by the thread that runs it and carries its own `cancelled` flag and
  launch gate.
*/
module WindowsRunner {
  import opened Basics

  type ThreadId = nat

  datatype RunPc =
    | Entering                    // about to load `stopping`
    | Registering                 // wants `active`
    | Inserting                   // holds `active`
    | Fencing                     // holds `active`, inserted, about to load `stopping`
    | Stopped                     // holds `active`, saw the fence, about to store `cancelled`
    | Registered                  // holds `active`, about to release it
    | Preparing(checks: nat)      // early loads of `cancelled` left before the gate
    | AtGate                      // child is suspended, wants the launch gate
    | Deciding                    // holds the gate, about to load `cancelled`
    | Armed                       // holds the gate, loaded false, about to resume the child
    | Closing                     // holds the gate, about to release it
    | Waiting                     // the child runs, or was dropped without running
    | Leaving                     // wants `active`
    | Removing                    // holds `active`
    | Returned

  datatype CancelPc =
    | Looking                     // wants `active`
    | Matching                    // holds `active`
    | Reaching(target: ThreadId)  // wants the launch gate of `target`
    | Storing(target: ThreadId)   // holds it, about to store
    | Stored(target: ThreadId)    // holds it, stored
    | Answered(found: Option<ThreadId>)

  datatype StopPc =
    | Raising                     // about to store `stopping`
    | Gathering                   // wants `active`
    | Collecting                  // holds `active`
    | Sweeping(todo: seq<ThreadId>)    // wants the gate of todo[0], or is done
    | Marking(todo: seq<ThreadId>)     // holds the gate of todo[0], about to store
    | Unlocking(todo: seq<ThreadId>)   // holds the gate of todo[0], stored
    | Stop

  datatype Thread =
    | Runs(nonce: Str, requestId: Str, pc: RunPc, cancelled: bool, gate: Option<ThreadId>, resumed: bool)
    | Cancels(cancelRequest: Str, cancelNonce: Str, cpc: CancelPc)
    | Stops(spc: StopPc)

  datatype Active = Active(owner: ThreadId, requestId: Str)

  type Threads = map<ThreadId, Thread>

  datatype State = State(stopping: bool, active: map<Str, Active>, activeLock: Option<ThreadId>, threads: Threads)

  datatype Step =
    | StartRun(id: ThreadId, nonce: Str, requestId: Str)
    | StartCancel(id: ThreadId, requestId: Str, nonce: Str)
    | StartStop(id: ThreadId)
    | Advance(id: ThreadId, order: seq<ThreadId>)   // `order`: how the map is iterated
    | Fail(id: ThreadId)

  predicate Init(s: State) {
    s == State(false, map[], None, map[])
  }

  // ---------------------------------------------------------------- locks

  /** The thread's next action needs the `active` lock. */
  predicate WantsActive(t: Thread) {
    match t
    case Runs(_, _, pc, _, _, _) => pc.Registering? || pc.Leaving?
    case Cancels(_, _, pc) => pc.Looking?
    case Stops(pc) => pc.Gathering?
  }

  predicate HoldsActive(t: Thread) {
    match t
    case Runs(_, _, pc, _, _, _) => pc.Inserting? || pc.Fencing? || pc.Stopped? || pc.Registered? || pc.Removing?
    case Cancels(_, _, pc) => pc.Matching?
    case Stops(pc) => pc.Collecting?
  }

  /** The execution whose gate the thread's next action needs. */
  function WantsGate(id: ThreadId, t: Thread): Option<ThreadId> {
    match t
    case Runs(_, _, pc, _, _, _) => if pc.AtGate? then Some(id) else None
    case Cancels(_, _, pc) => if pc.Reaching? then Some(pc.target) else None
    case Stops(pc) => if pc.Sweeping? && pc.todo != [] then Some(pc.todo[0]) else None
  }

  function HoldsGate(id: ThreadId, t: Thread): Option<ThreadId> {
    match t
    case Runs(_, _, pc, _, _, _) => if pc.Deciding? || pc.Armed? || pc.Closing? then Some(id) else None
    case Cancels(_, _, pc) => if pc.Storing? || pc.Stored? then Some(pc.target) else None
    case Stops(pc) => if (pc.Marking? || pc.Unlocking?) && pc.todo != [] then Some(pc.todo[0]) else None
  }

  predicate IsRun(s: State, r: ThreadId) {
    r in s.threads && s.threads[r].Runs?
  }

  predicate GateFree(s: State, r: ThreadId) {
    IsRun(s, r) && s.threads[r].gate == None
  }

  predicate Finished(t: Thread) {
    match t
    case Runs(_, _, pc, _, _, _) => pc.Returned?
    case Cancels(_, _, pc) => pc.Answered?
    case Stops(pc) => pc.Stop?
  }

  /** Nothing the thread needs is held by someone else. */
  predicate Unblocked(s: State, id: ThreadId)
    requires id in s.threads
  {
    var t := s.threads[id];
    && (WantsActive(t) ==> s.activeLock == None)
    && (WantsGate(id, t).Some? ==> GateFree(s, WantsGate(id, t).value))
  }

  // ---------------------------------------------------------------- steps

  /** `order` lists the owners of the registered executions and no other. */
  predicate Enumerates(order: seq<ThreadId>, active: map<Str, Active>) {
    && (forall n :: n in active ==> active[n].owner in order)
    && (forall i :: 0 <= i < |order| ==> exists n :: n in active && active[n].owner == order[i])
  }

  predicate Guard(s: State, step: Step) {
    match step
    case StartRun(id, nonce, _) =>
      // Nonces of concurrent runs are distinct: the replay ledger admits each once.
      && id !in s.threads
      && (forall r :: r in s.threads && s.threads[r].Runs? && !Finished(s.threads[r]) ==> s.threads[r].nonce != nonce)
    case StartCancel(id, _, _) => id !in s.threads
    case StartStop(id) => id !in s.threads
    case Advance(id, order) =>
      && id in s.threads && !Finished(s.threads[id]) && Unblocked(s, id)
      && (s.threads[id].Stops? && s.threads[id].spc.Collecting? ==> Enumerates(order, s.active))
    case Fail(id) =>
      && IsRun(s, id)
      && (s.threads[id].pc.Preparing? || s.threads[id].pc.AtGate? || s.threads[id].pc.Armed?)
  }

  function Set(s: State, id: ThreadId, t: Thread): State {
    s.(threads := s.threads[id := t])
  }

  function AdvanceRun(s: State, id: ThreadId): State
    requires IsRun(s, id)
  {
    var t := s.threads[id];
    match t.pc
    case Entering => Set(s, id, t.(pc := if s.stopping then Returned else Registering))
    case Registering => Set(s, id, t.(pc := Inserting)).(activeLock := Some(id))
    case Inserting => Set(s, id, t.(pc := Fencing)).(active := s.active[t.nonce := Active(id, t.requestId)])
    case Fencing => Set(s, id, t.(pc := if s.stopping then Stopped else Registered))
    case Stopped => Set(s, id, t.(pc := Registered, cancelled := true))
    case Registered => Set(s, id, t.(pc := Preparing(3))).(activeLock := None)
    case Preparing(checks) =>
      Set(s, id, t.(pc := if t.cancelled then Leaving else if checks <= 1 then AtGate else Preparing(checks - 1)))
    case AtGate => Set(s, id, t.(pc := Deciding, gate := Some(id)))
    case Deciding => Set(s, id, t.(pc := if t.cancelled then Closing else Armed))
    case Armed => Set(s, id, t.(pc := Closing, resumed := true))
    case Closing => Set(s, id, t.(pc := Waiting, gate := None))
    case Waiting => Set(s, id, t.(pc := Leaving))
    case Leaving => Set(s, id, t.(pc := Removing)).(activeLock := Some(id))
    case Removing => Set(s, id, t.(pc := Returned)).(active := s.active - {t.nonce}, activeLock := None)
    case Returned => s
  }

  /** Store true into the flag of execution `r`. */
  function StoreCancelled(s: State, r: ThreadId): State
    requires IsRun(s, r)
  {
    Set(s, r, s.threads[r].(cancelled := true))
  }

  function SetGate(s: State, r: ThreadId, holder: Option<ThreadId>): State
    requires IsRun(s, r)
  {
    Set(s, r, s.threads[r].(gate := holder))
  }

  function AdvanceCancel(s: State, id: ThreadId): State
    requires id in s.threads && s.threads[id].Cancels?
  {
    var t := s.threads[id];
    match t.cpc
    case Looking => Set(s, id, t.(cpc := Matching)).(activeLock := Some(id))
    case Matching =>
      var found := t.cancelNonce in s.active && s.active[t.cancelNonce].requestId == t.cancelRequest;
      var next := if found then Reaching(s.active[t.cancelNonce].owner) else Answered(None);
      Set(s, id, t.(cpc := next)).(activeLock := None)
    case Reaching(r) =>
      if IsRun(s, r) then Set(SetGate(s, r, Some(id)), id, t.(cpc := Storing(r))) else s
    case Storing(r) =>
      if IsRun(s, r) then Set(StoreCancelled(s, r), id, t.(cpc := Stored(r))) else s
    case Stored(r) =>
      if IsRun(s, r) then Set(SetGate(s, r, None), id, t.(cpc := Answered(Some(r)))) else s
    case Answered(_) => s
  }

  function AdvanceStop(s: State, id: ThreadId, order: seq<ThreadId>): State
    requires id in s.threads && s.threads[id].Stops?
  {
    var t := s.threads[id];
    match t.spc
    case Raising => Set(s, id, t.(spc := Gathering)).(stopping := true)
    case Gathering => Set(s, id, t.(spc := Collecting)).(activeLock := Some(id))
    case Collecting => Set(s, id, t.(spc := Sweeping(order))).(activeLock := None)
    case Sweeping(todo) =>
      if todo == [] then Set(s, id, t.(spc := Stop))
      else if IsRun(s, todo[0]) then Set(SetGate(s, todo[0], Some(id)), id, t.(spc := Marking(todo)))
      else s
    case Marking(todo) =>
      if todo != [] && IsRun(s, todo[0]) then Set(StoreCancelled(s, todo[0]), id, t.(spc := Unlocking(todo))) else s
    case Unlocking(todo) =>
      if todo != [] && IsRun(s, todo[0]) then Set(SetGate(s, todo[0], None), id, t.(spc := Sweeping(todo[1..]))) else s
    case Stop => s
  }

  /** An error before the child runs: the gate, if held, is released, and the run winds up. */
  function FailRun(s: State, id: ThreadId): State
    requires IsRun(s, id)
  {
    var t := s.threads[id];
    Set(s, id, t.(pc := Leaving, gate := if t.pc.Armed? then None else t.gate))
  }

  function Apply(s: State, step: Step): State
    requires Guard(s, step)
  {
    match step
    case StartRun(id, nonce, requestId) => Set(s, id, Runs(nonce, requestId, Entering, false, None, false))
    case StartCancel(id, requestId, nonce) => Set(s, id, Cancels(requestId, nonce, Looking))
    case StartStop(id) => Set(s, id, Stops(Raising))
    case Advance(id, order) =>
      (match s.threads[id]
       case Runs(_, _, _, _, _, _) => AdvanceRun(s, id)
       case Cancels(_, _, _) => AdvanceCancel(s, id)
       case Stops(_) => AdvanceStop(s, id, order))
    case Fail(id) => FailRun(s, id)
  }

  predicate Legal(s: State, steps: seq<Step>)
    decreases |steps|
  {
    steps == [] || (Guard(s, steps[0]) && Legal(Apply(s, steps[0]), steps[1..]))
  }

  function Run(s: State, steps: seq<Step>): State
    requires Legal(s, steps)
    decreases |steps|
  {
    if steps == [] then s else Run(Apply(s, steps[0]), steps[1..])
  }
}
