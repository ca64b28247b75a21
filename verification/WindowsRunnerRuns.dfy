/**
  What `run`, `cancel` and `cancel_all` do when they are left alone, from the call to the return: the
  runs that the safety results leave possible do happen.
*/
module WindowsRunnerRuns {
  import opened Basics
  import opened WindowsRunner

  // ---------------------------------------------------------------- one thread moving

  /** `k` steps of thread `id` and of no other. */
  function Alone(id: ThreadId, order: seq<ThreadId>, k: nat): seq<Step> {
    if k == 0 then [] else [Advance(id, order)] + Alone(id, order, k - 1)
  }

  /** Left alone for `k` steps, thread `id` takes the runner from `s` to `t`. */
  ghost predicate Reaches(s: State, id: ThreadId, order: seq<ThreadId>, k: nat, t: State) {
    Legal(s, Alone(id, order, k)) && Run(s, Alone(id, order, k)) == t
  }

  lemma ReachNow(s: State, id: ThreadId, order: seq<ThreadId>)
    ensures Reaches(s, id, order, 0, s)
  {
  }

  lemma ReachStep(s: State, id: ThreadId, order: seq<ThreadId>, m: State, k: nat, t: State)
    requires Guard(s, Advance(id, order)) && Apply(s, Advance(id, order)) == m && Reaches(m, id, order, k, t)
    ensures Reaches(s, id, order, k + 1, t)
  {
    hide Guard, Apply;
    assert Alone(id, order, k + 1)[1..] == Alone(id, order, k);
  }

  lemma {:induction false} ReachOn(s: State, id: ThreadId, order: seq<ThreadId>, j: nat, m: State, k: nat, t: State)
    requires Reaches(s, id, order, j, m) && Reaches(m, id, order, k, t)
    ensures Reaches(s, id, order, j + k, t)
    decreases j
  {
    hide Guard, Apply;
    if j > 0 {
      var n := Apply(s, Advance(id, order));
      assert Alone(id, order, j)[1..] == Alone(id, order, j - 1);
      ReachOn(n, id, order, j - 1, m, k, t);
      assert Alone(id, order, j + k)[1..] == Alone(id, order, j - 1 + k);
    }
  }

  /** `s` with thread `id` replaced. */
  function With(s: State, id: ThreadId, t: Thread): State {
    s.(threads := s.threads[id := t])
  }

  lemma WithTwice(s: State, id: ThreadId, t: Thread, u: Thread)
    ensures With(With(s, id, t), id, u) == With(s, id, u)
  {
    assert s.threads[id := t][id := u] == s.threads[id := u];
  }

  // ---------------------------------------------------------------- `cancel`

  /** The registered execution that a cancel names, by nonce and request id. */
  function Found(s: State, requestId: Str, nonce: Str): Option<ThreadId> {
    if nonce in s.active && s.active[nonce].requestId == requestId then Some(s.active[nonce].owner) else None
  }

  /** A lookup pursues exactly the execution registered under that nonce with that request id. */
  lemma LookupLaw(s: State, c: ThreadId, order: seq<ThreadId>)
    requires Guard(s, Advance(c, order)) && s.threads[c].Cancels? && s.threads[c].cpc.Matching?
    ensures
      var t := s.threads[c];
      var found := Found(s, t.cancelRequest, t.cancelNonce);
      Apply(s, Advance(c, order))
      == With(s, c, t.(cpc := if found.Some? then Reaching(found.value) else Answered(None))).(activeLock := None)
  {
  }

  lemma LookMove(s: State, c: ThreadId, q: Str, n: Str)
    requires c in s.threads && s.threads[c] == Cancels(q, n, Looking) && s.activeLock == None
    ensures Guard(s, Advance(c, []))
    ensures Apply(s, Advance(c, [])) == With(s, c, Cancels(q, n, Matching)).(activeLock := Some(c))
  {
  }

  /** The three moves at the gate of execution `r`. */
  lemma GateMoves(s: State, c: ThreadId, q: Str, n: Str, r: ThreadId)
    requires c in s.threads && s.threads[c] == Cancels(q, n, Reaching(r)) && GateFree(s, r) && r != c
    ensures
      var done := With(With(s, r, s.threads[r].(cancelled := true)), c, Cancels(q, n, Answered(Some(r))));
      Reaches(s, c, [], 3, done)
  {
    var run := s.threads[r];
    var held := With(With(s, r, run.(gate := Some(c))), c, Cancels(q, n, Storing(r)));
    var marked := With(With(s, r, run.(gate := Some(c), cancelled := true)), c, Cancels(q, n, Stored(r)));
    var done := With(With(s, r, run.(cancelled := true)), c, Cancels(q, n, Answered(Some(r))));
    GateMove1(s, c, q, n, r);
    GateMove2(s, c, q, n, r);
    GateMove3(s, c, q, n, r);
    hide Guard, Apply, Reaches;
    ReachNow(done, c, []);
    ReachStep(marked, c, [], done, 0, done);
    ReachStep(held, c, [], marked, 1, done);
    ReachStep(s, c, [], held, 2, done);
  }

  lemma GateMove1(s: State, c: ThreadId, q: Str, n: Str, r: ThreadId)
    requires c in s.threads && s.threads[c] == Cancels(q, n, Reaching(r)) && GateFree(s, r) && r != c
    ensures Guard(s, Advance(c, []))
    ensures Apply(s, Advance(c, []))
         == With(With(s, r, s.threads[r].(gate := Some(c))), c, Cancels(q, n, Storing(r)))
  {
  }

  lemma GateMove2(s: State, c: ThreadId, q: Str, n: Str, r: ThreadId)
    requires c in s.threads && s.threads[c] == Cancels(q, n, Reaching(r)) && GateFree(s, r) && r != c
    ensures
      var held := With(With(s, r, s.threads[r].(gate := Some(c))), c, Cancels(q, n, Storing(r)));
      var marked := With(With(s, r, s.threads[r].(gate := Some(c), cancelled := true)), c, Cancels(q, n, Stored(r)));
      Guard(held, Advance(c, [])) && Apply(held, Advance(c, [])) == marked
  {
    var held := With(With(s, r, s.threads[r].(gate := Some(c))), c, Cancels(q, n, Storing(r)));
    var marked := With(With(s, r, s.threads[r].(gate := Some(c), cancelled := true)), c, Cancels(q, n, Stored(r)));
    assert Apply(held, Advance(c, [])).threads == marked.threads;
  }

  lemma GateMove3(s: State, c: ThreadId, q: Str, n: Str, r: ThreadId)
    requires c in s.threads && s.threads[c] == Cancels(q, n, Reaching(r)) && GateFree(s, r) && r != c
    ensures
      var marked := With(With(s, r, s.threads[r].(gate := Some(c), cancelled := true)), c, Cancels(q, n, Stored(r)));
      var done := With(With(s, r, s.threads[r].(cancelled := true)), c, Cancels(q, n, Answered(Some(r))));
      Guard(marked, Advance(c, [])) && Apply(marked, Advance(c, [])) == done
  {
    var marked := With(With(s, r, s.threads[r].(gate := Some(c), cancelled := true)), c, Cancels(q, n, Stored(r)));
    var done := With(With(s, r, s.threads[r].(cancelled := true)), c, Cancels(q, n, Answered(Some(r))));
    assert Apply(marked, Advance(c, [])).threads == done.threads;
  }

  /**
    A cancel left alone answers for exactly the execution registered under its nonce with its request
    id: it sets that flag, or, when there is none, changes nothing but its own answer.
  */
  lemma CancelAlone(s: State, c: ThreadId, q: Str, n: Str)
    requires c in s.threads && s.threads[c] == Cancels(q, n, Looking) && s.activeLock == None
    requires Found(s, q, n).Some? ==> GateFree(s, Found(s, q, n).value)
    ensures
      match Found(s, q, n)
      case None => Reaches(s, c, [], 2, With(s, c, Cancels(q, n, Answered(None))))
      case Some(r) =>
        var done := With(With(s, r, s.threads[r].(cancelled := true)), c, Cancels(q, n, Answered(Some(r))));
        Reaches(s, c, [], 5, done)
  {
    LookMove(s, c, q, n);
    var m := With(s, c, Cancels(q, n, Matching)).(activeLock := Some(c));
    LookupLaw(m, c, []);
    var found := Found(s, q, n);
    var next := Cancels(q, n, if found.Some? then Reaching(found.value) else Answered(None));
    WithTwice(s, c, Cancels(q, n, Matching), next);
    var looked := With(s, c, next);
    assert Apply(m, Advance(c, [])) == looked;
    if found.Some? {
      var r := found.value;
      var done := With(With(s, r, s.threads[r].(cancelled := true)), c, Cancels(q, n, Answered(Some(r))));
      SameBelow(s, c, next, r);
      GateMoves(looked, c, q, n, r);
      hide Guard, Apply, Reaches;
      ReachStep(m, c, [], looked, 3, done);
      ReachStep(s, c, [], m, 4, done);
    } else {
      hide Guard, Apply, Reaches;
      ReachNow(looked, c, []);
      ReachStep(m, c, [], looked, 0, looked);
      ReachStep(s, c, [], m, 1, looked);
    }
  }

  /** Replacing `c` twice around a change of `r` is replacing it once. */
  lemma SameBelow(s: State, c: ThreadId, next: Thread, r: ThreadId)
    requires GateFree(s, r) && r != c
    ensures forall u: Thread, last: Thread ::
      With(With(With(s, c, next), r, u), c, last) == With(With(s, r, u), c, last)
  {
    forall u: Thread, last: Thread
      ensures With(With(With(s, c, next), r, u), c, last) == With(With(s, r, u), c, last)
    {
      assert s.threads[c := next][r := u][c := last] == s.threads[r := u][c := last];
    }
  }

  // ---------------------------------------------------------------- `run`

  /** One move of run `r` that touches no lock and not `active`. */
  lemma QuietMove(s: State, r: ThreadId, t: Thread, next: RunPc)
    requires IsRun(s, r) && s.threads[r] == t && t.gate == None
    requires
      || (t.pc.Entering? && next == if s.stopping then Returned else Registering)
      || (t.pc.Preparing? && next ==
            if t.cancelled then Leaving else if t.pc.checks <= 1 then AtGate else Preparing(t.pc.checks - 1))
      || (t.pc.Waiting? && next.Leaving?)
    ensures Guard(s, Advance(r, [])) && Apply(s, Advance(r, [])) == With(s, r, t.(pc := next))
  {
  }

  /** Run `r` at `pc`, everything else as in `s`. */
  function At(s: State, r: ThreadId, pc: RunPc): State
    requires IsRun(s, r)
  {
    With(s, r, s.threads[r].(pc := pc))
  }

  lemma AtTwice(s: State, r: ThreadId, a: RunPc, b: RunPc)
    requires IsRun(s, r)
    ensures IsRun(At(s, r, a), r) && At(At(s, r, a), r, b) == At(s, r, b)
  {
    WithTwice(s, r, s.threads[r].(pc := a), s.threads[r].(pc := b));
  }

  /** The moves under the `active` lock, with the fence down. */
  lemma RegisterMoves(s: State, r: ThreadId)
    requires IsRun(s, r) && s.threads[r].pc.Registering? && s.activeLock == None && !s.stopping
    ensures
      var t := s.threads[r];
      var done := At(s, r, Preparing(3)).(active := s.active[t.nonce := Active(r, t.requestId)]);
      Reaches(s, r, [], 4, done)
  {
    var t := s.threads[r];
    var listed := s.active[t.nonce := Active(r, t.requestId)];
    var s1 := At(s, r, Inserting).(activeLock := Some(r));
    var s2 := At(s, r, Fencing).(activeLock := Some(r), active := listed);
    var s3 := At(s, r, Registered).(activeLock := Some(r), active := listed);
    var done := At(s, r, Preparing(3)).(active := listed);
    AtTwice(s, r, Inserting, Fencing);
    AtTwice(s, r, Fencing, Registered);
    AtTwice(s, r, Registered, Preparing(3));
    assert Guard(s, Advance(r, [])) && Apply(s, Advance(r, [])) == s1;
    assert Guard(s1, Advance(r, [])) && Apply(s1, Advance(r, [])) == s2;
    assert Guard(s2, Advance(r, [])) && Apply(s2, Advance(r, [])) == s3;
    assert Guard(s3, Advance(r, [])) && Apply(s3, Advance(r, [])) == done;
    hide Guard, Apply, Reaches, At;
    ReachNow(done, r, []);
    ReachStep(s3, r, [], done, 0, done);
    ReachStep(s2, r, [], s3, 1, done);
    ReachStep(s1, r, [], s2, 2, done);
    ReachStep(s, r, [], s1, 3, done);
  }

  /** The three early looks at the flag. */
  lemma PrepareMoves(s: State, r: ThreadId)
    requires IsRun(s, r) && s.threads[r].pc == Preparing(3) && !s.threads[r].cancelled && s.threads[r].gate == None
    ensures Reaches(s, r, [], 3, At(s, r, AtGate))
  {
    var t := s.threads[r];
    var s1, s2, s3 := At(s, r, Preparing(2)), At(s, r, Preparing(1)), At(s, r, AtGate);
    AtTwice(s, r, Preparing(2), Preparing(1));
    AtTwice(s, r, Preparing(1), AtGate);
    QuietMove(s, r, t, Preparing(2));
    QuietMove(s1, r, t.(pc := Preparing(2)), Preparing(1));
    QuietMove(s2, r, t.(pc := Preparing(1)), AtGate);
    hide Guard, Apply, Reaches;
    ReachNow(s3, r, []);
    ReachStep(s2, r, [], s3, 0, s3);
    ReachStep(s1, r, [], s2, 1, s3);
    ReachStep(s, r, [], s1, 2, s3);
  }

  /** The gate: look at the flag once more, resume the child, let go. */
  lemma LaunchMoves(s: State, r: ThreadId)
    requires IsRun(s, r) && s.threads[r].pc.AtGate? && !s.threads[r].cancelled && s.threads[r].gate == None
    ensures Reaches(s, r, [], 4, With(s, r, s.threads[r].(pc := Waiting, resumed := true)))
  {
    var t := s.threads[r];
    var t1 := t.(pc := Deciding, gate := Some(r));
    var t2 := t.(pc := Armed, gate := Some(r));
    var t3 := t.(pc := Closing, gate := Some(r), resumed := true);
    var t4 := t.(pc := Waiting, resumed := true);
    WithTwice(s, r, t1, t2);
    WithTwice(s, r, t2, t3);
    WithTwice(s, r, t3, t4);
    assert Guard(s, Advance(r, [])) && Apply(s, Advance(r, [])) == With(s, r, t1);
    assert Guard(With(s, r, t1), Advance(r, [])) && Apply(With(s, r, t1), Advance(r, [])) == With(s, r, t2);
    assert Guard(With(s, r, t2), Advance(r, [])) && Apply(With(s, r, t2), Advance(r, [])) == With(s, r, t3);
    assert Guard(With(s, r, t3), Advance(r, [])) && Apply(With(s, r, t3), Advance(r, [])) == With(s, r, t4);
    hide Guard, Apply, Reaches, With;
    ReachNow(With(s, r, t4), r, []);
    ReachStep(With(s, r, t3), r, [], With(s, r, t4), 0, With(s, r, t4));
    ReachStep(With(s, r, t2), r, [], With(s, r, t3), 1, With(s, r, t4));
    ReachStep(With(s, r, t1), r, [], With(s, r, t2), 2, With(s, r, t4));
    ReachStep(s, r, [], With(s, r, t1), 3, With(s, r, t4));
  }

  /** The child is done: take the entry out of `active` and return. */
  lemma LeaveMoves(s: State, r: ThreadId)
    requires IsRun(s, r) && s.threads[r].pc.Waiting? && s.activeLock == None && s.threads[r].gate == None
    ensures Reaches(s, r, [], 3, At(s, r, Returned).(active := s.active - {s.threads[r].nonce}))
  {
    var t := s.threads[r];
    var s1, s2 := At(s, r, Leaving), At(s, r, Removing).(activeLock := Some(r));
    var done := At(s, r, Returned).(active := s.active - {t.nonce});
    AtTwice(s, r, Leaving, Removing);
    AtTwice(s, r, Removing, Returned);
    QuietMove(s, r, t, Leaving);
    assert Guard(s1, Advance(r, [])) && Apply(s1, Advance(r, [])) == s2;
    assert Guard(s2, Advance(r, [])) && Apply(s2, Advance(r, [])) == done;
    hide Guard, Apply, Reaches, At;
    ReachNow(done, r, []);
    ReachStep(s2, r, [], done, 0, done);
    ReachStep(s1, r, [], s2, 1, done);
    ReachStep(s, r, [], s1, 2, done);
  }

  predicate Fresh(t: Thread) {
    t.Runs? && t.pc.Entering? && !t.cancelled && t.gate == None && !t.resumed
  }

  /**
    A run that nobody cancels, left alone before shutdown, registers itself under its nonce with its
    request id, resumes its child, takes its entry out again and returns; after the fence is up it
    returns at once and starts nothing.
  */
  lemma RunAlone(s: State, r: ThreadId)
    requires IsRun(s, r) && Fresh(s.threads[r]) && s.activeLock == None
    ensures s.stopping ==> Reaches(s, r, [], 1, At(s, r, Returned))
    ensures !s.stopping ==>
      var t := s.threads[r];
      var listed := At(s, r, Preparing(3)).(active := s.active[t.nonce := Active(r, t.requestId)]);
      && Reaches(s, r, [], 5, listed)
      && Reaches(s, r, [], 15, With(s, r, t.(pc := Returned, resumed := true)).(active := s.active - {t.nonce}))
  {
    var t := s.threads[r];
    if s.stopping {
      QuietMove(s, r, t, Returned);
      ReachNow(At(s, r, Returned), r, []);
      ReachStep(s, r, [], At(s, r, Returned), 0, At(s, r, Returned));
    } else {
      QuietMove(s, r, t, Registering);
      var s1 := At(s, r, Registering);
      RegisterMoves(s1, r);
      AtTwice(s, r, Registering, Preparing(3));
      var s2 := At(s, r, Preparing(3)).(active := s.active[t.nonce := Active(r, t.requestId)]);
      ReachStep(s, r, [], s1, 4, s2);
      FromPreparing(s2, r);
      hide Reaches, Guard, Apply;
      var last := t.(pc := Returned, resumed := true);
      WithTwice(s, r, t.(pc := Preparing(3)), last);
      var done := With(s, r, last).(active := s.active - {t.nonce});
      assert s.active[t.nonce := Active(r, t.requestId)] - {t.nonce} == s.active - {t.nonce};
      ReachOn(s, r, [], 5, s2, 10, done);
    }
  }

  lemma FromPreparing(s: State, r: ThreadId)
    requires IsRun(s, r) && s.threads[r].pc == Preparing(3) && s.activeLock == None
    requires !s.threads[r].cancelled && s.threads[r].gate == None
    ensures
      var t := s.threads[r];
      Reaches(s, r, [], 10, With(s, r, t.(pc := Returned, resumed := true)).(active := s.active - {t.nonce}))
  {
    var t := s.threads[r];
    var s1 := At(s, r, AtGate);
    var s2 := With(s, r, t.(pc := Waiting, resumed := true));
    var s3 := With(s, r, t.(pc := Returned, resumed := true)).(active := s.active - {t.nonce});
    PrepareMoves(s, r);
    LaunchMoves(s1, r);
    WithTwice(s, r, t.(pc := AtGate), t.(pc := Waiting, resumed := true));
    LeaveMoves(s2, r);
    WithTwice(s, r, t.(pc := Waiting, resumed := true), t.(pc := Returned, resumed := true));
    hide Reaches;
    ReachOn(s, r, [], 3, s1, 4, s2);
    ReachOn(s, r, [], 7, s2, 3, s3);
  }

  // ---------------------------------------------------------------- `cancel_all`

  function Flag(t: Thread): Thread {
    if t.Runs? then t.(cancelled := true) else t
  }

  /** `s` with the flags of these executions set, and nothing else changed. */
  function Flagged(s: State, todo: seq<ThreadId>): State {
    s.(threads := map id | id in s.threads :: if id in todo then Flag(s.threads[id]) else s.threads[id])
  }

  lemma SweepMove1(s: State, a: ThreadId, todo: seq<ThreadId>, order: seq<ThreadId>)
    requires a in s.threads && s.threads[a] == Stops(Sweeping(todo)) && todo != [] && GateFree(s, todo[0])
    ensures
      var r := todo[0];
      && Guard(s, Advance(a, order))
      && Apply(s, Advance(a, order)) == With(With(s, r, s.threads[r].(gate := Some(a))), a, Stops(Marking(todo)))
  {
  }

  lemma SweepMove2(s: State, a: ThreadId, todo: seq<ThreadId>, order: seq<ThreadId>)
    requires a in s.threads && s.threads[a] == Stops(Sweeping(todo)) && todo != [] && GateFree(s, todo[0])
    ensures
      var r := todo[0];
      var held := With(With(s, r, s.threads[r].(gate := Some(a))), a, Stops(Marking(todo)));
      var marked := With(With(s, r, s.threads[r].(gate := Some(a), cancelled := true)), a, Stops(Unlocking(todo)));
      Guard(held, Advance(a, order)) && Apply(held, Advance(a, order)) == marked
  {
    var r := todo[0];
    var held := With(With(s, r, s.threads[r].(gate := Some(a))), a, Stops(Marking(todo)));
    var marked := With(With(s, r, s.threads[r].(gate := Some(a), cancelled := true)), a, Stops(Unlocking(todo)));
    assert Apply(held, Advance(a, order)).threads == marked.threads;
  }

  lemma SweepMove3(s: State, a: ThreadId, todo: seq<ThreadId>, order: seq<ThreadId>)
    requires a in s.threads && s.threads[a] == Stops(Sweeping(todo)) && todo != [] && GateFree(s, todo[0])
    ensures
      var r := todo[0];
      var marked := With(With(s, r, s.threads[r].(gate := Some(a), cancelled := true)), a, Stops(Unlocking(todo)));
      var done := With(With(s, r, s.threads[r].(cancelled := true)), a, Stops(Sweeping(todo[1..])));
      Guard(marked, Advance(a, order)) && Apply(marked, Advance(a, order)) == done
  {
    var r := todo[0];
    var marked := With(With(s, r, s.threads[r].(gate := Some(a), cancelled := true)), a, Stops(Unlocking(todo)));
    var done := With(With(s, r, s.threads[r].(cancelled := true)), a, Stops(Sweeping(todo[1..])));
    assert Apply(marked, Advance(a, order)).threads == done.threads;
  }

  /** One execution of the snapshot is flagged and left behind. */
  lemma SweepOne(s: State, a: ThreadId, todo: seq<ThreadId>, order: seq<ThreadId>)
    requires a in s.threads && s.threads[a] == Stops(Sweeping(todo)) && todo != [] && GateFree(s, todo[0])
    ensures
      var r := todo[0];
      Reaches(s, a, order, 3, With(With(s, r, s.threads[r].(cancelled := true)), a, Stops(Sweeping(todo[1..]))))
  {
    var r := todo[0];
    var held := With(With(s, r, s.threads[r].(gate := Some(a))), a, Stops(Marking(todo)));
    var marked := With(With(s, r, s.threads[r].(gate := Some(a), cancelled := true)), a, Stops(Unlocking(todo)));
    var done := With(With(s, r, s.threads[r].(cancelled := true)), a, Stops(Sweeping(todo[1..])));
    SweepMove1(s, a, todo, order);
    SweepMove2(s, a, todo, order);
    SweepMove3(s, a, todo, order);
    hide Guard, Apply, Reaches;
    ReachNow(done, a, order);
    ReachStep(marked, a, order, done, 0, done);
    ReachStep(held, a, order, marked, 1, done);
    ReachStep(s, a, order, held, 2, done);
  }

  ghost predicate AllFree(s: State, todo: seq<ThreadId>) {
    forall k :: 0 <= k < |todo| ==> GateFree(s, todo[k])
  }

  /** Flagging the first and then the rest is flagging them all. */
  lemma FlagFirst(s: State, todo: seq<ThreadId>, a: ThreadId, t: Thread, u: Thread)
    requires todo != [] && IsRun(s, todo[0]) && a in s.threads && s.threads[a].Stops? && t.Stops?
    ensures
      var m := With(With(s, todo[0], s.threads[todo[0]].(cancelled := true)), a, t);
      With(Flagged(m, todo[1..]), a, u) == With(Flagged(s, todo), a, u)
  {
    var m := With(With(s, todo[0], s.threads[todo[0]].(cancelled := true)), a, t);
    assert forall id :: id in todo <==> id == todo[0] || id in todo[1..];
    assert With(Flagged(m, todo[1..]), a, u).threads == With(Flagged(s, todo), a, u).threads;
  }

  /** Left alone, a sweep flags every execution of its snapshot and returns. */
  lemma {:induction false} SweepAlone(s: State, a: ThreadId, todo: seq<ThreadId>, order: seq<ThreadId>)
    requires a in s.threads && s.threads[a] == Stops(Sweeping(todo)) && AllFree(s, todo)
    ensures Reaches(s, a, order, 3 * |todo| + 1, With(Flagged(s, todo), a, Stops(Stop)))
    decreases |todo|
  {
    if todo == [] {
      var done := With(s, a, Stops(Stop));
      assert Flagged(s, todo) == s;
      assert Guard(s, Advance(a, order)) && Apply(s, Advance(a, order)) == done;
      ReachNow(done, a, order);
      ReachStep(s, a, order, done, 0, done);
    } else {
      var r := todo[0];
      var m := With(With(s, r, s.threads[r].(cancelled := true)), a, Stops(Sweeping(todo[1..])));
      SweepOne(s, a, todo, order);
      StillFree(s, a, todo);
      SweepAlone(m, a, todo[1..], order);
      FlagFirst(s, todo, a, Stops(Sweeping(todo[1..])), Stops(Stop));
      hide Reaches, Flagged;
      ReachOn(s, a, order, 3, m, 3 * |todo[1..]| + 1, With(Flagged(s, todo), a, Stops(Stop)));
    }
  }

  lemma StillFree(s: State, a: ThreadId, todo: seq<ThreadId>)
    requires a in s.threads && s.threads[a].Stops? && todo != [] && AllFree(s, todo)
    ensures
      var r := todo[0];
      AllFree(With(With(s, r, s.threads[r].(cancelled := true)), a, Stops(Sweeping(todo[1..]))), todo[1..])
  {
    var r := todo[0];
    var m := With(With(s, r, s.threads[r].(cancelled := true)), a, Stops(Sweeping(todo[1..])));
    forall k | 0 <= k < |todo[1..]| ensures GateFree(m, todo[1..][k]) {
      assert GateFree(s, todo[k + 1]);
    }
  }

  /** The three moves before the sweep: fence, lock, snapshot. */
  lemma SnapshotMoves(s: State, a: ThreadId, order: seq<ThreadId>)
    requires a in s.threads && s.threads[a] == Stops(Raising) && s.activeLock == None && Enumerates(order, s.active)
    ensures Reaches(s, a, order, 3, With(s, a, Stops(Sweeping(order))).(stopping := true))
  {
    var s1 := With(s, a, Stops(Gathering)).(stopping := true);
    var s2 := With(s, a, Stops(Collecting)).(stopping := true, activeLock := Some(a));
    var s3 := With(s, a, Stops(Sweeping(order))).(stopping := true);
    WithTwice(s, a, Stops(Gathering), Stops(Collecting));
    WithTwice(s, a, Stops(Collecting), Stops(Sweeping(order)));
    assert Guard(s, Advance(a, order)) && Apply(s, Advance(a, order)) == s1;
    assert Guard(s1, Advance(a, order)) && Apply(s1, Advance(a, order)) == s2;
    assert Guard(s2, Advance(a, order)) && Apply(s2, Advance(a, order)) == s3;
    hide Guard, Apply, Reaches;
    ReachNow(s3, a, order);
    ReachStep(s2, a, order, s3, 0, s3);
    ReachStep(s1, a, order, s2, 1, s3);
    ReachStep(s, a, order, s1, 2, s3);
  }

  /**
    `cancel_all` left alone raises the fence, takes a snapshot of the registered executions, flags
    each of them and no other, and returns.
  */
  lemma StopAlone(s: State, a: ThreadId, order: seq<ThreadId>)
    requires a in s.threads && s.threads[a] == Stops(Raising) && s.activeLock == None
    requires Enumerates(order, s.active) && AllFree(s, order)
    ensures Reaches(s, a, order, 3 * |order| + 4, With(Flagged(s, order), a, Stops(Stop)).(stopping := true))
  {
    var m := With(s, a, Stops(Sweeping(order))).(stopping := true);
    SnapshotMoves(s, a, order);
    forall k | 0 <= k < |order| ensures GateFree(m, order[k]) {
      assert GateFree(s, order[k]);
    }
    SweepAlone(m, a, order, order);
    var done := With(Flagged(s, order), a, Stops(Stop)).(stopping := true);
    assert With(Flagged(m, order), a, Stops(Stop)).threads == done.threads;
    hide Reaches, Flagged, Enumerates;
    ReachOn(s, a, order, 3, m, 3 * |order| + 1, done);
  }
}
