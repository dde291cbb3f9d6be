/**
  Runs that reach what the safety theorems speak about, for any set of backends: a committed transaction, and
  one that recovery resolves after one backend failed in its COMMIT phase.
*/
module XaRuns {
  import opened Prelude
  import opened XaProtocol

  /** Some run leads to the state. */
  ghost predicate Reached(parts: set<Backend>, s: State) {
    exists steps :: Play(parts, steps) == Some(s)
  }

  lemma Extend(parts: set<Backend>, s: State, step: Step)
    requires Reached(parts, s) && Enabled(s, step)
    ensures Reached(parts, Do(parts, s, step))
  {
    var steps :| Play(parts, steps) == Some(s);
    assert (steps + [step])[..|steps|] == steps;
    assert Play(parts, steps + [step]) == Some(Do(parts, s, step));
  }

  // ----- A phase ---------------------------------------------------------------------------------

  /** The goroutines of `todo` have not begun with the command of this phase, and the others succeeded. */
  ghost predicate During(parts: set<Backend>, xa: Xa, cmd: Cmd, from: Branch, to: Branch, todo: set<Backend>) {
    && InPhase(xa, cmd) && xa.call.workers.Keys == parts && xa.branch.Keys == parts && todo <= parts
    && (forall b | b in todo :: xa.call.workers[b] == Ready(0) && xa.branch[b] == from)
    && (forall b | b in parts - todo :: xa.call.workers[b] == Done(true) && xa.branch[b] == to)
  }

  /** Two states that differ in the goroutines of a phase, the branches and the history only. */
  predicate SameButPhase(s: State, s': State) {
    && s.xa.call.Phase? && s'.xa.call.Phase? && s'.xa.call.goal == s.xa.call.goal
    && s' == s.(xa := s.xa.(call := s'.xa.call, branch := s'.xa.branch), history := s'.history)
  }

  /** The goroutine of b succeeded, and its branch moved on. */
  function Succeeded(xa: Xa, b: Backend, to: Branch): Xa
    requires xa.call.Phase?
  {
    SetWorker(xa, b, Done(true)).(branch := xa.branch[b := to])
  }

  lemma SetTwice(xa: Xa, b: Backend, v: Worker, w: Worker)
    requires xa.call.Phase?
    ensures SetWorker(SetWorker(xa, b, v), b, w) == SetWorker(xa, b, w)
  {
    var workers := xa.call.workers;
    assert workers[b := v][b := w] == workers[b := w];
  }

  /** The goroutine of one backend sends its command, which is executed and acknowledged. */
  lemma WorkerSucceeds(parts: set<Backend>, s: State, b: Backend, to: Branch)
    requires Reached(parts, s) && s.xa.call.Phase? && b in s.xa.call.workers && s.xa.call.workers[b] == Ready(0)
    requires b in s.xa.branch && Transition(s.xa.branch[b], s.xa.call.cmd) == Some(to)
    ensures var cmd := s.xa.call.cmd;
            Reached(parts, s.(xa := Succeeded(s.xa, b, to), history := s.history + [Sends(b, cmd)] + [Acks(b, cmd)]))
  {
    var cmd := s.xa.call.cmd;
    Extend(parts, s, OfWorker(Send(b)));
    var s1 := Do(parts, s, OfWorker(Send(b)));
    Extend(parts, s1, OfServer(Executes(b)));
    var s2 := Do(parts, s1, OfServer(Executes(b)));
    SetTwice(s.xa, b, Sent(0), Applied(0));
    SetTwice(s.xa, b, Applied(0), Done(true));
    Extend(parts, s2, OfWorker(ReplyOk(b)));
    assert Do(parts, s2, OfWorker(ReplyOk(b))).xa == Succeeded(s.xa, b, to);
  }

  lemma DuringNext(parts: set<Backend>, xa: Xa, cmd: Cmd, from: Branch, to: Branch, todo: set<Backend>, b: Backend)
    requires During(parts, xa, cmd, from, to, todo) && b in todo
    ensures During(parts, Succeeded(xa, b, to), cmd, from, to, todo - {b})
  {
  }

  /** All goroutines but those of `rest` succeed, one after the other. */
  lemma {:induction false} PhaseSucceeds(parts: set<Backend>, s: State, cmd: Cmd, from: Branch, to: Branch,
                                         todo: set<Backend>, rest: set<Backend>)
    returns (s': State)
    requires Reached(parts, s) && During(parts, s.xa, cmd, from, to, todo) && rest <= todo
    requires Transition(from, cmd) == Some(to)
    ensures Reached(parts, s') && During(parts, s'.xa, cmd, from, to, rest) && SameButPhase(s, s')
    decreases todo
  {
    if todo <= rest {
      assert todo == rest;
      s' := s;
    } else {
      var b :| b in todo && b !in rest;
      WorkerSucceeds(parts, s, b, to);
      DuringNext(parts, s.xa, cmd, from, to, todo, b);
      s' := s.(xa := Succeeded(s.xa, b, to), history := s.history + [Sends(b, cmd)] + [Acks(b, cmd)]);
      s' := PhaseSucceeds(parts, s', cmd, from, to, todo - {b}, rest);
    }
  }

  /** What a phase starts from: nobody reads, and the log is empty. */
  ghost predicate Quiet(parts: set<Backend>, s: State, branch: Branch) {
    && s.xa.branch == (map b | b in parts :: branch) && s.xa.stale == {} && !s.xa.dead
    && s.readers == map[] && s.log == Log(None, None, Off)
  }

  predicate Returns(xa: Xa, cmd: Cmd, goal: Goal) {
    InPhase(xa, cmd) && xa.call.goal == goal && AllOk(xa.call.workers)
  }

  lemma AllSucceeded(parts: set<Backend>, xa: Xa, cmd: Cmd, from: Branch, to: Branch)
    requires During(parts, xa, cmd, from, to, {})
    ensures AllOk(xa.call.workers) && xa.branch == map b | b in parts :: to
  {
    forall b | b in parts ensures xa.call.workers[b] == Done(true) && xa.branch[b] == to {
      assert b in parts - {};
    }
  }

  /** A phase that starts in a quiet state succeeds everywhere and returns. */
  lemma PhaseReturnsOk(parts: set<Backend>, s: State, cmd: Cmd, from: Branch, to: Branch) returns (s': State)
    requires Reached(parts, s) && During(parts, s.xa, cmd, from, to, parts) && Quiet(parts, s, from)
    requires Transition(from, cmd) == Some(to)
    ensures Reached(parts, s') && Quiet(parts, s', to)
    ensures exists xa :: Returns(xa, cmd, s.xa.call.goal) && s'.xa == AfterPhase(parts, xa)
  {
    var s1 := PhaseSucceeds(parts, s, cmd, from, to, parts, {});
    AllSucceeded(parts, s1.xa, cmd, from, to);
    assert Returns(s1.xa, cmd, s.xa.call.goal);
    Extend(parts, s1, OfTxn(PhaseReturns));
    s' := Do(parts, s1, OfTxn(PhaseReturns));
  }

  // ----- A committed transaction ---------------------------------------------------------------------

  /** After the phase of BEGIN, the branches are active and no call is running. */
  lemma Begun(parts: set<Backend>) returns (s: State)
    ensures Reached(parts, s) && Quiet(parts, s, Active) && s.xa.call == NoCall
  {
    var s0 := InitState(parts);
    assert Play(parts, []) == Some(s0);
    Extend(parts, s0, OfTxn(Invoke(Begin)));
    s := PhaseReturnsOk(parts, Do(parts, s0, OfTxn(Invoke(Begin))), START, NonExistent, Active);
  }

  /** After END succeeded, Commit has started PREPARE. */
  lemma Ended(parts: set<Backend>) returns (s: State)
    ensures Reached(parts, s) && Quiet(parts, s, Idle) && During(parts, s.xa, PREPARE, Idle, Prepared, parts)
    ensures s.xa.call.goal == Commit
  {
    var s0 := Begun(parts);
    Extend(parts, s0, OfTxn(Invoke(Commit)));
    s := PhaseReturnsOk(parts, Do(parts, s0, OfTxn(Invoke(Commit))), END, Active, Idle);
  }

  /** After PREPARE succeeded, too, Commit waits for the lock. */
  lemma Decided(parts: set<Backend>) returns (s: State)
    ensures Reached(parts, s) && Quiet(parts, s, Prepared) && s.xa.call == WantLock(COMMIT)
  {
    var s0 := Ended(parts);
    s := PhaseReturnsOk(parts, s0, PREPARE, Idle, Prepared);
  }

  /** The COMMIT phase has started under the lock. */
  lemma Committing(parts: set<Backend>) returns (s: State)
    ensures Reached(parts, s) && Quiet(parts, s, Prepared) && During(parts, s.xa, COMMIT, Prepared, Committed, parts)
  {
    var s0 := Decided(parts);
    Extend(parts, s0, OfTxn(TakeLock));
    s := Do(parts, s0, OfTxn(TakeLock));
  }

  /** Whatever the backends are, some run reaches a COMMIT phase that succeeded on all of them. */
  lemma CommitIsReached(parts: set<Backend>) returns (steps: seq<Step>)
    ensures Play(parts, steps).Some?
    ensures var xa := Play(parts, steps).value.xa;
      InPhase(xa, COMMIT) && AllOk(xa.call.workers) && xa.branch == map b | b in parts :: Committed
  {
    var s0 := Committing(parts);
    var s := PhaseSucceeds(parts, s0, COMMIT, Prepared, Committed, parts, {});
    AllSucceeded(parts, s.xa, COMMIT, Prepared, Committed);
    steps :| Play(parts, steps) == Some(s);
  }

  // ----- One that recovery resolves ------------------------------------------------------------------

  /** One backend is still prepared and may get COMMIT late; the others have committed. */
  ghost predicate OneLeft(parts: set<Backend>, xa: Xa, b: Backend) {
    && b in parts && xa.branch == (map x | x in parts :: if x == b then Prepared else Committed)
    && (b, COMMIT) in xa.stale
  }

  /** The COMMIT phase has failed on one backend and succeeded on the others. */
  lemma Failed(parts: set<Backend>, b: Backend) returns (s: State)
    requires b in parts
    ensures Reached(parts, s) && OneLeft(parts, s.xa, b) && s.log == Log(None, None, Off)
    ensures InPhase(s.xa, COMMIT) && AllDone(s.xa.call.workers) && !AllOk(s.xa.call.workers)
  {
    var s0 := Committing(parts);
    var s1 := PhaseSucceeds(parts, s0, COMMIT, Prepared, Committed, parts, {b});
    AllButOne(parts, s1.xa, b);
    s := WorkerFails(parts, s1, b);
    assert s.xa.call.workers[b] == Done(false);
  }

  lemma AllButOne(parts: set<Backend>, xa: Xa, b: Backend)
    requires During(parts, xa, COMMIT, Prepared, Committed, {b})
    ensures xa.branch == map x | x in parts :: if x == b then Prepared else Committed
    ensures forall x | x in xa.call.workers && x != b :: xa.call.workers[x].Done?
  {
    forall x | x in parts && x != b ensures xa.call.workers[x] == Done(true) && xa.branch[x] == Committed {
      assert x in parts - {b};
    }
  }

  /** The goroutine of one backend sends COMMIT and hears that the branch is unknown. */
  lemma WorkerFails(parts: set<Backend>, s: State, b: Backend) returns (s': State)
    requires Reached(parts, s) && InPhase(s.xa, COMMIT) && b in s.xa.call.workers && s.xa.call.workers[b] == Ready(0)
    ensures Reached(parts, s') && s'.log == s.log
    ensures s'.xa == SetWorker(s.xa, b, Done(false)).(stale := s.xa.stale + {(b, COMMIT)})
  {
    Extend(parts, s, OfWorker(Send(b)));
    var s1 := Do(parts, s, OfWorker(Send(b)));
    SetTwice(s.xa, b, Sent(0), Done(false));
    Extend(parts, s1, OfWorker(ReplyErr(b, true)));
    s' := Do(parts, s1, OfWorker(ReplyErr(b, true)));
  }

  /** The decision is in the log, in memory and on disk. */
  lemma Logged(parts: set<Backend>, b: Backend) returns (s: State)
    requires b in parts
    ensures Reached(parts, s) && OneLeft(parts, s.xa, b) && s.xa.call == NoCall
    ensures s.log == Log(Some(COMMIT), Some(COMMIT), Off)
  {
    var s0 := Failed(parts, b);
    Extend(parts, s0, OfTxn(PhaseReturns));
    var s1 := Do(parts, s0, OfTxn(PhaseReturns));
    Extend(parts, s1, OfTxn(LogAdd));
    var s2 := Do(parts, s1, OfTxn(LogAdd));
    Extend(parts, s2, OfTxn(LogFlush));
    s := Do(parts, s2, OfTxn(LogFlush));
  }

  /** The recovery worker scans the backends that are left, and finds the prepared branch. */
  lemma {:induction false} ScanAll(parts: set<Backend>, s: State, b: Backend, todo: set<Backend>) returns (s': State)
    requires Reached(parts, s) && OneLeft(parts, s.xa, b) && todo <= parts
    requires s.log == Log(Some(COMMIT), Some(COMMIT), Scanning(todo, if b in todo then {} else {b}))
    ensures Reached(parts, s') && OneLeft(parts, s'.xa, b)
    ensures s'.log == Log(Some(COMMIT), Some(COMMIT), Scanning({}, {b}))
    decreases todo
  {
    if todo == {} {
      s' := s;
    } else {
      var x :| x in todo;
      Extend(parts, s, OfRecovery(Scans(x)));
      s' := Do(parts, s, OfRecovery(Scans(x)));
      assert s'.log.worker.found == if b in todo - {x} then {} else {b};
      s' := ScanAll(parts, s', b, todo - {x});
    }
  }

  /** It has sent COMMIT to that branch again. */
  lemma Resent(parts: set<Backend>, b: Backend) returns (s: State)
    requires b in parts
    ensures Reached(parts, s) && OneLeft(parts, s.xa, b)
    ensures s.log == Log(Some(COMMIT), Some(COMMIT), Sending({}, {b}, Some(b), false))
  {
    var s0 := Logged(parts, b);
    Extend(parts, s0, OfRecovery(Begins));
    var s1 := ScanAll(parts, Do(parts, s0, OfRecovery(Begins)), b, parts);
    Extend(parts, s1, OfRecovery(Scanned));
    var s2 := Do(parts, s1, OfRecovery(Scanned));
    Extend(parts, s2, OfRecovery(Resends(b)));
    s := Do(parts, s2, OfRecovery(Resends(b)));
    assert {b} - {b} == {};
  }

  /** Some run in which any one backend fails reaches the removal of an entry that recovery resolved. */
  lemma ResolutionIsReached(parts: set<Backend>, b: Backend) returns (steps: seq<Step>)
    requires b in parts
    ensures Play(parts, steps).Some?
    ensures var s := Play(parts, steps).value;
      s.log.worker == Removing(true) && s.xa.branch == map x | x in parts :: Committed
  {
    var s0 := Resent(parts, b);
    Extend(parts, s0, OfServer(LateExecutes(b, COMMIT)));
    var s1 := Do(parts, s0, OfServer(LateExecutes(b, COMMIT)));
    assert s1.xa.branch == map x | x in parts :: Committed;
    Extend(parts, s1, OfRecovery(Answered(true)));
    var s2 := Do(parts, s1, OfRecovery(Answered(true)));
    Extend(parts, s2, OfRecovery(RoundEnds(false)));
    var s := Do(parts, s2, OfRecovery(RoundEnds(false)));
    steps :| Play(parts, steps) == Some(s);
  }
}
