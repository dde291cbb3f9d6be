/**
  What every schedule of the two-phase commit machine keeps: atomicity, the order of PREPARE and
  COMMIT, the exclusion of COMMIT and ROLLBACK, the views of readers and the work of recovery.
*/
module XaSafety {
  import opened Prelude
  import opened XaProtocol

  // ----- The invariant -------------------------------------------------------

  predicate NoneCommitted(xa: Xa) {
    forall b | b in xa.branch :: xa.branch[b] != Committed
  }

  predicate AllCommitted(xa: Xa) {
    forall b | b in xa.branch :: xa.branch[b] == Committed
  }

  predicate NotStale(xa: Xa, cmd: Cmd) {
    forall b | b in xa.branch :: (b, cmd) !in xa.stale
  }

  /** The goroutine for b has seen its backend execute the command of this phase. */
  predicate Effective(w: Worker) {
    w.Applied? || w == Done(true)
  }

  predicate Shape(parts: set<Backend>, xa: Xa) {
    && xa.branch.Keys == parts
    && (xa.call.Phase? ==> xa.call.workers.Keys == parts)
    && (forall m | m in xa.stale :: m.0 in parts)
  }

  /** Every branch leaves Active once, so an END phase succeeds everywhere at most once. */
  predicate EndsOnce(xa: Xa) {
    && (xa.ended ==> forall b | b in xa.branch :: PastEnd(xa.branch[b]))
    && (InPhase(xa, END) ==>
          && xa.call.goal != Begin
          && forall b | b in xa.branch && b in xa.call.workers && Effective(xa.call.workers[b]) ::
               PastEnd(xa.branch[b]) && !xa.ended)
    && (InPhase(xa, PREPARE) ==>
          xa.ended && xa.decision.None? && (xa.call.goal == Commit || xa.call.goal == Rollback))
    && (xa.decision.Some? ==> xa.ended && Retries(xa.decision.value))
  }

  /** Commands of the second phase exist only for the decision that was made. */
  predicate OneDecision(xa: Xa) {
    && (LockHeld(xa) ==> xa.decision == Some(xa.call.cmd))
    && (xa.call.WantLock? || xa.call.LogAdding? || xa.call.LogFlushing? ==> xa.decision == Some(xa.call.cmd))
    && (forall m | m in xa.stale && Retries(m.1) :: xa.decision == Some(m.1))
  }

  /** Once COMMIT is decided every branch is prepared or committed. */
  predicate PreparedHolds(xa: Xa) {
    && (InPhase(xa, PREPARE) ==>
          forall b | b in xa.branch && b in xa.call.workers ::
            && (Effective(xa.call.workers[b]) ==> xa.branch[b] == Prepared)
            && (xa.call.workers[b] != Done(false) ==> (b, PREPARE) !in xa.stale))
    && (xa.decision == Some(COMMIT) ==>
          forall b | b in xa.branch :: xa.branch[b] == Prepared || xa.branch[b] == Committed)
    && (xa.decision != Some(COMMIT) ==> NoneCommitted(xa))
    && (!xa.ended || xa.decision.Some? ==> NotStale(xa, PREPARE))
    && (LockHeld(xa) ==>
          forall b | b in xa.branch && b in xa.call.workers && Effective(xa.call.workers[b]) ::
            xa.branch[b] == Target(xa.call.cmd))
  }

  predicate XaInv(parts: set<Backend>, xa: Xa) {
    Shape(parts, xa) && EndsOnce(xa) && OneDecision(xa) && PreparedHolds(xa)
  }

  /** Outside a COMMIT phase, an undamaged commit is visible everywhere or nowhere. */
  predicate AllOrNothing(xa: Xa, torn: bool) {
    && (torn ==> xa.decision == Some(COMMIT))
    && (!torn && !InPhase(xa, COMMIT) ==>
          AllCommitted(xa) || (NoneCommitted(xa) && NotStale(xa, COMMIT)))
    && (xa.call == WantLock(COMMIT) ==> NoneCommitted(xa) && NotStale(xa, COMMIT) && !torn)
    && (xa.call == LogAdding(COMMIT) ==> torn)
  }

  predicate ViewsAgree(xa: Xa, torn: bool, readers: map<nat, Reader>) {
    && (LockHeld(xa) ==> forall r | r in readers :: !readers[r].open)
    && (forall r | r in readers && !readers[r].late ::
          && !(true in readers[r].seen && false in readers[r].seen)
          && (readers[r].open ==>
                && !torn
                && (true in readers[r].seen ==> AllCommitted(xa))
                && (false in readers[r].seen ==> NoneCommitted(xa))))
  }

  /** The log holds the decision, and the worker knows every branch that still waits for it. */
  predicate LogHolds(parts: set<Backend>, xa: Xa, log: Log, torn: bool) {
    && (log.mem.Some? ==> xa.decision == log.mem)
    && (log.disk.Some? ==> xa.decision == log.disk)
    && (log.mem == Some(COMMIT) || log.disk == Some(COMMIT) ==> torn)
    && (xa.call.LogFlushing? ==> log.mem == xa.decision && log.worker.Off?)
    && match log.worker
       case Scanning(todo, found) =>
         && log.mem.Some? && todo <= parts && found <= parts
         && forall b | b in xa.branch && b !in todo && xa.branch[b] == Prepared :: b in found
       case Sending(todo, found, waiting, failed) =>
         && log.mem.Some? && todo <= parts && found <= parts && (waiting.Some? ==> waiting.value in parts)
         && (forall b | b in xa.branch && xa.branch[b] == Prepared :: b in found)
         && (!failed ==> forall b | b in found && b in xa.branch && b !in todo && Some(b) != waiting ::
               xa.branch[b] == Target(log.mem.value))
       case Removing(resolved) =>
         log.mem.Some? && (resolved ==> forall b | b in xa.branch :: xa.branch[b] != Prepared)
       case _ => true
  }

  /** A COMMIT on the wire follows the acknowledged PREPARE of every participant. */
  predicate CommitFollowsPrepare(parts: set<Backend>, history: seq<Event>) {
    forall i, p | 0 <= i < |history| && history[i].Sends? && history[i].cmd == COMMIT && p in parts ::
      Acks(p, PREPARE) in history[..i]
  }

  predicate HistoryHolds(parts: set<Backend>, xa: Xa, history: seq<Event>) {
    && CommitFollowsPrepare(parts, history)
    && (forall e | e in history && e.Sends? && Retries(e.cmd) :: xa.decision == Some(e.cmd))
    && (xa.decision == Some(COMMIT) ==> forall p | p in parts :: Acks(p, PREPARE) in history)
    && (InPhase(xa, PREPARE) ==>
          forall b | b in xa.call.workers && xa.call.workers[b] == Done(true) :: Acks(b, PREPARE) in history)
  }

  predicate Inv(parts: set<Backend>, s: State) {
    && XaInv(parts, s.xa)
    && AllOrNothing(s.xa, s.torn)
    && ViewsAgree(s.xa, s.torn, s.readers)
    && LogHolds(parts, s.xa, s.log, s.torn)
    && HistoryHolds(parts, s.xa, s.history)
  }

  // ----- Every step keeps it ---------------------------------------------------

  lemma WorkerKeepsXa(parts: set<Backend>, xa: Xa, step: WorkerStep)
    requires XaInv(parts, xa) && WorkerEnabled(xa, step)
    ensures XaInv(parts, WorkerDoes(xa, step))
  {
    WorkerKeepsShape(parts, xa, step);
    WorkerKeepsEnds(xa, step);
    WorkerKeepsDecision(xa, step);
    WorkerKeepsPrepared(parts, xa, step);
  }

  lemma WorkerKeepsShape(parts: set<Backend>, xa: Xa, step: WorkerStep)
    requires Shape(parts, xa) && WorkerEnabled(xa, step)
    ensures Shape(parts, WorkerDoes(xa, step))
  {
  }

  lemma WorkerKeepsEnds(xa: Xa, step: WorkerStep)
    requires EndsOnce(xa) && WorkerEnabled(xa, step)
    ensures EndsOnce(WorkerDoes(xa, step))
  {
  }

  lemma WorkerKeepsDecision(xa: Xa, step: WorkerStep)
    requires OneDecision(xa) && WorkerEnabled(xa, step)
    ensures OneDecision(WorkerDoes(xa, step))
  {
  }

  lemma WorkerKeepsPrepared(parts: set<Backend>, xa: Xa, step: WorkerStep)
    requires XaInv(parts, xa) && WorkerEnabled(xa, step)
    ensures PreparedHolds(WorkerDoes(xa, step))
  {
    match step
    case ReplyErr(b, unknownXid) => ErrorKeepsPrepared(parts, xa, b, unknownXid);
    case _ => QuietStepKeepsPrepared(parts, xa, step);
  }

  lemma ErrorKeepsPrepared(parts: set<Backend>, xa: Xa, b: Backend, unknownXid: bool)
    requires XaInv(parts, xa) && WorkerEnabled(xa, ReplyErr(b, unknownXid))
    ensures PreparedHolds(WorkerDoes(xa, ReplyErr(b, unknownXid)))
  {
  }

  lemma QuietStepKeepsPrepared(parts: set<Backend>, xa: Xa, step: WorkerStep)
    requires XaInv(parts, xa) && WorkerEnabled(xa, step) && !step.ReplyErr?
    ensures PreparedHolds(WorkerDoes(xa, step))
  {
  }

  lemma ExecutesKeepsXa(parts: set<Backend>, xa: Xa, b: Backend)
    requires XaInv(parts, xa) && ServerEnabled(xa, Executes(b))
    ensures XaInv(parts, ServerDoes(xa, Executes(b)))
  {
    ExecutesKeepsEnds(parts, xa, b);
    ExecutesKeepsPrepared(parts, xa, b);
  }

  lemma ExecutesKeepsEnds(parts: set<Backend>, xa: Xa, b: Backend)
    requires Shape(parts, xa) && EndsOnce(xa) && OneDecision(xa) && ServerEnabled(xa, Executes(b))
    ensures var xa' := ServerDoes(xa, Executes(b)); Shape(parts, xa') && EndsOnce(xa') && OneDecision(xa')
  {
  }

  lemma ExecutesKeepsPrepared(parts: set<Backend>, xa: Xa, b: Backend)
    requires XaInv(parts, xa) && ServerEnabled(xa, Executes(b))
    ensures PreparedHolds(ServerDoes(xa, Executes(b)))
  {
  }

  lemma LateExecutesKeepsXa(parts: set<Backend>, xa: Xa, b: Backend, cmd: Cmd)
    requires XaInv(parts, xa) && ServerEnabled(xa, LateExecutes(b, cmd))
    ensures XaInv(parts, ServerDoes(xa, LateExecutes(b, cmd)))
  {
  }

  lemma DisconnectsKeepsXa(parts: set<Backend>, xa: Xa, b: Backend)
    requires XaInv(parts, xa) && ServerEnabled(xa, Disconnects(b))
    ensures XaInv(parts, ServerDoes(xa, Disconnects(b)))
  {
  }

  lemma ServerKeepsXa(parts: set<Backend>, xa: Xa, step: ServerStep)
    requires XaInv(parts, xa) && ServerEnabled(xa, step)
    ensures XaInv(parts, ServerDoes(xa, step))
  {
    match step
    case Executes(b) => ExecutesKeepsXa(parts, xa, b);
    case LateExecutes(b, cmd) => LateExecutesKeepsXa(parts, xa, b, cmd);
    case Disconnects(b) => DisconnectsKeepsXa(parts, xa, b);
  }

  /** A call that ends without a decision leaves the branches and their commands alone. */
  lemma QuietKeepsXa(parts: set<Backend>, xa: Xa, call: Call)
    requires XaInv(parts, xa)
    requires call.NoCall? || (xa.decision.Some? && call == LogFlushing(xa.decision.value))
    ensures XaInv(parts, xa.(call := call))
  {
  }

  lemma EndReturnsKeepsXa(parts: set<Backend>, xa: Xa)
    requires parts != {} && XaInv(parts, xa) && InPhase(xa, END) && AllDone(xa.call.workers)
    ensures XaInv(parts, AfterPhase(parts, xa))
  {
    if !AllOk(xa.call.workers) {
      QuietKeepsXa(parts, xa, NoCall);
    } else {
      EndFindsNotEnded(parts, xa);
      EndSuccessKeepsXa(parts, xa);
    }
  }

  lemma EndSuccessKeepsXa(parts: set<Backend>, xa: Xa)
    requires XaInv(parts, xa) && InPhase(xa, END) && AllOk(xa.call.workers) && !xa.ended
    ensures XaInv(parts, AfterPhase(parts, xa))
  {
    EndSuccessEnds(parts, xa);
    EndSuccessKeepsPrepared(parts, xa);
  }

  lemma EndSuccessKeepsPrepared(parts: set<Backend>, xa: Xa)
    requires XaInv(parts, xa) && InPhase(xa, END) && AllOk(xa.call.workers) && !xa.ended
    ensures PreparedHolds(AfterPhase(parts, xa))
  {
  }

  lemma EndSuccessEnds(parts: set<Backend>, xa: Xa)
    requires XaInv(parts, xa) && InPhase(xa, END) && AllOk(xa.call.workers)
    ensures forall b | b in xa.branch :: PastEnd(xa.branch[b])
  {
    assert forall b | b in parts :: Effective(xa.call.workers[b]);
  }

  /** When an END phase succeeds everywhere no earlier one did. */
  lemma EndFindsNotEnded(parts: set<Backend>, xa: Xa)
    requires parts != {} && XaInv(parts, xa) && InPhase(xa, END) && AllOk(xa.call.workers)
    ensures !xa.ended && xa.decision.None?
  {
    var b :| b in parts;
    assert Effective(xa.call.workers[b]);
  }

  lemma PrepareReturnsKeepsXa(parts: set<Backend>, xa: Xa)
    requires parts != {} && XaInv(parts, xa) && InPhase(xa, PREPARE) && AllDone(xa.call.workers)
    ensures XaInv(parts, AfterPhase(parts, xa))
  {
  }

  lemma PhaseKeepsXa(parts: set<Backend>, xa: Xa)
    requires parts != {} && XaInv(parts, xa) && xa.call.Phase? && AllDone(xa.call.workers)
    ensures XaInv(parts, AfterPhase(parts, xa))
  {
    match xa.call.cmd
    case END => EndReturnsKeepsXa(parts, xa);
    case PREPARE => PrepareReturnsKeepsXa(parts, xa);
    case _ =>
  }

  lemma WorkerKeeps(parts: set<Backend>, s: State, step: WorkerStep)
    requires Inv(parts, s) && WorkerEnabled(s.xa, step)
    ensures Inv(parts, Do(parts, s, OfWorker(step)))
  {
    WorkerKeepsXa(parts, s.xa, step);
    WorkerKeepsViews(parts, s, step);
    WorkerKeepsHistory(parts, s.xa, s.history, step);
  }

  lemma WorkerKeepsViews(parts: set<Backend>, s: State, step: WorkerStep)
    requires XaInv(parts, s.xa) && WorkerEnabled(s.xa, step) && AllOrNothing(s.xa, s.torn)
    requires ViewsAgree(s.xa, s.torn, s.readers) && LogHolds(parts, s.xa, s.log, s.torn)
    ensures var xa := WorkerDoes(s.xa, step);
            AllOrNothing(xa, s.torn) && ViewsAgree(xa, s.torn, s.readers) && LogHolds(parts, xa, s.log, s.torn)
  {
  }

  lemma WorkerKeepsHistory(parts: set<Backend>, xa: Xa, history: seq<Event>, step: WorkerStep)
    requires XaInv(parts, xa) && HistoryHolds(parts, xa, history) && WorkerEnabled(xa, step)
    ensures HistoryHolds(parts, WorkerDoes(xa, step), history + WorkerSays(xa, step))
  {
    if WorkerSays(xa, step) == [] {
      assert history + WorkerSays(xa, step) == history;
    } else {
      HistoryGrows(parts, history, WorkerSays(xa, step)[0]);
    }
  }

  lemma ServerKeeps(parts: set<Backend>, s: State, step: ServerStep)
    requires Inv(parts, s) && ServerEnabled(s.xa, step)
    ensures Inv(parts, Do(parts, s, OfServer(step)))
  {
    ServerKeepsXa(parts, s.xa, step);
    ServerKeepsViews(parts, s, step);
    ServerKeepsLog(parts, s.xa, s.log, s.torn, step);
  }

  lemma ServerKeepsViews(parts: set<Backend>, s: State, step: ServerStep)
    requires XaInv(parts, s.xa) && ServerEnabled(s.xa, step)
    requires AllOrNothing(s.xa, s.torn) && ViewsAgree(s.xa, s.torn, s.readers)
    ensures AllOrNothing(ServerDoes(s.xa, step), s.torn) && ViewsAgree(ServerDoes(s.xa, step), s.torn, s.readers)
  {
  }

  lemma ServerKeepsLog(parts: set<Backend>, xa: Xa, log: Log, torn: bool, step: ServerStep)
    requires XaInv(parts, xa) && ServerEnabled(xa, step) && LogHolds(parts, xa, log, torn)
    ensures LogHolds(parts, ServerDoes(xa, step), log, torn)
  {
  }

  lemma PhaseReturnsKeeps(parts: set<Backend>, s: State)
    requires parts != {} && Inv(parts, s) && TxnEnabled(s, PhaseReturns)
    ensures Inv(parts, TxnDoes(parts, s, PhaseReturns))
  {
    PhaseKeepsXa(parts, s.xa);
    PhaseKeepsViews(parts, s);
    PhaseKeepsRest(parts, s);
  }

  lemma PhaseKeepsViews(parts: set<Backend>, s: State)
    requires parts != {} && XaInv(parts, s.xa) && TxnEnabled(s, PhaseReturns)
    requires AllOrNothing(s.xa, s.torn) && ViewsAgree(s.xa, s.torn, s.readers)
    ensures var s' := TxnDoes(parts, s, PhaseReturns);
            AllOrNothing(s'.xa, s'.torn) && ViewsAgree(s'.xa, s'.torn, s'.readers)
  {
    PhaseKeepsAllOrNothing(parts, s);
  }

  lemma PhaseKeepsAllOrNothing(parts: set<Backend>, s: State)
    requires parts != {} && XaInv(parts, s.xa) && TxnEnabled(s, PhaseReturns) && AllOrNothing(s.xa, s.torn)
    ensures var s' := TxnDoes(parts, s, PhaseReturns); AllOrNothing(s'.xa, s'.torn)
  {
  }

  lemma PhaseKeepsRest(parts: set<Backend>, s: State)
    requires parts != {} && XaInv(parts, s.xa) && TxnEnabled(s, PhaseReturns)
    requires LogHolds(parts, s.xa, s.log, s.torn) && HistoryHolds(parts, s.xa, s.history)
    ensures var s' := TxnDoes(parts, s, PhaseReturns);
            LogHolds(parts, s'.xa, s'.log, s'.torn) && HistoryHolds(parts, s'.xa, s'.history)
  {
    PhaseKeepsLog(parts, s);
  }

  lemma PhaseKeepsLog(parts: set<Backend>, s: State)
    requires parts != {} && XaInv(parts, s.xa) && TxnEnabled(s, PhaseReturns) && LogHolds(parts, s.xa, s.log, s.torn)
    ensures var s' := TxnDoes(parts, s, PhaseReturns); LogHolds(parts, s'.xa, s'.log, s'.torn)
  {
  }

  lemma InvokeKeeps(parts: set<Backend>, s: State, goal: Goal)
    requires Inv(parts, s) && TxnEnabled(s, Invoke(goal))
    ensures Inv(parts, TxnDoes(parts, s, Invoke(goal)))
  {
  }

  lemma TakeLockKeeps(parts: set<Backend>, s: State)
    requires Inv(parts, s) && TxnEnabled(s, TakeLock)
    ensures Inv(parts, TxnDoes(parts, s, TakeLock))
  {
  }

  lemma LogKeeps(parts: set<Backend>, s: State, step: TxnStep)
    requires Inv(parts, s) && TxnEnabled(s, step) && (step.LogAdd? || step.LogFlush?)
    ensures Inv(parts, TxnDoes(parts, s, step))
  {
    QuietKeepsXa(parts, s.xa, TxnDoes(parts, s, step).xa.call);
  }

  lemma ReadKeeps(parts: set<Backend>, s: State, step: ReadStep)
    requires parts != {} && Inv(parts, s) && ReadEnabled(s, step)
    ensures Inv(parts, Do(parts, s, OfReader(step)))
  {
  }

  lemma RecoveryKeeps(parts: set<Backend>, s: State, step: RecoveryStep)
    requires Inv(parts, s) && RecoveryEnabled(s.xa, s.log, step)
    ensures Inv(parts, Do(parts, s, OfRecovery(step)))
  {
    var xa' := s.xa.(stale := s.xa.stale + Resent(s.xa, s.log, step));
    if step.Resends? {
      ResendKeeps(parts, s, step.b);
    } else {
      assert xa' == s.xa;
      WorkerKeepsLog(parts, s.xa, s.log, s.torn, step);
    }
  }

  lemma WorkerKeepsLog(parts: set<Backend>, xa: Xa, log: Log, torn: bool, step: RecoveryStep)
    requires XaInv(parts, xa) && RecoveryEnabled(xa, log, step) && LogHolds(parts, xa, log, torn) && !step.Resends?
    ensures LogHolds(parts, xa, RecoveryDoes(parts, xa, log, step), torn)
  {
  }

  lemma ResendKeeps(parts: set<Backend>, s: State, b: Backend)
    requires Inv(parts, s) && RecoveryEnabled(s.xa, s.log, Resends(b))
    ensures Inv(parts, Do(parts, s, OfRecovery(Resends(b))))
  {
    ResendKeepsXa(parts, s.xa, b, s.log.mem.value);
    HistoryGrows(parts, s.history, Sends(b, s.log.mem.value));
  }

  lemma ResendKeepsXa(parts: set<Backend>, xa: Xa, b: Backend, cmd: Cmd)
    requires XaInv(parts, xa) && b in parts && xa.decision == Some(cmd)
    ensures XaInv(parts, xa.(stale := xa.stale + {(b, cmd)}))
  {
  }

  lemma CrashKeeps(parts: set<Backend>, s: State)
    requires Inv(parts, s)
    ensures Inv(parts, CrashDoes(s))
  {
  }

  lemma HistoryGrows(parts: set<Backend>, history: seq<Event>, e: Event)
    requires CommitFollowsPrepare(parts, history)
    requires e.Sends? && e.cmd == COMMIT ==> forall p | p in parts :: Acks(p, PREPARE) in history
    ensures CommitFollowsPrepare(parts, history + [e])
  {
    forall i, p | 0 <= i < |history + [e]| && (history + [e])[i].Sends? && (history + [e])[i].cmd == COMMIT &&
      p in parts
      ensures Acks(p, PREPARE) in (history + [e])[..i]
    {
      assert (history + [e])[..i] == if i <= |history| then history[..i] else history + [e];
      if i == |history| {
        assert history[..i] == history;
      }
    }
  }

  lemma StepKeeps(parts: set<Backend>, s: State, step: Step)
    requires parts != {} && Inv(parts, s) && Enabled(s, step)
    ensures Inv(parts, Do(parts, s, step))
  {
    match step
    case OfWorker(w) => WorkerKeeps(parts, s, w);
    case OfTxn(t) =>
      match t {
        case Invoke(goal) => InvokeKeeps(parts, s, goal);
        case PhaseReturns => PhaseReturnsKeeps(parts, s);
        case TakeLock => TakeLockKeeps(parts, s);
        case _ => LogKeeps(parts, s, t);
      }
    case OfServer(v) => ServerKeeps(parts, s, v);
    case OfReader(e) => ReadKeeps(parts, s, e);
    case OfRecovery(y) => RecoveryKeeps(parts, s, y);
    case Crash => CrashKeeps(parts, s);
  }

  lemma {:induction false} EveryRunKeepsInv(parts: set<Backend>, steps: seq<Step>)
    requires parts != {} && Play(parts, steps).Some?
    ensures Inv(parts, Play(parts, steps).value)
  {
    if steps != [] {
      var before := steps[..|steps| - 1];
      EveryRunKeepsInv(parts, before);
      StepKeeps(parts, Play(parts, before).value, steps[|steps| - 1]);
    }
  }

  // ----- Theorems about every run ----------------------------------------------

  /** Step i of the run is the return of an END phase that succeeded everywhere. */
  ghost predicate EndsAt(parts: set<Backend>, steps: seq<Step>, i: nat) {
    && i < |steps| && steps[i] == OfTxn(PhaseReturns) && Play(parts, steps[..i]).Some?
    && var xa := Play(parts, steps[..i]).value.xa; InPhase(xa, END) && AllOk(xa.call.workers)
  }

  lemma TxnKeepsEnded(parts: set<Backend>, s: State, step: TxnStep)
    requires TxnEnabled(s, step) && s.xa.ended
    ensures TxnDoes(parts, s, step).xa.ended
  {
  }

  lemma StepKeepsEnded(parts: set<Backend>, s: State, step: Step)
    requires Enabled(s, step) && s.xa.ended
    ensures Do(parts, s, step).xa.ended
  {
    match step
    case OfTxn(t) => TxnKeepsEnded(parts, s, t);
    case _ =>
  }

  lemma EndEnds(parts: set<Backend>, s: State)
    requires InPhase(s.xa, END) && AllOk(s.xa.call.workers)
    ensures TxnEnabled(s, PhaseReturns) && TxnDoes(parts, s, PhaseReturns).xa.ended
  {
  }

  lemma {:induction false} EndedStays(parts: set<Backend>, steps: seq<Step>, i: nat, j: nat)
    requires EndsAt(parts, steps, i) && i < j <= |steps| && Play(parts, steps[..j]).Some?
    ensures Play(parts, steps[..j]).value.xa.ended
  {
    assert steps[..j][..j - 1] == steps[..j - 1];
    var s := Play(parts, steps[..j - 1]).value;
    if i < j - 1 {
      EndedStays(parts, steps, i, j - 1);
      StepKeepsEnded(parts, s, steps[j - 1]);
    } else {
      EndEnds(parts, s);
    }
  }

  /** In every run at most one END phase succeeds everywhere, so at most one decision is made. */
  lemma EndSucceedsOnce(parts: set<Backend>, steps: seq<Step>, i: nat, j: nat)
    requires parts != {} && EndsAt(parts, steps, i) && EndsAt(parts, steps, j)
    ensures i == j
  {
    if i < j {
      EndsLater(parts, steps, i, j);
    } else if j < i {
      EndsLater(parts, steps, j, i);
    }
  }

  lemma EndsLater(parts: set<Backend>, steps: seq<Step>, i: nat, j: nat)
    requires parts != {} && EndsAt(parts, steps, i) && i < j <= |steps|
    ensures !EndsAt(parts, steps, j)
  {
    if EndsAt(parts, steps, j) {
      EndedStays(parts, steps, i, j);
      EveryRunKeepsInv(parts, steps[..j]);
      EndFindsNotEnded(parts, Play(parts, steps[..j]).value.xa);
    }
  }

  /** In no run is one branch committed and another one rolled back. */
  lemma AtomicCommitment(parts: set<Backend>, steps: seq<Step>, b1: Backend, b2: Backend)
    requires b1 in parts && b2 in parts && Play(parts, steps).Some?
    ensures var branch := Play(parts, steps).value.xa.branch;
            b1 in branch && b2 in branch && !(branch[b1] == Committed && branch[b2] == RolledBack)
  {
    EveryRunKeepsInv(parts, steps);
  }

  /** XA COMMIT is sent only after every participant acknowledged PREPARE, and never together with XA ROLLBACK. */
  lemma CommitOnlyAfterAllPrepared(parts: set<Backend>, steps: seq<Step>)
    requires parts != {} && Play(parts, steps).Some?
    ensures var history := Play(parts, steps).value.history;
            && (forall i, p | 0 <= i < |history| && history[i].Sends? && history[i].cmd == COMMIT && p in parts ::
                  Acks(p, PREPARE) in history[..i])
            && (forall b, b' :: !(Sends(b, COMMIT) in history && Sends(b', ROLLBACK) in history))
  {
    EveryRunKeepsInv(parts, steps);
  }

  /** A COMMIT phase that returns no error has committed every branch. */
  lemma CommitPhaseCommitsAll(parts: set<Backend>, steps: seq<Step>)
    requires parts != {} && Play(parts, steps).Some?
    requires var xa := Play(parts, steps).value.xa; InPhase(xa, COMMIT) && AllOk(xa.call.workers)
    ensures AllCommitted(Play(parts, steps).value.xa)
  {
    EveryRunKeepsInv(parts, steps);
    var xa := Play(parts, steps).value.xa;
    assert forall b | b in xa.branch :: Effective(xa.call.workers[b]);
  }

  lemma StepKeepsOutcome(parts: set<Backend>, s: State, step: Step, b: Backend)
    requires Enabled(s, step) && b in s.xa.branch
    ensures var branch := Do(parts, s, step).xa.branch;
            b in branch && (s.xa.branch[b] == Committed || s.xa.branch[b] == RolledBack ==> branch[b] == s.xa.branch[b])
  {
    match step
    case OfTxn(t) => TxnKeepsBranches(parts, s, t);
    case _ =>
  }

  lemma TxnKeepsBranches(parts: set<Backend>, s: State, step: TxnStep)
    requires TxnEnabled(s, step)
    ensures TxnDoes(parts, s, step).xa.branch == s.xa.branch
  {
  }

  /** A branch that is committed or rolled back stays so in every continuation of the run. */
  lemma {:induction false} OutcomeIsFinal(parts: set<Backend>, steps: seq<Step>, more: seq<Step>, b: Backend)
    requires b in parts && Play(parts, steps + more).Some?
    ensures Play(parts, steps).Some?
    ensures var before, after := Play(parts, steps).value.xa.branch, Play(parts, steps + more).value.xa.branch;
            && b in before && b in after
            && (before[b] == Committed || before[b] == RolledBack ==> after[b] == before[b])
  {
    if more == [] {
      assert steps + more == steps;
      EveryRunKeepsInv(parts, steps);
    } else {
      var shorter := more[..|more| - 1];
      assert (steps + more)[..|steps + more| - 1] == steps + shorter;
      OutcomeIsFinal(parts, steps, shorter, b);
      StepKeepsOutcome(parts, Play(parts, steps + shorter).value, more[|more| - 1], b);
    }
  }

  /** Once one branch is committed, no branch is ever rolled back, whatever happens next. */
  lemma CommitIsNeverUndone(parts: set<Backend>, steps: seq<Step>, more: seq<Step>, b1: Backend, b2: Backend)
    requires b1 in parts && b2 in parts && Play(parts, steps + more).Some? && Play(parts, steps).Some?
    requires b1 in Play(parts, steps).value.xa.branch && Play(parts, steps).value.xa.branch[b1] == Committed
    ensures var branch := Play(parts, steps + more).value.xa.branch;
            b2 in branch && (branch[b2] == Prepared || branch[b2] == Committed)
  {
    OutcomeIsFinal(parts, steps, more, b1);
    EveryRunKeepsInv(parts, steps + more);
  }

  /**
    A reader that began before the COMMIT phase failed or was cut short saw the write on all the
    participants it asked or on none of them.
  */
  lemma ReadersSeeAllOrNothing(parts: set<Backend>, steps: seq<Step>, r: nat)
    requires parts != {} && Play(parts, steps).Some?
    requires r in Play(parts, steps).value.readers && !Play(parts, steps).value.readers[r].late
    ensures forall x, y | x in Play(parts, steps).value.readers[r].seen &&
      y in Play(parts, steps).value.readers[r].seen ::
              x == y
  {
    EveryRunKeepsInv(parts, steps);
  }

  /**
    An entry that recovery removes as resolved leaves no branch in doubt: all are committed for a
    COMMIT entry, none is prepared or committed for a ROLLBACK entry.
  */
  lemma RecoveryResolves(parts: set<Backend>, steps: seq<Step>)
    requires parts != {} && Play(parts, steps).Some?
    requires Play(parts, steps).value.log.worker == Removing(true)
    ensures var s := Play(parts, steps).value;
            && s.log.mem.Some?
            && (s.log.mem.value == COMMIT ==> AllCommitted(s.xa))
            && (s.log.mem.value == ROLLBACK ==>
                  forall b | b in s.xa.branch :: s.xa.branch[b] != Prepared && s.xa.branch[b] != Committed)
  {
    EveryRunKeepsInv(parts, steps);
  }

  // ----- Bounded retries ---------------------------------------------------------

  /** A goroutine makes at most XA_MAX_RETRY attempts, and only one outside COMMIT and ROLLBACK. */
  predicate TriesBounded(xa: Xa) {
    xa.call.Phase? ==> forall b | b in xa.call.workers && !xa.call.workers[b].Done? ::
      xa.call.workers[b].tries < (if Retries(xa.call.cmd) then XA_MAX_RETRY else 1)
  }

  lemma StepKeepsTries(parts: set<Backend>, s: State, step: Step)
    requires Enabled(s, step) && TriesBounded(s.xa)
    ensures TriesBounded(Do(parts, s, step).xa)
  {
    match step
    case OfTxn(t) => TxnKeepsTries(parts, s, t);
    case OfWorker(w) => WorkerKeepsTries(s.xa, w);
    case _ =>
  }

  lemma WorkerKeepsTries(xa: Xa, step: WorkerStep)
    requires WorkerEnabled(xa, step) && TriesBounded(xa)
    ensures TriesBounded(WorkerDoes(xa, step))
  {
  }

  lemma TxnKeepsTries(parts: set<Backend>, s: State, step: TxnStep)
    requires TxnEnabled(s, step) && TriesBounded(s.xa)
    ensures TriesBounded(TxnDoes(parts, s, step).xa)
  {
  }

  lemma {:induction false} RetriesAreBounded(parts: set<Backend>, steps: seq<Step>)
    requires Play(parts, steps).Some?
    ensures TriesBounded(Play(parts, steps).value.xa)
  {
    if steps != [] {
      var before := steps[..|steps| - 1];
      RetriesAreBounded(parts, before);
      StepKeepsTries(parts, Play(parts, before).value, steps[|steps| - 1]);
    }
  }
}
