/**
  Two-phase commit of one distributed transaction, as the steps of
    - the coordinator (`Txn`): one goroutine per backend in every XA phase, a bounded retry
      loop for COMMIT and ROLLBACK, the commit lock, and the entry it leaves in the recovery log;
    - the backends: the XA state table, commands whose outcome is unknown to the coordinator,
      connections that break at any moment;
    - single-statement readers, which hold the commit lock shared;
    - the recovery worker, and crashes of the proxy.
  The caller may issue Commit, Rollback and RollbackPhaseOne in any order and any number of
  times, which covers every call order of the single-statement and multi-statement paths.
*/
module XaProtocol {
  import opened Prelude

  type Backend = string

  /** Attempts of one goroutine in the COMMIT and ROLLBACK phases. */
  const XA_MAX_RETRY: nat := 10

  // ----- Backends ------------------------------------------------------------

  datatype Branch = NonExistent | Active | Idle | Prepared | Committed | RolledBack

  datatype Cmd = START | END | PREPARE | COMMIT | ROLLBACK

  /** The XA state table: what a backend does with a command, or None when it refuses it. */
  function Transition(branch: Branch, cmd: Cmd): Option<Branch> {
    match (branch, cmd)
    case (NonExistent, START) => Some(Active)
    case (Active, END) => Some(Idle)
    case (Idle, PREPARE) => Some(Prepared)
    case (Idle, ROLLBACK) => Some(RolledBack)
    case (Prepared, ROLLBACK) => Some(RolledBack)
    case (Prepared, COMMIT) => Some(Committed)
    case _ => None
  }

  predicate PastEnd(branch: Branch) {
    branch != NonExistent && branch != Active
  }

  // ----- Coordinator ---------------------------------------------------------

  /** The public operations of a transaction that run XA phases. */
  datatype Goal = Begin | Commit | Rollback | RollbackPhaseOne

  /** One goroutine of an XA phase. */
  datatype Worker = Ready(tries: nat) | Sent(tries: nat) | Applied(tries: nat) | Done(ok: bool)

  datatype Call =
    | NoCall
    | Phase(cmd: Cmd, goal: Goal, workers: map<Backend, Worker>)
    | WantLock(cmd: Cmd)
    | LogAdding(cmd: Cmd)
    | LogFlushing(cmd: Cmd)

  datatype Reader = Reader(seen: set<bool>, open: bool, late: bool)

  datatype Recovery =
    | Off
    | Scanning(todo: set<Backend>, found: set<Backend>)
    | Sending(todo: set<Backend>, found: set<Backend>, waiting: Option<Backend>, failed: bool)
    | Removing(resolved: bool)
    | Flushing

  datatype Event = Sends(b: Backend, cmd: Cmd) | Acks(b: Backend, cmd: Cmd)

  /**
    The transaction and its branches. `stale` holds the commands that were reported as failed: the
    backend may still execute them at any later time. `ended` and `decision` record the past and never
    guide a step: an END phase returned no error; the outcome that was then chosen.
  */
  datatype Xa = Xa(
    branch: map<Backend, Branch>,
    stale: set<(Backend, Cmd)>,
    call: Call,
    started: bool,
    dead: bool,
    ended: bool,
    decision: Option<Cmd>)

  /** The recovery log, in memory and on disk, and the worker that empties it. */
  datatype Log = Log(mem: Option<Cmd>, disk: Option<Cmd>, worker: Recovery)

  /** `torn` records that the COMMIT phase failed or was cut short; `history` holds the messages sent. */
  datatype State = State(xa: Xa, log: Log, readers: map<nat, Reader>, torn: bool, history: seq<Event>)

  function InitState(parts: set<Backend>): State {
    State(Xa(map b | b in parts :: NonExistent, {}, NoCall, false, false, false, None),
          Log(None, None, Off), map[], false, [])
  }

  /** Steps of the coordinator's goroutines. */
  datatype WorkerStep =
    | FetchFails(b: Backend)
    | Send(b: Backend)
    | ReplyOk(b: Backend)
    | ReplyErr(b: Backend, unknownXid: bool)

  /** Steps of the transaction's own control flow. */
  datatype TxnStep = Invoke(goal: Goal) | PhaseReturns | TakeLock | LogAdd | LogFlush

  /** Steps of the backends: run the command of a goroutine, run a stale one, lose a connection. */
  datatype ServerStep = Executes(b: Backend) | LateExecutes(b: Backend, cmd: Cmd) | Disconnects(b: Backend)

  datatype ReadStep = ReadBegins(r: nat) | ReadSees(r: nat, b: Backend) | ReadEnds(r: nat)

  datatype RecoveryStep =
    | Begins
    | Scans(b: Backend)
    | ScanFails
    | Scanned
    | Resends(b: Backend)
    | Answered(ok: bool)
    | RoundEnds(timesOut: bool)
    | Removes
    | Flushes

  datatype Step =
    | OfWorker(w: WorkerStep)
    | OfTxn(t: TxnStep)
    | OfServer(v: ServerStep)
    | OfReader(e: ReadStep)
    | OfRecovery(y: RecoveryStep)
    | Crash

  predicate Retries(cmd: Cmd) { cmd == COMMIT || cmd == ROLLBACK }

  /** The commit lock is held exclusively exactly during the COMMIT and ROLLBACK phases. */
  predicate LockHeld(xa: Xa) {
    xa.call.Phase? && Retries(xa.call.cmd)
  }

  predicate InPhase(xa: Xa, cmd: Cmd) {
    xa.call.Phase? && xa.call.cmd == cmd
  }

  predicate AllDone(workers: map<Backend, Worker>) {
    forall b | b in workers :: workers[b].Done?
  }

  predicate AllOk(workers: map<Backend, Worker>) {
    forall b | b in workers :: workers[b] == Done(true)
  }

  function Target(cmd: Cmd): Branch {
    if cmd == COMMIT then Committed else RolledBack
  }

  // ----- Goroutines of a phase ------------------------------------------------

  predicate WorkerEnabled(xa: Xa, step: WorkerStep) {
    && xa.call.Phase?
    && step.b in xa.call.workers
    && match step
       case FetchFails(b) => xa.call.workers[b].Ready?
       case Send(b) => xa.call.workers[b].Ready?
       case ReplyOk(b) => xa.call.workers[b].Applied?
       case ReplyErr(b, unknownXid) => xa.call.workers[b].Sent? || xa.call.workers[b].Applied?
  }

  function SetWorker(xa: Xa, b: Backend, w: Worker): Xa
    requires xa.call.Phase?
  {
    xa.(call := xa.call.(workers := xa.call.workers[b := w]))
  }

  /** What a goroutine does after a failed attempt: only COMMIT and ROLLBACK try again. */
  function AfterFailure(cmd: Cmd, tries: nat, giveUp: bool): Worker {
    if !Retries(cmd) || giveUp || tries + 1 >= XA_MAX_RETRY then Done(false) else Ready(tries + 1)
  }

  function WorkerDoes(xa: Xa, step: WorkerStep): Xa
    requires WorkerEnabled(xa, step)
  {
    match step
    case FetchFails(b) => SetWorker(xa, b, AfterFailure(xa.call.cmd, xa.call.workers[b].tries, false))
    case Send(b) => SetWorker(xa, b, Sent(xa.call.workers[b].tries))
    case ReplyOk(b) => SetWorker(xa, b, Done(true))
    case ReplyErr(b, unknownXid) =>
      SetWorker(xa, b, AfterFailure(xa.call.cmd, xa.call.workers[b].tries, unknownXid)).(
        stale := xa.stale + {(b, xa.call.cmd)})
  }

  function WorkerSays(xa: Xa, step: WorkerStep): seq<Event>
    requires WorkerEnabled(xa, step)
  {
    match step
    case Send(b) => [Sends(b, xa.call.cmd)]
    case ReplyOk(b) => [Acks(b, xa.call.cmd)]
    case _ => []
  }

  // ----- Control flow of the transaction --------------------------------------

  predicate TxnEnabled(s: State, step: TxnStep) {
    match step
    case Invoke(goal) => s.xa.call.NoCall? && !s.xa.dead && (goal == Begin ==> !s.xa.started)
    case PhaseReturns => s.xa.call.Phase? && AllDone(s.xa.call.workers)
    case TakeLock => s.xa.call.WantLock? && forall r | r in s.readers :: !s.readers[r].open
    case LogAdd => s.xa.call.LogAdding? && s.log.worker.Off?
    case LogFlush => s.xa.call.LogFlushing?
  }

  function StartPhase(parts: set<Backend>, xa: Xa, cmd: Cmd, goal: Goal): Xa {
    xa.(call := Phase(cmd, goal, map b | b in parts :: Ready(0)))
  }

  function Decide(xa: Xa, cmd: Cmd): Xa {
    xa.(call := WantLock(cmd), decision := Some(cmd))
  }

  /** `eg.Wait()` returned: how Commit, Rollback and RollbackPhaseOne go on. */
  function AfterPhase(parts: set<Backend>, xa: Xa): Xa
    requires xa.call.Phase?
  {
    var ok := AllOk(xa.call.workers);
    match xa.call.cmd
    case START => xa.(call := NoCall)
    case END =>
      if !ok then xa.(call := NoCall)
      else if xa.call.goal == RollbackPhaseOne then Decide(xa.(ended := true), ROLLBACK)
      else StartPhase(parts, xa.(ended := true), PREPARE, xa.call.goal)
    case PREPARE =>
      if !ok then xa.(call := NoCall)
      else Decide(xa, if xa.call.goal == Commit then COMMIT else ROLLBACK)
    case _ => xa.(call := if ok then NoCall else LogAdding(xa.call.cmd))
  }

  function TxnDoes(parts: set<Backend>, s: State, step: TxnStep): State
    requires TxnEnabled(s, step)
  {
    match step
    case Invoke(goal) =>
      s.(xa := if goal == Begin then StartPhase(parts, s.xa.(started := true), START, goal)
               else StartPhase(parts, s.xa, END, goal))
    case PhaseReturns =>
      s.(xa := AfterPhase(parts, s.xa), torn := s.torn || (InPhase(s.xa, COMMIT) && !AllOk(s.xa.call.workers)))
    case TakeLock => s.(xa := StartPhase(parts, s.xa, s.xa.call.cmd, Begin))
    case LogAdd =>
      if s.log.mem.Some? then s.(xa := s.xa.(call := NoCall))
      else s.(log := s.log.(mem := Some(s.xa.call.cmd)), xa := s.xa.(call := LogFlushing(s.xa.call.cmd)))
    case LogFlush => s.(log := s.log.(disk := s.log.mem), xa := s.xa.(call := NoCall))
  }

  // ----- Backends --------------------------------------------------------------

  predicate ServerEnabled(xa: Xa, step: ServerStep) {
    && step.b in xa.branch
    && match step
       case Executes(b) =>
         && xa.call.Phase? && b in xa.call.workers && xa.call.workers[b].Sent?
         && Transition(xa.branch[b], xa.call.cmd).Some?
       case LateExecutes(b, cmd) => (b, cmd) in xa.stale && Transition(xa.branch[b], cmd).Some?
       case Disconnects(b) => xa.branch[b].Active? || xa.branch[b].Idle?
  }

  function ServerDoes(xa: Xa, step: ServerStep): Xa
    requires ServerEnabled(xa, step)
  {
    match step
    case Executes(b) =>
      SetWorker(xa, b, Applied(xa.call.workers[b].tries)).(
        branch := xa.branch[b := Transition(xa.branch[b], xa.call.cmd).value])
    case LateExecutes(b, cmd) => xa.(branch := xa.branch[b := Transition(xa.branch[b], cmd).value])
    case Disconnects(b) => xa.(branch := xa.branch[b := RolledBack])
  }

  // ----- Readers ---------------------------------------------------------------

  predicate ReadEnabled(s: State, step: ReadStep) {
    match step
    case ReadBegins(r) => r !in s.readers && !LockHeld(s.xa)
    case ReadSees(r, b) => r in s.readers && s.readers[r].open && b in s.xa.branch
    case ReadEnds(r) => r in s.readers && s.readers[r].open
  }

  function ReadDoes(s: State, step: ReadStep): map<nat, Reader>
    requires ReadEnabled(s, step)
  {
    match step
    case ReadBegins(r) => s.readers[r := Reader({}, true, s.torn)]
    case ReadSees(r, b) =>
      s.readers[r := s.readers[r].(seen := s.readers[r].seen + {s.xa.branch[b].Committed?})]
    case ReadEnds(r) => s.readers[r := s.readers[r].(open := false)]
  }

  // ----- Recovery --------------------------------------------------------------

  /** The log is guarded by one mutex, which LogAdd and LogFlush hold together. */
  predicate RecoveryEnabled(xa: Xa, log: Log, step: RecoveryStep) {
    match step
    case Begins => log.worker.Off? && log.mem.Some? && !xa.call.LogFlushing?
    case Scans(b) => log.worker.Scanning? && b in log.worker.todo && b in xa.branch
    case ScanFails => log.worker.Scanning?
    case Scanned => log.worker.Scanning? && log.worker.todo == {}
    case Resends(b) => log.worker.Sending? && log.worker.waiting.None? && b in log.worker.todo && log.mem.Some?
    case Answered(ok) =>
      && log.worker.Sending? && log.worker.waiting.Some? && log.mem.Some?
      && (ok ==> log.worker.waiting.value in xa.branch && xa.branch[log.worker.waiting.value] == Target(log.mem.value))
    case RoundEnds(timesOut) => log.worker.Sending? && log.worker.todo == {} && log.worker.waiting.None?
    case Removes => log.worker.Removing?
    case Flushes => log.worker.Flushing?
  }

  function RecoveryDoes(parts: set<Backend>, xa: Xa, log: Log, step: RecoveryStep): Log
    requires RecoveryEnabled(xa, log, step)
  {
    match step
    case Begins => log.(worker := Scanning(parts, {}))
    case Scans(b) =>
      log.(worker := Scanning(log.worker.todo - {b},
                              if xa.branch[b].Prepared? then log.worker.found + {b} else log.worker.found))
    case ScanFails => log.(worker := Off)
    case Scanned => log.(worker := Sending(log.worker.found, log.worker.found, None, false))
    case Resends(b) => log.(worker := log.worker.(todo := log.worker.todo - {b}, waiting := Some(b)))
    case Answered(ok) => log.(worker := log.worker.(waiting := None, failed := log.worker.failed || !ok))
    case RoundEnds(timesOut) =>
      if log.worker.found != {} && !log.worker.failed then log.(worker := Removing(true))
      else if timesOut then log.(worker := Removing(false))
      else log.(worker := Off)
    case Removes => log.(mem := None, worker := Flushing)
    case Flushes => log.(disk := log.mem, worker := Off)
  }

  /** The command the worker puts on the wire in this step, if any. */
  function Resent(xa: Xa, log: Log, step: RecoveryStep): set<(Backend, Cmd)>
    requires RecoveryEnabled(xa, log, step)
  {
    if step.Resends? then {(step.b, log.mem.value)} else {}
  }

  // ----- Crash -----------------------------------------------------------------

  /** Commands on the wire when the proxy dies: nobody will hear their replies. */
  function OnTheWire(xa: Xa): set<(Backend, Cmd)> {
    if xa.call.Phase? then set b | b in xa.call.workers && xa.call.workers[b].Sent? :: (b, xa.call.cmd) else {}
  }

  /** The proxy dies and a new one reloads the log; prepared branches survive on the backends. */
  function CrashDoes(s: State): State {
    State(s.xa.(call := NoCall, dead := true, stale := s.xa.stale + OnTheWire(s.xa)),
          Log(s.log.disk, s.log.disk, Off),
          map r | r in s.readers :: s.readers[r].(open := false),
          s.torn || InPhase(s.xa, COMMIT),
          s.history)
  }

  // ----- The machine -----------------------------------------------------------

  predicate Enabled(s: State, step: Step) {
    match step
    case OfWorker(w) => WorkerEnabled(s.xa, w)
    case OfTxn(t) => TxnEnabled(s, t)
    case OfServer(v) => ServerEnabled(s.xa, v)
    case OfReader(e) => ReadEnabled(s, e)
    case OfRecovery(y) => RecoveryEnabled(s.xa, s.log, y)
    case Crash => true
  }

  function Do(parts: set<Backend>, s: State, step: Step): State
    requires Enabled(s, step)
  {
    match step
    case OfWorker(w) => s.(xa := WorkerDoes(s.xa, w), history := s.history + WorkerSays(s.xa, w))
    case OfTxn(t) => TxnDoes(parts, s, t)
    case OfServer(v) => s.(xa := ServerDoes(s.xa, v))
    case OfReader(e) => s.(readers := ReadDoes(s, e))
    case OfRecovery(y) =>
      s.(log := RecoveryDoes(parts, s.xa, s.log, y),
         xa := s.xa.(stale := s.xa.stale + Resent(s.xa, s.log, y)),
         history := if y.Resends? then s.history + [Sends(y.b, s.log.mem.value)] else s.history)
    case Crash => CrashDoes(s)
  }

  /** The state after a schedule, or None when some step of it is not enabled. */
  function Play(parts: set<Backend>, steps: seq<Step>): Option<State> {
    if steps == [] then Some(InitState(parts))
    else
      var before := Play(parts, steps[..|steps| - 1]);
      if before.Some? && Enabled(before.value, steps[|steps| - 1])
      then Some(Do(parts, before.value, steps[|steps| - 1]))
      else None
  }
}
