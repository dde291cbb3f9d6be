/**
  The pool of goroutines that joins two groups of rows with equal keys, under every interleaving,
  and the padding of left rows without a partner.
*/
module JoinPool {
  import opened Prelude
  import opened Seqs
  import opened Rows
  import opened JoinSpec

  /** At most this many goroutines of one concatLeftAndRight run at the same time. */
  const JOIN_WORKERS: nat := 4

  class ResultSet {
    var rows: seq<Row>
    var affected: nat

    constructor ()
      ensures rows == [] && affected == 0
    {
      rows, affected := [], 0;
    }

    method Append(row: Row)
      modifies this
      ensures rows == old(rows) + [row] && affected == old(affected) + 1
    {
      rows, affected := rows + [row], affected + 1;
    }
  }

  /**
    What adding `expected` to the result must come to: the rows are added in some order, unless
    the limit on the size of a join result is exceeded, and then exactly that is reported.
  */
  ghost predicate Outcome(before: seq<Row>, after: seq<Row>, expected: seq<Row>, maxrow: int, err: bool) {
    && (err <==> expected != [] && |before| + |expected| > maxrow)
    && (!err ==> multiset(after) == multiset(before) + multiset(expected))
  }

  lemma OutcomesCompose(a: seq<Row>, b: seq<Row>, c: seq<Row>, e1: seq<Row>, e2: seq<Row>, maxrow: int, err: bool)
    requires Outcome(a, b, e1, maxrow, false) && Outcome(b, c, e2, maxrow, err)
    ensures Outcome(a, c, e1 + e2, maxrow, err)
  {
    assert |multiset(b)| == |multiset(a)| + |multiset(e1)|;
  }

  lemma OutcomeGrows(a: seq<Row>, b: seq<Row>, e: seq<Row>, row: Row, maxrow: int)
    requires Outcome(a, b, e, maxrow, false)
    ensures Outcome(a, b + [row], e + [row], maxrow, |b + [row]| > maxrow)
  {
    OutcomesCompose(a, b, b + [row], e, [row], maxrow, |b + [row]| > maxrow);
  }

  method ConcatLeftAndNil(lrows: seq<Row>, node: JoinNode, res: ResultSet, maxrow: int) returns (err: bool)
    modifies res
    ensures Outcome(old(res.rows), res.rows, PadAll(node, lrows), maxrow, err)
    ensures res.affected - old(res.affected) == |res.rows| - |old(res.rows)|
  {
    err := false;
    if node.isLeftJoin && !node.hasRightFilter {
      for i := 0 to |lrows|
        invariant Outcome(old(res.rows), res.rows, PadAll(node, lrows[..i]), maxrow, false)
        invariant res.affected - old(res.affected) == |res.rows| - |old(res.rows)|
      {
        OutcomeGrows(old(res.rows), res.rows, PadAll(node, lrows[..i]), JoinRows(lrows[i], None, node.cols), maxrow);
        PadAllPrefix(node, lrows, i);
        res.Append(JoinRows(lrows[i], None, node.cols));
        if |res.rows| > maxrow {
          return true;
        }
      }
      assert lrows[..|lrows|] == lrows;
    } else {
      PadAllNothing(node, lrows);
    }
  }

  // ----- The conditions of one pair of rows ------------------------------------------

  method CheckLeft(node: JoinNode, l: Row) returns (ok: bool)
    ensures ok == LeftAccepts(node, l)
  {
    for i := 0 to |node.leftTmpCols|
      invariant forall k | 0 <= k < i :: CastToBool(At(l, node.leftTmpCols[k]))
    {
      if !CastToBool(At(l, node.leftTmpCols[i])) {
        return false;
      }
    }
    return true;
  }

  method CheckRightNull(node: JoinNode, r: Row) returns (ok: bool)
    ensures ok == RightIsNull(node, r)
  {
    for i := 0 to |node.rightTmpCols|
      invariant forall k | 0 <= k < i :: At(r, node.rightTmpCols[k]).Null?
    {
      if !At(r, node.rightTmpCols[i]).Null? {
        return false;
      }
    }
    return true;
  }

  /** The comparison switch of the executor, on the result of NullsafeCompare, then the test for NULL. */
  method CheckFilters(node: JoinNode, l: Row, r: Row) returns (ok: bool)
    ensures ok == forall i | 0 <= i < |node.cmpFilter| :: FilterHolds(node.cmpFilter[i], l, r)
  {
    for i := 0 to |node.cmpFilter|
      invariant forall k | 0 <= k < i :: FilterHolds(node.cmpFilter[k], l, r)
    {
      var f := node.cmpFilter[i];
      var v1, v2 := At(l, f.left), At(r, f.right);
      if f.exchange {
        v1, v2 := v2, v1;
      }
      var cmp := NullsafeCompare(v1, v2);
      var match_ := true;
      match f.op {
        case Equal => match_ := cmp == 0;
        case LessThan => match_ := cmp == -1;
        case GreaterThan => match_ := cmp == 1;
        case LessEqual => match_ := cmp != 1;
        case GreaterEqual => match_ := cmp != -1;
        case NotEqual => match_ := cmp != 0;
        case NullSafeEqual => match_ := cmp == 0;
        case Other =>
      }
      if !match_ {
        assert !FilterHolds(f, l, r);
        return false;
      }
      if f.op != NullSafeEqual && (At(l, f.left).Null? || At(r, f.right).Null?) {
        assert !FilterHolds(f, l, r);
        return false;
      }
    }
    return true;
  }

  // ----- The pool of goroutines ---------------------------------------------------------

  /** One goroutine: not yet started, started, about to look at right row j, finished. */
  datatype Task = Waiting | Spawned | Running(j: nat, cnt: nat) | Finished

  predicate Active(t: Task) { t.Spawned? || t.Running? }

  /** `made` is what the goroutine for l has added to the result so far. */
  ghost predicate TaskHolds(node: JoinNode, l: Row, right: seq<Row>, t: Task, made: seq<Row>) {
    match t
    case Running(j, cnt) =>
      && j <= |right|
      && cnt == |Partners(node, l, right[..j])|
      && made == Emit(node, l, Partners(node, l, right[..j]))
    case Finished => made == JoinOne(node, l, right)
    case _ => made == []
  }

  function Work(size: nat, tasks: seq<Task>): nat {
    if tasks == [] then 0
    else
      Work(size, tasks[..|tasks| - 1]) + TaskWork(size, tasks[|tasks| - 1])
  }

  function TaskWork(size: nat, t: Task): nat {
    match t
    case Waiting => size + 3
    case Spawned => size + 2
    case Running(j, _) => if j <= size then size - j + 1 else 1
    case Finished => 0
  }

  function ActiveCount(tasks: seq<Task>): nat {
    if tasks == [] then 0
    else ActiveCount(tasks[..|tasks| - 1]) + (if Active(tasks[|tasks| - 1]) then 1 else 0)
  }

  lemma {:induction false} WorkShrinks(size: nat, tasks: seq<Task>, i: nat, t: Task)
    requires i < |tasks| && TaskWork(size, t) < TaskWork(size, tasks[i])
    ensures Work(size, tasks[i := t]) < Work(size, tasks)
  {
    var n := |tasks| - 1;
    if i < n {
      assert tasks[i := t][..n] == tasks[..n][i := t];
      WorkShrinks(size, tasks[..n], i, t);
    } else {
      assert tasks[i := t][..n] == tasks[..n];
    }
  }

  lemma {:induction false} ActiveCountUpdates(tasks: seq<Task>, i: nat, t: Task)
    requires i < |tasks|
    ensures ActiveCount(tasks[i := t]) ==
            ActiveCount(tasks) - (if Active(tasks[i]) then 1 else 0) + (if Active(t) then 1 else 0)
  {
    var n := |tasks| - 1;
    if i < n {
      assert tasks[i := t][..n] == tasks[..n][i := t];
      ActiveCountUpdates(tasks[..n], i, t);
    } else {
      assert tasks[i := t][..n] == tasks[..n];
    }
  }

  lemma {:induction false} NobodyActive(tasks: seq<Task>)
    requires forall i | 0 <= i < |tasks| :: !Active(tasks[i])
    ensures ActiveCount(tasks) == 0
  {
    if tasks != [] {
      NobodyActive(tasks[..|tasks| - 1]);
    }
  }

  lemma TaskMakesPart(node: JoinNode, l: Row, right: seq<Row>, t: Task, made: seq<Row>)
    requires TaskHolds(node, l, right, t, made)
    ensures |made| <= |JoinOne(node, l, right)|
  {
    if t.Running? {
      var a, b := right[..t.j], right[t.j..];
      assert right == a + b;
      PartnersAppend(node, l, a, b);
      EmitAppends(node, l, Partners(node, l, a), Partners(node, l, b));
    }
  }

  ghost predicate TasksHold(node: JoinNode, left: seq<Row>, right: seq<Row>, tasks: seq<Task>, made: seq<seq<Row>>) {
    && |tasks| == |left| == |made|
    && forall i | 0 <= i < |tasks| :: TaskHolds(node, left[i], right, tasks[i], made[i])
  }

  lemma TasksMove(node: JoinNode, left: seq<Row>, right: seq<Row>, tasks: seq<Task>, made: seq<seq<Row>>,
                  i: nat, t: Task, more: seq<Row>)
    requires TasksHold(node, left, right, tasks, made)
    requires i < |tasks| && TaskHolds(node, left[i], right, t, made[i] + more)
    ensures TasksHold(node, left, right, tasks[i := t], made[i := made[i] + more])
  {
    var tasks', made' := tasks[i := t], made[i := made[i] + more];
    forall k | 0 <= k < |tasks'| ensures TaskHolds(node, left[k], right, tasks'[k], made'[k]) {
      if k != i {
        assert tasks'[k] == tasks[k] && made'[k] == made[k];
      }
    }
  }

  /** What holds between any two steps of the goroutines. */
  ghost predicate PoolHolds(node: JoinNode, left: seq<Row>, right: seq<Row>, tasks: seq<Task>, made: seq<seq<Row>>,
                            before: seq<Row>, rows: seq<Row>, maxrow: int, err: bool) {
    && |tasks| == |left| == |made|
    && (err ==> Join(node, left, right) != [] && |before| + |Join(node, left, right)| > maxrow)
    && (!err ==>
          && TasksHold(node, left, right, tasks, made)
          && multiset(rows) == multiset(before) + multiset(Flatten(made))
          && (|rows| == |before| || |rows| <= maxrow))
  }

  /** A goroutine moves from one state to the next and adds `more` under the mutex. */
  lemma PoolMoves(node: JoinNode, left: seq<Row>, right: seq<Row>, tasks: seq<Task>, made: seq<seq<Row>>,
                  before: seq<Row>, rows: seq<Row>, maxrow: int, i: nat, t: Task, more: seq<Row>)
    requires PoolHolds(node, left, right, tasks, made, before, rows, maxrow, false)
    requires i < |tasks| && TaskHolds(node, left[i], right, t, made[i] + more)
    requires |more| <= 1
    ensures PoolHolds(node, left, right, tasks[i := t], made[i := made[i] + more], before, rows + more, maxrow,
                      more != [] && |rows + more| > maxrow)
  {
    var made' := made[i := made[i] + more];
    TasksMove(node, left, right, tasks, made, i, t, more);
    FlattenGrows(made, i, more);
    BagLength(before, rows + more, Flatten(made'));
    PoolMakesPart(node, left, right, tasks[i := t], made');
  }

  lemma BagLength(a: seq<Row>, b: seq<Row>, c: seq<Row>)
    requires multiset(b) == multiset(a) + multiset(c)
    ensures |b| == |a| + |c|
  {
    assert |multiset(b)| == |multiset(a)| + |multiset(c)|;
  }

  lemma PoolMakesPart(node: JoinNode, left: seq<Row>, right: seq<Row>, tasks: seq<Task>, made: seq<seq<Row>>)
    requires TasksHold(node, left, right, tasks, made)
    ensures |Flatten(made)| <= |Join(node, left, right)|
  {
    forall i | 0 <= i < |left| ensures |made[i]| <= |JoinOne(node, left[i], right)| {
      TaskMakesPart(node, left[i], right, tasks[i], made[i]);
    }
    FlattenIsShorter(l => JoinOne(node, l, right), left, made);
  }

  lemma PoolIsDone(node: JoinNode, left: seq<Row>, right: seq<Row>, tasks: seq<Task>, made: seq<seq<Row>>,
                   before: seq<Row>, rows: seq<Row>, maxrow: int, err: bool)
    requires PoolHolds(node, left, right, tasks, made, before, rows, maxrow, err)
    requires forall i | 0 <= i < |tasks| :: tasks[i].Finished?
    ensures Outcome(before, rows, Join(node, left, right), maxrow, err)
  {
    if !err {
      FlattenIsFlatMap(l => JoinOne(node, l, right), left, made);
      assert |multiset(rows)| == |multiset(before)| + |multiset(Join(node, left, right))|;
    }
  }

  lemma TaskStarts(node: JoinNode, l: Row, right: seq<Row>)
    ensures TaskHolds(node, l, right, Running(0, 0), [])
    ensures !LeftAccepts(node, l) ==> TaskHolds(node, l, right, Running(|right|, 0), [])
  {
    assert right[..0] == [] && right[..|right|] == right;
    if !LeftAccepts(node, l) {
      NoPartners(node, l, right);
    }
  }

  lemma TaskLooks(node: JoinNode, l: Row, right: seq<Row>, j: nat, cnt: nat, made: seq<Row>)
    requires j < |right| && TaskHolds(node, l, right, Running(j, cnt), made)
    ensures var matches := Matches(node, l, right[j]);
            TaskHolds(node, l, right, Running(j + 1, if matches then cnt + 1 else cnt),
                      made + (if matches && RightIsNull(node, right[j]) then [JoinRows(l, Some(right[j]), node.cols)]
                        else []))
  {
    PartnersPrefix(node, l, right, j);
    var before := Partners(node, l, right[..j]);
    assert before + [] == before;
    if Matches(node, l, right[j]) {
      EmitAppends(node, l, Partners(node, l, right[..j]), [right[j]]);
      EmitOne(node, l, right[j]);
    }
  }

  lemma TaskEnds(node: JoinNode, l: Row, right: seq<Row>, cnt: nat, made: seq<Row>)
    requires TaskHolds(node, l, right, Running(|right|, cnt), made)
    ensures TaskHolds(node, l, right, Finished, made + (if cnt == 0 then Pad(node, l) else []))
  {
    assert right[..|right|] == right;
  }

  /**
    One step of a goroutine. Its critical sections are single steps; `more` is what it adds. After an
    overflow the goroutine leaves its loop, `next` is where it would otherwise be.
  */
  method StepTask(l: Row, rrows: seq<Row>, node: JoinNode, res: ResultSet, maxrow: int, err: bool, t: Task,
                  ghost made: seq<Row>)
    returns (err': bool, t': Task, ghost next: Task, ghost more: seq<Row>)
    requires Active(t) && (t.Running? ==> t.j <= |rrows|)
    requires t.Running? ==> LeftAccepts(node, l) || t.j == |rrows|
    requires forall r | r in rrows :: KeysMatch(node, l, r)
    requires !err ==> TaskHolds(node, l, rrows, t, made)
    modifies res
    ensures res.rows == old(res.rows) + more && |more| <= 1 && res.affected == old(res.affected) + |more|
    ensures err ==> err' && more == []
    ensures !err ==> TaskHolds(node, l, rrows, next, made + more) && err' == (more != [] && |res.rows| > maxrow)
    ensures !err' ==> t' == next
    ensures TaskWork(|rrows|, t') < TaskWork(|rrows|, t)
    ensures t'.Finished? || (t'.Running? && t'.j <= |rrows| && (LeftAccepts(node, l) || t'.j == |rrows|))
  {
    err', more := err, [];
    assert res.rows + more == res.rows;
    if t.Spawned? {
      t' := Finished;
      if !err {
        var leftMatch := CheckLeft(node, l);
        t' := if leftMatch then Running(0, 0) else Running(|rrows|, 0);
        TaskStarts(node, l, rrows);
        assert made + more == [];
      }
    } else if t.j < |rrows| {
      var r := rrows[t.j];
      var matches := CheckFilters(node, l, r);
      var ok := CheckRightNull(node, r);
      t' := Running(t.j + 1, if matches then t.cnt + 1 else t.cnt);
      if !err {
        TaskLooks(node, l, rrows, t.j, t.cnt, made);
      }
      if matches && ok && !err {
        more := [JoinRows(l, Some(r), node.cols)];
        res.Append(JoinRows(l, Some(r), node.cols));
        err' := |res.rows| > maxrow;
      }
    } else {
      t' := Finished;
      if !err {
        TaskEnds(node, l, rrows, t.cnt, made);
      }
      if t.cnt == 0 && node.isLeftJoin && !node.hasRightFilter && !err {
        more := [JoinRows(l, None, node.cols)];
        res.Append(JoinRows(l, None, node.cols));
        err' := |res.rows| > maxrow;
      }
    }
    next := t';
    if err' && !err {
      t' := Finished;
    }
  }

  /** The pool: its tasks, the next one to start, and the number of tokens in its queue. */
  datatype Pool = Pool(tasks: seq<Task>, next: nat, active: nat, err: bool)

  predicate PoolShape(node: JoinNode, left: seq<Row>, right: seq<Row>, p: Pool) {
    && |p.tasks| == |left|
    && p.next <= |left|
    && (forall i | 0 <= i < |left| :: p.tasks[i].Waiting? <==> p.next <= i)
    && (forall i | 0 <= i < |left| && p.tasks[i].Running? ::
          p.tasks[i].j <= |right| && (LeftAccepts(node, left[i]) || p.tasks[i].j == |right|))
    && p.active == ActiveCount(p.tasks)
    && p.active <= JOIN_WORKERS
  }

  /** `p.add(1); go mathOps(lrow)` */
  function StartTask(p: Pool): Pool
    requires p.next < |p.tasks|
  {
    Pool(p.tasks[p.next := Spawned], p.next + 1, p.active + 1, p.err)
  }

  lemma StartKeepsShape(node: JoinNode, left: seq<Row>, right: seq<Row>, p: Pool)
    requires PoolShape(node, left, right, p) && p.next < |left| && p.active < JOIN_WORKERS
    ensures PoolShape(node, left, right, StartTask(p))
    ensures Work(|right|, StartTask(p).tasks) < Work(|right|, p.tasks)
  {
    ActiveCountUpdates(p.tasks, p.next, Spawned);
    WorkShrinks(|right|, p.tasks, p.next, Spawned);
  }

  lemma StartKeepsResult(node: JoinNode, left: seq<Row>, right: seq<Row>, p: Pool, made: seq<seq<Row>>,
                         before: seq<Row>, rows: seq<Row>, maxrow: int)
    requires PoolShape(node, left, right, p) && p.next < |left|
    requires PoolHolds(node, left, right, p.tasks, made, before, rows, maxrow, p.err)
    ensures PoolHolds(node, left, right, StartTask(p).tasks, made, before, rows, maxrow, p.err)
  {
    if !p.err {
      PoolMoves(node, left, right, p.tasks, made, before, rows, maxrow, p.next, Spawned, []);
      assert made[p.next := made[p.next] + []] == made && rows + [] == rows;
    }
  }

  method StepPool(i: nat, lrows: seq<Row>, rrows: seq<Row>, node: JoinNode, res: ResultSet, maxrow: int,
                  p: Pool, ghost made: seq<seq<Row>>, ghost before: seq<Row>)
    returns (p': Pool, ghost made': seq<seq<Row>>)
    requires PoolShape(node, lrows, rrows, p) && i < |lrows| && Active(p.tasks[i])
    requires PoolHolds(node, lrows, rrows, p.tasks, made, before, res.rows, maxrow, p.err)
    requires forall r | r in rrows :: KeysMatch(node, lrows[i], r)
    modifies res
    ensures PoolShape(node, lrows, rrows, p') && Work(|rrows|, p'.tasks) < Work(|rrows|, p.tasks)
    ensures PoolHolds(node, lrows, rrows, p'.tasks, made', before, res.rows, maxrow, p'.err)
    ensures res.affected - old(res.affected) == |res.rows| - |old(res.rows)|
  {
    var err, t, next, more := StepTask(lrows[i], rrows, node, res, maxrow, p.err, p.tasks[i], made[i]);
    ActiveCountUpdates(p.tasks, i, t);
    WorkShrinks(|rrows|, p.tasks, i, t);
    if !p.err {
      PoolMoves(node, lrows, rrows, p.tasks, made, before, old(res.rows), maxrow, i, next, more);
    }
    made' := made[i := made[i] + more];
    p' := Pool(p.tasks[i := t], p.next, if t.Finished? then p.active - 1 else p.active, err);
  }

  /**
    Joins a group of left rows with the right rows of the same key. The loop is the scheduler: in
    every round it lets the main goroutine start one more task, if fewer than JOIN_WORKERS are
    active, or any started task make a step, so the contract holds for every interleaving.
  */
  method ConcatLeftAndRight(lrows: seq<Row>, rrows: seq<Row>, node: JoinNode, res: ResultSet, maxrow: int)
    returns (err: bool)
    requires forall l, r | l in lrows && r in rrows :: KeysMatch(node, l, r)
    modifies res
    ensures Outcome(old(res.rows), res.rows, Join(node, lrows, rrows), maxrow, err)
    ensures res.affected - old(res.affected) == |res.rows| - |old(res.rows)|
  {
    var p := Pool(seq(|lrows|, _ => Waiting), 0, 0, false);
    ghost var made: seq<seq<Row>> := seq(|lrows|, _ => []);
    NobodyActive(p.tasks);
    FlattenNothing(made);
    while p.next < |lrows| || p.active > 0
      invariant PoolShape(node, lrows, rrows, p)
      invariant PoolHolds(node, lrows, rrows, p.tasks, made, old(res.rows), res.rows, maxrow, p.err)
      invariant res.affected - old(res.affected) == |res.rows| - |old(res.rows)|
      decreases Work(|rrows|, p.tasks)
    {
      if p.active > 0 {
        SomebodyActive(p.tasks);
      }
      if
      case p.next < |lrows| && p.active < JOIN_WORKERS =>
        StartKeepsShape(node, lrows, rrows, p);
        StartKeepsResult(node, lrows, rrows, p, made, old(res.rows), res.rows, maxrow);
        p := StartTask(p);
      case exists i :: 0 <= i < |lrows| && Active(p.tasks[i]) =>
        var i :| 0 <= i < |lrows| && Active(p.tasks[i]);
        p, made := StepPool(i, lrows, rrows, node, res, maxrow, p, made, old(res.rows));
    }
    EverybodyFinished(p.tasks);
    PoolIsDone(node, lrows, rrows, p.tasks, made, old(res.rows), res.rows, maxrow, p.err);
    err := p.err;
  }

  lemma SomebodyActive(tasks: seq<Task>)
    requires ActiveCount(tasks) > 0
    ensures exists i :: 0 <= i < |tasks| && Active(tasks[i])
  {
    if forall i | 0 <= i < |tasks| :: !Active(tasks[i]) {
      NobodyActive(tasks);
    }
  }

  lemma EverybodyFinished(tasks: seq<Task>)
    requires ActiveCount(tasks) == 0 && forall i | 0 <= i < |tasks| :: !tasks[i].Waiting?
    ensures forall i | 0 <= i < |tasks| :: tasks[i].Finished?
  {
    if tasks != [] {
      EverybodyFinished(tasks[..|tasks| - 1]);
    }
  }
}
