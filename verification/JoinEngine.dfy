/** The three strategies of a join node, and their agreement. */
module JoinEngine {
  import opened Prelude
  import opened Sorting
  import opened Seqs
  import opened Rows
  import opened JoinSpec
  import opened JoinPool
  import opened MergeJoin

  lemma OutcomePermutes(before: seq<Row>, after: seq<Row>, e: seq<Row>, e': seq<Row>, maxrow: int, err: bool)
    requires Outcome(before, after, e, maxrow, err) && multiset(e) == multiset(e')
    ensures Outcome(before, after, e', maxrow, err)
  {
    assert |e| == |multiset(e)| && |e'| == |multiset(e')|;
  }

  // ----- Sort-merge -----------------------------------------------------------------------

  /** Sorts both inputs in place by the join keys and merges them. */
  method SortMergeJoin(lres: ResultSet, rres: ResultSet, res: ResultSet, node: JoinNode, maxrow: int)
    returns (err: bool)
    requires node.Valid() && lres != rres && lres != res && rres != res
    modifies lres, rres, res
    ensures Outcome(old(res.rows), res.rows, Join(node, old(lres.rows), old(rres.rows)), maxrow, err)
    ensures res.affected - old(res.affected) == |res.rows| - |old(res.rows)|
  {
    KeyLeIsTotalPreorder(node.leftKeys);
    KeyLeIsTotalPreorder(node.rightKeys);
    lres.rows := Sort(lres.rows, KeyLe(node.leftKeys));
    rres.rows := Sort(rres.rows, KeyLe(node.rightKeys));
    err := MergeSorted(lres.rows, rres.rows, res, node, maxrow);
    JoinPermutes(node, lres.rows, old(lres.rows), rres.rows, old(rres.rows));
    OutcomePermutes(old(res.rows), res.rows, Join(node, lres.rows, rres.rows),
      Join(node, old(lres.rows), old(rres.rows)),
                    maxrow, err);
  }

  // ----- Cartesian product ------------------------------------------------------------------

  /** The planner chooses a Cartesian product only for such a node. */
  predicate IsCartesian(node: JoinNode) {
    && node.leftKeys == [] && node.rightKeys == [] && node.cmpFilter == []
    && node.leftTmpCols == [] && node.rightTmpCols == [] && !node.isLeftJoin
  }

  lemma {:induction false} KeepsAll(keep: Row -> seq<Row>, rows: seq<Row>)
    requires forall r | r in rows :: keep(r) == [r]
    ensures FlatMap(keep, rows) == rows
  {
    if rows != [] {
      KeepsAll(keep, rows[..|rows| - 1]);
    }
  }

  /** One left row against right rows that are known to match it. */
  method AppendPairs(l: Row, answer: seq<Row>, res: ResultSet, node: JoinNode, maxrow: int) returns (err: bool)
    modifies res
    ensures Outcome(old(res.rows), res.rows, Emit(node, l, answer), maxrow, err)
    ensures res.affected - old(res.affected) == |res.rows| - |old(res.rows)|
  {
    for k := 0 to |answer|
      invariant Outcome(old(res.rows), res.rows, Emit(node, l, answer[..k]), maxrow, false)
      invariant res.affected - old(res.affected) == |res.rows| - |old(res.rows)|
    {
      EmitPrefix(node, l, answer, k);
      var ok := CheckRightNull(node, answer[k]);
      if ok {
        var row := JoinRows(l, Some(answer[k]), node.cols);
        OutcomeGrows(old(res.rows), res.rows, Emit(node, l, answer[..k]), row, maxrow);
        res.Append(row);
        if |res.rows| > maxrow {
          return true;
        }
      }
    }
    assert answer[..|answer|] == answer;
    return false;
  }

  lemma EmitPrefix(node: JoinNode, l: Row, answer: seq<Row>, k: nat)
    requires k < |answer|
    ensures Emit(node, l, answer[..k + 1]) ==
            Emit(node, l, answer[..k]) +
            (if RightIsNull(node, answer[k]) then [JoinRows(l, Some(answer[k]), node.cols)] else [])
    ensures Emit(node, l, answer) == Emit(node, l, answer[..k + 1]) + Emit(node, l, answer[k + 1..])
    ensures !RightIsNull(node, answer[k]) ==> Emit(node, l, answer[..k + 1]) == Emit(node, l, answer[..k])
  {
    assert answer[..k + 1] == answer[..k] + [answer[k]];
    EmitAppends(node, l, answer[..k], [answer[k]]);
    EmitOne(node, l, answer[k]);
    assert answer == answer[..k + 1] + answer[k + 1..];
    EmitAppends(node, l, answer[..k + 1], answer[k + 1..]);
  }

  method CartesianProduct(lrows: seq<Row>, rrows: seq<Row>, res: ResultSet, node: JoinNode, maxrow: int)
    returns (err: bool)
    requires IsCartesian(node)
    modifies res
    ensures Outcome([], res.rows, Join(node, lrows, rrows), maxrow, err)
    ensures res.affected - old(res.affected) == |res.rows|
  {
    res.rows := [];
    for i := 0 to |lrows|
      invariant Outcome([], res.rows, Join(node, lrows[..i], rrows), maxrow, false)
      invariant res.affected - old(res.affected) == |res.rows|
    {
      ghost var mid := res.rows;
      err := AppendPairs(lrows[i], rrows, res, node, maxrow);
      CartesianEmitsAll(node, lrows[i], rrows);
      RowDone(node, lrows, rrows, i, [], mid, res.rows, maxrow, err);
      if err {
        return;
      }
    }
    assert lrows[..|lrows|] == lrows;
    err := false;
  }

  lemma CartesianEmitsAll(node: JoinNode, l: Row, right: seq<Row>)
    requires IsCartesian(node)
    ensures Emit(node, l, right) == JoinOne(node, l, right)
  {
    KeepsAll(r => if Matches(node, l, r) then [r] else [], right);
    assert Partners(node, l, right) == right;
    if right == [] {
      assert Emit(node, l, right) == [] == Pad(node, l);
    }
  }

  /** Adds the result of the left row at i, as a bag; an overflow there is an overflow of the join. */
  lemma RowDone(node: JoinNode, left: seq<Row>, right: seq<Row>, i: nat,
                before: seq<Row>, mid: seq<Row>, after: seq<Row>, maxrow: int, err: bool)
    requires i < |left|
    requires Outcome(before, mid, Join(node, left[..i], right), maxrow, false)
    requires Outcome(mid, after, JoinOne(node, left[i], right), maxrow, err)
    ensures !err ==> Outcome(before, after, Join(node, left[..i + 1], right), maxrow, false)
    ensures err ==> Outcome(before, after, Join(node, left, right), maxrow, true)
  {
    var a, b, c := Join(node, left[..i], right), JoinOne(node, left[i], right), Join(node, left[i + 1..], right);
    JoinByRow(node, left, right, i);
    PartDone(before, mid, after, a, b, c, maxrow, err);
  }

  lemma JoinByRow(node: JoinNode, left: seq<Row>, right: seq<Row>, i: nat)
    requires i < |left|
    ensures Join(node, left[..i + 1], right) == Join(node, left[..i], right) + JoinOne(node, left[i], right)
    ensures Join(node, left, right) == Join(node, left[..i + 1], right) + Join(node, left[i + 1..], right)
  {
    JoinPrefix(node, left, right, i, i + 1);
    assert left[i..i + 1] == [left[i]];
    JoinOfOne(node, left[i], right);
  }

  lemma JoinOfOne(node: JoinNode, l: Row, right: seq<Row>)
    ensures Join(node, [l], right) == JoinOne(node, l, right)
  {
    var f := x => JoinOne(node, x, right);
    assert FlatMap(f, [l]) == FlatMap(f, []) + f(l);
  }

  // ----- Nested loop --------------------------------------------------------------------------

  /** The ON condition as it is pushed into the query of the right side, with the left columns bound. */
  predicate PushedDown(node: JoinNode, l: Row, r: Row) {
    && KeysMatch(node, l, r)
    && forall i | 0 <= i < |node.cmpFilter| :: FilterHolds(node.cmpFilter[i], l, r)
  }

  /** The right side, asked with the columns of l, returns exactly the rows that satisfy the query, in any order. */
  ghost predicate Answers(node: JoinNode, right: seq<Row>, answer: Row -> seq<Row>) {
    forall l :: multiset(answer(l)) == multiset(FlatMap(r => if PushedDown(node, l, r) then [r] else [], right))
  }

  lemma AnswerIsPartners(node: JoinNode, l: Row, right: seq<Row>, answer: seq<Row>)
    requires LeftAccepts(node, l)
    requires multiset(answer) == multiset(FlatMap(r => if PushedDown(node, l, r) then [r] else [], right))
    ensures answer == [] <==> Partners(node, l, right) == []
    ensures multiset(Emit(node, l, answer)) == multiset(Emit(node, l, Partners(node, l, right)))
  {
    var partners := Partners(node, l, right);
    FlatMapAgrees(r => if PushedDown(node, l, r) then [r] else [], r => if Matches(node, l, r) then [r] else [], right);
    assert multiset(answer) == multiset(partners);
    assert |answer| == |multiset(answer)| && |partners| == |multiset(partners)|;
    var emit := (r: Row) => if RightIsNull(node, r) then [JoinRows(l, Some(r), node.cols)] else [];
    FlatMapPermutes(emit, emit, answer, partners);
  }

  method NestedLoopRow(l: Row, rrows: seq<Row>, answer: Row -> seq<Row>, res: ResultSet, node: JoinNode, maxrow: int)
    returns (err: bool)
    requires Answers(node, rrows, answer)
    modifies res
    ensures Outcome(old(res.rows), res.rows, JoinOne(node, l, rrows), maxrow, err)
    ensures res.affected - old(res.affected) == |res.rows| - |old(res.rows)|
  {
    err := false;
    var matchCnt := 0;
    var leftMatch := CheckLeft(node, l);
    if leftMatch {
      var rows := answer(l);
      matchCnt := |rows|;
      AnswerIsPartners(node, l, rrows, rows);
      err := AppendPairs(l, rows, res, node, maxrow);
      if matchCnt > 0 {
        OutcomePermutes(old(res.rows), res.rows, Emit(node, l, rows), JoinOne(node, l, rrows), maxrow, err);
        return;
      }
      assert Emit(node, l, rows) == [];
    } else {
      NoPartners(node, l, rrows);
    }
    ghost var mid := res.rows;
    err := ConcatLeftAndNil([l], node, res, maxrow);
    PadOfOne(node, l);
    OutcomesCompose(old(res.rows), mid, res.rows, [], Pad(node, l), maxrow, err);
    assert [] + Pad(node, l) == Pad(node, l);
  }

  lemma PadOfOne(node: JoinNode, l: Row)
    ensures PadAll(node, [l]) == Pad(node, l)
  {
    var f := x => Pad(node, x);
    assert FlatMap(f, [l]) == FlatMap(f, []) + f(l);
  }

  method NestedLoop(lrows: seq<Row>, rrows: seq<Row>, answer: Row -> seq<Row>, res: ResultSet, node: JoinNode,
                    maxrow: int)
    returns (err: bool)
    requires Answers(node, rrows, answer)
    modifies res
    ensures Outcome(old(res.rows), res.rows, Join(node, lrows, rrows), maxrow, err)
    ensures res.affected - old(res.affected) == |res.rows| - |old(res.rows)|
  {
    for i := 0 to |lrows|
      invariant Outcome(old(res.rows), res.rows, Join(node, lrows[..i], rrows), maxrow, false)
      invariant res.affected - old(res.affected) == |res.rows| - |old(res.rows)|
    {
      ghost var mid := res.rows;
      err := NestedLoopRow(lrows[i], rrows, answer, res, node, maxrow);
      RowDone(node, lrows, rrows, i, old(res.rows), mid, res.rows, maxrow, err);
      if err {
        return;
      }
    }
    assert lrows[..|lrows|] == lrows;
    err := false;
  }

  /**
    Runs the strategies on the same rows: they fail together, when the result exceeds the limit, and
    otherwise return the same bag of rows. The product is run when the planner could choose it.
  */
  method StrategiesAgree(lrows: seq<Row>, rrows: seq<Row>, answer: Row -> seq<Row>, node: JoinNode, maxrow: int)
    returns (merged: seq<Row>, looped: seq<Row>, paired: seq<Row>, errMerge: bool, errLoop: bool, errPair: bool)
    requires node.Valid() && Answers(node, rrows, answer)
    ensures errMerge == errLoop && (!errMerge ==> multiset(merged) == multiset(looped))
    ensures IsCartesian(node) ==> errPair == errMerge && (!errPair ==> multiset(paired) == multiset(merged))
  {
    var lres := new ResultSet();
    var rres := new ResultSet();
    lres.rows, rres.rows := lrows, rrows;
    var res := new ResultSet();
    errMerge := SortMergeJoin(lres, rres, res, node, maxrow);
    merged := res.rows;
    res := new ResultSet();
    errLoop := NestedLoop(lrows, rrows, answer, res, node, maxrow);
    looped, paired, errPair := res.rows, [], false;
    if IsCartesian(node) {
      res := new ResultSet();
      errPair := CartesianProduct(lrows, rrows, res, node, maxrow);
      paired := res.rows;
    }
  }

  // ----- The join executor --------------------------------------------------------------------

  datatype Strategy = Cartesian | SortMerge | NestLoop

  /** How the planner settles the strategy of a node when it builds the query. */
  function SettleStrategy(chosen: Strategy, node: JoinNode): Strategy {
    if chosen == SortMerge && node.leftKeys == [] && node.cmpFilter == [] && !node.isLeftJoin then Cartesian else chosen
  }

  /** The executor of a join node: whatever the strategy, the result is the join of both sides. */
  method Execute(chosen: Strategy, lres: ResultSet, rres: ResultSet, answer: Row -> seq<Row>, node: JoinNode,
                 maxrow: int)
    returns (res: ResultSet, err: bool)
    requires node.Valid() && lres != rres && chosen != Cartesian
    requires chosen == NestLoop ==> Answers(node, rres.rows, answer)
    requires !node.isLeftJoin ==> node.leftTmpCols == [] && node.rightTmpCols == []
    modifies lres, rres
    ensures fresh(res)
    ensures err <==>
      |Join(node, old(lres.rows), old(rres.rows))| > maxrow && Join(node, old(lres.rows), old(rres.rows)) != []
    ensures !err ==> multiset(res.rows) == multiset(Join(node, old(lres.rows), old(rres.rows)))
  {
    res := new ResultSet();
    if SettleStrategy(chosen, node) == NestLoop {
      err := NestedLoop(lres.rows, rres.rows, answer, res, node, maxrow);
    } else if |lres.rows| == 0 {
      err := false;
    } else if |rres.rows| == 0 {
      JoinIsPadding(node, lres.rows, rres.rows);
      err := ConcatLeftAndNil(lres.rows, node, res, maxrow);
    } else if SettleStrategy(chosen, node) == SortMerge {
      err := SortMergeJoin(lres, rres, res, node, maxrow);
    } else {
      err := CartesianProduct(lres.rows, rres.rows, res, node, maxrow);
    }
  }
}
